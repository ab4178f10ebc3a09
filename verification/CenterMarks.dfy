/** The center mark is one field: the reconstructed status and the reconciler see it alike. */
module CenterMarks {
  import opened Wrappers
  import opened EventNames
  import opened Events
  import opened EventState
  import Reconciler

  /** The status and the reconciler keep one mark: events set it alike. */
  lemma AppliedCenterMark(s: State, r: Reconciler.State, e: Event, now: int)
    requires s.mount.centerSeenAt == r.centerSeenAt
    ensures Apply(s, e, now).0.mount.centerSeenAt == (if e.name.MountCenter? then r.NoteCenter(now) else r).centerSeenAt
  {
    if IsSequenceEvent(e.name) {
      SequenceKeepsMount(s, e);
    } else if IsDomeEvent(e.name) {
      DomeKeepsMount(s, e);
    } else if IsFlatEvent(e.name) || IsWeatherEvent(e.name) {
      FlatAndWeatherKeepMount(s, e);
    } else {
      OtherMark(s, e, now);
    }
  }

  lemma SequenceKeepsMount(s: State, e: Event)
    ensures ApplySequence(s, e).mount == s.mount
  {
  }

  lemma DomeKeepsMount(s: State, e: Event)
    ensures ApplyDome(s, e).mount == s.mount
  {
  }

  lemma FlatAndWeatherKeepMount(s: State, e: Event)
    ensures ApplyFlat(s, e).mount == s.mount && ApplyWeather(s, e).mount == s.mount
  {
  }

  lemma OtherMark(s: State, e: Event, now: int)
    ensures ApplyOther(s, e, now).mount.centerSeenAt == if e.name.MountCenter? then Some(now) else s.mount.centerSeenAt
    ensures ApplyScheduler(s, e).0.mount == s.mount && ApplyFocuser(s, e).0.mount == s.mount
  {
  }

  /** And privacy markers clear it alike. */
  lemma RevokedCenterMark(s: State, r: Reconciler.State, scope: Scope, at: Option<int>)
    requires s.mount.centerSeenAt == r.centerSeenAt
    ensures Revoke(s, scope, at).mount.centerSeenAt == r.Revoke(scope).centerSeenAt
  {
  }
}
