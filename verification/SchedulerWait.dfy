/**
The Target Scheduler wait: a register written by wait announcements, cleared by
terminal events and by privacy revocations, and ordered by a watermark so that delayed
history cannot overwrite newer state.
*/
module SchedulerWait {
  import opened Wrappers

  /** The planned end of the wait, if one is known, and the newest transition applied. */
  datatype Wait = Wait(end: Option<int>, latest: Option<int>) {
    /** An undated transition never displaces state whose ordering is known. */
    predicate Accepts(at: Option<int>) {
      latest.None? || (at.Some? && at.value >= latest.value)
    }

    function Advance(at: Option<int>): Wait {
      if at.Some? then this.(latest := at) else this
    }

    /** A wait announced at `at`; the planned end may be missing or unreadable. */
    function Record(at: Option<int>, plan: Option<int>): (Wait, bool) {
      if Accepts(at) then (Advance(at).(end := plan), true) else (this, false)
    }

    function ClearAt(at: Option<int>): Wait {
      if at.None? then this.(end := None)
      else if Accepts(at) then Advance(at).(end := None)
      else this
    }

    function ClearForPrivacy(at: Option<int>): Wait {
      var cleared := this.(end := None);
      if at.Some? && (latest.None? || at.value > latest.value) then cleared.Advance(at) else cleared
    }
  }

  datatype Transition =
    | Started(at: Option<int>, plan: Option<int>)
    | Ended(at: Option<int>)
    | Revoked(at: Option<int>)

  function Step(w: Wait, t: Transition): Wait {
    match t
    case Started(at, plan) => w.Record(at, plan).0
    case Ended(at) => w.ClearAt(at)
    case Revoked(at) => w.ClearForPrivacy(at)
  }

  function Run(w: Wait, ts: seq<Transition>): Wait {
    if ts == [] then w else Step(Run(w, ts[..|ts| - 1]), ts[|ts| - 1])
  }

  // ----- last writer wins -----

  /** Enabled transitions with readable times, and one transition per instant. */
  predicate Dated(ts: seq<Transition>) {
    && (forall i :: 0 <= i < |ts| ==> !ts[i].Revoked? && ts[i].at.Some?)
    && (forall i, j :: 0 <= i < |ts| && 0 <= j < |ts| && ts[i].at == ts[j].at ==> ts[i] == ts[j])
  }

  /** `t` is the newest of `ts`. */
  predicate IsNewest(ts: seq<Transition>, t: Transition)
    requires Dated(ts)
  {
    t in ts && forall i :: 0 <= i < |ts| ==> ts[i].at.value <= t.at.value
  }

  function Written(t: Transition): Option<int> {
    if t.Started? then t.plan else None
  }

  /**
  However often and in whatever order history is delivered, the register holds what its
  newest transition wrote, unless the watermark was already past it.
  */
  lemma {:induction false} LastWriterWins(w: Wait, ts: seq<Transition>, t: Transition)
    requires Dated(ts) && IsNewest(ts, t)
    ensures Run(w, ts) == if w.Accepts(t.at) then Wait(Written(t), t.at) else w
  {
    var front, last := ts[..|ts| - 1], ts[|ts| - 1];
    if front == [] {
      assert t == last;
    } else {
      var f := Newest(front);
      LastWriterWins(w, front, f);
      NewestOfBoth(ts, f, t);
    }
  }

  lemma {:induction false} NewestOfBoth(ts: seq<Transition>, f: Transition, t: Transition)
    requires Dated(ts) && IsNewest(ts, t) && |ts| > 1 && IsNewest(ts[..|ts| - 1], f)
    ensures t == if ts[|ts| - 1].at.value >= f.at.value then ts[|ts| - 1] else f
  {
    var front, last := ts[..|ts| - 1], ts[|ts| - 1];
    var i :| 0 <= i < |ts| && ts[i] == t;
    var j :| 0 <= j < |front| && front[j] == f;
    assert ts[j] == f;
    assert i < |front| ==> front[i] == t;
  }

  lemma {:induction false} Newest(ts: seq<Transition>) returns (t: Transition)
    requires Dated(ts) && ts != []
    ensures IsNewest(ts, t)
  {
    if |ts| == 1 {
      t := ts[0];
    } else {
      var front, last := ts[..|ts| - 1], ts[|ts| - 1];
      t := Newest(front);
      if last.at.value > t.at.value {
        t := last;
      }
    }
  }

  /** Permuting or redelivering the same history makes no difference. */
  lemma {:induction false} OrderAndRedeliveryDoNotMatter(w: Wait, ts: seq<Transition>, us: seq<Transition>)
    requires Dated(ts) && Dated(us)
    requires forall t :: t in ts <==> t in us
    ensures Run(w, ts) == Run(w, us)
  {
    assert us != [] ==> us[0] in us;
    if ts != [] {
      var t := Newest(ts);
      forall i | 0 <= i < |us| ensures us[i].at.value <= t.at.value {
        assert us[i] in us;
      }
      LastWriterWins(w, ts, t);
      LastWriterWins(w, us, t);
    }
  }

  // ----- nothing comes back -----

  /** The watermark never moves back, whatever arrives, privacy clears included. */
  lemma {:induction false} WatermarkNeverDecreases(w: Wait, ts: seq<Transition>)
    ensures w.latest.Some? ==> Run(w, ts).latest.Some? && Run(w, ts).latest.value >= w.latest.value
  {
    if ts != [] {
      WatermarkNeverDecreases(w, ts[..|ts| - 1]);
    }
  }

  /** After a revocation a wait is announced again exactly by news no older than it, or than what it followed. */
  lemma NewsAfterRevocation(w: Wait, revokedAt: Option<int>, at: Option<int>, plan: Option<int>)
    ensures var r := w.ClearForPrivacy(revokedAt);
      && r.end == None
      && (r.Record(at, plan).1 <==>
            || (w.latest.None? && revokedAt.None?)
            || (at.Some? && (w.latest.Some? ==> at.value >= w.latest.value)
                         && (revokedAt.Some? ==> at.value >= revokedAt.value)))
  {
  }

  /** Enabled history from before a dated revocation cannot resurrect the redacted wait. */
  lemma {:induction false} OlderHistoryStaysRedacted(w: Wait, revokedAt: int, ts: seq<Transition>)
    requires forall i :: 0 <= i < |ts| ==> ts[i].at.Some? ==> ts[i].at.value < revokedAt || ts[i].Revoked?
    ensures Run(w.ClearForPrivacy(Some(revokedAt)), ts).end == None
    ensures Run(w.ClearForPrivacy(Some(revokedAt)), ts).latest.Some?
    ensures Run(w.ClearForPrivacy(Some(revokedAt)), ts).latest.value >= revokedAt
  {
    if ts != [] {
      OlderHistoryStaysRedacted(w, revokedAt, ts[..|ts| - 1]);
    }
  }

  /** The two fields of the updater's state, written in place. */
  class WaitRegister {
    var schedulerWait: Option<int>
    var latestAt: Option<int>

    function View(): Wait
      reads this
    {
      Wait(schedulerWait, latestAt)
    }

    constructor ()
      ensures View() == Wait(None, None)
    {
      schedulerWait, latestAt := None, None;
    }

    method AcceptTransition(at: Option<int>) returns (ok: bool)
      modifies this`latestAt
      ensures ok == old(View()).Accepts(at)
      ensures View() == if ok then old(View()).Advance(at) else old(View())
    {
      if latestAt.Some? && at.Some? && at.value < latestAt.value {
        return false;
      }
      if latestAt.Some? && at.None? {
        return false;
      }
      if at.Some? {
        latestAt := at;
      }
      return true;
    }

    method RecordSchedulerWait(at: Option<int>, plan: Option<int>) returns (ok: bool)
      modifies this
      ensures (View(), ok) == old(View()).Record(at, plan)
    {
      ok := AcceptTransition(at);
      if ok {
        schedulerWait := plan;
      }
    }

    method ClearSchedulerWaitsAt(at: Option<int>)
      modifies this
      ensures View() == old(View()).ClearAt(at)
    {
      if at.None? {
        schedulerWait := None;
        return;
      }
      var ok := AcceptTransition(at);
      if ok {
        schedulerWait := None;
      }
    }

    method ClearSchedulerWaitsForPrivacy(at: Option<int>)
      modifies this
      ensures View() == old(View()).ClearForPrivacy(at)
    {
      schedulerWait := None;
      if at.Some? && (latestAt.None? || at.value > latestAt.value) {
        latestAt := at;
      }
    }
  }
}
