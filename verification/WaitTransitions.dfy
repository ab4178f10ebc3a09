/** What single events and markers do to the scheduler wait. */
module WaitTransitions {
  import opened Wrappers
  import opened EventNames
  import opened Events
  import opened EventState
  import SchedulerWait

  /** What an enabled event does to the scheduler wait. */
  function TransitionOf(e: Event): seq<SchedulerWait.Transition> {
    match e.name
    case TsWaitstart =>
      [SchedulerWait.Started(e.time.instant,
         if e.details.Some? && e.details.value.WaitStart? then e.details.value.waitEnd.instant else None)]
    case TsTargetstart | TsNewtargetstart | SequenceStarting | SequenceFinished => [SchedulerWait.Ended(e.time.instant)]
    case _ => []
  }

  lemma OneTransition(w: SchedulerWait.Wait, t: SchedulerWait.Transition)
    ensures SchedulerWait.Run(w, [t]) == SchedulerWait.Step(w, t)
  {
    assert [t][..0] == [];
    assert SchedulerWait.Run(w, []) == w;
  }

  lemma {:induction false} RunsConcat(w: SchedulerWait.Wait, a: seq<SchedulerWait.Transition>, b: seq<SchedulerWait.Transition>)
    ensures SchedulerWait.Run(w, a + b) == SchedulerWait.Run(SchedulerWait.Run(w, a), b)
  {
    if b == [] {
      assert a + b == a;
    } else {
      assert (a + b)[..|a + b| - 1] == a + b[..|b| - 1];
      RunsConcat(w, a, b[..|b| - 1]);
    }
  }

  /** The wait after `ts`, of which there is at most one. */
  function Moved(w: SchedulerWait.Wait, ts: seq<SchedulerWait.Transition>): SchedulerWait.Wait {
    if ts == [] then w else SchedulerWait.Step(w, ts[0])
  }

  lemma ApplyStepsWait(s: State, e: Event, now: int)
    ensures var (t, ok) := Apply(s, e, now);
      (if ok then t else s).scheduler.wait == Moved(s.scheduler.wait, TransitionOf(e))
  {
    if IsSequenceEvent(e.name) {
      SequenceStepsWait(s, e);
    } else if e.name.TsWaitstart? || e.name.TsTargetstart? || e.name.TsNewtargetstart? {
      SchedulerStepsWait(s, e);
    } else {
      OthersKeepWait(s, e, now);
    }
  }

  lemma SequenceStepsWait(s: State, e: Event)
    requires IsSequenceEvent(e.name)
    ensures ApplySequence(s, e).scheduler.wait == Moved(s.scheduler.wait, TransitionOf(e))
  {
  }

  lemma SchedulerStepsWait(s: State, e: Event)
    requires e.name.TsWaitstart? || e.name.TsTargetstart? || e.name.TsNewtargetstart?
    ensures var (t, ok) := ApplyScheduler(s, e);
      (if ok then t else s).scheduler.wait == Moved(s.scheduler.wait, TransitionOf(e))
  {
  }

  lemma OthersKeepWait(s: State, e: Event, now: int)
    requires !IsSequenceEvent(e.name) && !e.name.TsWaitstart? && !e.name.TsTargetstart? && !e.name.TsNewtargetstart?
    ensures Apply(s, e, now).0.scheduler.wait == s.scheduler.wait && TransitionOf(e) == []
  {
    DevicesKeepWait(s, e, now);
  }

  lemma DevicesKeepWait(s: State, e: Event, now: int)
    ensures ApplyFocuser(s, e).0.scheduler == s.scheduler && ApplyDome(s, e).scheduler == s.scheduler
    ensures ApplyFlat(s, e).scheduler == s.scheduler && ApplyWeather(s, e).scheduler == s.scheduler
    ensures ApplyOther(s, e, now).scheduler == s.scheduler
  {
  }

  lemma RevokeStepsWait(s: State, scope: Scope, at: Option<int>)
    ensures Revoke(s, scope, at).scheduler.wait == if scope.TargetScheduler? then s.scheduler.wait.ClearForPrivacy(at) else s.scheduler.wait
  {
  }
}
