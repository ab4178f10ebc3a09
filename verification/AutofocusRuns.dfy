/**
What every run of the autofocus queue keeps: one slot, a deadline no retry outlives, a paced
and bounded number of reads, and one verdict per completion.
*/
module AutofocusRuns {
  import opened Wrappers
  import opened Events
  import opened Reachability
  import opened Autofocus

  /** Anything that can happen to the queue. Routes and services may differ from poll to poll. */
  datatype Step =
    | Finished(report: Option<Stamp>, now: nat, policy: Policy)
    | Polled(config: Config, env: Env)
    | Restarted

  function Advance(m: Machine, s: Step): Machine {
    match s
    case Finished(report, now, policy) => m.Finish(report, now, policy)
    case Polled(config, env) => m.Poll(config, env)
    case Restarted => m.Restart()
  }

  function After(m: Machine, steps: seq<Step>): Machine {
    if steps == [] then m else Advance(After(m, steps[..|steps| - 1]), steps[|steps| - 1])
  }

  predicate AllPolls(steps: seq<Step>) {
    forall i :: 0 <= i < |steps| ==> steps[i].Polled?
  }

  // ----- one slot, and a deadline -----

  /** At most one delivery waits, within its attempt budget, and is due again by its deadline. */
  predicate SingleSlot(queue: seq<Delivery>) {
    && |queue| <= 1
    && (queue != [] ==> WithinLimits(queue[0]))
  }

  predicate WithinLimits(d: Delivery) {
    && d.nextAttemptAt <= d.Deadline()
    && d.attempts < Max(d.policy.maxAttempts, 1)
  }

  /** What one attempt may leave behind: the same completion, still alive, and due by its deadline. */
  predicate Requeued(d: Delivery, kept: Option<Delivery>, env: Env) {
    kept.Some? ==>
      && !d.Expired(env.later)
      && WithinLimits(kept.value)
      && kept.value.queuedAt == d.queuedAt && kept.value.policy == d.policy && kept.value.report == d.report
  }

  lemma RetryRequeues(w: World, c: Config, d: Delivery, env: Env)
    requires d.attempts <= Max(d.policy.maxAttempts, 1)
    ensures Requeued(d, Retry(w, c, d, env).1, env)
  {
  }

  lemma RetryNotReadyRequeues(w: World, c: Config, d: Delivery, env: Env)
    requires WithinLimits(d)
    ensures Requeued(d, RetryNotReady(w, c, d, env).1, env)
  {
  }

  lemma AfterReadRequeues(w: World, c: Config, d: Delivery, env: Env)
    requires WithinLimits(d)
    ensures Requeued(d, AfterRead(w, c, d, env).1, env)
  {
    RetryNotReadyRequeues(w, c, d, env);
    RetryRequeues(w, c, d.Charged(), env);
    if env.read.Report? { AfterReportRequeues(w, c, d, env.read.stamp, env.read.successful, env); }
  }

  lemma AfterReportRequeues(w: World, c: Config, d: Delivery, stamp: Stamp, successful: bool, env: Env)
    requires WithinLimits(d)
    ensures Requeued(d, AfterReport(w, c, d, stamp, successful, env).1, env)
  {
    RetryRequeues(DeliverReport(w, c, stamp, successful, env).0, c, d.Obtained().Charged(), env);
  }

  lemma AttemptRequeues(w: World, c: Config, d: Delivery, env: Env)
    requires WithinLimits(d)
    ensures Requeued(d, Attempt(w, c, d, env).1, env)
  {
    RetryRequeues(w, c, d.Obtained().Charged(), env);
    AfterReadRequeues(w.Note(ReadReport), c, d, env);
  }

  /** A poll of a single slot in its two cases. */
  lemma PollOfSlot(m: Machine, c: Config, env: Env)
    requires |m.queue| <= 1
    ensures m.queue == [] || m.queue[0].nextAttemptAt > env.now ==> m.Poll(c, env) == m
    ensures m.queue != [] && m.queue[0].nextAttemptAt <= env.now ==>
      var (world', kept) := Attempt(m.world, c, m.queue[0], env);
      m.Poll(c, env) == Machine(if kept.Some? then [kept.value] else [], world')
  {
    if m.queue != [] && m.queue[0].nextAttemptAt <= env.now {
      assert LastDue(m.queue, env.now) == Some(0);
      assert m.queue[..0] + m.queue[1..] == [];
    }
  }

  lemma AdvanceKeepsSingleSlot(m: Machine, s: Step)
    requires SingleSlot(m.queue)
    ensures SingleSlot(Advance(m, s).queue)
  {
    if s.Polled? {
      PollOfSlot(m, s.config, s.env);
      if m.queue != [] { AttemptRequeues(m.world, s.config, m.queue[0], s.env); }
    }
  }

  /** From an empty queue, the slot is single and due by its deadline after any run whatsoever. */
  lemma {:induction false} QueueHoldsAtMostOne(m: Machine, steps: seq<Step>)
    requires SingleSlot(m.queue)
    ensures SingleSlot(After(m, steps).queue)
  {
    if steps != [] {
      QueueHoldsAtMostOne(m, steps[..|steps| - 1]);
      AdvanceKeepsSingleSlot(After(m, steps[..|steps| - 1]), steps[|steps| - 1]);
    }
  }

  /** Whatever the reads and the chat do, a completion polled at its deadline leaves the queue. */
  lemma DeadlineEmptiesTheQueue(m: Machine, steps: seq<Step>, c: Config, env: Env)
    requires SingleSlot(m.queue)
    requires env.now <= env.later
    requires var queue := After(m, steps).queue; queue != [] ==> queue[0].Deadline() <= env.now
    ensures After(m, steps).Poll(c, env).queue == []
  {
    QueueHoldsAtMostOne(m, steps);
    var last := After(m, steps);
    PollOfSlot(last, c, env);
    if last.queue != [] { AttemptRequeues(last.world, c, last.queue[0], env); }
  }

  // ----- what an attempt may say -----

  datatype Kind = Reading | Graph | Fallback | Ack

  function KindOf(a: Act): Kind {
    match a
    case ReadReport => Reading
    case Sent(_, fallback, _) => if fallback then Fallback else Graph
    case SentLocally(_, fallback) => if fallback then Fallback else Graph
    case Acknowledged(_) => Ack
  }

  /** `w` grew into `w'` by acts of these kinds alone, and lost no receipt. */
  predicate Added(w: World, w': World, kinds: set<Kind>) {
    && w.receipts <= w'.receipts
    && |w.log| <= |w'.log|
    && w'.log[..|w.log|] == w.log
    && forall i :: |w.log| <= i < |w'.log| ==> KindOf(w'.log[i]) in kinds
  }

  lemma AddedChains(w: World, w': World, w'': World, first: set<Kind>, second: set<Kind>)
    requires Added(w, w', first) && Added(w', w'', second)
    ensures Added(w, w'', first + second)
  {
    assert w''.log[..|w.log|] == w''.log[..|w'.log|][..|w.log|];
    forall i | |w.log| <= i < |w''.log| ensures KindOf(w''.log[i]) in first + second {
      if i < |w'.log| { assert w''.log[i] == w''.log[..|w'.log|][i]; }
    }
  }

  lemma {:induction false} SendAllAdds(w: World, channels: seq<nat>, report: int, fallback: bool, env: Env)
    ensures Added(w, SendAll(w, channels, report, fallback, env).0, {if fallback then Fallback else Graph})
    decreases |channels|
  {
    if channels != [] {
      var outcome := OutcomeFor(env, channels[0]);
      var receipt := Receipt(channels[0], report);
      var noted := w.Note(Sent(receipt, fallback, outcome));
      var kind := {if fallback then Fallback else Graph};
      assert Added(w, noted, kind);
      match outcome
      case Rejected => SendAllAdds(w, channels[1..], report, fallback, env);
      case RecordFailed =>
      case Unrouted =>
        SendAllAdds(noted, channels[1..], report, fallback, env);
        AddedChains(w, noted, SendAll(noted, channels[1..], report, fallback, env).0, kind, kind);
      case Recorded =>
        var recorded := noted.(receipts := w.receipts + {receipt});
        SendAllAdds(recorded, channels[1..], report, fallback, env);
        AddedChains(w, recorded, SendAll(recorded, channels[1..], report, fallback, env).0, kind, kind);
    }
  }

  lemma DeliverMessageAdds(w: World, c: Config, stamp: Stamp, fallback: bool, env: Env)
    ensures Added(w, DeliverMessage(w, c, stamp, fallback, env).0, {if fallback then Fallback else Graph})
  {
    match PendingTargets(w, c, stamp, env.checkBeforeSend)
    case Channels(pending) =>
      if stamp.instant.Some? { SendAllAdds(w, pending, stamp.instant.value, fallback, env); }
    case _ =>
  }

  /** Giving up says nothing once the report was in hand. */
  lemma GiveUpAdds(w: World, c: Config, d: Delivery, env: Env)
    ensures d.reportObtained ==> GiveUp(w, c, d, env) == w
    ensures Added(w, GiveUp(w, c, d, env), {Fallback, Ack})
  {
    if !d.reportObtained && c.hasServices && d.report.Some? {
      DeliverMessageAdds(w, c, d.report.value, true, env);
      AcknowledgeAdds(w, DeliverMessage(w, c, d.report.value, true, env).0, c, d.report.value, Fallback);
    }
  }

  /** How an attempt on `d` may change the world, by what becomes of the delivery. */
  predicate Speaks(w: World, w': World, d: Delivery, kept: Option<Delivery>) {
    if kept.Some? then
      && (d.reportObtained ==> kept.value.reportObtained)
      && Added(w, w', if kept.value.reportObtained then {Reading, Graph} else {Reading})
    else
      || Added(w, w', {Reading, Graph, Ack})
      || (!d.reportObtained && Added(w, w', {Reading, Fallback, Ack}))
  }

  lemma RetriesSpeak(w: World, c: Config, d: Delivery, env: Env)
    ensures var (w', kept) := Retry(w, c, d, env); Speaks(w, w', d, kept)
    ensures var (w', kept) := RetryNotReady(w, c, d, env); Speaks(w, w', d, kept)
    ensures var (w', kept) := RetryUnavailable(w, c, d, env); Speaks(w, w', d, kept)
  {
    GiveUpAdds(w, c, d, env);
    GiveUpAdds(w, c, d.Unready(env.later), env);
  }

  lemma AcknowledgeAdds(w: World, sent: World, c: Config, stamp: Stamp, kind: Kind)
    requires Added(w, sent, {kind})
    ensures Added(w, Acknowledge(sent, c, stamp), {kind, Ack})
  {
    assert Added(sent, Acknowledge(sent, c, stamp), {Ack});
    AddedChains(w, sent, Acknowledge(sent, c, stamp), {kind}, {Ack});
    assert {kind} + {Ack} == {kind, Ack};
  }

  lemma DeliverReportAdds(w: World, c: Config, stamp: Stamp, successful: bool, env: Env)
    ensures Added(w, DeliverReport(w, c, stamp, successful, env).0, {Graph})
  {
    DeliverMessageAdds(w, c, stamp, false, env);
  }

  lemma AfterReportSpeaks(w: World, c: Config, d: Delivery, stamp: Stamp, successful: bool, env: Env)
    ensures var (w', kept) := AfterReport(w, c, d, stamp, successful, env);
      if kept.Some? then kept.value.reportObtained && Added(w, w', {Graph}) else Added(w, w', {Graph, Ack})
  {
    DeliverReportAdds(w, c, stamp, successful, env);
    var sent := DeliverReport(w, c, stamp, successful, env).0;
    AcknowledgeAdds(w, sent, c, stamp, Graph);
    GiveUpAdds(sent, c, d.Obtained().Charged(), env);
  }

  lemma AfterReadSpeaks(w: World, c: Config, d: Delivery, env: Env)
    ensures var (w', kept) := AfterRead(w, c, d, env); Speaks(w, w', d, kept)
  {
    match env.read
    case TimedOut => GiveUpAdds(w, c, d, env);
    case Report(stamp, successful) =>
      if ReportMatches(d.report, stamp) {
        AfterReportSpeaks(w, c, d, stamp, successful, env);
      } else {
        RetriesSpeak(w, c, d.Charged(), env);
      }
    case Broken => RetriesSpeak(w, c, d.Charged(), env);
    case _ => RetriesSpeak(w, c, d, env);
  }

  lemma SpeaksAfterReading(w: World, w': World, d: Delivery, kept: Option<Delivery>)
    requires Speaks(w.Note(ReadReport), w', d, kept)
    ensures Speaks(w, w', d, kept)
  {
    var reading := w.Note(ReadReport);
    assert Added(w, reading, {Reading});
    if kept.Some? {
      AddedChains(w, reading, w', {Reading}, if kept.value.reportObtained then {Reading, Graph} else {Reading});
    } else if Added(reading, w', {Reading, Graph, Ack}) {
      AddedChains(w, reading, w', {Reading}, {Reading, Graph, Ack});
    } else {
      AddedChains(w, reading, w', {Reading}, {Reading, Fallback, Ack});
    }
  }

  lemma AttemptSpeaks(w: World, c: Config, d: Delivery, env: Env)
    ensures var (w', kept) := Attempt(w, c, d, env); Speaks(w, w', d, kept)
  {
    var targets := if d.report.Some? then PendingTargets(w, c, d.report.value, env.checkBeforeRead) else Local;
    if targets == Channels([]) {
      assert Added(w, Acknowledge(w, c, d.report.value), {Ack});
    } else if targets.Failed? {
      RetriesSpeak(w, c, d.Obtained().Charged(), env);
      ObtainedSpeaks(w, Retry(w, c, d.Obtained().Charged(), env).0, d, Retry(w, c, d.Obtained().Charged(), env).1);
    } else if d.Expired(env.now) {
      GiveUpAdds(w, c, d, env);
    } else {
      AfterReadSpeaks(w.Note(ReadReport), c, d, env);
      var (w', kept) := AfterRead(w.Note(ReadReport), c, d, env);
      SpeaksAfterReading(w, w', d, kept);
    }
  }

  lemma ObtainedSpeaks(w: World, w': World, d: Delivery, kept: Option<Delivery>)
    requires Speaks(w, w', d.Obtained().Charged(), kept)
    ensures Speaks(w, w', d, kept)
  {
  }

  // ----- one verdict per completion -----

  /** Since `w`: no send before the report is in hand, then graphs only, then one kind of verdict. */
  predicate OneVerdict(w: World, m: Machine) {
    && |m.queue| <= 1
    && (if m.queue != [] then
          Added(w, m.world, if m.queue[0].reportObtained then {Reading, Graph} else {Reading})
        else
          Added(w, m.world, {Reading, Graph, Ack}) || Added(w, m.world, {Reading, Fallback, Ack}))
  }

  lemma PollKeepsOneVerdict(w: World, m: Machine, c: Config, env: Env)
    requires OneVerdict(w, m)
    ensures OneVerdict(w, m.Poll(c, env))
  {
    PollOfSlot(m, c, env);
    if m.queue != [] && m.queue[0].nextAttemptAt <= env.now {
      var (w', kept) := Attempt(m.world, c, m.queue[0], env);
      AttemptSpeaks(m.world, c, m.queue[0], env);
      VerdictGrows(w, m.world, w', m.queue[0], kept);
    }
  }

  lemma VerdictGrows(w: World, w1: World, w2: World, d: Delivery, kept: Option<Delivery>)
    requires Added(w, w1, if d.reportObtained then {Reading, Graph} else {Reading})
    requires Speaks(w1, w2, d, kept)
    ensures OneVerdict(w, Machine(if kept.Some? then [kept.value] else [], w2))
  {
    var before := if d.reportObtained then {Reading, Graph} else {Reading};
    if kept.Some? {
      var after := if kept.value.reportObtained then {Reading, Graph} else {Reading};
      AddedChains(w, w1, w2, before, after);
      assert before + after == after;
    } else if Added(w1, w2, {Reading, Graph, Ack}) {
      AddedChains(w, w1, w2, before, {Reading, Graph, Ack});
      assert before + {Reading, Graph, Ack} == {Reading, Graph, Ack};
    } else {
      AddedChains(w, w1, w2, before, {Reading, Fallback, Ack});
      assert before + {Reading, Fallback, Ack} == {Reading, Fallback, Ack};
    }
  }

  /**
  From the moment a completion is queued, however its polls go: never both a graph and the
  notice that the report is unavailable, and nothing acknowledged while it still waits.
  */
  lemma {:induction false} CompletionHasOneVerdict(
      m: Machine, report: Option<Stamp>, now: nat, policy: Policy, polls: seq<Step>)
    requires AllPolls(polls)
    ensures OneVerdict(m.world, After(m.Finish(report, now, policy), polls))
  {
    if polls != [] {
      var front := polls[..|polls| - 1];
      CompletionHasOneVerdict(m, report, now, policy, front);
      PollKeepsOneVerdict(m.world, After(m.Finish(report, now, policy), front),
                          polls[|polls| - 1].config, polls[|polls| - 1].env);
    }
  }

  // ----- paced reads -----

  function Reads(log: seq<Act>): nat {
    if log == [] then 0
    else Reads(log[..|log| - 1]) + if log[|log| - 1].ReadReport? then 1 else 0
  }

  lemma {:induction false} ReadsOfAdded(w: World, w': World, kinds: set<Kind>)
    requires Added(w, w', kinds) && Reading !in kinds
    ensures Reads(w'.log) == Reads(w.log)
    decreases |w'.log|
  {
    if |w'.log| > |w.log| {
      var front := w'.log[..|w'.log| - 1];
      assert front[..|w.log|] == w'.log[..|w.log|];
      ReadsOfAdded(w, w'.(log := front), kinds);
      assert KindOf(w'.log[|w'.log| - 1]) in kinds;
    } else {
      assert w'.log == w.log;
    }
  }

  /** An attempt reads the report at most once, and never at or past the deadline. */
  lemma AttemptReads(w: World, c: Config, d: Delivery, env: Env)
    ensures var issued := Reads(Attempt(w, c, d, env).0.log) - Reads(w.log);
      0 <= issued <= 1 && (issued == 1 ==> !d.Expired(env.now))
  {
    var reading := w.Note(ReadReport);
    assert reading.log[..|w.log|] == w.log;
    AfterReadIsQuiet(reading, c, d, env);
    GiveUpIsQuiet(w, c, d, env);
    GiveUpIsQuiet(w, c, d.Obtained().Charged(), env);
  }

  lemma GiveUpIsQuiet(w: World, c: Config, d: Delivery, env: Env)
    ensures Reads(GiveUp(w, c, d, env).log) == Reads(w.log)
  {
    GiveUpAdds(w, c, d, env);
    ReadsOfAdded(w, GiveUp(w, c, d, env), {Fallback, Ack});
  }

  lemma AfterReadIsQuiet(w: World, c: Config, d: Delivery, env: Env)
    ensures Reads(AfterRead(w, c, d, env).0.log) == Reads(w.log)
  {
    match env.read
    case NotReady =>
      GiveUpIsQuiet(w, c, d.Unready(env.later), env);
    case Broken => GiveUpIsQuiet(w, c, d.Charged(), env);
    case Report(stamp, successful) =>
      GiveUpIsQuiet(w, c, d.Charged(), env);
      AfterReportIsQuiet(w, c, d, stamp, successful, env);
    case _ => GiveUpIsQuiet(w, c, d, env);
  }

  lemma AfterReportIsQuiet(w: World, c: Config, d: Delivery, stamp: Stamp, successful: bool, env: Env)
    ensures Reads(AfterReport(w, c, d, stamp, successful, env).0.log) == Reads(w.log)
  {
    AfterReportSpeaks(w, c, d, stamp, successful, env);
    var (w', kept) := AfterReport(w, c, d, stamp, successful, env);
    ReadsOfAdded(w, w', if kept.Some? then {Graph} else {Graph, Ack});
  }

  /** The retry delay after `i` unbroken doublings, and when the read after `r` earlier ones may start. */
  function Wait(p: Policy, i: nat): nat {
    if i == 0 then p.initialDelay else BackoffDelay(Wait(p, i - 1), p.initialDelay, p.maxDelay)
  }

  function Schedule(p: Policy, r: nat): nat {
    if r == 0 then 0 else Schedule(p, r - 1) + Wait(p, r - 1)
  }

  lemma {:induction false} WaitGrows(p: Policy, i: nat)
    ensures Wait(p, i) <= Wait(p, i + 1) && Wait(p, i) <= Max(p.initialDelay, p.maxDelay)
  {
    if i > 0 { WaitGrows(p, i - 1); }
  }

  /** `d` is not due before its schedule allows read number `r + 1`, if at all. */
  predicate Paced(d: Delivery, r: nat) {
    && d.queuedAt <= d.nextAttemptAt
    && (d.notReadySince.Some? ==> d.queuedAt <= d.notReadySince.value <= d.nextAttemptAt)
    && (d.nextAttemptAt < d.Deadline() ==>
          d.nextAttemptAt >= d.queuedAt + Schedule(d.policy, r) && d.retryDelay >= Wait(d.policy, r))
  }

  predicate PacedIfKept(kept: Option<Delivery>, r: nat) { kept.Some? ==> Paced(kept.value, r) }

  /** Not due before its not-ready time is up: one more "not ready" ends it. */
  predicate Late(d: Delivery) {
    d.notReadySince.Some? && d.nextAttemptAt >= d.notReadySince.value + d.policy.notReadyTimeout
  }

  /** On schedule, or one read ahead of it because the not-ready time cut a wait short. */
  predicate NearlyPaced(d: Delivery, r: nat) {
    Paced(d, r) || (r > 0 && Late(d) && Paced(d, r - 1))
  }

  predicate NearlyPacedIfKept(kept: Option<Delivery>, r: nat) { kept.Some? ==> NearlyPaced(kept.value, r) }

  lemma RetryPaces(w: World, c: Config, d: Delivery, env: Env, r: nat)
    requires Paced(d, r) && d.nextAttemptAt <= env.now <= env.later
    ensures PacedIfKept(Retry(w, c, d, env).1, r + 1)
    ensures Late(d) && Retry(w, c, d, env).1.Some? ==> Late(Retry(w, c, d, env).1.value)
  {
    WaitGrows(d.policy, r);
  }

  lemma RetryUnavailablePaces(w: World, c: Config, d: Delivery, env: Env, r: nat)
    requires Paced(d, r) && d.nextAttemptAt <= env.now <= env.later
    ensures PacedIfKept(RetryUnavailable(w, c, d, env).1, r + 1)
    ensures Late(d) && RetryUnavailable(w, c, d, env).1.Some? ==> Late(RetryUnavailable(w, c, d, env).1.value)
  {
    WaitGrows(d.policy, r);
  }

  /** A wait for the report keeps the schedule, or ends exactly when the not-ready time is up. */
  lemma RetryNotReadyPaces(w: World, c: Config, d: Delivery, env: Env, r: nat)
    requires Paced(d, r) && d.nextAttemptAt <= env.now <= env.later
    ensures NearlyPacedIfKept(RetryNotReady(w, c, d, env).1, r + 1)
    ensures Late(d) ==> RetryNotReady(w, c, d, env).1.None?
  {
    WaitGrows(d.policy, r);
  }

  lemma RetriesNearlyPace(w: World, c: Config, d: Delivery, env: Env, r: nat)
    requires NearlyPaced(d, r) && d.nextAttemptAt <= env.now <= env.later
    ensures NearlyPacedIfKept(Retry(w, c, d, env).1, r + 1)
    ensures NearlyPacedIfKept(RetryUnavailable(w, c, d, env).1, r + 1)
    ensures NearlyPacedIfKept(RetryNotReady(w, c, d, env).1, r + 1)
  {
    var q := if Paced(d, r) then r else r - 1;
    RetryPaces(w, c, d, env, q);
    RetryUnavailablePaces(w, c, d, env, q);
    RetryNotReadyPaces(w, c, d, env, q);
  }

  lemma ChargingKeepsPace(d: Delivery, r: nat)
    requires NearlyPaced(d, r)
    ensures NearlyPaced(d.Charged(), r) && NearlyPaced(d.Obtained().Charged(), r)
  {
  }

  lemma AfterReportPaces(w: World, c: Config, d: Delivery, stamp: Stamp, successful: bool, env: Env, r: nat)
    requires NearlyPaced(d, r) && d.nextAttemptAt <= env.now <= env.later
    ensures NearlyPacedIfKept(AfterReport(w, c, d, stamp, successful, env).1, r + 1)
  {
    ChargingKeepsPace(d, r);
    RetriesNearlyPace(DeliverReport(w, c, stamp, successful, env).0, c, d.Obtained().Charged(), env, r);
  }

  lemma AfterReadPaces(w: World, c: Config, d: Delivery, env: Env, r: nat)
    requires NearlyPaced(d, r) && d.nextAttemptAt <= env.now <= env.later
    ensures NearlyPacedIfKept(AfterRead(w, c, d, env).1, r + 1)
  {
    ChargingKeepsPace(d, r);
    match env.read
    case TimedOut =>
    case Broken => RetriesNearlyPace(w, c, d.Charged(), env, r);
    case Report(stamp, successful) =>
      RetriesNearlyPace(w, c, d.Charged(), env, r);
      AfterReportPaces(w, c, d, stamp, successful, env, r);
    case _ => RetriesNearlyPace(w, c, d, env, r);
  }

  lemma AttemptPaces(w: World, c: Config, d: Delivery, env: Env, r: nat)
    requires NearlyPaced(d, r) && d.nextAttemptAt <= env.now <= env.later
    ensures NearlyPacedIfKept(Attempt(w, c, d, env).1, r + 1)
  {
    ChargingKeepsPace(d, r);
    RetriesNearlyPace(w, c, d.Obtained().Charged(), env, r);
    AfterReadPaces(w.Note(ReadReport), c, d, env, r);
  }

  /** The clock does not run backwards within a poll. */
  predicate ForwardPolls(polls: seq<Step>) {
    AllPolls(polls) && forall i :: 0 <= i < |polls| ==> polls[i].env.now <= polls[i].env.later
  }

  /** The one read by which a not-ready time shorter than the whole window can run ahead. */
  function Ahead(p: Policy): nat { if p.notReadyTimeout >= p.overallTimeout then 0 else 1 }

  predicate OnSchedule(p: Policy, issued: int, queue: seq<Delivery>) {
    && issued >= 0
    && |queue| <= 1
    && (issued > Ahead(p) ==> Schedule(p, issued - 1 - Ahead(p)) < p.overallTimeout)
    && (queue != [] ==> queue[0].policy == p && WithinLimits(queue[0]) && NearlyPaced(queue[0], issued))
  }

  /** `OnSchedule` for the reads issued since `w`. */
  predicate Scheduled(w: World, m: Machine, p: Policy) {
    OnSchedule(p, Reads(m.world.log) - Reads(w.log), m.queue)
  }

  lemma PollKeepsSchedule(w: World, m: Machine, c: Config, env: Env, p: Policy)
    requires Scheduled(w, m, p) && env.now <= env.later
    ensures Scheduled(w, m.Poll(c, env), p)
  {
    PollOfSlot(m, c, env);
    if m.queue != [] && m.queue[0].nextAttemptAt <= env.now {
      AttemptKeepsSchedule(w, m, c, env, p);
    }
  }

  lemma AttemptKeepsSchedule(w: World, m: Machine, c: Config, env: Env, p: Policy)
    requires Scheduled(w, m, p) && m.queue != [] && m.queue[0].nextAttemptAt <= env.now <= env.later
    ensures var (w', kept) := Attempt(m.world, c, m.queue[0], env);
      Scheduled(w, Machine(if kept.Some? then [kept.value] else [], w'), p)
  {
    var (w', kept) := Attempt(m.world, c, m.queue[0], env);
    AttemptFits(m.world, c, m.queue[0], env, Reads(m.world.log) - Reads(w.log));
    ScheduleAdvances(w, m, env.now, w', kept, p);
  }

  /** What an attempt does to the schedule, in one place. */
  predicate Fits(d: Delivery, now: nat, kept: Option<Delivery>, issued: nat, more: int) {
    && 0 <= more <= 1 && (more == 1 ==> !d.Expired(now))
    && NearlyPacedIfKept(kept, issued + 1)
    && (kept.Some? ==> WithinLimits(kept.value) && kept.value.policy == d.policy)
  }

  lemma AttemptFits(w: World, c: Config, d: Delivery, env: Env, issued: nat)
    requires WithinLimits(d) && NearlyPaced(d, issued) && d.nextAttemptAt <= env.now <= env.later
    ensures var (w', kept) := Attempt(w, c, d, env); Fits(d, env.now, kept, issued, Reads(w'.log) - Reads(w.log))
  {
    AttemptReads(w, c, d, env);
    AttemptPaces(w, c, d, env, issued);
    AttemptRequeues(w, c, d, env);
  }

  lemma ScheduleAdvances(w: World, m: Machine, now: nat, w': World, kept: Option<Delivery>, p: Policy)
    requires Scheduled(w, m, p) && m.queue != [] && m.queue[0].nextAttemptAt <= now
    requires Fits(m.queue[0], now, kept, Reads(m.world.log) - Reads(w.log), Reads(w'.log) - Reads(m.world.log))
    ensures Scheduled(w, Machine(if kept.Some? then [kept.value] else [], w'), p)
  {
    var issued := Reads(m.world.log) - Reads(w.log);
    if kept.Some? { NearlyPacedSooner(kept.value, issued); }
    if Reads(w'.log) > Reads(m.world.log) { ReadIsInTime(m.queue[0], issued, now); }
  }

  lemma PacedSooner(d: Delivery, r: nat)
    requires Paced(d, r + 1)
    ensures Paced(d, r)
  {
    WaitGrows(d.policy, r);
  }

  lemma NearlyPacedSooner(d: Delivery, r: nat)
    requires NearlyPaced(d, r + 1)
    ensures NearlyPaced(d, r)
  {
    if Paced(d, r + 1) { PacedSooner(d, r); }
  }

  lemma ReadIsInTime(d: Delivery, issued: nat, now: nat)
    requires NearlyPaced(d, issued) && d.nextAttemptAt <= now && !d.Expired(now)
    ensures issued + 1 > Ahead(d.policy) ==> Schedule(d.policy, issued - Ahead(d.policy)) < d.policy.overallTimeout
  {
    if issued > 0 { assert Schedule(d.policy, issued - 1) <= Schedule(d.policy, issued); }
  }

  /**
  Reads of one completion keep to the backoff schedule in any mix of outcomes and under any
  policy: the last one, or the last but one where the not-ready time is the shorter of the two,
  is scheduled before the deadline, so their number is bounded by the schedule alone.
  */
  lemma {:induction false} ReadsAreBounded(
      m: Machine, report: Option<Stamp>, now: nat, policy: Policy, polls: seq<Step>)
    requires ForwardPolls(polls)
    ensures Scheduled(m.world, After(m.Finish(report, now, policy), polls), policy)
  {
    if polls != [] {
      var front, last := polls[..|polls| - 1], polls[|polls| - 1];
      ReadsAreBounded(m, report, now, policy, front);
      assert last.Polled? && last.env.now <= last.env.later;
      PollKeepsSchedule(m.world, After(m.Finish(report, now, policy), front), last.config, last.env, policy);
    } else {
      JustQueued(m, report, now, policy);
    }
  }

  lemma JustQueued(m: Machine, report: Option<Stamp>, now: nat, policy: Policy)
    ensures Scheduled(m.world, m.Finish(report, now, policy), policy)
  {
  }

  /** Under the default policy the waits are 1, 2 and 4 seconds and then 8 each. */
  lemma {:induction false} DefaultSchedule(r: nat)
    requires r >= 4
    ensures Wait(DEFAULT, r) == 8 * SECOND
    ensures Schedule(DEFAULT, r) == (15 + 8 * (r - 4)) * SECOND
  {
    if r == 4 {
      var p := DEFAULT;
      assert Wait(p, 0) == SECOND && Schedule(p, 1) == SECOND;
      assert Wait(p, 1) == 2 * SECOND && Schedule(p, 2) == 3 * SECOND;
      assert Wait(p, 2) == 4 * SECOND && Schedule(p, 3) == 7 * SECOND;
      assert Wait(p, 3) == 8 * SECOND && Schedule(p, 4) == 15 * SECOND;
    } else {
      DefaultSchedule(r - 1);
    }
  }

  lemma DefaultReadsAtMostEighteenTimes(m: Machine, report: Option<Stamp>, now: nat, polls: seq<Step>)
    requires ForwardPolls(polls)
    ensures Reads(After(m.Finish(report, now, DEFAULT), polls).world.log) - Reads(m.world.log) <= 18
  {
    ReadsAreBounded(m, report, now, DEFAULT, polls);
    var issued := Reads(After(m.Finish(report, now, DEFAULT), polls).world.log) - Reads(m.world.log);
    if issued > 18 { DefaultSchedule(issued - 1); }
  }

  // ----- the bound is reached -----

  function NotReadyAt(now: nat): Env {
    Env(now, now, NotReady, true, true, true, {}, {}, {}, true)
  }

  /** What `k` punctual reads leave of a completion queued at `start`, and of the world. */
  function PunctualDelivery(p: Policy, start: nat, k: nat): Delivery {
    Delivery(None, 0, start, if k == 0 then None else Some(start), start + Min(Schedule(p, k), p.overallTimeout),
             Wait(p, k), p, false)
  }

  function ReadTimes(w: World, k: nat): (w': World)
    ensures Reads(w'.log) == Reads(w.log) + k
  {
    if k == 0 then w
    else
      var before := ReadTimes(w, k - 1);
      assert (before.log + [ReadReport])[..|before.log|] == before.log;
      before.Note(ReadReport)
  }

  function PunctualMachine(w: World, p: Policy, start: nat, k: nat): Machine {
    Machine([PunctualDelivery(p, start, k)], ReadTimes(w, k))
  }

  /** An unexpired completion without a named report goes straight to the read. */
  lemma NotReadyAttempt(w: World, c: Config, d: Delivery, env: Env)
    requires d.report.None? && !d.Expired(env.now) && env.read.NotReady?
    ensures Attempt(w, c, d, env) == RetryNotReady(w.Note(ReadReport), c, d, env)
  {
  }

  lemma PunctualRetry(w: World, c: Config, p: Policy, start: nat, k: nat, env: Env)
    requires p.notReadyTimeout >= p.overallTimeout > Schedule(p, k)
    requires env.later == start + Schedule(p, k)
    ensures RetryNotReady(w, c, PunctualDelivery(p, start, k), env) == (w, Some(PunctualDelivery(p, start, k + 1)))
  {
  }

  lemma PunctualPoll(w: World, c: Config, p: Policy, start: nat, k: nat, env: Env)
    requires p.notReadyTimeout >= p.overallTimeout > Schedule(p, k)
    requires env.now == env.later == start + Schedule(p, k) && env.read.NotReady?
    ensures Machine([PunctualDelivery(p, start, k)], w).Poll(c, env)
         == Machine([PunctualDelivery(p, start, k + 1)], w.Note(ReadReport))
  {
    var d := PunctualDelivery(p, start, k);
    NotReadyAttempt(w, c, d, env);
    PunctualRetry(w.Note(ReadReport), c, p, start, k, env);
    PollOfSlot(Machine([d], w), c, env);
  }

  /**
  Every read the schedule allows can happen: polled exactly when each read falls due, and finding
  no report, a completion goes from `k` reads to `k + 1` for as long as the next starts in time.
  */
  lemma ScheduleIsAttained(m: Machine, c: Config, p: Policy, start: nat, k: nat)
    requires p.notReadyTimeout >= p.overallTimeout > Schedule(p, k)
    ensures Advance(PunctualMachine(m.world, p, start, k), PunctualStep(c, p, start, k)) == PunctualMachine(m.world, p, start, k + 1)
  {
    PunctualPoll(ReadTimes(m.world, k), c, p, start, k, NotReadyAt(start + Schedule(p, k)));
  }

  // ----- and by a whole run -----

  /** `states` are what the steps lead through. */
  ghost predicate Traces(states: seq<Machine>, steps: seq<Step>) {
    |states| == |steps| + 1 && forall i, j :: 0 <= i && j == i + 1 < |states| ==> states[j] == Advance(states[i], steps[i])
  }

  lemma {:induction false} TraceEndsAfter(states: seq<Machine>, steps: seq<Step>)
    requires Traces(states, steps)
    ensures After(states[0], steps) == states[|steps|]
    decreases |steps|
  {
    if steps != [] {
      var n := |steps| - 1;
      TraceEndsAfter(states[..n + 1], steps[..n]);
      assert states[n + 1] == Advance(states[n], steps[n]);
    }
  }

  function PunctualStep(c: Config, p: Policy, start: nat, k: nat): Step {
    Polled(c, NotReadyAt(start + Schedule(p, k)))
  }

  lemma PunctualTrace(m: Machine, c: Config, p: Policy, start: nat, k: nat) returns (states: seq<Machine>, polls: seq<Step>)
    requires p.notReadyTimeout >= p.overallTimeout
    requires forall i :: 0 <= i < k ==> Schedule(p, i) < p.overallTimeout
    ensures |polls| == k && Traces(states, polls) && ForwardPolls(polls)
    ensures states[0] == m.Finish(None, start, p) && Reads(states[k].world.log) == Reads(m.world.log) + k
  {
    states := seq(k + 1, i requires 0 <= i <= k => PunctualMachine(m.world, p, start, i));
    polls := seq(k, i requires 0 <= i < k => PunctualStep(c, p, start, i));
    forall i, j | 0 <= i && j == i + 1 < |states| ensures states[j] == Advance(states[i], polls[i]) {
      ScheduleIsAttained(m, c, p, start, i);
    }
  }

  /** Some run of polls after a completion reads exactly `k` times, for every `k` the schedule allows. */
  lemma SomeRunReads(m: Machine, c: Config, p: Policy, start: nat, k: nat) returns (polls: seq<Step>)
    requires p.notReadyTimeout >= p.overallTimeout
    requires forall i :: 0 <= i < k ==> Schedule(p, i) < p.overallTimeout
    ensures ForwardPolls(polls)
    ensures Reads(After(m.Finish(None, start, p), polls).world.log) == Reads(m.world.log) + k
  {
    var states;
    states, polls := PunctualTrace(m, c, p, start, k);
    TraceEndsAfter(states, polls);
  }

  /** The default policy's bound is met exactly: some run reads eighteen times. */
  lemma DefaultReachesEighteen(m: Machine, c: Config, start: nat) returns (polls: seq<Step>)
    ensures ForwardPolls(polls)
    ensures Reads(After(m.Finish(None, start, DEFAULT), polls).world.log) == Reads(m.world.log) + 18
  {
    forall i | 0 <= i < 18 ensures Schedule(DEFAULT, i) < DEFAULT.overallTimeout {
      DefaultInTime(i);
    }
    polls := SomeRunReads(m, c, DEFAULT, start, 18);
  }

  /** Under the default policy exactly the first eighteen reads start in time. */
  lemma DefaultInTime(k: nat)
    ensures Schedule(DEFAULT, k) < DEFAULT.overallTimeout <==> k < 18
  {
    if k >= 4 {
      DefaultSchedule(k);
    } else {
      ScheduleGrows(DEFAULT, k, 4);
      DefaultSchedule(4);
    }
  }

  lemma {:induction false} ScheduleGrows(p: Policy, i: nat, j: nat)
    requires i <= j
    ensures Schedule(p, i) <= Schedule(p, j)
  {
    if i < j { ScheduleGrows(p, i, j - 1); }
  }
}
