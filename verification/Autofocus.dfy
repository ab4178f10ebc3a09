/**
Delivery of autofocus reports: a single-slot retry queue with an attempt budget, two
deadlines and exponential backoff, and durable per-channel receipts.

One poll is one step. Whatever the environment decides is a parameter of the step: the
clock, the outcome of the report read, of each store access and of each send.
*/
module Autofocus {
  import opened Wrappers
  import opened Text
  import opened Events
  import opened Reachability

  const SECOND: nat := 1_000_000_000
  const MILLISECOND: nat := 1_000_000

  datatype Policy = Policy(
    maxAttempts: nat, initialDelay: nat, maxDelay: nat, notReadyTimeout: nat, overallTimeout: nat)

  const DEFAULT: Policy := Policy(5, SECOND, 8 * SECOND, 120 * SECOND, 120 * SECOND)

  /** A completion whose report is still to be delivered. */
  datatype Delivery = Delivery(
    report: Option<Stamp>, attempts: nat, queuedAt: nat, notReadySince: Option<nat>,
    nextAttemptAt: nat, retryDelay: nat, policy: Policy, reportObtained: bool)
  {
    function Elapsed(now: nat): nat { Max(now - queuedAt, 0) }

    predicate Expired(now: nat) { Elapsed(now) >= policy.overallTimeout }

    function Remaining(now: nat): nat { Max(policy.overallTimeout - Elapsed(now), 0) }

    function Deadline(): nat { queuedAt + policy.overallTimeout }

    /** One more attempt spent. */
    function Charged(): Delivery { this.(attempts := attempts + 1) }

    /** Not ready at `now`, and since when. */
    function Unready(now: nat): Delivery {
      if notReadySince.Some? then this else this.(notReadySince := Some(now))
    }

    function Obtained(): Delivery { this.(reportObtained := true) }
  }

  function Queued(report: Option<Stamp>, now: nat, policy: Policy): Delivery {
    Delivery(report, 0, now, None, now, policy.initialDelay, policy, false)
  }

  // ----- the outside -----

  datatype SendOutcome =
    | Rejected
    | RecordFailed    // accepted, but writing the receipt failed
    | Unrouted        // accepted, but without a route the write is a no-op
    | Recorded        // accepted, and its receipt persisted

  datatype Read = TimedOut | Unavailable | NotReady | Broken | Report(stamp: Stamp, successful: bool)

  /**
  One poll's clock readings, store accesses and report read; `later` is read after the report.
  The sets are the channels that accept a message, whose receipt the store manages to write, and
  that still have a route when it does.
  */
  datatype Env = Env(
    now: nat, later: nat, read: Read,
    checkBeforeRead: bool, checkBeforeBuild: bool, checkBeforeSend: bool,
    accepting: set<nat>, writable: set<nat>, routed: set<nat>, localSend: bool)

  /** Where reports go. Without a store the updater runs locally and keeps no receipts. */
  datatype Config = Config(
    hub: bool, primary: Option<nat>, others: seq<nat>, hasServices: bool, acknowledges: bool)
  {
    function Channels(): seq<nat> {
      Deduplicated((if primary.Some? then [primary.value] else []) + others)
    }
  }

  /** Where `c` first appears. */
  function FirstAt(channels: seq<nat>, c: nat): (i: nat)
    requires c in channels
    ensures i < |channels| && channels[i] == c && c !in channels[..i]
  {
    var n := |channels| - 1;
    assert channels == channels[..n] + [channels[n]];
    if c in channels[..n] then
      var i := FirstAt(channels[..n], c);
      assert channels[..n][..i] == channels[..i];
      i
    else n
  }

  /** Each channel once, in order of first appearance. */
  function Deduplicated(channels: seq<nat>): (distinct: seq<nat>)
    ensures forall c :: c in distinct <==> c in channels
    ensures forall i, j :: 0 <= i < j < |distinct| ==> FirstAt(channels, distinct[i]) < FirstAt(channels, distinct[j])
  {
    if channels == [] then []
    else
      var front, last := Deduplicated(channels[..|channels| - 1]), channels[|channels| - 1];
      assert channels == channels[..|channels| - 1] + [last];
      if last in front then front else front + [last]
  }

  /** A receipt names a channel and a report instant. */
  datatype Receipt = Receipt(channel: nat, report: int)

  datatype Act =
    | ReadReport
    | Sent(receipt: Receipt, fallback: bool, outcome: SendOutcome)
    | SentLocally(accepted: bool, fallback: bool)
    | Acknowledged(stamp: Stamp)

  datatype World = World(receipts: set<Receipt>, log: seq<Act>) {
    function Note(a: Act): World { this.(log := log + [a]) }
  }

  // ----- sending -----

  datatype Targets = Failed | Local | Channels(pending: seq<nat>)

  function Missing(receipts: set<Receipt>, channels: seq<nat>, report: int): seq<nat> {
    if channels == [] then []
    else Missing(receipts, channels[..|channels| - 1], report)
         + if Receipt(channels[|channels| - 1], report) in receipts then [] else [channels[|channels| - 1]]
  }

  /** The channels still without a receipt; a report whose time does not parse has no identity. */
  function PendingTargets(w: World, c: Config, stamp: Stamp, checked: bool): Targets {
    if !c.hub then Local
    else if stamp.instant.None? || (!checked && c.Channels() != []) then Failed
    else Channels(Missing(w.receipts, c.Channels(), stamp.instant.value))
  }

  /** A receipt is written only for a channel with a route; without one the write does nothing. */
  function OutcomeFor(env: Env, channel: nat): SendOutcome {
    if channel !in env.accepting then Rejected
    else if channel !in env.writable then RecordFailed
    else if channel !in env.routed then Unrouted
    else Recorded
  }

  datatype Outcome = Complete | Incomplete | Error

  /** Sends to each channel in turn. A receipt that cannot be written stops the rest. */
  function SendAll(w: World, channels: seq<nat>, report: int, fallback: bool, env: Env): (World, Outcome)
    decreases |channels|
  {
    if channels == [] then (w, Complete)
    else
      var outcome := OutcomeFor(env, channels[0]);
      var receipt := Receipt(channels[0], report);
      match outcome
      case Rejected =>
        (SendAll(w, channels[1..], report, fallback, env).0, Error)
      case RecordFailed => (w.Note(Sent(receipt, fallback, outcome)), Error)
      case Unrouted => SendAll(w.Note(Sent(receipt, fallback, outcome)), channels[1..], report, fallback, env)
      case Recorded =>
        SendAll(w.Note(Sent(receipt, fallback, outcome)).(receipts := w.receipts + {receipt}),
                channels[1..], report, fallback, env)
  }

  function DeliverMessage(w: World, c: Config, stamp: Stamp, fallback: bool, env: Env): (World, Outcome) {
    match PendingTargets(w, c, stamp, env.checkBeforeSend)
    case Failed => (w, Error)
    case Local => (w.Note(SentLocally(env.localSend, fallback)), if env.localSend then Complete else Incomplete)
    case Channels(pending) =>
      if stamp.instant.None? then (w, Error) else SendAll(w, pending, stamp.instant.value, fallback, env)
  }

  function Acknowledge(w: World, c: Config, stamp: Stamp): World {
    if c.acknowledges then w.Note(Acknowledged(stamp)) else w
  }

  function DeliverReport(w: World, c: Config, stamp: Stamp, successful: bool, env: Env): (World, Outcome) {
    match PendingTargets(w, c, stamp, env.checkBeforeBuild)
    case Failed => (w, Error)
    case Channels(pending) =>
      if pending == [] then (w, Complete)
      else if !successful then (w, Error) else DeliverMessage(w, c, stamp, false, env)
    case Local => if !successful then (w, Error) else DeliverMessage(w, c, stamp, false, env)
  }

  /** The terminal notice, unless the report was in hand and only chat failed. */
  function GiveUp(w: World, c: Config, d: Delivery, env: Env): World {
    if d.reportObtained || !c.hasServices then w
    else if d.report.None? then w.Note(SentLocally(env.localSend, true))
    else
      var (sent, delivered) := DeliverMessage(w, c, d.report.value, true, env);
      if delivered.Complete? then Acknowledge(sent, c, d.report.value) else sent
  }

  // ----- retrying -----

  /** Rejected, malformed or undeliverable: costs an attempt. */
  function Retry(w: World, c: Config, d: Delivery, env: Env): (World, Option<Delivery>) {
    if d.attempts >= Max(d.policy.maxAttempts, 1) || d.Expired(env.later) then (GiveUp(w, c, d, env), None)
    else
      var delay := Min(d.retryDelay, d.Remaining(env.later));
      (w, Some(d.(nextAttemptAt := env.later + delay,
                  retryDelay := BackoffDelay(delay, d.policy.initialDelay, d.policy.maxDelay))))
  }

  /** Not published yet: free of charge, but only for so long. */
  function RetryNotReady(w: World, c: Config, d0: Delivery, env: Env): (World, Option<Delivery>) {
    var d := d0.Unready(env.later);
    var waited := Max(env.later - d.notReadySince.value, 0);
    if waited >= d.policy.notReadyTimeout || d.Expired(env.later) then (GiveUp(w, c, d, env), None)
    else
      var delay := Min(Min(d.retryDelay, Max(d.policy.notReadyTimeout - waited, 0)), d.Remaining(env.later));
      (w, Some(d.(nextAttemptAt := env.later + delay,
                  retryDelay := BackoffDelay(d.retryDelay, d.policy.initialDelay, d.policy.maxDelay))))
  }

  /** The rig is unreachable: says nothing about the report. */
  function RetryUnavailable(w: World, c: Config, d: Delivery, env: Env): (World, Option<Delivery>) {
    if d.Expired(env.later) then (GiveUp(w, c, d, env), None)
    else
      var initial := Max(d.policy.initialDelay, MILLISECOND);
      var delay := Min(Max(d.retryDelay, initial), d.Remaining(env.later));
      (w, Some(d.(nextAttemptAt := env.later + delay,
                  retryDelay := BackoffDelay(delay, initial, d.policy.maxDelay))))
  }

  /** A legacy completion names no report; otherwise the exact one is required. */
  predicate ReportMatches(expected: Option<Stamp>, actual: Stamp) {
    expected.None?
    || (if expected.value.instant.Some? && actual.instant.Some? then expected.value.instant == actual.instant
        else Trim(expected.value.text) == Trim(actual.text))
  }

  function AfterRead(w: World, c: Config, d: Delivery, env: Env): (World, Option<Delivery>) {
    match env.read
    case TimedOut => (GiveUp(w, c, d, env), None)
    case Unavailable => RetryUnavailable(w, c, d, env)
    case NotReady => RetryNotReady(w, c, d, env)
    case Broken => Retry(w, c, d.Charged(), env)
    case Report(stamp, successful) =>
      if ReportMatches(d.report, stamp) then AfterReport(w, c, d, stamp, successful, env)
      else Retry(w, c, d.Charged(), env)
  }

  /** With the completion's own report in hand. */
  function AfterReport(w: World, c: Config, d: Delivery, stamp: Stamp, successful: bool, env: Env)
    : (World, Option<Delivery>)
  {
    var (sent, delivered) := DeliverReport(w, c, stamp, successful, env);
    match delivered
    case Complete => (Acknowledge(sent, c, stamp), None)
    case Incomplete => (sent, None)
    case Error => Retry(sent, c, d.Obtained().Charged(), env)
  }

  /** One due delivery. */
  function Attempt(w: World, c: Config, d: Delivery, env: Env): (World, Option<Delivery>) {
    var targets := if d.report.Some? then PendingTargets(w, c, d.report.value, env.checkBeforeRead) else Local;
    if targets == Channels([]) then (Acknowledge(w, c, d.report.value), None)
    else if targets.Failed? then Retry(w, c, d.Obtained().Charged(), env)
    else if d.Expired(env.now) then (GiveUp(w, c, d, env), None)
    else AfterRead(w.Note(ReadReport), c, d, env)
  }

  // ----- the queue -----

  datatype Machine = Machine(queue: seq<Delivery>, world: World) {
    /** A newer completion replaces whatever was waiting. */
    function Finish(report: Option<Stamp>, now: nat, policy: Policy): Machine {
      this.(queue := [Queued(report, now, policy)])
    }

    function Poll(c: Config, env: Env): Machine {
      var index := LastDue(queue, env.now);
      if index.None? then this
      else
        var (world', kept) := Attempt(world, c, queue[index.value], env);
        var rest := queue[..index.value] + queue[index.value + 1..];
        Machine(if kept.Some? then rest + [kept.value] else rest, world')
    }

    /** The updater starts over; receipts survive it. */
    function Restart(): Machine { this.(queue := []) }
  }

  /** The last queued delivery whose next attempt is due. */
  function LastDue(queue: seq<Delivery>, now: nat): (index: Option<nat>)
    ensures index.Some? ==> index.value < |queue| && queue[index.value].nextAttemptAt <= now
    ensures index.None? ==> forall i :: 0 <= i < |queue| ==> queue[i].nextAttemptAt > now
  {
    if queue == [] then None
    else if queue[|queue| - 1].nextAttemptAt <= now then Some(|queue| - 1)
    else LastDue(queue[..|queue| - 1], now)
  }
}
