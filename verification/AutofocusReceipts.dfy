/**
Durable receipts: over any run of a hub updater, restarts included, what was sent to a
channel, what the store remembers and what the rig is told agree.
*/
module AutofocusReceipts {
  import opened Wrappers
  import opened Events
  import opened Autofocus
  import opened AutofocusRuns

  // ----- the log as a ledger -----

  /** The receipts that the recorded sends of a log leave behind. */
  function ReceiptsOf(initial: set<Receipt>, log: seq<Act>): set<Receipt> {
    if log == [] then initial
    else
      var last := log[|log| - 1];
      ReceiptsOf(initial, log[..|log| - 1]) + if last.Sent? && last.outcome.Recorded? then {last.receipt} else {}
  }

  /** Nothing is sent where a receipt was already held. */
  predicate Honest(initial: set<Receipt>, log: seq<Act>) {
    forall i :: 0 <= i < |log| && log[i].Sent? ==> log[i].receipt !in ReceiptsOf(initial, log[..i])
  }

  predicate Ledgered(initial: set<Receipt>, w: World) {
    w.receipts == ReceiptsOf(initial, w.log) && Honest(initial, w.log)
  }

  lemma NoteKeepsLedger(initial: set<Receipt>, w: World, a: Act)
    requires Ledgered(initial, w)
    requires a.Sent? ==> a.receipt !in w.receipts
    ensures Ledgered(initial, World(w.receipts + if a.Sent? && a.outcome.Recorded? then {a.receipt} else {}, w.log + [a]))
  {
    assert (w.log + [a])[..|w.log|] == w.log;
    HonestGrows(initial, w.log, a);
  }

  lemma HonestGrows(initial: set<Receipt>, log: seq<Act>, a: Act)
    requires Honest(initial, log)
    requires a.Sent? ==> a.receipt !in ReceiptsOf(initial, log)
    ensures Honest(initial, log + [a])
  {
    var longer := log + [a];
    forall i | 0 <= i < |longer| && longer[i].Sent? ensures longer[i].receipt !in ReceiptsOf(initial, longer[..i]) {
      assert longer[..i] == log[..i];
      if i == |log| { assert log[..i] == log; } else { assert longer[i] == log[i]; }
    }
  }

  /** Distinct channels, none of them holding a receipt for the report. */
  ghost predicate Unreceipted(receipts: set<Receipt>, channels: seq<nat>, report: int) {
    Distinct(channels) && forall ch :: ch in channels ==> Receipt(ch, report) !in receipts
  }

  lemma {:induction false} MissingIsUnreceipted(receipts: set<Receipt>, channels: seq<nat>, report: int)
    requires Distinct(channels)
    ensures Unreceipted(receipts, Missing(receipts, channels, report), report)
    ensures forall ch :: ch in Missing(receipts, channels, report) <==> ch in channels && Receipt(ch, report) !in receipts
  {
    if channels != [] {
      var front := channels[..|channels| - 1];
      assert channels == front + [channels[|channels| - 1]];
      MissingIsUnreceipted(receipts, front, report);
    }
  }

  /** After one send the rest of the channels are still unreceipted, and the world ledgered. */
  lemma OneSendKeepsLedger(initial: set<Receipt>, w: World, channels: seq<nat>, report: int, fallback: bool, outcome: SendOutcome)
    requires Ledgered(initial, w) && Unreceipted(w.receipts, channels, report) && channels != []
    ensures var receipt := Receipt(channels[0], report);
      var receipts := w.receipts + if outcome.Recorded? then {receipt} else {};
      && Unreceipted(receipts, channels[1..], report)
      && Ledgered(initial, World(receipts, w.log + [Sent(receipt, fallback, outcome)]))
  {
    NoteKeepsLedger(initial, w, Sent(Receipt(channels[0], report), fallback, outcome));
    assert forall ch :: ch in channels[1..] ==> ch != channels[0];
  }

  lemma {:induction false} SendAllKeepsLedger(
      initial: set<Receipt>, w: World, channels: seq<nat>, report: int, fallback: bool, env: Env)
    requires Ledgered(initial, w) && Unreceipted(w.receipts, channels, report)
    ensures Ledgered(initial, SendAll(w, channels, report, fallback, env).0)
    decreases |channels|
  {
    if channels != [] {
      var outcome := OutcomeFor(env, channels[0]);
      var receipt := Receipt(channels[0], report);
      OneSendKeepsLedger(initial, w, channels, report, fallback, outcome);
      assert w.receipts + {} == w.receipts;
      var noted := w.Note(Sent(receipt, fallback, outcome));
      match outcome
      case Rejected => SendAllKeepsLedger(initial, w, channels[1..], report, fallback, env);
      case RecordFailed =>
      case Unrouted => SendAllKeepsLedger(initial, noted, channels[1..], report, fallback, env);
      case Recorded =>
        SendAllKeepsLedger(initial, noted.(receipts := w.receipts + {receipt}), channels[1..], report, fallback, env);
    }
  }

  lemma DeliverMessageKeepsLedger(
      initial: set<Receipt>, w: World, c: Config, stamp: Stamp, fallback: bool, env: Env)
    requires Ledgered(initial, w) && c.hub
    ensures Ledgered(initial, DeliverMessage(w, c, stamp, fallback, env).0)
  {
    if stamp.instant.Some? {
      MissingIsUnreceipted(w.receipts, c.Channels(), stamp.instant.value);
      SendAllKeepsLedger(initial, w, Missing(w.receipts, c.Channels(), stamp.instant.value), stamp.instant.value, fallback, env);
    }
  }

  lemma UnsentKeepsLedger(initial: set<Receipt>, w: World, a: Act)
    requires Ledgered(initial, w) && !a.Sent?
    ensures Ledgered(initial, w.Note(a))
  {
    NoteKeepsLedger(initial, w, a);
    assert w.receipts + {} == w.receipts;
  }

  lemma GiveUpKeepsLedger(initial: set<Receipt>, w: World, c: Config, d: Delivery, env: Env)
    requires Ledgered(initial, w) && c.hub
    ensures Ledgered(initial, GiveUp(w, c, d, env))
  {
    if d.report.None? {
      UnsentKeepsLedger(initial, w, SentLocally(env.localSend, true));
    } else {
      DeliverMessageKeepsLedger(initial, w, c, d.report.value, true, env);
      UnsentKeepsLedger(initial, DeliverMessage(w, c, d.report.value, true, env).0, Acknowledged(d.report.value));
    }
  }

  lemma RetriesKeepLedger(initial: set<Receipt>, w: World, c: Config, d: Delivery, env: Env)
    requires Ledgered(initial, w) && c.hub
    ensures Ledgered(initial, Retry(w, c, d, env).0)
    ensures Ledgered(initial, RetryNotReady(w, c, d, env).0)
    ensures Ledgered(initial, RetryUnavailable(w, c, d, env).0)
  {
    GiveUpKeepsLedger(initial, w, c, d, env);
    GiveUpKeepsLedger(initial, w, c, d.Unready(env.later), env);
  }

  lemma AfterReportKeepsLedger(
      initial: set<Receipt>, w: World, c: Config, d: Delivery, stamp: Stamp, successful: bool, env: Env)
    requires Ledgered(initial, w) && c.hub
    ensures Ledgered(initial, AfterReport(w, c, d, stamp, successful, env).0)
  {
    DeliverMessageKeepsLedger(initial, w, c, stamp, false, env);
    var sent := DeliverReport(w, c, stamp, successful, env).0;
    UnsentKeepsLedger(initial, sent, Acknowledged(stamp));
    RetriesKeepLedger(initial, sent, c, d.Obtained().Charged(), env);
  }

  lemma AfterReadKeepsLedger(initial: set<Receipt>, w: World, c: Config, d: Delivery, env: Env)
    requires Ledgered(initial, w) && c.hub
    ensures Ledgered(initial, AfterRead(w, c, d, env).0)
  {
    match env.read
    case TimedOut => GiveUpKeepsLedger(initial, w, c, d, env);
    case Report(stamp, successful) =>
      AfterReportKeepsLedger(initial, w, c, d, stamp, successful, env);
      RetriesKeepLedger(initial, w, c, d.Charged(), env);
    case Broken => RetriesKeepLedger(initial, w, c, d.Charged(), env);
    case _ => RetriesKeepLedger(initial, w, c, d, env);
  }

  lemma AttemptKeepsLedger(initial: set<Receipt>, w: World, c: Config, d: Delivery, env: Env)
    requires Ledgered(initial, w) && c.hub
    ensures Ledgered(initial, Attempt(w, c, d, env).0)
  {
    if d.report.Some? { UnsentKeepsLedger(initial, w, Acknowledged(d.report.value)); }
    GiveUpKeepsLedger(initial, w, c, d, env);
    RetriesKeepLedger(initial, w, c, d.Obtained().Charged(), env);
    UnsentKeepsLedger(initial, w, ReadReport);
    AfterReadKeepsLedger(initial, w.Note(ReadReport), c, d, env);
  }

  predicate HubRun(steps: seq<Step>) {
    forall i :: 0 <= i < |steps| && steps[i].Polled? ==> steps[i].config.hub
  }

  /**
  Over any run, with restarts, changing routes, failed sends and failing stores, the receipts are
  exactly the initial ones and those of recorded sends, and no send repeats a receipted one.
  */
  lemma {:induction false} RunsKeepTheLedger(initial: set<Receipt>, m: Machine, steps: seq<Step>)
    requires HubRun(steps) && Ledgered(initial, m.world)
    ensures Ledgered(initial, After(m, steps).world)
  {
    if steps != [] {
      var front := steps[..|steps| - 1];
      RunsKeepTheLedger(initial, m, front);
      var before := After(m, front);
      var last := steps[|steps| - 1];
      if last.Polled? {
        var index := LastDue(before.queue, last.env.now);
        if index.Some? { AttemptKeepsLedger(initial, before.world, last.config, before.queue[index.value], last.env); }
      }
    }
  }

  // ----- how often a channel hears of a report -----

  /** Accepted sends for a receipt, and those of them whose receipt was not written. */
  function Accepted(log: seq<Act>, r: Receipt): nat {
    if log == [] then 0
    else
      var last := log[|log| - 1];
      Accepted(log[..|log| - 1], r) + if last.Sent? && last.receipt == r then 1 else 0
  }

  function Unrecorded(log: seq<Act>, r: Receipt): nat {
    if log == [] then 0
    else
      var last := log[|log| - 1];
      Unrecorded(log[..|log| - 1], r) + if last.Sent? && last.receipt == r && !last.outcome.Recorded? then 1 else 0
  }

  lemma {:induction false} LedgerCounts(initial: set<Receipt>, log: seq<Act>, r: Receipt)
    requires Honest(initial, log)
    ensures r in initial ==> Accepted(log, r) == 0 && r in ReceiptsOf(initial, log)
    ensures Accepted(log, r)
         == Unrecorded(log, r) + if r in ReceiptsOf(initial, log) && r !in initial then 1 else 0
  {
    if log != [] {
      var front := log[..|log| - 1];
      forall i | 0 <= i < |front| && front[i].Sent? ensures front[i].receipt !in ReceiptsOf(initial, front[..i]) {
        assert front[..i] == log[..i] && log[i].Sent?;
      }
      LedgerCounts(initial, front, r);
    }
  }

  /**
  Each channel hears of a report once per unwritten receipt plus at most once more, and never
  again once it holds the receipt; so with every receipt written, at most once.
  */
  lemma EachChannelHearsOnce(m: Machine, steps: seq<Step>, r: Receipt)
    requires HubRun(steps) && m.world.log == []
    ensures var end := After(m, steps).world;
      && Accepted(end.log, r)
         == Unrecorded(end.log, r) + (if r in end.receipts && r !in m.world.receipts then 1 else 0)
      && (r in m.world.receipts ==> Accepted(end.log, r) == 0)
      && (Unrecorded(end.log, r) == 0 ==> Accepted(end.log, r) <= 1)
  {
    RunsKeepTheLedger(m.world.receipts, m, steps);
    LedgerCounts(m.world.receipts, After(m, steps).world.log, r);
  }

  // ----- a store that cannot be read -----

  predicate NothingSent(w: World, w': World) {
    && w'.receipts == w.receipts
    && |w.log| <= |w'.log| && w'.log[..|w.log|] == w.log
    && forall i :: |w.log| <= i < |w'.log| ==> !w'.log[i].Sent?
  }

  lemma GiveUpSendsNothing(w: World, c: Config, d: Delivery, env: Env)
    requires c.hub && c.Channels() != [] && !env.checkBeforeSend
    ensures NothingSent(w, GiveUp(w, c, d, env))
  {
  }

  lemma RetriesSendNothing(w: World, c: Config, d: Delivery, env: Env)
    requires c.hub && c.Channels() != [] && !env.checkBeforeSend
    ensures NothingSent(w, Retry(w, c, d, env).0)
    ensures NothingSent(w, RetryNotReady(w, c, d, env).0)
    ensures NothingSent(w, RetryUnavailable(w, c, d, env).0)
  {
    GiveUpSendsNothing(w, c, d, env);
    GiveUpSendsNothing(w, c, d.Unready(env.later), env);
  }

  lemma AfterReportSendsNothing(w: World, c: Config, d: Delivery, stamp: Stamp, successful: bool, env: Env)
    requires c.hub && c.Channels() != [] && !env.checkBeforeSend
    ensures NothingSent(w, AfterReport(w, c, d, stamp, successful, env).0)
  {
    assert DeliverReport(w, c, stamp, successful, env).0 == w;
    RetriesSendNothing(w, c, d.Obtained().Charged(), env);
  }

  lemma AfterReadSendsNothing(w: World, c: Config, d: Delivery, env: Env)
    requires c.hub && c.Channels() != [] && !env.checkBeforeSend
    ensures NothingSent(w, AfterRead(w, c, d, env).0)
  {
    match env.read
    case TimedOut => GiveUpSendsNothing(w, c, d, env);
    case Broken => RetriesSendNothing(w, c, d.Charged(), env);
    case Report(stamp, successful) =>
      RetriesSendNothing(w, c, d.Charged(), env);
      AfterReportSendsNothing(w, c, d, stamp, successful, env);
    case _ => RetriesSendNothing(w, c, d, env);
  }

  /** A store that cannot be read before the report stops the whole attempt. */
  lemma StoreErrorReadsNothing(w: World, c: Config, d: Delivery, env: Env)
    requires c.hub && c.Channels() != [] && d.report.Some? && !env.checkBeforeRead
    ensures Attempt(w, c, d, env).0 == w
  {
    assert PendingTargets(w, c, d.report.value, env.checkBeforeRead) == Failed;
    assert Retry(w, c, d.Obtained().Charged(), env).0 == w;
  }

  /** A store that cannot be read before the send stops every receipted message. */
  lemma StoreErrorSendsNothing(w: World, c: Config, d: Delivery, env: Env)
    requires c.hub && c.Channels() != [] && !env.checkBeforeSend
    ensures NothingSent(w, Attempt(w, c, d, env).0)
  {
    RetriesSendNothing(w, c, d.Obtained().Charged(), env);
    GiveUpSendsNothing(w, c, d, env);
    AfterReadSendsNothing(w.Note(ReadReport), c, d, env);
    NothingSentAfterReading(w, AfterRead(w.Note(ReadReport), c, d, env).0);
  }

  lemma NothingSentAfterReading(w: World, w': World)
    requires NothingSent(w.Note(ReadReport), w')
    ensures NothingSent(w, w')
  {
    var n := |w.log|;
    assert w'.log[..n] == w'.log[..n + 1][..n];
    assert w'.log[n] == w'.log[..n + 1][n];
  }

  /** Once the report is read, an unreadable store stops graph and notice alike. */
  lemma StoreErrorAfterReadSendsNothing(w: World, c: Config, d: Delivery, env: Env)
    requires c.hub && c.Channels() != [] && !env.checkBeforeBuild
    requires env.read.Report? && ReportMatches(d.report, env.read.stamp)
    ensures AfterRead(w, c, d, env).0 == w
  {
    assert DeliverReport(w, c, env.read.stamp, env.read.successful, env) == (w, Error);
  }

  // ----- what an acknowledgement vouches for -----

  /** Every configured channel holds its receipt, except where a route vanished under an accepted send. */
  predicate Backed(before: set<Receipt>, after: set<Receipt>, c: Config, env: Env, stamp: Stamp) {
    stamp.instant.Some?
    && forall ch :: ch in c.Channels() ==>
         var receipt := Receipt(ch, stamp.instant.value);
         receipt in after <==> receipt in before || ch in env.routed
  }

  predicate AcksBacked(w: World, w': World, c: Config, env: Env) {
    && |w.log| <= |w'.log| && w'.log[..|w.log|] == w.log
    && forall i :: |w.log| <= i < |w'.log| && w'.log[i].Acknowledged? ==>
         Backed(w.receipts, w'.receipts, c, env, w'.log[i].stamp)
  }

  /** A complete pass was accepted everywhere, and recorded wherever the route still stood. */
  lemma {:induction false} CompletePass(
      w: World, channels: seq<nat>, report: int, fallback: bool, env: Env, ch: nat)
    requires SendAll(w, channels, report, fallback, env).1.Complete?
    ensures ch in channels ==> OutcomeFor(env, ch).Recorded? || OutcomeFor(env, ch).Unrouted?
    ensures Receipt(ch, report) in SendAll(w, channels, report, fallback, env).0.receipts
       <==> Receipt(ch, report) in w.receipts || (ch in channels && OutcomeFor(env, ch).Recorded?)
    decreases |channels|
  {
    if channels != [] {
      var receipt := Receipt(channels[0], report);
      var noted := w.Note(Sent(receipt, fallback, OutcomeFor(env, channels[0])));
      if OutcomeFor(env, channels[0]).Unrouted? {
        CompletePass(noted, channels[1..], report, fallback, env, ch);
      } else {
        CompletePass(noted.(receipts := w.receipts + {receipt}), channels[1..], report, fallback, env, ch);
      }
    }
  }

  lemma CompleteMessageIsBacked(w: World, c: Config, stamp: Stamp, fallback: bool, env: Env)
    requires c.hub && DeliverMessage(w, c, stamp, fallback, env).1.Complete?
    ensures Backed(w.receipts, DeliverMessage(w, c, stamp, fallback, env).0.receipts, c, env, stamp)
  {
    var pending := Missing(w.receipts, c.Channels(), stamp.instant.value);
    MissingIsUnreceipted(w.receipts, c.Channels(), stamp.instant.value);
    forall ch | ch in c.Channels()
      ensures var receipt := Receipt(ch, stamp.instant.value);
        receipt in DeliverMessage(w, c, stamp, fallback, env).0.receipts
        <==> receipt in w.receipts || ch in env.routed
    {
      CompletePass(w, pending, stamp.instant.value, fallback, env, ch);
    }
  }

  lemma FullyReceiptedIsBacked(w: World, c: Config, stamp: Stamp, checked: bool, env: Env)
    requires c.hub && PendingTargets(w, c, stamp, checked) == Channels([])
    ensures Backed(w.receipts, w.receipts, c, env, stamp)
  {
    MissingIsUnreceipted(w.receipts, c.Channels(), stamp.instant.value);
  }

  lemma AcknowledgeIsBacked(w: World, sent: World, c: Config, stamp: Stamp, env: Env, kinds: set<Kind>)
    requires Added(w, sent, kinds) && Ack !in kinds
    requires Backed(w.receipts, sent.receipts, c, env, stamp)
    ensures AcksBacked(w, Acknowledge(sent, c, stamp), c, env)
  {
  }

  lemma GiveUpIsBacked(w: World, c: Config, d: Delivery, env: Env)
    requires c.hub
    ensures AcksBacked(w, GiveUp(w, c, d, env), c, env)
  {
    if !d.reportObtained && c.hasServices && d.report.Some? {
      var (sent, delivered) := DeliverMessage(w, c, d.report.value, true, env);
      DeliverMessageAdds(w, c, d.report.value, true, env);
      if delivered.Complete? {
        CompleteMessageIsBacked(w, c, d.report.value, true, env);
        AcknowledgeIsBacked(w, sent, c, d.report.value, env, {Fallback});
      }
    }
  }

  /** A report delivered everywhere, now or before. */
  lemma CompleteReportIsBacked(w: World, c: Config, stamp: Stamp, successful: bool, env: Env)
    requires c.hub && DeliverReport(w, c, stamp, successful, env).1.Complete?
    ensures Backed(w.receipts, DeliverReport(w, c, stamp, successful, env).0.receipts, c, env, stamp)
  {
    if PendingTargets(w, c, stamp, env.checkBeforeBuild) == Channels([]) {
      FullyReceiptedIsBacked(w, c, stamp, env.checkBeforeBuild, env);
    } else {
      CompleteMessageIsBacked(w, c, stamp, false, env);
    }
  }

  lemma UnacknowledgedIsBacked(w: World, sent: World, c: Config, env: Env, kinds: set<Kind>)
    requires Added(w, sent, kinds) && Ack !in kinds
    ensures AcksBacked(w, sent, c, env)
  {
  }

  lemma AfterReportIsBacked(w: World, c: Config, d: Delivery, stamp: Stamp, successful: bool, env: Env)
    requires c.hub
    ensures AcksBacked(w, AfterReport(w, c, d, stamp, successful, env).0, c, env)
  {
    var (sent, delivered) := DeliverReport(w, c, stamp, successful, env);
    DeliverReportAdds(w, c, stamp, successful, env);
    UnacknowledgedIsBacked(w, sent, c, env, {Graph});
    if delivered.Complete? {
      CompleteReportIsBacked(w, c, stamp, successful, env);
      AcknowledgeIsBacked(w, sent, c, stamp, env, {Graph});
    } else {
      assert GiveUp(sent, c, d.Obtained().Charged(), env) == sent;
    }
  }

  lemma AfterReadIsBacked(w: World, c: Config, d: Delivery, env: Env)
    requires c.hub
    ensures AcksBacked(w, AfterRead(w, c, d, env).0, c, env)
  {
    GiveUpIsBacked(w, c, d, env);
    GiveUpIsBacked(w, c, d.Charged(), env);
    GiveUpIsBacked(w, c, d.Unready(env.later), env);
    if env.read.Report? { AfterReportIsBacked(w, c, d, env.read.stamp, env.read.successful, env); }
  }

  lemma BackedAfterReading(w: World, w': World, c: Config, env: Env)
    requires AcksBacked(w.Note(ReadReport), w', c, env)
    ensures AcksBacked(w, w', c, env)
  {
    var n := |w.log|;
    assert w'.log[..n] == w'.log[..n + 1][..n];
    assert w'.log[n] == w'.log[..n + 1][n] == ReadReport;
  }

  /**
  The rig is told that a report was delivered only when every configured channel held its
  receipt already or accepted the message; each of those holds a receipt afterwards exactly
  when its route still existed for the receipt to be written.
  */
  lemma AcknowledgedIsBacked(w: World, c: Config, d: Delivery, env: Env)
    requires c.hub
    ensures AcksBacked(w, Attempt(w, c, d, env).0, c, env)
  {
    if d.report.Some? && PendingTargets(w, c, d.report.value, env.checkBeforeRead) == Channels([]) {
      FullyReceiptedIsBacked(w, c, d.report.value, env.checkBeforeRead, env);
    }
    GiveUpIsBacked(w, c, d, env);
    GiveUpIsBacked(w, c, d.Obtained().Charged(), env);
    AfterReadIsBacked(w.Note(ReadReport), c, d, env);
    BackedAfterReading(w, AfterRead(w.Note(ReadReport), c, d, env).0, c, env);
  }

  /** One channel, its route removed while the graph was on its way: acknowledged, but no receipt. */
  lemma AcknowledgedWithoutReceipt(w: World, c: Config, d: Delivery, env: Env, ch: nat, stamp: Stamp)
    requires c.hub && c.acknowledges && c.Channels() == [ch]
    requires d.report == Some(stamp) && stamp.instant.Some? && !d.Expired(env.now)
    requires env.read == Report(stamp, true) && env.checkBeforeRead && env.checkBeforeBuild && env.checkBeforeSend
    requires Receipt(ch, stamp.instant.value) !in w.receipts && ch in env.accepting && ch in env.writable && ch !in env.routed
    ensures var w' := Attempt(w, c, d, env).0;
      w'.log != [] && w'.log[|w'.log| - 1] == Acknowledged(stamp)
      && Receipt(ch, stamp.instant.value) !in w'.receipts
  {
    var reading := w.Note(ReadReport);
    assert Missing(w.receipts, [ch], stamp.instant.value) == [ch];
    assert SendAll(reading, [ch], stamp.instant.value, false, env)
        == (reading.Note(Sent(Receipt(ch, stamp.instant.value), false, Unrouted)), Complete);
  }

  predicate RoutedRun(steps: seq<Step>, c: Config) {
    forall i :: 0 <= i < |steps| && steps[i].Polled? ==>
      steps[i].config == c && forall ch :: ch in c.Channels() ==> ch in steps[i].env.routed
  }

  predicate Receipted(receipts: set<Receipt>, c: Config, stamp: Stamp) {
    stamp.instant.Some? && forall ch :: ch in c.Channels() ==> Receipt(ch, stamp.instant.value) in receipts
  }

  predicate AllAcksReceipted(w: World, c: Config) {
    forall i :: 0 <= i < |w.log| && w.log[i].Acknowledged? ==> Receipted(w.receipts, c, w.log[i].stamp)
  }

  lemma AttemptKeepsAcksReceipted(w: World, c: Config, d: Delivery, env: Env)
    requires c.hub && AllAcksReceipted(w, c)
    requires forall ch :: ch in c.Channels() ==> ch in env.routed
    ensures AllAcksReceipted(Attempt(w, c, d, env).0, c)
  {
    AcknowledgedIsBacked(w, c, d, env);
    AttemptSpeaks(w, c, d, env);
    AcksStayReceipted(w, Attempt(w, c, d, env).0, c, env);
  }

  lemma AcksStayReceipted(w: World, w': World, c: Config, env: Env)
    requires AllAcksReceipted(w, c) && AcksBacked(w, w', c, env) && w.receipts <= w'.receipts
    requires forall ch :: ch in c.Channels() ==> ch in env.routed
    ensures AllAcksReceipted(w', c)
  {
    forall i | 0 <= i < |w'.log| && w'.log[i].Acknowledged? ensures Receipted(w'.receipts, c, w'.log[i].stamp) {
      if i < |w.log| {
        assert w'.log[i] == w'.log[..|w.log|][i] == w.log[i];
      } else {
        assert Backed(w.receipts, w'.receipts, c, env, w'.log[i].stamp);
      }
    }
  }

  /** While routes stand, over any run and any restarts, acknowledged means receipted in every channel. */
  lemma {:induction false} AcknowledgedMeansReceipted(m: Machine, steps: seq<Step>, c: Config)
    requires c.hub && RoutedRun(steps, c) && m.world.log == []
    ensures AllAcksReceipted(After(m, steps).world, c)
  {
    if steps != [] {
      var front := steps[..|steps| - 1];
      AcknowledgedMeansReceipted(m, front, c);
      var before := After(m, front);
      var last := steps[|steps| - 1];
      if last.Polled? {
        var index := LastDue(before.queue, last.env.now);
        if index.Some? { AttemptKeepsAcksReceipted(before.world, c, before.queue[index.value], last.env); }
      }
    }
  }
}
