/** The updater's own autofocus queue, as its methods run it. */
module AutofocusQueues {
  import opened Wrappers
  import opened Events
  import opened Reachability
  import opened Autofocus

  class AutofocusQueue {
    const policy: Policy
    var pending: seq<Delivery>
    var world: World

    constructor (policy: Policy, receipts: set<Receipt>)
      ensures this.policy == policy && View() == Machine([], World(receipts, []))
    {
      this.policy := policy;
      pending, world := [], World(receipts, []);
    }

    function View(): Machine
      reads this
    {
      Machine(pending, world)
    }

    method HandleFinished(report: Option<Stamp>, now: nat)
      modifies this`pending
      ensures View() == old(View()).Finish(report, now, policy)
    {
      if pending != [] {
        pending := [];
      }
      pending := pending + [Delivery(report, 0, now, None, now, policy.initialDelay, policy, false)];
    }

    method FindTargets(c: Config, stamp: Stamp, checked: bool) returns (targets: Targets)
      ensures targets == PendingTargets(world, c, stamp, checked)
    {
      if !c.hub { return Local; }
      if stamp.instant.None? { return Failed; }
      var channels := c.Channels();
      if !checked && channels != [] { return Failed; }
      var missing: seq<nat> := [];
      for i := 0 to |channels|
        invariant missing == Missing(world.receipts, channels[..i], stamp.instant.value)
      {
        assert channels[..i + 1][..i] == channels[..i];
        if Receipt(channels[i], stamp.instant.value) !in world.receipts {
          missing := missing + [channels[i]];
        }
      }
      assert channels[..|channels|] == channels;
      targets := Channels(missing);
    }

    method Send(c: Config, stamp: Stamp, fallback: bool, env: Env) returns (outcome: Outcome)
      modifies this`world
      ensures (world, outcome) == DeliverMessage(old(world), c, stamp, fallback, env)
    {
      var targets := FindTargets(c, stamp, env.checkBeforeSend);
      match targets
      case Failed => outcome := Error;
      case Local =>
        world := world.Note(SentLocally(env.localSend, fallback));
        outcome := if env.localSend then Complete else Incomplete;
      case Channels(missing) =>
        outcome := SendToChannels(missing, stamp.instant.value, fallback, env);
    }

    method SendToChannels(channels: seq<nat>, report: int, fallback: bool, env: Env) returns (outcome: Outcome)
      modifies this`world
      ensures (world, outcome) == SendAll(old(world), channels, report, fallback, env)
    {
      var failed := false;
      ghost var whole := SendAll(world, channels, report, fallback, env);
      for i := 0 to |channels|
        invariant whole == Continued(SendAll(world, channels[i..], report, fallback, env), failed)
      {
        var accepted := OutcomeFor(env, channels[i]);
        var receipt := Receipt(channels[i], report);
        assert channels[i..][1..] == channels[i + 1..];
        if accepted.Rejected? {
          failed := true;
          continue;
        }
        world := world.Note(Sent(receipt, fallback, accepted));
        if accepted.RecordFailed? { return Error; }
        if accepted.Recorded? { world := world.(receipts := world.receipts + {receipt}); }
      }
      outcome := if failed then Error else Complete;
    }

    /** A rejection earlier in the pass spoils it. */
    static function Continued(rest: (World, Outcome), failed: bool): (World, Outcome) {
      if failed then (rest.0, Error) else rest
    }

    method SendReport(c: Config, stamp: Stamp, successful: bool, env: Env) returns (outcome: Outcome)
      modifies this`world
      ensures (world, outcome) == DeliverReport(old(world), c, stamp, successful, env)
    {
      var targets := FindTargets(c, stamp, env.checkBeforeBuild);
      if targets.Failed? { return Error; }
      if targets == Channels([]) { return Complete; }
      if !successful { return Error; }
      outcome := Send(c, stamp, false, env);
    }

    method AcknowledgeReport(c: Config, stamp: Stamp)
      modifies this`world
      ensures world == Acknowledge(old(world), c, stamp)
    {
      if c.acknowledges {
        world := world.Note(Acknowledged(stamp));
      }
    }

    method SendUnavailable(c: Config, d: Delivery, env: Env)
      modifies this`world
      ensures world == GiveUp(old(world), c, d, env)
    {
      if d.reportObtained || !c.hasServices { return; }
      if d.report.Some? {
        var outcome := Send(c, d.report.value, true, env);
        if outcome.Complete? { AcknowledgeReport(c, d.report.value); }
      } else {
        world := world.Note(SentLocally(env.localSend, true));
      }
    }

    method ExpireIfTimedOut(c: Config, d: Delivery, now: nat, env: Env) returns (expired: bool)
      modifies this`world
      ensures expired == d.Expired(now)
      ensures world == if expired then GiveUp(old(world), c, d, env) else old(world)
    {
      expired := d.Elapsed(now) >= d.policy.overallTimeout;
      if expired { SendUnavailable(c, d, env); }
    }

    /** The delivery, requeued or not. */
    ghost predicate Requeues(before: Machine, outcome: (World, Option<Delivery>))
      reads this
    {
      View() == Machine(if outcome.1.Some? then before.queue + [outcome.1.value] else before.queue, outcome.0)
    }

    method RetryDelivery(c: Config, d: Delivery, env: Env)
      modifies this`pending, this`world
      ensures Requeues(old(View()), Retry(old(world), c, d, env))
    {
      if d.attempts >= Max(d.policy.maxAttempts, 1) {
        SendUnavailable(c, d, env);
        return;
      }
      var expired := ExpireIfTimedOut(c, d, env.later, env);
      if expired { return; }
      var delay := Min(d.retryDelay, d.Remaining(env.later));
      pending := pending + [d.(
        nextAttemptAt := env.later + delay,
        retryDelay := BackoffDelay(delay, d.policy.initialDelay, d.policy.maxDelay))];
    }

    method RetryWhenReady(c: Config, unready: Delivery, env: Env)
      modifies this`pending, this`world
      ensures Requeues(old(View()), RetryNotReady(old(world), c, unready, env))
    {
      var d := unready.Unready(env.later);
      var elapsed := Max(env.later - d.notReadySince.value, 0);
      if elapsed >= d.policy.notReadyTimeout {
        SendUnavailable(c, d, env);
        return;
      }
      var expired := ExpireIfTimedOut(c, d, env.later, env);
      if expired { return; }
      var delay := Min(Min(d.retryDelay, Max(d.policy.notReadyTimeout - elapsed, 0)), d.Remaining(env.later));
      pending := pending + [d.(
        nextAttemptAt := env.later + delay,
        retryDelay := BackoffDelay(d.retryDelay, d.policy.initialDelay, d.policy.maxDelay))];
    }

    method RetryWhenAvailable(c: Config, d: Delivery, env: Env)
      modifies this`pending, this`world
      ensures Requeues(old(View()), RetryUnavailable(old(world), c, d, env))
    {
      var expired := ExpireIfTimedOut(c, d, env.later, env);
      if expired { return; }
      var initial := Max(d.policy.initialDelay, MILLISECOND);
      var delay := Min(Max(d.retryDelay, initial), d.Remaining(env.later));
      pending := pending + [d.(
        nextAttemptAt := env.later + delay,
        retryDelay := BackoffDelay(delay, initial, d.policy.maxDelay))];
    }

    method HandleReport(c: Config, d: Delivery, stamp: Stamp, successful: bool, env: Env)
      modifies this`pending, this`world
      ensures Requeues(old(View()), AfterReport(old(world), c, d, stamp, successful, env))
    {
      var outcome := SendReport(c, stamp, successful, env);
      match outcome
      case Complete => AcknowledgeReport(c, stamp);
      case Incomplete =>
      case Error => RetryDelivery(c, d.Obtained().Charged(), env);
    }

    method HandleRead(c: Config, d: Delivery, env: Env)
      modifies this`pending, this`world
      ensures Requeues(old(View()), AfterRead(old(world), c, d, env))
    {
      match env.read
      case TimedOut => SendUnavailable(c, d, env);
      case Unavailable => RetryWhenAvailable(c, d, env);
      case NotReady => RetryWhenReady(c, d, env);
      case Broken => RetryDelivery(c, d.Charged(), env);
      case Report(stamp, successful) =>
        if ReportMatches(d.report, stamp) {
          HandleReport(c, d, stamp, successful, env);
        } else {
          RetryDelivery(c, d.Charged(), env);
        }
    }

    method AttemptDelivery(c: Config, d: Delivery, env: Env)
      modifies this`pending, this`world
      ensures Requeues(old(View()), Attempt(old(world), c, d, env))
    {
      if d.report.Some? {
        var targets := FindTargets(c, d.report.value, env.checkBeforeRead);
        if targets == Channels([]) {
          AcknowledgeReport(c, d.report.value);
          return;
        }
        if targets.Failed? {
          RetryDelivery(c, d.Obtained().Charged(), env);
          return;
        }
      }
      var expired := ExpireIfTimedOut(c, d, env.now, env);
      if expired { return; }
      world := world.Note(ReadReport);
      HandleRead(c, d, env);
    }

    method Poll(c: Config, env: Env)
      modifies this`pending, this`world
      ensures View() == old(View()).Poll(c, env)
    {
      var index := LastDue(pending, env.now);
      if index.None? { return; }
      var d := pending[index.value];
      pending := pending[..index.value] + pending[index.value + 1..];
      AttemptDelivery(c, d, env);
    }
  }
}
