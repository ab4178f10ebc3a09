/** The debounced connection state of the update loop and its exponential backoff. */
module Reachability {
  import opened Wrappers

  const OFFLINE_FAILURE_THRESHOLD: nat := 3

  datatype Alert = Offline | Online

  /** Double `current`, capped at `max` but never below `initial`. */
  function BackoffDelay(current: nat, initial: nat, max: nat): nat {
    Min(current * 2, Max(max, initial))
  }

  datatype Backoff = Backoff(initial: nat, max: nat)

  /** The loop's state: what is reported, the failures in a row, and the next wait. */
  datatype Link = Link(connected: bool, failures: nat, delay: nat) {
    function Record(reachable: bool): (Link, Option<Alert>) {
      if reachable then
        (this.(connected := true, failures := 0), if connected then None else Some(Online))
      else
        var offline := connected && failures + 1 >= OFFLINE_FAILURE_THRESHOLD;
        (this.(connected := connected && !offline, failures := failures + 1), if offline then Some(Offline) else None)
    }

    function Cycle(reachable: bool, b: Backoff): (Link, Option<Alert>) {
      var (next, alert) := Record(reachable);
      (next.(delay := if reachable then b.initial else BackoffDelay(delay, b.initial, b.max)), alert)
    }
  }

  /** After the baseline the telescope counts as connected. */
  function Baseline(b: Backoff): Link {
    Link(true, 0, b.initial)
  }

  function After(b: Backoff, outcomes: seq<bool>): Link {
    if outcomes == [] then Baseline(b)
    else After(b, outcomes[..|outcomes| - 1]).Cycle(outcomes[|outcomes| - 1], b).0
  }

  function Alerts(b: Backoff, outcomes: seq<bool>): seq<Alert> {
    if outcomes == [] then []
    else
      var alert := After(b, outcomes[..|outcomes| - 1]).Cycle(outcomes[|outcomes| - 1], b).1;
      Alerts(b, outcomes[..|outcomes| - 1]) + if alert.Some? then [alert.value] else []
  }

  /** How many of the latest cycles failed in a row. */
  function TrailingFailures(outcomes: seq<bool>): nat {
    if outcomes == [] || outcomes[|outcomes| - 1] then 0
    else 1 + TrailingFailures(outcomes[..|outcomes| - 1])
  }

  function Pow2(k: nat): (p: nat)
    ensures p >= 1
  {
    if k == 0 then 1 else 2 * Pow2(k - 1)
  }

  /** The state is a function of the trailing failures alone, with the doubling wait in closed form. */
  lemma {:induction false} StateIsTrailingFailures(b: Backoff, outcomes: seq<bool>)
    ensures var k := TrailingFailures(outcomes);
      && After(b, outcomes).failures == k
      && (After(b, outcomes).connected <==> k < OFFLINE_FAILURE_THRESHOLD)
      && After(b, outcomes).delay == Min(b.initial * Pow2(k), Max(b.initial, b.max))
  {
    if outcomes != [] {
      var front := outcomes[..|outcomes| - 1];
      StateIsTrailingFailures(b, front);
      Doubling(b.initial, Pow2(TrailingFailures(front)), Max(b.initial, b.max));
    }
  }

  lemma Doubling(initial: nat, power: nat, cap: nat)
    requires power >= 1
    ensures Min(Min(initial * power, cap) * 2, cap) == Min(initial * (2 * power), cap)
    ensures initial * 1 == initial
  {
    assert initial * (2 * power) == 2 * (initial * power);
  }

  /** The chat sees offline and online strictly in turn, starting with offline. */
  lemma {:induction false} AlertsAlternate(b: Backoff, outcomes: seq<bool>)
    ensures forall i :: 0 <= i < |Alerts(b, outcomes)| ==>
      Alerts(b, outcomes)[i] == if i % 2 == 0 then Offline else Online
    ensures After(b, outcomes).connected <==> |Alerts(b, outcomes)| % 2 == 0
  {
    if outcomes != [] {
      AlertsAlternate(b, outcomes[..|outcomes| - 1]);
      StateIsTrailingFailures(b, outcomes[..|outcomes| - 1]);
    }
  }

  class UpdateLoop {
    const backoff: Backoff
    var connected: bool
    var consecutiveFailures: nat
    var reconnectDelay: nat

    function View(): Link
      reads this
    {
      Link(connected, consecutiveFailures, reconnectDelay)
    }

    constructor (b: Backoff)
      ensures backoff == b && View() == Baseline(b)
    {
      backoff := b;
      connected, consecutiveFailures, reconnectDelay := true, 0, b.initial;
    }

    method RecordReachability(reachable: bool) returns (alert: Option<Alert>)
      modifies this`connected, this`consecutiveFailures
      ensures (View(), alert) == old(View()).Record(reachable)
    {
      alert := None;
      if reachable {
        consecutiveFailures := 0;
        if !connected {
          connected := true;
          alert := Some(Online);
        }
      } else {
        consecutiveFailures := consecutiveFailures + 1;
        if connected && consecutiveFailures >= OFFLINE_FAILURE_THRESHOLD {
          connected := false;
          alert := Some(Offline);
        }
      }
    }

    method Cycle(reachable: bool) returns (alert: Option<Alert>)
      modifies this
      ensures (View(), alert) == old(View()).Cycle(reachable, backoff)
    {
      alert := RecordReachability(reachable);
      if reachable {
        reconnectDelay := backoff.initial;
      } else {
        reconnectDelay := BackoffDelay(reconnectDelay, backoff.initial, backoff.max);
      }
    }
  }
}
