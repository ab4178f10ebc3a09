/**
The lazily refilled token bucket behind flood control.

Time is in nanoseconds, the resolution of the monotonic clock. Tokens are scaled
so that one token costs `refill` units and one unit accrues per nanosecond; this
makes the source's fractional tokens exact.
*/
module TokenBuckets {
  import opened Wrappers

  datatype Bucket = Bucket(capacity: nat, refill: nat, tokens: int, updatedAt: nat) {
    function Full(): nat { capacity * refill }

    ghost predicate Valid() { refill > 0 && 0 <= tokens <= Full() }

    /** Units available at `now`; a clock reading before the last update refills nothing. */
    function Level(now: nat): int {
      Min(tokens + Max(now - updatedAt, 0), Full())
    }

    function Call(now: nat): (r: (Bucket, bool)) {
      var level := Level(now);
      if level < refill then (this.(tokens := level, updatedAt := now), false)
      else (this.(tokens := level - refill, updatedAt := now), true)
    }
  }

  /** The bucket after calls at `times`, and what it answered to each. */
  function After(b: Bucket, times: seq<nat>): Bucket {
    if times == [] then b else After(b, times[..|times| - 1]).Call(times[|times| - 1]).0
  }

  function Decisions(b: Bucket, times: seq<nat>): (ds: seq<bool>)
    ensures |ds| == |times|
  {
    if times == [] then []
    else Decisions(b, times[..|times| - 1]) + [After(b, times[..|times| - 1]).Call(times[|times| - 1]).1]
  }

  function Spent(ds: seq<bool>, cost: nat): nat {
    if ds == [] then 0
    else Spent(ds[..|ds| - 1], cost) + if ds[|ds| - 1] then cost else 0
  }

  function Accepted(ds: seq<bool>): nat {
    Spent(ds, 1)
  }

  predicate Ascending(times: seq<nat>) {
    forall i, j :: 0 <= i < j < |times| ==> times[i] <= times[j]
  }

  /** Calls in clock order between the bucket's last update and `now`. */
  predicate Timely(b: Bucket, times: seq<nat>, now: nat) {
    b.updatedAt <= now && Ascending(times) && forall i :: 0 <= i < |times| ==> b.updatedAt <= times[i] <= now
  }

  lemma SpentIsAccepted(ds: seq<bool>, cost: nat)
    ensures Spent(ds, cost) == Accepted(ds) * cost
  {
  }

  lemma SpentSnoc(ds: seq<bool>, d: bool, cost: nat)
    ensures Spent(ds + [d], cost) == Spent(ds, cost) + if d then cost else 0
  {
    assert (ds + [d])[..|ds|] == ds;
  }

  lemma {:induction false} AfterFacts(b: Bucket, times: seq<nat>)
    requires b.Valid()
    ensures After(b, times).Valid()
    ensures After(b, times).capacity == b.capacity && After(b, times).refill == b.refill
    ensures After(b, times).updatedAt == if times == [] then b.updatedAt else times[|times| - 1]
  {
    if times != [] {
      AfterFacts(b, times[..|times| - 1]);
    }
  }

  /** Every window of past calls that ends now leaves room for `x` more units. */
  ghost predicate RoomFor(b: Bucket, times: seq<nat>, now: nat, x: int) {
    && x <= b.Full()
    && Spent(Decisions(b, times), b.refill) + x <= b.tokens + now - b.updatedAt
    && forall j :: 0 <= j < |times| ==>
         Spent(Decisions(b, times)[j..], b.refill) + x <= b.Full() + now - times[j]
  }

  /**
  The lazy level is the tightest of all window bounds: refilling only at calls,
  and only up to capacity, loses nothing against accounting for every window.
  */
  lemma {:induction false} LevelIsTightestWindow(b: Bucket, times: seq<nat>, now: nat, x: int)
    requires b.Valid() && Timely(b, times, now)
    ensures After(b, times).Level(now) >= x <==> RoomFor(b, times, now, x)
    decreases |times|
  {
    if times != [] {
      var n := |times| - 1;
      var front, last := times[..n], times[n];
      LevelSnoc(b, times, now, x);
      var used := if After(b, front).Call(last).1 then b.refill else 0;
      LevelIsTightestWindow(b, front, last, x - (now - last) + used);
      if x <= b.Full() {
        RoomForSnoc(b, times, now, x);
      }
    }
  }

  lemma {:induction false} LevelSnoc(b: Bucket, times: seq<nat>, now: nat, x: int)
    requires b.Valid() && Timely(b, times, now) && times != []
    ensures var n := |times| - 1;
      var used := if After(b, times[..n]).Call(times[n]).1 then b.refill else 0;
      After(b, times).Level(now) >= x
      <==> x <= b.Full() && After(b, times[..n]).Level(times[n]) >= x - (now - times[n]) + used
  {
    var n := |times| - 1;
    AfterFacts(b, times[..n]);
    LevelAfterCall(After(b, times[..n]), times[n], now, x);
    assert After(b, times[..n]).Full() == b.Full();
  }

  lemma LevelAfterCall(b: Bucket, last: nat, now: nat, x: int)
    requires b.Valid() && last <= now
    ensures var used := if b.Call(last).1 then b.refill else 0;
      b.Call(last).0.Level(now) >= x <==> x <= b.Full() && b.Level(last) >= x - (now - last) + used
  {
    assert b.Call(last).0.Full() == b.Full();
  }

  /** How the windows grow with the last call. */
  lemma {:induction false} WindowsSnoc(b: Bucket, times: seq<nat>, used: nat)
    requires times != []
    requires used == if After(b, times[..|times| - 1]).Call(times[|times| - 1]).1 then b.refill else 0
    ensures var n := |times| - 1; var ds := Decisions(b, times[..n]); var es := Decisions(b, times);
      && Spent(es, b.refill) == Spent(ds, b.refill) + used
      && (forall j :: 0 <= j < n ==> Spent(es[j..], b.refill) == Spent(ds[j..], b.refill) + used)
      && Spent(es[n..], b.refill) == used
  {
    var n := |times| - 1;
    var ds, d := Decisions(b, times[..n]), After(b, times[..n]).Call(times[n]).1;
    assert Decisions(b, times) == ds + [d];
    SpentSnoc(ds, d, b.refill);
    SpentTails(ds, d, b.refill);
  }

  lemma {:induction false} SpentTails(ds: seq<bool>, d: bool, cost: nat)
    ensures forall j :: 0 <= j < |ds| ==> Spent((ds + [d])[j..], cost) == Spent(ds[j..], cost) + if d then cost else 0
    ensures Spent((ds + [d])[|ds|..], cost) == if d then cost else 0
  {
    forall j | 0 <= j <= |ds| ensures Spent((ds + [d])[j..], cost) == Spent(ds[j..], cost) + if d then cost else 0 {
      assert (ds + [d])[j..] == ds[j..] + [d];
      SpentSnoc(ds[j..], d, cost);
    }
    assert ds[|ds|..] == [];
  }

  lemma {:induction false} RoomForSnoc(b: Bucket, times: seq<nat>, now: nat, x: int)
    requires times != [] && now >= times[|times| - 1] && x <= b.Full()
    ensures var n := |times| - 1;
      var used := if After(b, times[..n]).Call(times[n]).1 then b.refill else 0;
      RoomFor(b, times, now, x) <==> RoomFor(b, times[..n], times[n], x - (now - times[n]) + used)
  {
    var n := |times| - 1;
    var used := if After(b, times[..n]).Call(times[n]).1 then b.refill else 0;
    var x' := x - (now - times[n]) + used;
    WindowsSnoc(b, times, used);
    if RoomFor(b, times, now, x) {
      assert Spent(Decisions(b, times)[n..], b.refill) + x <= b.Full() + now - times[n];
      forall j | 0 <= j < n
        ensures Spent(Decisions(b, times[..n])[j..], b.refill) + x' <= b.Full() + times[n] - times[..n][j]
      {
        assert Spent(Decisions(b, times)[j..], b.refill) + x <= b.Full() + now - times[j];
      }
    }
    if RoomFor(b, times[..n], times[n], x') {
      forall j | 0 <= j < |times|
        ensures Spent(Decisions(b, times)[j..], b.refill) + x <= b.Full() + now - times[j]
      {
        if j < n {
          assert Spent(Decisions(b, times[..n])[j..], b.refill) + x' <= b.Full() + times[n] - times[..n][j];
        }
      }
    }
  }

  /** A call is accepted exactly when no window that ends with it would be overdrawn. */
  lemma {:induction false} AcceptedExactlyWithinBudget(b: Bucket, times: seq<nat>, now: nat)
    requires b.Valid() && Timely(b, times, now)
    ensures After(b, times).Call(now).1 <==> RoomFor(b, times, now, b.refill)
  {
    LevelIsTightestWindow(b, times, now, b.refill);
    AfterFacts(b, times);
  }

  /** At most `capacity + elapsed / refill` acceptances in any stretch of calls. */
  lemma {:induction false} StretchBound(b: Bucket, times: seq<nat>, lo: nat, hi: nat)
    requires b.Valid() && times != [] && Timely(b, times, times[|times| - 1])
    requires lo < hi <= |times|
    ensures Accepted(Decisions(b, times)[lo..hi]) <= b.capacity + (times[hi - 1] - times[lo]) / b.refill
  {
    var ds := Decisions(b, times)[lo..hi];
    StretchSpends(b, times, lo, hi);
    SpentIsAccepted(ds, b.refill);
    QuotientBound(Accepted(ds), b.capacity, times[hi - 1] - times[lo], b.refill);
  }

  lemma {:induction false} StretchSpends(b: Bucket, times: seq<nat>, lo: nat, hi: nat)
    requires b.Valid() && times != [] && Timely(b, times, times[|times| - 1])
    requires lo < hi <= |times|
    ensures Spent(Decisions(b, times)[lo..hi], b.refill) <= b.Full() + times[hi - 1] - times[lo]
  {
    var past, now := times[..hi], times[hi - 1];
    AfterFacts(b, past);
    LevelIsTightestWindow(b, past, now, 0);
    DecisionsPrefix(b, times, hi);
    assert Decisions(b, times)[lo..hi] == Decisions(b, past)[lo..];
  }

  lemma QuotientBound(n: nat, c: nat, elapsed: nat, refill: nat)
    requires refill > 0 && n * refill <= c * refill + elapsed
    ensures n <= c + elapsed / refill
  {
    var q := elapsed / refill;
    assert c * refill + (q + 1) * refill == (c + q + 1) * refill;
    ProductOrder(n, c + q + 1, refill);
  }

  lemma ProductOrder(a: nat, b: nat, r: nat)
    requires a * r < b * r
    ensures a < b
  {
  }

  lemma {:induction false} DecisionsPrefix(b: Bucket, times: seq<nat>, k: nat)
    requires k <= |times|
    ensures Decisions(b, times)[..k] == Decisions(b, times[..k])
    decreases |times|
  {
    if k < |times| {
      var front := times[..|times| - 1];
      DecisionsPrefix(b, front, k);
      assert front[..k] == times[..k];
    } else {
      assert times[..k] == times;
    }
  }

  /** Calls at least one refill interval apart are never refused. */
  lemma {:induction false} SpacedCallsAccepted(b: Bucket, times: seq<nat>)
    requires b.Valid() && b.capacity >= 1
    requires times != [] ==> times[0] >= b.updatedAt && b.tokens + (times[0] - b.updatedAt) >= b.refill
    requires forall i :: 0 < i < |times| ==> times[i] >= times[i - 1] + b.refill
    ensures forall i :: 0 <= i < |times| ==> Decisions(b, times)[i]
  {
    assert b.Full() >= b.refill by {
      assert b.capacity * b.refill >= 1 * b.refill;
    }
    if times != [] {
      var front := times[..|times| - 1];
      SpacedCallsAccepted(b, front);
      AfterFacts(b, front);
      assert After(b, front).Full() == b.Full();
    }
  }

  // ----- the mutable bucket -----

  class TokenBucket {
    const capacity: nat
    const refill: nat
    var tokens: int
    var updatedAt: nat

    function View(): Bucket
      reads this
    {
      Bucket(capacity, refill, tokens, updatedAt)
    }

    constructor (capacity: nat, refill: nat, now: nat)
      requires refill > 0
      ensures View() == Bucket(capacity, refill, capacity * refill, now) && View().Valid()
    {
      this.capacity, this.refill := capacity, refill;
      tokens, updatedAt := capacity * refill, now;
    }

    method Allow(now: nat) returns (ok: bool)
      modifies this
      ensures (View(), ok) == old(View()).Call(now)
    {
      tokens := Min(tokens + Max(now - updatedAt, 0), capacity * refill);
      updatedAt := now;
      if tokens < refill {
        return false;
      }
      tokens := tokens - refill;
      return true;
    }
  }
}
