/**
The hub's fixed-window limiter: one window per key, and every check first evicts all
expired windows. `KeyLimiter` is the reference: one key, no map, no eviction.
*/
module WindowLimiter {
  import opened Wrappers

  datatype Window = Window(start: nat, count: nat)

  function Elapsed(now: nat, start: nat): nat {
    Max(now - start, 0)
  }

  /** The limit in force. */
  datatype Policy = Policy(max: nat, length: nat) {
    predicate Live(w: Window, now: nat) { Elapsed(now, w.start) < length }

    // ----- one key alone -----

    /** A hit counts in the current window, or opens a new one. */
    function Hit(w: Option<Window>, now: nat): Window {
      if w.Some? && Live(w.value, now) then w.value.(count := w.value.count + 1) else Window(now, 1)
    }

    predicate Admits(w: Option<Window>, now: nat) { Hit(w, now).count <= max }

    // ----- all keys -----

    function Retain(hits: map<string, Window>, now: nat): map<string, Window> {
      map k | k in hits && Live(hits[k], now) :: hits[k]
    }

    function Check(hits: map<string, Window>, key: string, now: nat): (map<string, Window>, bool) {
      var kept := Retain(hits, now);
      var entry := if key in kept then kept[key] else Window(now, 0);
      var current := if Elapsed(now, entry.start) >= length then Window(now, 0) else entry;
      var counted := current.(count := current.count + 1);
      (kept[key := counted], counted.count <= max)
    }

    predicate Blocked(hits: map<string, Window>, key: string, now: nat) {
      key in hits && Live(hits[key], now) && hits[key].count >= max
    }
  }

  datatype Request = Request(key: string, at: nat)

  function Answers(p: Policy, hits: map<string, Window>, requests: seq<Request>): (r: seq<bool>)
    ensures |r| == |requests|
    decreases |requests|
  {
    if requests == [] then []
    else
      var (hits', ok) := p.Check(hits, requests[0].key, requests[0].at);
      [ok] + Answers(p, hits', requests[1..])
  }

  function KeyAnswers(p: Policy, w: Option<Window>, times: seq<nat>): (r: seq<bool>)
    ensures |r| == |times|
    decreases |times|
  {
    if times == [] then [] else [p.Admits(w, times[0])] + KeyAnswers(p, Some(p.Hit(w, times[0])), times[1..])
  }

  function TimesOf(requests: seq<Request>, key: string): seq<nat> {
    if requests == [] then []
    else (if requests[0].key == key then [requests[0].at] else []) + TimesOf(requests[1..], key)
  }

  function AnswersTo(requests: seq<Request>, answers: seq<bool>, key: string): seq<bool>
    requires |requests| == |answers|
  {
    if requests == [] then []
    else (if requests[0].key == key then [answers[0]] else []) + AnswersTo(requests[1..], answers[1..], key)
  }

  predicate Ordered(clock: nat, times: seq<nat>)
    decreases |times|
  {
    times == [] || (clock <= times[0] && Ordered(times[0], times[1..]))
  }

  predicate InOrder(clock: nat, requests: seq<Request>)
    decreases |requests|
  {
    requests == [] || (clock <= requests[0].at && InOrder(requests[0].at, requests[1..]))
  }

  /** The map remembers a key's window, or has evicted it after it expired. */
  ghost predicate Remembers(p: Policy, hits: map<string, Window>, key: string, w: Option<Window>, clock: nat) {
    if key in hits then w == Some(hits[key]) else w.Some? ==> !p.Live(w.value, clock)
  }

  lemma {:induction false} OwnCheck(p: Policy, hits: map<string, Window>, key: string, w: Option<Window>, clock: nat, now: nat)
    requires Remembers(p, hits, key, w, clock) && clock <= now
    ensures p.Check(hits, key, now).1 == p.Admits(w, now)
    ensures Remembers(p, p.Check(hits, key, now).0, key, Some(p.Hit(w, now)), now)
  {
  }

  lemma {:induction false} OtherCheck(p: Policy, hits: map<string, Window>, key: string, w: Option<Window>, clock: nat, other: string, now: nat)
    requires Remembers(p, hits, key, w, clock) && clock <= now && other != key
    ensures Remembers(p, p.Check(hits, other, now).0, key, w, now)
  {
  }

  /**
  Neither the other keys nor the eviction they trigger is ever visible to a key: its
  answers are those of a limiter of its own.
  */
  lemma {:induction false} KeysAreIndependent(p: Policy, hits: map<string, Window>, key: string, w: Option<Window>, clock: nat, requests: seq<Request>)
    requires Remembers(p, hits, key, w, clock) && InOrder(clock, requests)
    ensures AnswersTo(requests, Answers(p, hits, requests), key) == KeyAnswers(p, w, TimesOf(requests, key))
    decreases |requests|
  {
    if requests != [] {
      var r := requests[0];
      var hits' := p.Check(hits, r.key, r.at).0;
      assert Answers(p, hits, requests)[1..] == Answers(p, hits', requests[1..]);
      var rest := TimesOf(requests[1..], key);
      if r.key == key {
        OwnCheck(p, hits, key, w, clock, r.at);
        KeysAreIndependent(p, hits', key, Some(p.Hit(w, r.at)), r.at, requests[1..]);
        assert TimesOf(requests, key)[1..] == rest;
      } else {
        OtherCheck(p, hits, key, w, clock, r.key, r.at);
        KeysAreIndependent(p, hits', key, w, r.at, requests[1..]);
        assert TimesOf(requests, key) == rest;
      }
    }
  }

  /** `blocked` foretells a refusal; a refusal it does not foretell needs a limit of zero. */
  lemma BlockedForetellsRefusal(p: Policy, hits: map<string, Window>, key: string, now: nat)
    ensures !p.Check(hits, key, now).1
       <==> p.Blocked(hits, key, now) || (p.max == 0 && !(key in hits && p.Live(hits[key], now)))
    ensures p.max >= 1 ==> (p.Blocked(hits, key, now) <==> !p.Check(hits, key, now).1)
  {
  }

  // ----- bounds -----

  function Count(answers: seq<bool>): nat {
    if answers == [] then 0 else (if answers[0] then 1 else 0) + Count(answers[1..])
  }

  /** Hits admitted at instants of `[from, until)`. */
  function AdmittedWithin(times: seq<nat>, answers: seq<bool>, from: nat, until: nat): nat
    requires |times| == |answers|
  {
    if times == [] then 0
    else (if answers[0] && from <= times[0] < until then 1 else 0)
         + AdmittedWithin(times[1..], answers[1..], from, until)
  }

  /** While a window lasts, what it admits is exactly what is left of the limit. */
  lemma {:induction false} WindowAdmitsWhatIsLeft(p: Policy, w: Window, clock: nat, times: seq<nat>)
    requires Ordered(clock, times) && w.start <= clock
    requires forall i :: 0 <= i < |times| ==> times[i] < w.start + p.length
    ensures Count(KeyAnswers(p, Some(w), times)) == Min(|times|, Max(p.max - w.count, 0))
    decreases |times|
  {
    if times != [] {
      assert p.Live(w, times[0]);
      var w' := p.Hit(Some(w), times[0]);
      WindowAdmitsWhatIsLeft(p, w', times[0], times[1..]);
      assert KeyAnswers(p, Some(w), times)[1..] == KeyAnswers(p, Some(w'), times[1..]);
    }
  }

  /** The rest of an interval, seen from inside the window that will cover it. */
  lemma {:induction false} LaterHalf(p: Policy, w: Window, clock: nat, times: seq<nat>, from: nat)
    requires Ordered(clock, times) && from <= w.start <= clock
    ensures AdmittedWithin(times, KeyAnswers(p, Some(w), times), from, from + p.length) <= Max(p.max - w.count, 0)
    decreases |times|
  {
    if times != [] {
      var w' := p.Hit(Some(w), times[0]);
      assert KeyAnswers(p, Some(w), times)[1..] == KeyAnswers(p, Some(w'), times[1..]);
      if p.Live(w, times[0]) {
        LaterHalf(p, w', times[0], times[1..], from);
      } else {
        NothingAfter(p, Some(w'), times[0], times[1..], from);
      }
    }
  }

  lemma {:induction false} NothingAfter(p: Policy, w: Option<Window>, clock: nat, times: seq<nat>, from: nat)
    requires Ordered(clock, times) && clock >= from + p.length
    ensures AdmittedWithin(times, KeyAnswers(p, w, times), from, from + p.length) == 0
    decreases |times|
  {
    if times != [] {
      var w' := p.Hit(w, times[0]);
      assert KeyAnswers(p, w, times)[1..] == KeyAnswers(p, Some(w'), times[1..]);
      NothingAfter(p, Some(w'), times[0], times[1..], from);
    }
  }

  /** What is left of the window that was open when the interval began, plus one fresh window. */
  lemma {:induction false} InsideInterval(p: Policy, w: Option<Window>, clock: nat, times: seq<nat>, from: nat)
    requires Ordered(clock, times) && (w.Some? ==> w.value.start <= clock && w.value.start < from)
    requires times != [] ==> from <= times[0]
    ensures AdmittedWithin(times, KeyAnswers(p, w, times), from, from + p.length)
         <= p.max + if w.Some? then Max(p.max - w.value.count, 0) else 0
    decreases |times|
  {
    if times != [] {
      var w' := p.Hit(w, times[0]);
      assert KeyAnswers(p, w, times)[1..] == KeyAnswers(p, Some(w'), times[1..]);
      if w'.start < from {
        InsideInterval(p, Some(w'), times[0], times[1..], from);
      } else {
        LaterHalf(p, w', times[0], times[1..], from);
      }
    }
  }

  /** At most twice the limit in any half-open interval of one window length. */
  lemma {:induction false} AtMostTwiceTheLimit(p: Policy, w: Option<Window>, clock: nat, times: seq<nat>, from: nat)
    requires Ordered(clock, times) && (w.Some? ==> w.value.start <= clock)
    ensures AdmittedWithin(times, KeyAnswers(p, w, times), from, from + p.length) <= 2 * p.max
    decreases |times|
  {
    if w.Some? && w.value.start >= from {
      LaterHalf(p, w.value, clock, times, from);
    } else if times == [] || from <= times[0] {
      InsideInterval(p, w, clock, times, from);
    } else {
      var w' := p.Hit(w, times[0]);
      assert KeyAnswers(p, w, times)[1..] == KeyAnswers(p, Some(w'), times[1..]);
      AtMostTwiceTheLimit(p, Some(w'), times[0], times[1..], from);
    }
  }

  // ----- the mutable limiter -----

  class RateLimiter {
    const policy: Policy
    var hits: map<string, Window>

    constructor (max: nat, length: nat)
      ensures policy == Policy(max, length) && hits == map[]
    {
      policy := Policy(max, length);
      hits := map[];
    }

    /** Looks a key up without counting the look. */
    method Blocked(key: string, now: nat) returns (blocked: bool)
      ensures blocked == policy.Blocked(hits, key, now)
    {
      if key !in hits {
        return false;
      }
      var w := hits[key];
      blocked := Elapsed(now, w.start) < policy.length && w.count >= policy.max;
    }

    method Check(key: string, now: nat) returns (ok: bool)
      modifies this
      ensures (hits, ok) == policy.Check(old(hits), key, now)
    {
      hits := map k | k in hits && Elapsed(now, hits[k].start) < policy.length :: hits[k];
      ghost var kept := hits;
      assert kept == policy.Retain(old(hits), now);
      if key !in hits {
        hits := hits[key := Window(now, 0)];
      }
      if Elapsed(now, hits[key].start) >= policy.length {
        hits := hits[key := Window(now, 0)];
      }
      hits := hits[key := hits[key].(count := hits[key].count + 1)];
      assert hits == kept[key := hits[key]];
      ok := hits[key].count <= policy.max;
    }
  }
}
