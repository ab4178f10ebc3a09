/**
Flood control for diagnostics: a 60-second repeat window over the accepted
fingerprints, held in a capped queue, in front of one token bucket per class.

`Ledger` is the reference design: it remembers every admission for ever and has no
cap. The refinement shows the purged, capped queue answers the same.
*/
module FloodControl {
  import opened Wrappers
  import opened Events
  import opened Diagnostics
  import opened TokenBuckets

  const SECOND: nat := 1_000_000_000
  const REPEAT_INTERVAL: nat := 60 * SECOND
  const MAX_FINGERPRINTS: nat := 128
  const ERROR_CAPACITY: nat := 5
  const ERROR_REFILL: nat := 12 * SECOND
  const LOG_CAPACITY: nat := 10
  const LOG_REFILL: nat := 6 * SECOND

  datatype Entry = Entry(mark: Fingerprint, at: nat)

  function Age(now: nat, at: nat): nat {
    Max(now - at, 0)
  }

  // ----- the limiter on values -----

  datatype Limiter = Limiter(errors: Bucket, logs: Bucket, queue: seq<Entry>) {
    function BucketFor(c: Class): Bucket {
      if c == Error then errors else logs
    }

    function WithBucket(c: Class, b: Bucket): Limiter {
      if c == Error then this.(errors := b) else this.(logs := b)
    }

    /** `d` is the diagnostic offered, if the event is one. */
    function Allow(d: Option<Fingerprint>, now: nat): (Limiter, bool) {
      if d.None? then (this, true) else Admit(d.value, now)
    }

    function Admit(f: Fingerprint, now: nat): (Limiter, bool) {
      var queue := Purge(queue, now);
      if Holds(queue, f) then (this.(queue := queue), false)
      else
        var (b, ok) := BucketFor(f.category).Call(now);
        var charged := this.(queue := queue).WithBucket(f.category, b);
        if !ok then (charged, false)
        else
          var room := if |queue| == MAX_FINGERPRINTS then queue[1..] else queue;
          (charged.(queue := room + [Entry(f, now)]), true)
    }
  }

  function NewLimiter(now: nat): Limiter {
    Limiter(Bucket(ERROR_CAPACITY, ERROR_REFILL, ERROR_CAPACITY * ERROR_REFILL, now),
            Bucket(LOG_CAPACITY, LOG_REFILL, LOG_CAPACITY * LOG_REFILL, now), [])
  }

  function Purge(queue: seq<Entry>, now: nat): seq<Entry> {
    if queue != [] && Age(now, queue[0].at) >= REPEAT_INTERVAL then Purge(queue[1..], now) else queue
  }

  predicate Holds(queue: seq<Entry>, f: Fingerprint) {
    exists i :: 0 <= i < |queue| && queue[i].mark == f
  }

  // ----- the reference design -----

  /** Every admission since start-up, oldest first. */
  datatype Ledger = Ledger(errors: Bucket, logs: Bucket, admitted: seq<Entry>) {
    function BucketFor(c: Class): Bucket {
      if c == Error then errors else logs
    }

    function WithBucket(c: Class, b: Bucket): Ledger {
      if c == Error then this.(errors := b) else this.(logs := b)
    }

    /** Admit unless an equal diagnostic was admitted in the last 60 s or the class is out of tokens. */
    function Allow(d: Option<Fingerprint>, now: nat): (Ledger, bool) {
      if d.None? then (this, true)
      else if Repeated(admitted, d.value, now) then (this, false)
      else
        var (b, ok) := BucketFor(d.value.category).Call(now);
        var charged := WithBucket(d.value.category, b);
        (if ok then charged.(admitted := admitted + [Entry(d.value, now)]) else charged, ok)
    }
  }

  function NewLedger(now: nat): Ledger {
    Ledger(NewLimiter(now).errors, NewLimiter(now).logs, [])
  }

  predicate Repeated(admitted: seq<Entry>, f: Fingerprint, now: nat) {
    exists i :: 0 <= i < |admitted| && admitted[i].mark == f && Age(now, admitted[i].at) < REPEAT_INTERVAL
  }

  // ----- the queue stays short -----

  /** Units class `c` was charged for the entries of `queue`. */
  function Units(queue: seq<Entry>, c: Class, cost: nat): nat {
    if queue == [] then 0
    else (if queue[0].mark.category == c then cost else 0) + Units(queue[1..], c, cost)
  }

  /** From each entry of the class on, what was charged plus what is left fits the class budget. */
  ghost predicate Funded(queue: seq<Entry>, c: Class, b: Bucket) {
    queue == [] ||
    (&& (queue[0].mark.category == c ==>
          Units(queue, c, b.refill) + b.tokens <= b.Full() + b.updatedAt - queue[0].at)
     && Funded(queue[1..], c, b))
  }

  predicate Sorted(queue: seq<Entry>) {
    forall i, j :: 0 <= i < j < |queue| ==> queue[i].at <= queue[j].at
  }

  predicate Policy(errors: Bucket, logs: Bucket) {
    && errors.capacity == ERROR_CAPACITY && errors.refill == ERROR_REFILL
    && logs.capacity == LOG_CAPACITY && logs.refill == LOG_REFILL
  }

  ghost predicate Valid(l: Limiter, clock: nat) {
    && Policy(l.errors, l.logs) && l.errors.Valid() && l.logs.Valid()
    && l.errors.updatedAt <= clock && l.logs.updatedAt <= clock
    && Sorted(l.queue)
    && (forall i :: 0 <= i < |l.queue| ==> l.queue[i].at <= clock)
    && Funded(l.queue, Error, l.errors) && Funded(l.queue, Log, l.logs)
  }

  lemma {:induction false} FundedTail(queue: seq<Entry>, c: Class, b: Bucket, i: nat)
    requires Funded(queue, c, b) && i <= |queue|
    ensures Funded(queue[i..], c, b)
  {
    if i > 0 {
      FundedTail(queue[1..], c, b, i - 1);
      assert queue[1..][i - 1..] == queue[i..];
    }
  }

  lemma {:induction false} UnitsSnoc(queue: seq<Entry>, e: Entry, c: Class, cost: nat)
    ensures Units(queue + [e], c, cost) == Units(queue, c, cost) + if e.mark.category == c then cost else 0
  {
    if queue == [] {
      assert queue + [e] == [e];
    } else {
      assert (queue + [e])[1..] == queue[1..] + [e];
      UnitsSnoc(queue[1..], e, c, cost);
    }
  }

  /** A refused or unrelated call keeps the class funded. */
  lemma {:induction false} FundedByRefill(queue: seq<Entry>, c: Class, b: Bucket, b': Bucket)
    requires Funded(queue, c, b)
    requires b'.refill == b.refill && b'.capacity == b.capacity
    requires b'.tokens - b.tokens <= b'.updatedAt - b.updatedAt
    ensures Funded(queue, c, b')
  {
    if queue != [] {
      FundedByRefill(queue[1..], c, b, b');
    }
  }

  lemma {:induction false} FundedByOther(queue: seq<Entry>, c: Class, b: Bucket, e: Entry)
    requires Funded(queue, c, b) && e.mark.category != c
    ensures Funded(queue + [e], c, b)
  {
    if queue == [] {
      assert queue + [e] == [e];
    } else {
      assert (queue + [e])[1..] == queue[1..] + [e];
      UnitsSnoc(queue, e, c, b.refill);
      FundedByOther(queue[1..], c, b, e);
    }
  }

  lemma {:induction false} FundedByAdmission(queue: seq<Entry>, c: Class, b: Bucket, e: Entry)
    requires b.Valid() && Funded(queue, c, b) && e.mark.category == c
    requires b.updatedAt <= e.at && b.Call(e.at).1
    ensures Funded(queue + [e], c, b.Call(e.at).0)
  {
    if queue == [] {
      assert queue + [e] == [e];
      assert Units([e], c, b.refill) == b.refill + Units([], c, b.refill);
    } else {
      assert (queue + [e])[1..] == queue[1..] + [e];
      UnitsSnoc(queue, e, c, b.refill);
      FundedByAdmission(queue[1..], c, b, e);
    }
  }

  function CountOf(queue: seq<Entry>, c: Class): nat {
    Units(queue, c, 1)
  }

  lemma {:induction false} ClassesPartition(queue: seq<Entry>)
    ensures |queue| == CountOf(queue, Error) + CountOf(queue, Log)
  {
    if queue != [] {
      ClassesPartition(queue[1..]);
    }
  }

  lemma {:induction false} UnitsAreCounts(queue: seq<Entry>, c: Class, cost: nat)
    ensures Units(queue, c, cost) == CountOf(queue, c) * cost
  {
    if queue != [] {
      UnitsAreCounts(queue[1..], c, cost);
    }
  }

  /** A funded class with only live entries charged less than its capacity plus 60 s worth of refill. */
  lemma {:induction false} LiveUnits(queue: seq<Entry>, c: Class, b: Bucket, now: nat)
    requires b.Valid() && Funded(queue, c, b) && b.updatedAt <= now
    requires forall i :: 0 <= i < |queue| ==> queue[i].at <= now < queue[i].at + REPEAT_INTERVAL
    ensures Units(queue, c, b.refill) == 0 || Units(queue, c, b.refill) < b.Full() + REPEAT_INTERVAL
  {
    if queue != [] && queue[0].mark.category != c {
      LiveUnits(queue[1..], c, b, now);
    }
  }

  /** At most 9 live errors and 19 live logs, so a purged queue is far below its 128-entry cap. */
  lemma {:induction false} LiveQueueIsShort(l: Limiter, clock: nat, now: nat)
    requires Valid(l, clock) && clock <= now
    ensures CountOf(Purge(l.queue, now), Error) <= 9
    ensures CountOf(Purge(l.queue, now), Log) <= 19
    ensures |Purge(l.queue, now)| <= 28
  {
    var live := Purge(l.queue, now);
    var k := PurgeIsLive(l.queue, now);
    assert live == l.queue[k..];
    FundedTail(l.queue, Error, l.errors, k);
    FundedTail(l.queue, Log, l.logs, k);
    LiveUnits(live, Error, l.errors, now);
    LiveUnits(live, Log, l.logs, now);
    UnitsAreCounts(live, Error, ERROR_REFILL);
    UnitsAreCounts(live, Log, LOG_REFILL);
    ClassesPartition(live);
  }

  /** Purging a sorted queue keeps exactly the entries younger than the repeat interval. */
  lemma {:induction false} PurgeIsLive(queue: seq<Entry>, now: nat) returns (k: nat)
    requires Sorted(queue)
    ensures k <= |queue| && Purge(queue, now) == queue[k..]
    ensures forall i :: 0 <= i < k ==> Age(now, queue[i].at) >= REPEAT_INTERVAL
    ensures forall i :: k <= i < |queue| ==> Age(now, queue[i].at) < REPEAT_INTERVAL
  {
    if queue != [] && Age(now, queue[0].at) >= REPEAT_INTERVAL {
      var j := PurgeIsLive(queue[1..], now);
      k := j + 1;
      assert queue[1..][j..] == queue[k..];
      forall i | 0 <= i < |queue|
        ensures i < k ==> Age(now, queue[i].at) >= REPEAT_INTERVAL
        ensures k <= i ==> Age(now, queue[i].at) < REPEAT_INTERVAL
      {
        if i > 0 {
          assert queue[1..][i - 1] == queue[i];
        }
      }
    } else {
      k := 0;
    }
  }

  lemma CallFacts(b: Bucket, now: nat)
    requires b.Valid() && b.updatedAt <= now
    ensures b.Call(now).0.Valid() && b.Call(now).0.updatedAt == now
    ensures b.Call(now).0.refill == b.refill && b.Call(now).0.capacity == b.capacity
    ensures b.Call(now).0.tokens - b.tokens <= now - b.updatedAt
  {
    assert b.Call(now).0.Full() == b.Full();
  }

  /** Every call keeps the limiter valid, and never evicts for lack of room. */
  lemma {:induction false} AllowKeepsValid(l: Limiter, clock: nat, d: Option<Fingerprint>, now: nat)
    requires Valid(l, clock) && clock <= now
    ensures Valid(l.Allow(d, now).0, now)
    ensures d.Some? ==> |Purge(l.queue, now)| <= 28 && |l.Allow(d, now).0.queue| <= 29
  {
    if d.Some? {
      LiveQueueIsShort(l, clock, now);
      PurgedIsValid(l, clock, now);
      var live := l.(queue := Purge(l.queue, now));
      if !Holds(live.queue, d.value) {
        ChargeKeepsValid(live, d.value, now);
      }
    }
  }

  lemma {:induction false} PurgedIsValid(l: Limiter, clock: nat, now: nat)
    requires Valid(l, clock) && clock <= now
    ensures Valid(l.(queue := Purge(l.queue, now)), now)
  {
    var k := PurgeIsLive(l.queue, now);
    FundedTail(l.queue, Error, l.errors, k);
    FundedTail(l.queue, Log, l.logs, k);
  }

  lemma {:induction false} ChargeKeepsValid(l: Limiter, f: Fingerprint, now: nat)
    requires Valid(l, now)
    ensures var c := f.category; var (b, ok) := l.BucketFor(c).Call(now);
      Valid(if ok then l.WithBucket(c, b).(queue := l.queue + [Entry(f, now)]) else l.WithBucket(c, b), now)
  {
    var c := f.category;
    var b := l.BucketFor(c);
    CallFacts(b, now);
    var (b', ok) := b.Call(now);
    if ok {
      var other := if c == Error then Log else Error;
      FundedByAdmission(l.queue, c, b, Entry(f, now));
      FundedByOther(l.queue, other, l.BucketFor(other), Entry(f, now));
    } else {
      FundedByRefill(l.queue, c, b, b');
    }
  }

  // ----- refinement -----

  /** The queue is what is left of the ledger after dropping a prefix of expired entries. */
  ghost predicate Refines(l: Limiter, g: Ledger, clock: nat) {
    && l.errors == g.errors && l.logs == g.logs
    && |l.queue| <= |g.admitted|
    && l.queue == g.admitted[|g.admitted| - |l.queue|..]
    && forall i :: 0 <= i < |g.admitted| - |l.queue| ==> Age(clock, g.admitted[i].at) >= REPEAT_INTERVAL
  }

  lemma {:induction false} RepeatedIsHeld(l: Limiter, g: Ledger, clock: nat, f: Fingerprint, now: nat)
    requires Valid(l, clock) && Refines(l, g, clock) && clock <= now
    ensures Repeated(g.admitted, f, now) <==> Holds(Purge(l.queue, now), f)
  {
    PurgeRefines(l, g, clock, now);
    OnlyTheTailRepeats(g.admitted, |g.admitted| - |Purge(l.queue, now)|, Purge(l.queue, now), f, now);
  }

  lemma {:induction false} OnlyTheTailRepeats(admitted: seq<Entry>, gone: nat, live: seq<Entry>, f: Fingerprint, now: nat)
    requires gone <= |admitted| && live == admitted[gone..]
    requires forall i :: 0 <= i < gone ==> Age(now, admitted[i].at) >= REPEAT_INTERVAL
    requires forall i :: 0 <= i < |live| ==> Age(now, live[i].at) < REPEAT_INTERVAL
    ensures Repeated(admitted, f, now) <==> Holds(live, f)
  {
    if Repeated(admitted, f, now) {
      var i :| 0 <= i < |admitted| && admitted[i].mark == f && Age(now, admitted[i].at) < REPEAT_INTERVAL;
      assert live[i - gone].mark == f;
    }
    if Holds(live, f) {
      var i :| 0 <= i < |live| && live[i].mark == f;
      assert admitted[gone + i].mark == f;
    }
  }

  /** Purging drops expired entries only, and leaves no expired entry. */
  lemma {:induction false} PurgeRefines(l: Limiter, g: Ledger, clock: nat, now: nat)
    requires Valid(l, clock) && Refines(l, g, clock) && clock <= now
    ensures Refines(l.(queue := Purge(l.queue, now)), g, now)
    ensures forall i :: 0 <= i < |Purge(l.queue, now)| ==> Age(now, Purge(l.queue, now)[i].at) < REPEAT_INTERVAL
  {
    var k := PurgeIsLive(l.queue, now);
    var gone := |g.admitted| - |l.queue|;
    assert l.queue[k..] == g.admitted[gone + k..];
    forall i | gone <= i < gone + k ensures Age(now, g.admitted[i].at) >= REPEAT_INTERVAL {
      assert g.admitted[i] == l.queue[i - gone];
    }
  }

  /** One call: same answer, and the queue still stands for the ledger. */
  lemma {:induction false} StepRefines(l: Limiter, g: Ledger, clock: nat, d: Option<Fingerprint>, now: nat)
    requires Valid(l, clock) && Refines(l, g, clock) && clock <= now
    ensures l.Allow(d, now).1 == g.Allow(d, now).1
    ensures Refines(l.Allow(d, now).0, g.Allow(d, now).0, now)
  {
    if d.Some? {
      RepeatedIsHeld(l, g, clock, d.value, now);
      PurgeRefines(l, g, clock, now);
      LiveQueueIsShort(l, clock, now);
      var c, purged := d.value.category, l.(queue := Purge(l.queue, now));
      ChargeRefines(purged, g, c, now);
      var b := l.BucketFor(c).Call(now).0;
      AdmissionRefines(purged.WithBucket(c, b), g.WithBucket(c, b), Entry(d.value, now), now);
    }
  }

  lemma ChargeRefines(l: Limiter, g: Ledger, c: Class, now: nat)
    requires Refines(l, g, now)
    ensures l.BucketFor(c) == g.BucketFor(c)
    ensures var b := l.BucketFor(c).Call(now).0; Refines(l.WithBucket(c, b), g.WithBucket(c, b), now)
  {
  }

  lemma {:induction false} AdmissionRefines(l: Limiter, g: Ledger, e: Entry, now: nat)
    requires Refines(l, g, now)
    ensures Refines(l.(queue := l.queue + [e]), g.(admitted := g.admitted + [e]), now)
  {
    assert l.queue + [e] == (g.admitted + [e])[|g.admitted| - |l.queue|..];
  }

  /** What one event of a history response offers, and when the response was received. */
  datatype Receipt = Receipt(diagnostic: Option<Fingerprint>, at: nat) {
    predicate Is(c: Class) { diagnostic.Some? && diagnostic.value.category == c }
  }

  function Answers(l: Limiter, receipts: seq<Receipt>): (r: seq<bool>)
    ensures |r| == |receipts|
    decreases |receipts|
  {
    if receipts == [] then []
    else
      var (l', ok) := l.Allow(receipts[0].diagnostic, receipts[0].at);
      [ok] + Answers(l', receipts[1..])
  }

  function LedgerAnswers(g: Ledger, receipts: seq<Receipt>): (r: seq<bool>)
    ensures |r| == |receipts|
    decreases |receipts|
  {
    if receipts == [] then []
    else
      var (g', ok) := g.Allow(receipts[0].diagnostic, receipts[0].at);
      [ok] + LedgerAnswers(g', receipts[1..])
  }

  predicate InClockOrder(clock: nat, receipts: seq<Receipt>)
    decreases |receipts|
  {
    receipts == [] || (clock <= receipts[0].at && InClockOrder(receipts[0].at, receipts[1..]))
  }

  lemma {:induction false} RunRefines(l: Limiter, g: Ledger, clock: nat, receipts: seq<Receipt>)
    requires Valid(l, clock) && Refines(l, g, clock) && InClockOrder(clock, receipts)
    ensures Answers(l, receipts) == LedgerAnswers(g, receipts)
    decreases |receipts|
  {
    if receipts != [] {
      var r := receipts[0];
      StepRefines(l, g, clock, r.diagnostic, r.at);
      AllowKeepsValid(l, clock, r.diagnostic, r.at);
      RunRefines(l.Allow(r.diagnostic, r.at).0, g.Allow(r.diagnostic, r.at).0, r.at, receipts[1..]);
    }
  }

  /** Main result: over any receipt times that never go back, the limiter answers like the unbounded ledger. */
  lemma {:induction false} LimiterAnswersLikeLedger(start: nat, receipts: seq<Receipt>)
    requires InClockOrder(start, receipts)
    ensures Answers(NewLimiter(start), receipts) == LedgerAnswers(NewLedger(start), receipts)
  {
    RunRefines(NewLimiter(start), NewLedger(start), start, receipts);
  }

  // ----- the classes do not starve each other -----

  function Only(receipts: seq<Receipt>, c: Class): seq<Receipt> {
    if receipts == [] then []
    else (if receipts[0].Is(c) then [receipts[0]] else []) + Only(receipts[1..], c)
  }

  /** The answers given to class `c` among `answers`. */
  function AnswersTo(receipts: seq<Receipt>, answers: seq<bool>, c: Class): seq<bool>
    requires |receipts| == |answers|
  {
    if receipts == [] then []
    else (if receipts[0].Is(c) then [answers[0]] else [])
         + AnswersTo(receipts[1..], answers[1..], c)
  }

  function OnlyEntries(admitted: seq<Entry>, c: Class): seq<Entry> {
    if admitted == [] then []
    else OnlyEntries(admitted[..|admitted| - 1], c)
         + if admitted[|admitted| - 1].mark.category == c then [admitted[|admitted| - 1]] else []
  }

  lemma {:induction false} OnlyEntriesMembers(admitted: seq<Entry>, c: Class, x: Entry)
    ensures x in OnlyEntries(admitted, c) <==> x in admitted && x.mark.category == c
  {
    if admitted != [] {
      var front := admitted[..|admitted| - 1];
      OnlyEntriesMembers(front, c, x);
      assert admitted == front + [admitted[|admitted| - 1]];
    }
  }

  lemma {:induction false} RepeatedWithinClass(a: seq<Entry>, b: seq<Entry>, c: Class, f: Fingerprint, now: nat)
    requires OnlyEntries(a, c) == OnlyEntries(b, c) && f.category == c
    requires Repeated(a, f, now)
    ensures Repeated(b, f, now)
  {
    var i :| 0 <= i < |a| && a[i].mark == f && Age(now, a[i].at) < REPEAT_INTERVAL;
    assert a[i] in a;
    OnlyEntriesMembers(a, c, a[i]);
    OnlyEntriesMembers(b, c, a[i]);
    var j :| 0 <= j < |b| && b[j] == a[i];
  }

  /** Two ledgers that look alike to class `c`. */
  ghost predicate AlikeFor(g: Ledger, h: Ledger, c: Class) {
    g.BucketFor(c) == h.BucketFor(c) && OnlyEntries(g.admitted, c) == OnlyEntries(h.admitted, c)
  }

  lemma OnlyEntriesSnoc(admitted: seq<Entry>, e: Entry, c: Class)
    ensures OnlyEntries(admitted + [e], c) == OnlyEntries(admitted, c) + if e.mark.category == c then [e] else []
  {
    assert (admitted + [e])[..|admitted|] == admitted;
  }

  lemma {:induction false} OwnClassStep(g: Ledger, h: Ledger, c: Class, d: Fingerprint, now: nat)
    requires AlikeFor(g, h, c) && d.category == c
    ensures g.Allow(Some(d), now).1 == h.Allow(Some(d), now).1
    ensures AlikeFor(g.Allow(Some(d), now).0, h.Allow(Some(d), now).0, c)
  {
    if Repeated(g.admitted, d, now) {
      RepeatedWithinClass(g.admitted, h.admitted, c, d, now);
    } else if Repeated(h.admitted, d, now) {
      RepeatedWithinClass(h.admitted, g.admitted, c, d, now);
    } else {
      OnlyEntriesSnoc(g.admitted, Entry(d, now), c);
      OnlyEntriesSnoc(h.admitted, Entry(d, now), c);
    }
  }

  lemma {:induction false} OtherClassStep(g: Ledger, h: Ledger, c: Class, r: Receipt)
    requires AlikeFor(g, h, c) && !r.Is(c)
    ensures AlikeFor(g.Allow(r.diagnostic, r.at).0, h, c)
  {
    if r.diagnostic.Some? {
      OnlyEntriesSnoc(g.admitted, Entry(r.diagnostic.value, r.at), c);
    }
  }

  lemma {:induction false} LedgerIgnoresOtherClass(g: Ledger, h: Ledger, c: Class, receipts: seq<Receipt>)
    requires AlikeFor(g, h, c)
    ensures AnswersTo(receipts, LedgerAnswers(g, receipts), c) == LedgerAnswers(h, Only(receipts, c))
    decreases |receipts|
  {
    if receipts != [] {
      var r := receipts[0];
      var g' := g.Allow(r.diagnostic, r.at).0;
      var rest := Only(receipts[1..], c);
      assert LedgerAnswers(g, receipts)[1..] == LedgerAnswers(g', receipts[1..]);
      if r.Is(c) {
        OwnClassStep(g, h, c, r.diagnostic.value, r.at);
        LedgerIgnoresOtherClass(g', h.Allow(r.diagnostic, r.at).0, c, receipts[1..]);
        assert Only(receipts, c) == [r] + rest && ([r] + rest)[1..] == rest;
      } else {
        OtherClassStep(g, h, c, r);
        LedgerIgnoresOtherClass(g', h, c, receipts[1..]);
        assert Only(receipts, c) == rest;
      }
    }
  }

  lemma {:induction false} OnlyInClockOrder(clock: nat, receipts: seq<Receipt>, c: Class)
    requires InClockOrder(clock, receipts)
    ensures InClockOrder(clock, Only(receipts, c))
    decreases |receipts|
  {
    if receipts != [] {
      OnlyInClockOrder(receipts[0].at, receipts[1..], c);
      if receipts[0].Is(c) {
        assert Only(receipts, c)[1..] == Only(receipts[1..], c);
      } else {
        assert Only(receipts, c) == Only(receipts[1..], c);
        Later(clock, receipts[0].at, Only(receipts[1..], c));
      }
    }
  }

  lemma Later(clock: nat, later: nat, receipts: seq<Receipt>)
    requires clock <= later && InClockOrder(later, receipts)
    ensures InClockOrder(clock, receipts)
  {
  }

  /** A flood of one class, or of undiagnosed events, never changes an answer given to the other class. */
  lemma {:induction false} ClassesDoNotStarve(start: nat, receipts: seq<Receipt>, c: Class)
    requires InClockOrder(start, receipts)
    ensures AnswersTo(receipts, Answers(NewLimiter(start), receipts), c)
         == Answers(NewLimiter(start), Only(receipts, c))
  {
    OnlyInClockOrder(start, receipts, c);
    LimiterAnswersLikeLedger(start, receipts);
    LimiterAnswersLikeLedger(start, Only(receipts, c));
    LedgerIgnoresOtherClass(NewLedger(start), NewLedger(start), c, receipts);
  }

  // ----- the mutable limiter -----

  class EventRateLimiter {
    const errors: TokenBucket
    const logs: TokenBucket
    var fingerprints: seq<Entry>

    predicate Separate()
    {
      errors != logs
    }

    function View(): Limiter
      reads this, errors, logs
    {
      Limiter(errors.View(), logs.View(), fingerprints)
    }

    constructor (now: nat)
      ensures View() == NewLimiter(now) && Valid(View(), now)
      ensures Separate() && fresh(errors) && fresh(logs)
    {
      errors := new TokenBucket(ERROR_CAPACITY, ERROR_REFILL, now);
      logs := new TokenBucket(LOG_CAPACITY, LOG_REFILL, now);
      fingerprints := [];
    }

    method Allow(e: Event, now: nat) returns (ok: bool)
      requires Separate()
      modifies this, errors, logs
      ensures (View(), ok) == old(View()).Allow(DiagnosticOf(e), now)
    {
      var diagnostic := DiagnosticOf(e);
      if diagnostic.None? {
        return true;
      }
      while fingerprints != [] && Age(now, fingerprints[0].at) >= REPEAT_INTERVAL
        invariant Purge(fingerprints, now) == Purge(old(fingerprints), now)
        invariant errors.View() == old(errors.View()) && logs.View() == old(logs.View())
        decreases |fingerprints|
      {
        fingerprints := fingerprints[1..];
      }
      var mark := diagnostic.value;
      if exists i :: 0 <= i < |fingerprints| && fingerprints[i].mark == mark {
        return false;
      }
      var bucket := if mark.category == Error then errors else logs;
      var granted := bucket.Allow(now);
      if !granted {
        return false;
      }
      if |fingerprints| == MAX_FINGERPRINTS {
        fingerprints := fingerprints[1..];
      }
      fingerprints := fingerprints + [Entry(mark, now)];
      return true;
    }
  }
}
