/**
Accounting for diagnostics that were dropped rather than delivered.

Two sources feed one backlog per slot: drops at the hub, counted one by one, and the
plugin's own cumulative counters, of which only the growth since the last snapshot
counts. A notice announces and clears the whole backlog.
*/
module Elision {
  import opened Wrappers
  import opened EventNames
  import opened ElisionSnapshot

  const U64_MAX: nat := 0xFFFF_FFFF_FFFF_FFFF
  const NOTICE_INTERVAL: nat := 60_000_000_000

  function Capped(n: nat): nat {
    Min(n, U64_MAX)
  }

  function SatAdd(a: nat, b: nat): nat {
    Capped(a + b)
  }

  function SatSub(a: nat, b: nat): nat {
    Max(a - b, 0)
  }

  datatype Pending = Pending(hub: nat, plugin: nat)

  /** The backlog of a slot that may have no entry yet. */
  function TotalOf(p: Option<Pending>): nat {
    if p.Some? then p.value.hub + p.value.plugin else 0
  }

  function PlusHub(p: Option<Pending>): Pending {
    if p.Some? then p.value.(hub := SatAdd(p.value.hub, 1)) else Pending(SatAdd(0, 1), 0)
  }

  function PlusPlugin(p: Option<Pending>, delta: nat): Pending {
    if p.Some? then p.value.(plugin := SatAdd(p.value.plugin, delta)) else Pending(0, SatAdd(0, delta))
  }

  datatype Watermark = Watermark(epoch: string, count: nat)

  function Restrict<V>(m: map<Key, V>, keys: set<Key>): map<Key, V> {
    map k | k in m && k in keys :: m[k]
  }

  function Present(slots: seq<Slot>): set<Key> {
    set s | s in slots && s.key.Some? :: s.key.value
  }

  function Truncated(slots: seq<Slot>): seq<Slot> {
    if |slots| <= MAX_KEYS then slots else slots[..MAX_KEYS]
  }

  predicate SameEpoch(w: Option<Watermark>, s: Slot) {
    w.Some? && w.value.epoch == s.epoch
  }

  /** Permission changes start a fresh zero-based counter under a new epoch. */
  predicate NewEpoch(w: Option<Watermark>, s: Slot) {
    w.Some? && !SameEpoch(w, s)
  }

  /** Growth of a plugin counter that has not been counted yet. */
  function Delta(w: Option<Watermark>, s: Slot, baseline: bool): nat {
    if baseline then 0
    else if SameEpoch(w, s) then SatSub(s.count, w.value.count)
    else s.count
  }

  /** What one slot does to its own backlog and watermark; there is no capacity in sight. */
  function SlotPending(p: Option<Pending>, w: Option<Watermark>, s: Slot, baseline: bool): Option<Pending> {
    var kept := if NewEpoch(w, s) then None else p;
    var delta := Delta(w, s, baseline);
    if delta == 0 then kept
    else Some(PlusPlugin(kept, delta))
  }

  function SlotWatermark(w: Option<Watermark>, s: Slot): Watermark {
    if SameEpoch(w, s) then Watermark(s.epoch, Max(w.value.count, s.count))
    else Watermark(s.epoch, s.count)
  }

  datatype Reporter = Reporter(
    pending: map<Key, Pending>,
    source: map<Key, Watermark>,
    hasSource: bool,
    lastNotice: Option<nat>)
  {
    predicate HasRoom(k: Key) { |pending| < MAX_KEYS || k in pending }

    predicate Counts(k: Key) { (hasSource ==> k in source) && HasRoom(k) }

    function DroppedAtHub(key: Option<Key>): Reporter {
      if key.None? || !Counts(key.value) then this
      else this.(pending := pending[key.value := PlusHub(Get(pending, key.value))])
    }

    /** One turn of the snapshot loop, with both capacity guards. */
    function ObserveSlot(s: Slot, baseline: bool): Reporter {
      if s.key.None? || (|source| >= MAX_KEYS && s.key.value !in source) then this
      else
        var k := s.key.value;
        var w := Get(source, k);
        var delta := Delta(w, s, baseline);
        var kept := if NewEpoch(w, s) then pending - {k} else pending;
        var count := if SameEpoch(w, s) then Max(w.value.count, s.count) else s.count;
        var next := this.(pending := kept, source := source[k := Watermark(s.epoch, count)]);
        if delta > 0 && next.HasRoom(k) then
          next.(pending := kept[k := PlusPlugin(Get(kept, k), delta)])
        else next
    }

    /** The same turn without the guards: the slot acts on its own entries only. */
    function ObserveFreely(s: Slot, baseline: bool): Reporter
      requires s.key.Some?
    {
      var k := s.key.value;
      var p := SlotPending(Get(pending, k), Get(source, k), s, baseline);
      this.(pending := if p.Some? then pending[k := p.value] else pending - {k},
            source := source[k := SlotWatermark(Get(source, k), s)])
    }

    function ObserveSlots(slots: seq<Slot>, baseline: bool): Reporter {
      if slots == [] then this
      else ObserveSlots(slots[..|slots| - 1], baseline).ObserveSlot(slots[|slots| - 1], baseline)
    }

    function Retain(slots: seq<Slot>): Reporter {
      this.(hasSource := true, pending := Restrict(pending, Present(slots)), source := Restrict(source, Present(slots)))
    }

    function Observe(snapshot: Option<seq<Slot>>, baseline: bool): Reporter {
      if snapshot.None? then this
      else
        var slots := Truncated(snapshot.value);
        Retain(slots).ObserveSlots(slots, baseline)
    }

    function Revoke(scope: Scope): Reporter {
      this.(pending := map k | k in pending && k.scope != scope :: pending[k])
    }

    predicate NoticeDue(now: nat) {
      lastNotice.None? || Max(now - lastNotice.value, 0) >= NOTICE_INTERVAL
    }

    ghost function TakeNotice(now: nat): (Reporter, Option<nat>) {
      var count := Capped(Backlog(pending));
      if !NoticeDue(now) || count == 0 then (this, None)
      else (this.(pending := map[], lastNotice := Some(now)), Some(count))
    }
  }

  /** A reporter that has seen nothing. */
  function NewReporter(): Reporter { Reporter(map[], map[], false, None) }

  ghost function Backlog(pending: map<Key, Pending>): nat {
    if pending == map[] then 0
    else
      var k :| k in pending;
      TotalOf(Some(pending[k])) + Backlog(pending - {k})
  }

  lemma {:induction false} BacklogAt(pending: map<Key, Pending>, k: Key)
    requires k in pending
    ensures Backlog(pending) == TotalOf(Some(pending[k])) + Backlog(pending - {k})
    decreases |pending|
  {
    var c :| c in pending && Backlog(pending) == TotalOf(Some(pending[c])) + Backlog(pending - {c});
    if c != k {
      BacklogAt(pending - {c}, k);
      BacklogAt(pending - {k}, c);
      assert pending - {c} - {k} == pending - {k} - {c};
    }
  }

  // ----- a snapshot acts on each slot alone -----

  /** The slot a snapshot has for `k`. */
  function SlotFor(slots: seq<Slot>, k: Key): Option<Slot> {
    if slots == [] then None
    else if slots[0].key == Some(k) then Some(slots[0])
    else SlotFor(slots[1..], k)
  }

  lemma {:induction false} SlotForFacts(slots: seq<Slot>, k: Key)
    ensures SlotFor(slots, k).Some? <==> k in Present(slots)
    ensures SlotFor(slots, k).Some? ==> SlotFor(slots, k).value in slots && SlotFor(slots, k).value.key == Some(k)
  {
    if slots != [] {
      SlotForFacts(slots[1..], k);
      assert slots == [slots[0]] + slots[1..];
    }
  }

  lemma {:induction false} PresentFacts(slots: seq<Slot>)
    ensures forall k :: k in Present(slots) <==> exists i :: 0 <= i < |slots| && slots[i].key == Some(k)
    ensures |Present(slots)| <= |slots|
  {
    if slots != [] {
      PresentFacts(slots[1..]);
      var head := if slots[0].key.Some? then {slots[0].key.value} else {};
      assert slots == [slots[0]] + slots[1..];
      assert Present(slots) == head + Present(slots[1..]);
    }
    forall k ensures k in Present(slots) <==> exists i :: 0 <= i < |slots| && slots[i].key == Some(k) {
      if k in Present(slots) {
        var s :| s in slots && s.key == Some(k);
      }
    }
  }

  lemma {:induction false} StrictlySmaller(small: set<Key>, large: set<Key>, k: Key)
    requires small <= large && k in large && k !in small
    ensures |small| < |large|
  {
    assert large == (small + {k}) + (large - small - {k});
  }

  lemma {:induction false} SameMap<V>(a: map<Key, V>, b: map<Key, V>, keys: set<Key>)
    requires a.Keys <= keys && b.Keys <= keys
    requires forall k :: k in keys ==> Get(a, k) == Get(b, k)
    ensures a == b
  {
    forall k ensures (k in a <==> k in b) && (k in a && k in b ==> a[k] == b[k]) {
      if k in keys {
        assert Get(a, k) == Get(b, k);
      }
    }
  }

  lemma {:induction false} RoomWithin(keys: set<Key>, present: set<Key>, k: Key)
    requires keys <= present && k in present && |present| <= MAX_KEYS
    ensures |keys| < MAX_KEYS || k in keys
  {
    if k !in keys {
      StrictlySmaller(keys, present, k);
    }
  }

  /** Within a snapshot of at most 128 distinct slots neither capacity guard ever fires. */
  lemma {:induction false} GuardsNeverFire(r: Reporter, s: Slot, baseline: bool, present: set<Key>)
    requires s.key.Some? && s.key.value in present && |present| <= MAX_KEYS
    requires r.source.Keys <= present && r.pending.Keys <= present
    ensures r.ObserveSlot(s, baseline) == r.ObserveFreely(s, baseline)
  {
    var k := s.key.value;
    RoomWithin(r.source.Keys, present, k);
    RoomWithin(r.pending.Keys, present, k);
    RoomWithin((r.pending - {k}).Keys, present, k);
    assert |r.pending.Keys| == |r.pending| && |(r.pending - {k}).Keys| == |r.pending - {k}|;
    Unguarded(r, s, baseline);
  }

  lemma {:induction false} Unguarded(r: Reporter, s: Slot, baseline: bool)
    requires s.key.Some?
    requires var k := s.key.value;
      && (|r.source| < MAX_KEYS || k in r.source) && r.HasRoom(k) && r.(pending := r.pending - {k}).HasRoom(k)
    ensures r.ObserveSlot(s, baseline) == r.ObserveFreely(s, baseline)
  {
    var k := s.key.value;
    var w, p := Get(r.source, k), Get(r.pending, k);
    var delta := Delta(w, s, baseline);
    if NewEpoch(w, s) {
      assert (r.pending - {k})[k := PlusPlugin(None, delta)] == r.pending[k := PlusPlugin(None, delta)];
    } else if k in r.pending {
      assert r.pending[k := r.pending[k]] == r.pending;
    } else {
      assert r.pending - {k} == r.pending;
    }
  }

  lemma {:induction false} FreelyActsAlone(r: Reporter, s: Slot, baseline: bool)
    requires s.key.Some?
    ensures var r' := r.ObserveFreely(s, baseline); var k := s.key.value;
      && Get(r'.source, k) == Some(SlotWatermark(Get(r.source, k), s))
      && Get(r'.pending, k) == SlotPending(Get(r.pending, k), Get(r.source, k), s, baseline)
      && (forall x :: x != k ==> Get(r'.source, x) == Get(r.source, x) && Get(r'.pending, x) == Get(r.pending, x))
      && r'.source.Keys <= r.source.Keys + {k} && r'.pending.Keys <= r.pending.Keys + {k}
  {
  }

  /** What the snapshot loop has made of slot `s`, before and after its turn. */
  ghost predicate SlotDone(r: Reporter, r': Reporter, s: Slot, baseline: bool, done: bool)
    requires s.key.Some?
  {
    var k := s.key.value;
    if done then
      && Get(r'.source, k) == Some(SlotWatermark(Get(r.source, k), s))
      && Get(r'.pending, k) == SlotPending(Get(r.pending, k), Get(r.source, k), s, baseline)
    else
      Get(r'.source, k) == Get(r.source, k) && Get(r'.pending, k) == Get(r.pending, k)
  }

  /** The state while the snapshot loop has handled `slots[..i]`. */
  ghost predicate Handled(r: Reporter, r': Reporter, slots: seq<Slot>, i: nat, baseline: bool) {
    && r'.hasSource && r'.lastNotice == r.lastNotice
    && r'.source.Keys <= Present(slots) && r'.pending.Keys <= Present(slots)
    && forall j :: 0 <= j < |slots| && slots[j].key.Some? ==> SlotDone(r, r', slots[j], baseline, j < i)
  }

  lemma {:induction false} HandledStep(r: Reporter, r': Reporter, slots: seq<Slot>, i: nat, baseline: bool)
    requires DistinctKeys(slots) && |slots| <= MAX_KEYS && i < |slots|
    requires Handled(r, r', slots, i, baseline)
    ensures Handled(r, r'.ObserveSlot(slots[i], baseline), slots, i + 1, baseline)
  {
    PresentFacts(slots);
    if slots[i].key.Some? {
      var k := slots[i].key.value;
      assert k in Present(slots);
      GuardsNeverFire(r', slots[i], baseline, Present(slots));
      FreelyActsAlone(r', slots[i], baseline);
      var r'' := r'.ObserveSlot(slots[i], baseline);
      assert SlotDone(r, r', slots[i], baseline, false);
      forall j | 0 <= j < |slots| && slots[j].key.Some? ensures SlotDone(r, r'', slots[j], baseline, j < i + 1) {
        assert SlotDone(r, r', slots[j], baseline, j < i);
        if j != i {
          assert slots[j].key != slots[i].key;
        }
      }
    } else {
      forall j | 0 <= j < |slots| && slots[j].key.Some? ensures SlotDone(r, r', slots[j], baseline, j < i + 1) {
        assert SlotDone(r, r', slots[j], baseline, j < i);
      }
    }
  }

  lemma {:induction false} ObserveSlotsHandled(r: Reporter, slots: seq<Slot>, i: nat, baseline: bool)
    requires DistinctKeys(slots) && |slots| <= MAX_KEYS && i <= |slots|
    ensures Handled(r, r.Retain(slots).ObserveSlots(slots[..i], baseline), slots, i, baseline)
  {
    PresentFacts(slots);
    if i > 0 {
      ObserveSlotsHandled(r, slots, i - 1, baseline);
      assert slots[..i][..i - 1] == slots[..i - 1];
      HandledStep(r, r.Retain(slots).ObserveSlots(slots[..i - 1], baseline), slots, i - 1, baseline);
    }
  }

  /**
  A validated snapshot acts on each slot alone: slot by slot, order and capacity do not
  matter, and every key it does not list is forgotten.
  */
  lemma {:induction false} SnapshotIsPointwise(r: Reporter, slots: seq<Slot>, baseline: bool, k: Key)
    requires DistinctKeys(slots) && |slots| <= MAX_KEYS
    ensures var r' := r.Observe(Some(slots), baseline); var s := SlotFor(slots, k);
      && r'.hasSource && r'.lastNotice == r.lastNotice
      && (if s.None? then Get(r'.source, k) == None && Get(r'.pending, k) == None
          else
            && Get(r'.source, k) == Some(SlotWatermark(Get(r.source, k), s.value))
            && Get(r'.pending, k) == SlotPending(Get(r.pending, k), Get(r.source, k), s.value, baseline))
  {
    ObserveSlotsHandled(r, slots, |slots|, baseline);
    assert slots[..|slots|] == slots;
    SlotForFacts(slots, k);
    var r' := r.Observe(Some(slots), baseline);
    if SlotFor(slots, k).Some? {
      var i :| 0 <= i < |slots| && slots[i] == SlotFor(slots, k).value;
      assert SlotDone(r, r', slots[i], baseline, true);
    }
  }

  /** After any validated snapshot: `source` lists exactly its slots and `pending` only some of them. */
  lemma {:induction false} SnapshotBoundsKeys(r: Reporter, slots: seq<Slot>, baseline: bool)
    requires DistinctKeys(slots) && |slots| <= MAX_KEYS
    ensures var r' := r.Observe(Some(slots), baseline);
      r'.source.Keys == Present(slots) && r'.pending.Keys <= Present(slots) && |Present(slots)| <= MAX_KEYS
  {
    PresentFacts(slots);
    var r' := r.Observe(Some(slots), baseline);
    forall k ensures (k in r'.source <==> k in Present(slots)) && (k in r'.pending ==> k in Present(slots)) {
      SnapshotIsPointwise(r, slots, baseline, k);
      SlotForFacts(slots, k);
    }
  }

  lemma {:induction false} SlotTwice(p: Option<Pending>, w: Option<Watermark>, s: Slot, baseline: bool, again: bool)
    ensures var (p', w') := (SlotPending(p, w, s, baseline), SlotWatermark(w, s));
      SlotWatermark(Some(w'), s) == w' && SlotPending(p', Some(w'), s, again) == p'
  {
  }

  /** Seeing the same snapshot again, even as the other kind, changes nothing. */
  lemma {:induction false} SnapshotIsIdempotent(r: Reporter, slots: seq<Slot>, baseline: bool, again: bool)
    requires DistinctKeys(slots) && |slots| <= MAX_KEYS
    ensures r.Observe(Some(slots), baseline).Observe(Some(slots), again) == r.Observe(Some(slots), baseline)
  {
    var once := r.Observe(Some(slots), baseline);
    var twice := once.Observe(Some(slots), again);
    PresentFacts(slots);
    SnapshotBoundsKeys(r, slots, baseline);
    SnapshotBoundsKeys(once, slots, again);
    forall k | k in Present(slots)
      ensures Get(twice.pending, k) == Get(once.pending, k) && Get(twice.source, k) == Get(once.source, k)
    {
      SlotForFacts(slots, k);
      SnapshotIsPointwise(r, slots, baseline, k);
      SnapshotIsPointwise(once, slots, again, k);
      SlotTwice(Get(r.pending, k), Get(r.source, k), SlotFor(slots, k).value, baseline, again);
    }
    SameMap(twice.pending, once.pending, Present(slots));
    SameMap(twice.source, once.source, Present(slots));
    SnapshotIsPointwise(r, slots, baseline, Key("", "", Other));
    SnapshotIsPointwise(once, slots, again, Key("", "", Other));
  }

  // ----- runs -----

  datatype Op =
    | Dropped(key: Option<Key>)
    | Snapshot(slots: Option<seq<Slot>>, baseline: bool)
    | Revoked(scope: Scope)
    | Notice(now: nat)

  predicate Wellformed(op: Op) {
    op.Snapshot? && op.slots.Some? ==> DistinctKeys(op.slots.value) && |op.slots.value| <= MAX_KEYS
  }

  ghost function Step(r: Reporter, op: Op): Reporter {
    match op
    case Dropped(key) => r.DroppedAtHub(key)
    case Snapshot(slots, baseline) => r.Observe(slots, baseline)
    case Revoked(scope) => r.Revoke(scope)
    case Notice(now) => r.TakeNotice(now).0
  }

  ghost function Run(r: Reporter, ops: seq<Op>): Reporter
    decreases |ops|
  {
    if ops == [] then r else Run(Step(r, ops[0]), ops[1..])
  }

  function Held(r: Reporter, k: Key): nat {
    TotalOf(Get(r.pending, k))
  }

  /** Drops credited to `k` by the plugin's own count. */
  ghost function PluginCredit(r: Reporter, op: Op, k: Key): nat {
    if op.Snapshot? && op.slots.Some? && SlotFor(op.slots.value, k).Some?
    then Delta(Get(r.source, k), SlotFor(op.slots.value, k).value, op.baseline) else 0
  }

  function HubCredit(r: Reporter, op: Op, k: Key): nat {
    if op == Dropped(Some(k)) && r.Counts(k) then 1 else 0
  }

  ghost function Announced(r: Reporter, op: Op, k: Key): nat {
    if op.Notice? && r.TakeNotice(op.now).1.Some? then Held(r, k) else 0
  }

  /** Backlog of `k` that a revocation, an omission from a snapshot or a new epoch throws away. */
  ghost function Discarded(r: Reporter, op: Op, k: Key): nat {
    match op
    case Revoked(scope) => if k.scope == scope then Held(r, k) else 0
    case Snapshot(slots, _) =>
      if slots.None? then 0
      else
        var s := SlotFor(slots.value, k);
        if s.None? || NewEpoch(Get(r.source, k), s.value) then Held(r, k) else 0
    case _ => 0
  }

  lemma {:induction false} SlotConserves(p: Option<Pending>, w: Option<Watermark>, s: Slot, baseline: bool)
    ensures
      var held, credit := TotalOf(p), Delta(w, s, baseline);
      var held' := TotalOf(SlotPending(p, w, s, baseline));
      var discarded := if NewEpoch(w, s) then held else 0;
      && held' + discarded <= held + credit
      && (held + credit <= U64_MAX ==> held' + discarded == held + credit)
  {
    var kept := if NewEpoch(w, s) then None else p;
    PlusPluginConserves(kept, Delta(w, s, baseline));
  }

  lemma {:induction false} PlusPluginConserves(p: Option<Pending>, delta: nat)
    ensures TotalOf(Some(PlusPlugin(p, delta))) <= TotalOf(p) + delta
    ensures TotalOf(p) + delta <= U64_MAX ==> TotalOf(Some(PlusPlugin(p, delta))) == TotalOf(p) + delta
  {
  }

  lemma {:induction false} SnapshotConserves(r: Reporter, slots: seq<Slot>, baseline: bool, k: Key)
    requires DistinctKeys(slots) && |slots| <= MAX_KEYS
    ensures Balances(r, Snapshot(Some(slots), baseline), k)
  {
    SnapshotIsPointwise(r, slots, baseline, k);
    if SlotFor(slots, k).Some? {
      SlotConserves(Get(r.pending, k), Get(r.source, k), SlotFor(slots, k).value, baseline);
    }
  }

  /** One step: nothing is lost to the books, and below u64 saturation nothing at all. */
  ghost predicate Balances(r: Reporter, op: Op, k: Key) {
    var credit, out := Credit(r, op, k), Held(Step(r, op), k) + Announced(r, op, k) + Discarded(r, op, k);
    out <= Held(r, k) + credit && (Held(r, k) + credit <= U64_MAX ==> out == Held(r, k) + credit)
  }

  ghost function Credit(r: Reporter, op: Op, k: Key): nat {
    PluginCredit(r, op, k) + HubCredit(r, op, k)
  }

  lemma {:induction false} StepConserves(r: Reporter, op: Op, k: Key)
    requires Wellformed(op)
    ensures Balances(r, op, k)
  {
    if op.Snapshot? && op.slots.Some? {
      SnapshotConserves(r, op.slots.value, op.baseline, k);
    }
  }

  ghost function Credits(r: Reporter, ops: seq<Op>, k: Key): nat
    decreases |ops|
  {
    if ops == [] then 0
    else Credit(r, ops[0], k) + Credits(Step(r, ops[0]), ops[1..], k)
  }

  ghost function Announcements(r: Reporter, ops: seq<Op>, k: Key): nat
    decreases |ops|
  {
    if ops == [] then 0 else Announced(r, ops[0], k) + Announcements(Step(r, ops[0]), ops[1..], k)
  }

  ghost function Discards(r: Reporter, ops: seq<Op>, k: Key): nat
    decreases |ops|
  {
    if ops == [] then 0 else Discarded(r, ops[0], k) + Discards(Step(r, ops[0]), ops[1..], k)
  }

  /**
  Main result: whatever happens, every drop credited to a slot is announced, still
  pending, or thrown away by a revocation, an omission or a new epoch. Saturation can
  only lose counts, and none below 2^64.
  */
  lemma {:induction false} DropsAreConserved(r: Reporter, ops: seq<Op>, k: Key)
    requires forall i :: 0 <= i < |ops| ==> Wellformed(ops[i])
    ensures Held(Run(r, ops), k) + Announcements(r, ops, k) + Discards(r, ops, k) <= Held(r, k) + Credits(r, ops, k)
    ensures Held(r, k) + Credits(r, ops, k) <= U64_MAX ==>
      Held(Run(r, ops), k) + Announcements(r, ops, k) + Discards(r, ops, k) == Held(r, k) + Credits(r, ops, k)
    decreases |ops|
  {
    if ops != [] {
      StepConserves(r, ops[0], k);
      DropsAreConserved(Step(r, ops[0]), ops[1..], k);
    }
  }

  // ----- what the plugin's counters are worth -----

  /** `k` is listed in `epoch` by every snapshot of the run, none of them a baseline. */
  ghost predicate Continuous(ops: seq<Op>, k: Key, epoch: string) {
    forall i :: 0 <= i < |ops| && ops[i].Snapshot? && ops[i].slots.Some? ==>
      && Wellformed(ops[i]) && !ops[i].baseline
      && SlotFor(ops[i].slots.value, k).Some? && SlotFor(ops[i].slots.value, k).value.epoch == epoch
  }

  /** The largest count shown for `k`, starting from `b`. */
  ghost function HighestCount(ops: seq<Op>, k: Key, b: nat): nat
    decreases |ops|
  {
    if ops == [] then b
    else if ops[0].Snapshot? && ops[0].slots.Some? && SlotFor(ops[0].slots.value, k).Some?
    then HighestCount(ops[1..], k, Max(b, SlotFor(ops[0].slots.value, k).value.count))
    else HighestCount(ops[1..], k, b)
  }

  ghost function PluginCredits(r: Reporter, ops: seq<Op>, k: Key): nat
    decreases |ops|
  {
    if ops == [] then 0 else PluginCredit(r, ops[0], k) + PluginCredits(Step(r, ops[0]), ops[1..], k)
  }

  /**
  However the snapshots repeat, regress or interleave with drops, notices and
  revocations, the plugin contributes exactly its highest count less the starting one.
  */
  lemma {:induction false} PluginCreditIsGrowth(r: Reporter, ops: seq<Op>, k: Key, epoch: string, b: nat)
    requires Get(r.source, k) == Some(Watermark(epoch, b))
    requires Continuous(ops, k, epoch)
    ensures PluginCredits(r, ops, k) == HighestCount(ops, k, b) - b
    ensures Get(Run(r, ops).source, k) == Some(Watermark(epoch, HighestCount(ops, k, b)))
    decreases |ops|
  {
    if ops != [] {
      var op := ops[0];
      var b' := b;
      if op.Snapshot? && op.slots.Some? {
        SnapshotIsPointwise(r, op.slots.value, op.baseline, k);
        b' := Max(b, SlotFor(op.slots.value, k).value.count);
      }
      assert Get(Step(r, op).source, k) == Some(Watermark(epoch, b'));
      PluginCreditIsGrowth(Step(r, op), ops[1..], k, epoch, b');
      HighestCountGrows(ops[1..], k, b');
    }
  }

  lemma {:induction false} HighestCountGrows(ops: seq<Op>, k: Key, b: nat)
    ensures HighestCount(ops, k, b) >= b
    decreases |ops|
  {
    if ops != [] {
      if ops[0].Snapshot? && ops[0].slots.Some? && SlotFor(ops[0].slots.value, k).Some? {
        HighestCountGrows(ops[1..], k, Max(b, SlotFor(ops[0].slots.value, k).value.count));
      } else {
        HighestCountGrows(ops[1..], k, b);
      }
    }
  }

  // ----- notices -----

  ghost function Notices(r: Reporter, ops: seq<Op>): seq<(nat, nat)>
    decreases |ops|
  {
    if ops == [] then []
    else
      (if ops[0].Notice? && r.TakeNotice(ops[0].now).1.Some?
       then [(ops[0].now, r.TakeNotice(ops[0].now).1.value)] else [])
      + Notices(Step(r, ops[0]), ops[1..])
  }

  /** Notices are positive and at least 60 seconds apart, even if the clock jumps back in between. */
  lemma {:induction false} NoticesAreSpaced(r: Reporter, ops: seq<Op>)
    ensures forall i :: 0 <= i < |Notices(r, ops)| ==> Notices(r, ops)[i].1 > 0
    ensures forall i, j :: 0 <= i < j < |Notices(r, ops)| ==>
      Notices(r, ops)[j].0 >= Notices(r, ops)[i].0 + NOTICE_INTERVAL
    ensures r.lastNotice.Some? ==> forall i :: 0 <= i < |Notices(r, ops)| ==>
      Notices(r, ops)[i].0 >= r.lastNotice.value + NOTICE_INTERVAL
    decreases |ops|
  {
    if ops != [] {
      var next := Step(r, ops[0]);
      NoticesAreSpaced(next, ops[1..]);
      LastNoticeStep(r, ops[0]);
      assert Notices(r, ops) == (if ops[0].Notice? && r.TakeNotice(ops[0].now).1.Some?
       then [(ops[0].now, r.TakeNotice(ops[0].now).1.value)] else []) + Notices(next, ops[1..]);
    }
  }

  lemma {:induction false} LastNoticeStep(r: Reporter, op: Op)
    ensures Step(r, op).lastNotice ==
      if op.Notice? && r.TakeNotice(op.now).1.Some? then Some(op.now) else r.lastNotice
  {
    if op.Snapshot? && op.slots.Some? {
      ObserveSlotsKeepNotice(r.Retain(Truncated(op.slots.value)), Truncated(op.slots.value), op.baseline);
    }
  }

  lemma ObserveSlotsKeepNotice(r: Reporter, slots: seq<Slot>, baseline: bool)
    ensures r.ObserveSlots(slots, baseline).lastNotice == r.lastNotice
  {
  }

  // ----- capacity between snapshots -----

  /** Once the plugin reports slots, the backlog stays within them. */
  ghost predicate Bounded(r: Reporter) {
    && |r.pending| <= MAX_KEYS && |r.source| <= MAX_KEYS
    && (r.hasSource ==> r.pending.Keys <= r.source.Keys)
  }

  lemma {:induction false} StepKeepsBounded(r: Reporter, op: Op)
    requires Bounded(r) && Wellformed(op)
    ensures Bounded(Step(r, op))
  {
    match op
    case Dropped(key) => DropKeepsBounded(r, key);
    case Snapshot(slots, baseline) =>
      if slots.Some? { SnapshotKeepsBounded(r, slots.value, baseline); }
    case Revoked(scope) => SubsetSize(r.Revoke(scope).pending.Keys, r.pending.Keys);
    case Notice(now) =>
  }

  lemma {:induction false} DropKeepsBounded(r: Reporter, key: Option<Key>)
    requires Bounded(r)
    ensures Bounded(r.DroppedAtHub(key))
  {
    if key.Some? && r.Counts(key.value) { OneMoreKey(r.pending, key.value, PlusHub(Get(r.pending, key.value))); }
  }

  lemma OneMoreKey(pending: map<Key, Pending>, k: Key, p: Pending)
    ensures pending[k := p].Keys == pending.Keys + {k}
    ensures |pending[k := p]| == |pending| + if k in pending then 0 else 1
  {
    assert pending[k := p].Keys == pending.Keys + {k};
    if k in pending { assert pending.Keys + {k} == pending.Keys; }
  }

  lemma {:induction false} SnapshotKeepsBounded(r: Reporter, slots: seq<Slot>, baseline: bool)
    requires DistinctKeys(slots) && |slots| <= MAX_KEYS
    ensures Bounded(r.Observe(Some(slots), baseline))
  {
    SnapshotBoundsKeys(r, slots, baseline);
    SubsetSize(r.Observe(Some(slots), baseline).pending.Keys, Present(slots));
  }

  /** Neither map ever outgrows the 128 keys, whatever the run. */
  lemma {:induction false} RunKeepsBounded(r: Reporter, ops: seq<Op>)
    requires Bounded(r) && forall i :: 0 <= i < |ops| ==> Wellformed(ops[i])
    ensures Bounded(Run(r, ops))
    decreases |ops|
  {
    if ops != [] {
      StepKeepsBounded(r, ops[0]);
      RunKeepsBounded(Step(r, ops[0]), ops[1..]);
    }
  }

  lemma EveryReporterIsBounded(ops: seq<Op>)
    requires forall i :: 0 <= i < |ops| ==> Wellformed(ops[i])
    ensures Bounded(Run(NewReporter(), ops))
  {
    RunKeepsBounded(NewReporter(), ops);
  }

  /** With a reporting plugin, a hub drop is counted exactly when its slot is enabled. */
  lemma {:induction false} EnabledDropsAlwaysCount(r: Reporter, k: Key)
    requires Bounded(r) && r.hasSource
    ensures r.Counts(k) <==> k in r.source
  {
    if k in r.source && k !in r.pending {
      StrictlySmaller(r.pending.Keys, r.source.Keys, k);
    }
  }

  lemma ObserveOneMore(r: Reporter, slots: seq<Slot>, i: nat, baseline: bool)
    requires i < |slots|
    ensures r.ObserveSlots(slots[..i + 1], baseline) == r.ObserveSlots(slots[..i], baseline).ObserveSlot(slots[i], baseline)
  {
    assert slots[..i + 1][..i] == slots[..i];
  }

  // ----- the mutable reporter -----

  class EventElisionReporter {
    var pending: map<Key, Pending>
    var source: map<Key, Watermark>
    var hasSourceSnapshot: bool
    var lastNotice: Option<nat>

    function View(): Reporter
      reads this
    {
      Reporter(pending, source, hasSourceSnapshot, lastNotice)
    }

    constructor ()
      ensures View() == NewReporter()
    {
      pending, source, hasSourceSnapshot, lastNotice := map[], map[], false, None;
    }

    /** `level` is the log level of a log event. */
    method DroppedAtHub(event: string, level: Option<string>, chatEnabled: bool)
      modifies this
      ensures View() == old(View()).DroppedAtHub(if chatEnabled then KeyOf(event, level) else None)
    {
      if !chatEnabled {
        return;
      }
      var key := KeyOf(event, level);
      if key.None? {
        return;
      }
      if hasSourceSnapshot && key.value !in source {
        return;
      }
      if |pending| < MAX_KEYS || key.value in pending {
        pending := pending[key.value := PlusHub(Get(pending, key.value))];
      }
    }

    method ObserveSource(snapshot: Option<seq<ElidedEventCount>>, baseline: bool)
      modifies this
      ensures View() == old(View()).Observe(if snapshot.Some? then Some(SlotsOf(snapshot.value)) else None, baseline)
    {
      if snapshot.None? {
        return;
      }
      hasSourceSnapshot := true;
      var slots := Truncated(SlotsOf(snapshot.value));
      var present := Present(slots);
      pending := Restrict(pending, present);
      source := Restrict(source, present);
      ObserveItems(slots, baseline);
    }

    method ObserveItems(slots: seq<Slot>, baseline: bool)
      modifies this
      ensures View() == old(View()).ObserveSlots(slots, baseline)
    {
      ghost var before := View();
      for i := 0 to |slots|
        invariant View() == before.ObserveSlots(slots[..i], baseline)
      {
        ObserveOneMore(before, slots, i, baseline);
        ObserveItem(slots[i], baseline);
      }
      assert slots[..|slots|] == slots;
    }

    method ObserveItem(item: Slot, baseline: bool)
      modifies this
      ensures View() == old(View()).ObserveSlot(item, baseline)
    {
      if item.key.None? {
        return;
      }
      var key := item.key.value;
      if |source| >= MAX_KEYS && key !in source {
        return;
      }
      var previous := Get(source, key);
      var delta := Delta(previous, item, baseline);
      if NewEpoch(previous, item) {
        pending := pending - {key};
      }
      var count := if SameEpoch(previous, item)
                   then Max(previous.value.count, item.count) else item.count;
      source := source[key := Watermark(item.epoch, count)];
      if delta > 0 && (|pending| < MAX_KEYS || key in pending) {
        pending := pending[key := PlusPlugin(Get(pending, key), delta)];
      }
    }

    method RevokeScope(scope: Scope)
      modifies this
      ensures View() == old(View()).Revoke(scope)
    {
      pending := map k | k in pending && k.scope != scope :: pending[k];
    }

    method TakeNotice(now: nat) returns (notice: Option<nat>)
      modifies this
      ensures (View(), notice) == old(View()).TakeNotice(now)
    {
      if lastNotice.Some? && Max(now - lastNotice.value, 0) < NOTICE_INTERVAL {
        return None;
      }
      var count := SaturatingSum(pending);
      if count == 0 {
        return None;
      }
      pending := map[];
      lastNotice := Some(now);
      return Some(count);
    }

  }

  /** Adds up the backlog in whatever order the map yields it. */
  method SaturatingSum(pending: map<Key, Pending>) returns (count: nat)
    ensures count == Capped(Backlog(pending))
  {
    count := 0;
    var rest := pending;
    while |rest| > 0
      invariant Capped(Backlog(pending)) == Capped(count + Backlog(rest)) && count == Capped(count)
      decreases |rest|
    {
      var k :| k in rest;
      FoldStep(rest, k, count, Backlog(pending));
      count := SatAdd(SatAdd(count, rest[k].hub), rest[k].plugin);
      rest := rest - {k};
    }
  }

  /** Saturating along the way is the same as saturating the sum. */
  lemma {:induction false} FoldStep(rest: map<Key, Pending>, k: Key, count: nat, total: nat)
    requires k in rest && Capped(total) == Capped(count + Backlog(rest))
    ensures var next := SatAdd(SatAdd(count, rest[k].hub), rest[k].plugin);
      Capped(total) == Capped(next + Backlog(rest - {k})) && next == Capped(next)
    ensures |rest - {k}| < |rest|
  {
    BacklogAt(rest, k);
    assert rest.Keys == (rest - {k}).Keys + {k};
  }
}
