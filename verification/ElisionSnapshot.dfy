/** The wire side of elision accounting: slots of a counter snapshot and their validation. */
module ElisionSnapshot {
  import opened Wrappers
  import opened Text
  import opened EventNames
  import opened Events

  const MAX_KEYS: nat := 128

  /** One decoded array element of the snapshot. */
  datatype ElidedEventCount = ElidedEventCount(event: string, level: Option<string>, count: nat, epoch: string)

  /** An accounting slot. The scope is a function of the event and is carried for reading. */
  datatype Key = Key(event: string, level: string, scope: Scope)

  predicate IsElidable(event: string) {
    && Utf8Len(event) <= 64
    && event != "CHATSTRONOMY-COMMAND-FAILED"
    && (StartsWith(event, "ERROR-") || EndsWith(event, "-FAILED") || EndsWith(event, "-TIMEOUT")
        || event == "NINA-LOG" || event == "NINA-NOTIFICATION")
  }

  function SlotLevel(event: string, level: Option<string>): string {
    if event == "NINA-LOG" then NormalizeLogLevel(level) else ""
  }

  function KeyOf(event: string, level: Option<string>): Option<Key> {
    if IsElidable(event) then Some(Key(event, SlotLevel(event, level), DeliveryScope(event))) else None
  }

  /** A counter as the reporter sees it: its slot, if it has one, its epoch and its count. */
  datatype Slot = Slot(key: Option<Key>, epoch: string, count: nat)

  function SlotOf(c: ElidedEventCount): Slot {
    Slot(KeyOf(c.event, c.level), c.epoch, c.count)
  }

  function SlotsOf(cs: seq<ElidedEventCount>): (slots: seq<Slot>)
    ensures |slots| == |cs| && forall i :: 0 <= i < |cs| ==> slots[i] == SlotOf(cs[i])
  {
    if cs == [] then [] else [SlotOf(cs[0])] + SlotsOf(cs[1..])
  }

  predicate DistinctKeys(slots: seq<Slot>) {
    forall i, j :: 0 <= i < j < |slots| && slots[i].key.Some? ==> slots[i].key != slots[j].key
  }

  // ----- validation -----

  predicate IsIdentifierChar(c: char) {
    'a' <= c <= 'z' || 'A' <= c <= 'Z' || '0' <= c <= '9' || c == '-' || c == '_'
  }

  /** Identifiers are ASCII, so their length in bytes is their length in characters. */
  predicate IsIdentifier(value: string, maxLen: nat) {
    value != "" && |value| <= maxLen && forall i :: 0 <= i < |value| ==> IsIdentifierChar(value[i])
  }

  predicate WellFormed(c: ElidedEventCount) {
    && IsIdentifier(c.event, 64) && IsIdentifier(c.epoch, 64)
    && (c.level.Some? ==> IsIdentifier(c.level.value, 16))
  }

  function WireKey(c: ElidedEventCount): (string, string) {
    (c.event, SlotLevel(c.event, c.level))
  }

  /** What an authoritative snapshot is: short, well formed throughout, and one entry per slot. */
  ghost predicate Authoritative(cs: seq<ElidedEventCount>) {
    && |cs| <= MAX_KEYS
    && (forall i :: 0 <= i < |cs| ==> WellFormed(cs[i]))
    && DistinctWireKeys(cs)
  }

  ghost predicate Decodes(entries: seq<Option<ElidedEventCount>>, cs: seq<ElidedEventCount>) {
    |cs| == |entries| && forall i :: 0 <= i < |cs| ==> entries[i] == Some(cs[i])
  }

  /**
  Accepts a snapshot whole or not at all. `None` for the array stands for a value of
  another shape, `None` for an entry for one that does not decode.
  */
  method ValidateSnapshot(wire: Option<seq<Option<ElidedEventCount>>>) returns (r: Option<seq<ElidedEventCount>>)
    ensures r.Some? ==> wire.Some? && Decodes(wire.value, r.value) && Authoritative(r.value)
    ensures r.None? ==> wire.None? || !exists cs :: Decodes(wire.value, cs) && Authoritative(cs)
  {
    if wire.None? || |wire.value| > MAX_KEYS {
      return None;
    }
    var entries := wire.value;
    var counts: seq<ElidedEventCount> := [];
    var keys: set<(string, string)> := {};
    for i := 0 to |entries|
      invariant |counts| == i && forall j :: 0 <= j < i ==> entries[j] == Some(counts[j])
      invariant forall j :: 0 <= j < i ==> WellFormed(counts[j])
      invariant DistinctWireKeys(counts)
      invariant forall key :: key in keys <==> Uses(counts, key)
    {
      if entries[i].None? || !WellFormed(entries[i].value) {
        return None;
      }
      var key := WireKey(entries[i].value);
      if key in keys {
        RepeatedSlot(entries, counts, i);
        return None;
      }
      AppendKey(counts, entries[i].value);
      keys := keys + {key};
      counts := counts + [entries[i].value];
    }
    return Some(counts);
  }

  ghost predicate DistinctWireKeys(cs: seq<ElidedEventCount>) {
    forall i, j :: 0 <= i < j < |cs| ==> WireKey(cs[i]) != WireKey(cs[j])
  }

  ghost predicate Uses(cs: seq<ElidedEventCount>, key: (string, string)) {
    exists j :: 0 <= j < |cs| && WireKey(cs[j]) == key
  }

  lemma AppendKey(cs: seq<ElidedEventCount>, c: ElidedEventCount)
    requires DistinctWireKeys(cs) && !Uses(cs, WireKey(c))
    ensures DistinctWireKeys(cs + [c])
    ensures forall key :: Uses(cs + [c], key) <==> Uses(cs, key) || key == WireKey(c)
  {
    var next := cs + [c];
    forall key ensures Uses(next, key) <==> Uses(cs, key) || key == WireKey(c) {
      if Uses(cs, key) {
        var j :| 0 <= j < |cs| && WireKey(cs[j]) == key;
        assert WireKey(next[j]) == key;
      }
      if key == WireKey(c) {
        assert WireKey(next[|cs|]) == key;
      }
    }
  }

  lemma RepeatedSlot(entries: seq<Option<ElidedEventCount>>, cs: seq<ElidedEventCount>, i: nat)
    requires i < |entries| && entries[i].Some? && |cs| == i
    requires forall j :: 0 <= j < i ==> entries[j] == Some(cs[j])
    requires Uses(cs, WireKey(entries[i].value))
    ensures !exists all :: Decodes(entries, all) && Authoritative(all)
  {
    var j :| 0 <= j < i && WireKey(cs[j]) == WireKey(entries[i].value);
    forall all | Decodes(entries, all) ensures !Authoritative(all) {
      assert all[j] == cs[j] && all[i] == entries[i].value;
    }
  }

  /** The reporter never sees the same slot twice in a validated snapshot. */
  lemma ValidatedSlotsAreDistinct(cs: seq<ElidedEventCount>)
    requires Authoritative(cs)
    ensures |SlotsOf(cs)| <= MAX_KEYS && DistinctKeys(SlotsOf(cs))
  {
    var slots := SlotsOf(cs);
    forall i, j | 0 <= i < j < |slots| && slots[i].key.Some? ensures slots[i].key != slots[j].key {
      assert WireKey(cs[i]) != WireKey(cs[j]);
    }
  }
}
