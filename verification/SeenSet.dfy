/**
The bounded least-recently-seen dedup set that guards event, tombstone, image
and plate-solve announcements (`BoundedSeenSet`).

`Touch` is the meaning of one sighting on a recency list, oldest key first.
`LatestDistinct` is the independent reference: the last `capacity` distinct keys
of the whole sighting history, in order of last sighting.
*/
module SeenSet {
  import opened Wrappers

  // ----- recency lists -----

  function Without<K(==)>(list: seq<K>, k: K): seq<K> {
    if list == [] then []
    else if list[0] == k then Without(list[1..], k)
    else [list[0]] + Without(list[1..], k)
  }

  /** The recency list after a sighting of `k`. */
  function Touch<K(==)>(list: seq<K>, capacity: nat, k: K): seq<K> {
    LastN(Without(list, k) + [k], capacity)
  }

  function TouchAll<K(==)>(list: seq<K>, capacity: nat, keys: seq<K>): seq<K> {
    if keys == [] then list
    else Touch(TouchAll(list, capacity, keys[..|keys| - 1]), capacity, keys[|keys| - 1])
  }

  /** Every key ever sighted, once each, ordered by last sighting. */
  function ByLastSighting<K(==)>(history: seq<K>): seq<K> {
    if history == [] then []
    else Without(ByLastSighting(history[..|history| - 1]), history[|history| - 1]) + [history[|history| - 1]]
  }

  function LatestDistinct<K(==)>(history: seq<K>, capacity: nat): seq<K> {
    LastN(ByLastSighting(history), capacity)
  }

  function Elements<K(==)>(s: seq<K>): set<K> {
    set k | k in s
  }

  /** The sightings after the last one of `k`. */
  function SinceLast<K(==)>(history: seq<K>, k: K): seq<K>
    requires k in history
  {
    if history[|history| - 1] == k then []
    else SinceLast(history[..|history| - 1], k) + [history[|history| - 1]]
  }

  // ----- facts about Without -----

  lemma WithoutElements<K>(s: seq<K>, k: K)
    ensures forall x :: x in Without(s, k) <==> x in s && x != k
    ensures |Without(s, k)| <= |s|
  {
  }

  lemma WithoutAbsent<K>(s: seq<K>, k: K)
    requires k !in s
    ensures Without(s, k) == s
  {
  }

  lemma WithoutConcat<K>(a: seq<K>, b: seq<K>, k: K)
    ensures Without(a + b, k) == Without(a, k) + Without(b, k)
  {
    if a == [] {
      assert a + b == b;
    } else {
      assert (a + b)[1..] == a[1..] + b;
      WithoutConcat(a[1..], b, k);
    }
  }

  lemma WithoutSplit<K(!new)>(s: seq<K>, i: nat)
    requires i < |s| && Distinct(s)
    ensures Without(s, s[i]) == s[..i] + s[i + 1..]
  {
    assert s == s[..i] + ([s[i]] + s[i + 1..]);
    WithoutConcat(s[..i], [s[i]] + s[i + 1..], s[i]);
    WithoutConcat([s[i]], s[i + 1..], s[i]);
    WithoutAbsent(s[..i], s[i]);
    WithoutAbsent(s[i + 1..], s[i]);
  }

  lemma WithoutSize<K(!new)>(s: seq<K>, k: K)
    requires Distinct(s) && k in s
    ensures |Without(s, k)| == |s| - 1
  {
    var i :| 0 <= i < |s| && s[i] == k;
    WithoutSplit(s, i);
  }

  lemma {:induction false} WithoutDistinct<K(!new)>(s: seq<K>, k: K)
    requires Distinct(s)
    ensures Distinct(Without(s, k))
  {
    if k in s {
      var i :| 0 <= i < |s| && s[i] == k;
      WithoutSplit(s, i);
    } else {
      WithoutAbsent(s, k);
    }
  }

  lemma DistinctAppend<K(!new)>(s: seq<K>, k: K)
    requires Distinct(s) && k !in s
    ensures Distinct(s + [k])
  {
  }

  lemma {:induction false} ByLastSightingFacts<K(!new)>(history: seq<K>)
    ensures Distinct(ByLastSighting(history))
    ensures Elements(ByLastSighting(history)) == Elements(history)
    ensures forall k :: k in ByLastSighting(history) <==> k in history
  {
    if history != [] {
      var front, last := history[..|history| - 1], history[|history| - 1];
      ByLastSightingFacts(front);
      WithoutDistinct(ByLastSighting(front), last);
      WithoutElements(ByLastSighting(front), last);
      DistinctAppend(Without(ByLastSighting(front), last), last);
      assert history == front + [last];
    }
  }

  // ----- the recency list is the tail of the sighting order -----

  /** One step: forgetting keys beyond the capacity loses nothing later steps can see. */
  lemma {:induction false} TouchCommutesWithLastN<K(!new)>(full: seq<K>, capacity: nat, k: K)
    requires capacity >= 1 && Distinct(full)
    ensures Touch(LastN(full, capacity), capacity, k) == LastN(Without(full, k) + [k], capacity)
  {
    var kept := LastN(full, capacity);
    var gone := full[..|full| - |kept|];
    assert full == gone + kept;
    if k in kept {
      assert k !in gone by {
        var i :| 0 <= i < |kept| && kept[i] == k;
        assert full[|gone| + i] == k;
      }
      TouchHit(gone, kept, capacity, k);
    } else {
      TouchMiss(gone, kept, capacity, k);
    }
  }

  lemma {:induction false} TouchHit<K(!new)>(gone: seq<K>, kept: seq<K>, capacity: nat, k: K)
    requires k in kept && k !in gone && Distinct(kept)
    requires gone == [] || |kept| == capacity
    ensures LastN(Without(kept, k) + [k], capacity) == LastN(Without(gone + kept, k) + [k], capacity)
  {
    WithoutConcat(gone, kept, k);
    WithoutAbsent(gone, k);
    WithoutSize(kept, k);
    var rest := Without(kept, k);
    assert gone + rest + [k] == gone + (rest + [k]);
    LastNDropsPrefix(gone, rest + [k], capacity);
  }

  lemma {:induction false} TouchMiss<K(!new)>(gone: seq<K>, kept: seq<K>, capacity: nat, k: K)
    requires k !in kept
    requires gone == [] || |kept| == capacity
    ensures LastN(Without(kept, k) + [k], capacity) == LastN(Without(gone + kept, k) + [k], capacity)
  {
    WithoutConcat(gone, kept, k);
    WithoutAbsent(kept, k);
    WithoutElements(gone, k);
    var rest := Without(gone, k);
    assert rest + kept + [k] == rest + (kept + [k]);
    LastNDropsPrefix(rest, kept + [k], capacity);
  }

  lemma LastNDropsPrefix<K>(a: seq<K>, b: seq<K>, n: nat)
    requires |b| >= n || a == []
    ensures LastN(a + b, n) == LastN(b, n)
  {
    if a == [] {
      assert a + b == b;
    }
  }

  /** Whatever the history, the bounded list holds exactly the last `capacity` distinct keys. */
  lemma {:induction false} BoundedIsLatestDistinct<K(!new)>(capacity: nat, history: seq<K>)
    requires capacity >= 1
    ensures TouchAll([], capacity, history) == LatestDistinct(history, capacity)
  {
    if history != [] {
      var front, last := history[..|history| - 1], history[|history| - 1];
      BoundedIsLatestDistinct(capacity, front);
      ByLastSightingFacts(front);
      TouchCommutesWithLastN(ByLastSighting(front), capacity, last);
    }
  }

  /** A sighting of another key moves `list[p]` only by what it removes before it. */
  lemma {:induction false} SplitAround<K(!new)>(list: seq<K>, p: nat, last: K) returns (i: nat)
    requires p < |list| && list[p] != last
    ensures var order := Without(list, last) + [last];
      i < |order| && order[i] == list[p] && order[i + 1..] == Without(list[p + 1..], last) + [last]
  {
    var head := Without(list[..p], last);
    assert list == list[..p] + ([list[p]] + list[p + 1..]);
    WithoutConcat(list[..p], [list[p]] + list[p + 1..], last);
    WithoutConcat([list[p]], list[p + 1..], last);
    assert Without([list[p]], last) == [list[p]];
    i := |head|;
    assert Without(list, last) + [last] == head + [list[p]] + (Without(list[p + 1..], last) + [last]);
  }

  /** The keys after `k` are those sighted since its last sighting. */
  lemma {:induction false} RankFromEnd<K(!new)>(history: seq<K>, k: K) returns (i: nat)
    requires k in history
    ensures i < |ByLastSighting(history)| && ByLastSighting(history)[i] == k
    ensures Elements(ByLastSighting(history)[i + 1..]) == Elements(SinceLast(history, k))
  {
    var front, last := history[..|history| - 1], history[|history| - 1];
    if last == k {
      i := |ByLastSighting(history)| - 1;
      assert ByLastSighting(history)[i + 1..] == [];
    } else {
      assert history == front + [last];
      var p := RankFromEnd(front, k);
      i := SplitAround(ByLastSighting(front), p, last);
      var after := ByLastSighting(front)[p + 1..];
      WithoutElements(after, last);
      assert Elements(Without(after, last) + [last]) == Elements(after) + {last};
      assert Elements(SinceLast(history, k)) == Elements(SinceLast(front, k)) + {last};
    }
  }

  /** `k` sits as far from the end as there are distinct keys sighted after it. */
  lemma {:induction false} RankIsRecency<K(!new)>(history: seq<K>, k: K) returns (i: nat)
    requires k in history
    ensures i < |ByLastSighting(history)| && ByLastSighting(history)[i] == k
    ensures |ByLastSighting(history)| - 1 - i == |Elements(SinceLast(history, k))|
  {
    i := RankFromEnd(history, k);
    ByLastSightingFacts(history);
    DistinctSize(ByLastSighting(history)[i + 1..]);
  }

  lemma {:induction false} DistinctSize<K(!new)>(s: seq<K>)
    requires Distinct(s)
    ensures |Elements(s)| == |s|
  {
    if s != [] {
      DistinctSize(s[1..]);
      assert Elements(s) == Elements(s[1..]) + {s[0]};
    }
  }

  /**
  The answer of a sighting after any history: "already seen" exactly when fewer
  than `capacity` distinct other keys were sighted since the last sighting of `k`.
  */
  lemma {:induction false} SeenExactlyWhenRecent<K(!new)>(capacity: nat, history: seq<K>, k: K)
    requires capacity >= 1
    ensures k in TouchAll([], capacity, history)
       <==> k in history && |Elements(SinceLast(history, k))| < capacity
    ensures k in history ==> k !in SinceLast(history, k)
  {
    BoundedIsLatestDistinct(capacity, history);
    ByLastSightingFacts(history);
    var order := ByLastSighting(history);
    if k in history {
      SinceLastOmits(history, k);
      var i := RankIsRecency(history, k);
      if |order| > capacity {
        var kept := LastN(order, capacity);
        if i >= |order| - capacity {
          assert kept[i - (|order| - capacity)] == k;
        }
      }
    }
  }

  lemma SinceLastOmits<K>(history: seq<K>, k: K)
    requires k in history
    ensures k !in SinceLast(history, k)
    ensures forall x :: x in SinceLast(history, k) ==> x in history
  {
  }

  /** A list a bounded set can hold. */
  ghost predicate Holdable<K(!new)>(list: seq<K>, capacity: nat) {
    capacity >= 1 && |list| <= capacity && Distinct(list)
  }

  lemma {:induction false} TouchKeepsHoldable<K(!new)>(list: seq<K>, capacity: nat, k: K)
    requires Holdable(list, capacity)
    ensures Holdable(Touch(list, capacity, k), capacity)
    ensures k in list ==> forall x :: x in Touch(list, capacity, k) <==> x in list
  {
    WithoutDistinct(list, k);
    WithoutElements(list, k);
    DistinctAppend(Without(list, k), k);
    var full := Without(list, k) + [k];
    if k in list {
      WithoutSize(list, k);
    }
  }

  lemma {:induction false} TouchAllKeepsHoldable<K(!new)>(list: seq<K>, capacity: nat, keys: seq<K>)
    requires Holdable(list, capacity)
    ensures Holdable(TouchAll(list, capacity, keys), capacity)
  {
    if keys != [] {
      TouchAllKeepsHoldable(list, capacity, keys[..|keys| - 1]);
      TouchKeepsHoldable(TouchAll(list, capacity, keys[..|keys| - 1]), capacity, keys[|keys| - 1]);
    }
  }

  lemma {:induction false} TouchAllConcat<K>(list: seq<K>, capacity: nat, a: seq<K>, b: seq<K>)
    ensures TouchAll(TouchAll(list, capacity, a), capacity, b) == TouchAll(list, capacity, a + b)
  {
    if b == [] {
      assert a + b == a;
    } else {
      assert (a + b)[..|a + b| - 1] == a + b[..|b| - 1];
      TouchAllConcat(list, capacity, a, b[..|b| - 1]);
    }
  }

  lemma {:induction false} ListIsItsHistory<K(!new)>(list: seq<K>, capacity: nat)
    requires Holdable(list, capacity)
    ensures TouchAll([], capacity, list) == list
  {
    if list != [] {
      var front, last := list[..|list| - 1], list[|list| - 1];
      ListIsItsHistory(front, capacity);
      WithoutAbsent(front, last);
      assert front + [last] == list;
    }
  }

  lemma {:induction false} SinceLastOfConcat<K>(history: seq<K>, keys: seq<K>, k: K)
    requires k in keys
    ensures k in history + keys && SinceLast(history + keys, k) == SinceLast(keys, k)
  {
    var front, last := keys[..|keys| - 1], keys[|keys| - 1];
    assert keys == front + [last];
    assert (history + keys)[..|history + keys| - 1] == history + front;
    if last != k {
      SinceLastOfConcat(history, front, k);
    }
  }

  /** Keys sighted together stay together, as long as they fit. */
  lemma {:induction false} RecentKeysStay<K(!new)>(list: seq<K>, capacity: nat, keys: seq<K>, k: K)
    requires Holdable(list, capacity) && |Elements(keys)| <= capacity && k in keys
    ensures k in TouchAll(list, capacity, keys)
  {
    ListIsItsHistory(list, capacity);
    TouchAllConcat([], capacity, list, keys);
    SinceLastOfConcat(list, keys, k);
    SeenExactlyWhenRecent(capacity, list + keys, k);
    SinceLastOmits(keys, k);
    StrictSubset(Elements(SinceLast(keys, k)), Elements(keys), k);
  }

  /** A held key outlives further sightings exactly as long as fewer than `capacity` distinct others are newer. */
  lemma {:induction false} HeldWhileRecent<K(!new)>(list: seq<K>, capacity: nat, keys: seq<K>, k: K)
    requires Holdable(list, capacity) && k in list
    ensures k in list + keys
         && (k in TouchAll(list, capacity, keys) <==> |Elements(SinceLast(list + keys, k))| < capacity)
  {
    ListIsItsHistory(list, capacity);
    TouchAllConcat([], capacity, list, keys);
    SeenExactlyWhenRecent(capacity, list + keys, k);
  }

  // ----- repeated polls -----

  /** How often `k` is reported as new while the sightings `keys` follow `history`. */
  function TimesNew<K(==)>(capacity: nat, history: seq<K>, keys: seq<K>, k: K): nat
    decreases |keys|
  {
    if keys == [] then 0
    else (if keys[0] == k && k !in TouchAll([], capacity, history) then 1 else 0)
         + TimesNew(capacity, history + [keys[0]], keys[1..], k)
  }

  /** A new key is reported at least once, whatever the capacity. */
  lemma {:induction false} FirstSightingIsNew<K(!new)>(capacity: nat, history: seq<K>, keys: seq<K>, k: K)
    requires capacity >= 1 && k !in history
    ensures TimesNew(capacity, history, keys, k) >= 1 <==> k in keys
    decreases |keys|
  {
    if keys != [] {
      SeenExactlyWhenRecent(capacity, history, k);
      if keys[0] != k {
        FirstSightingIsNew(capacity, history + [keys[0]], keys[1..], k);
      }
    }
  }

  /**
  However often the source history is polled again, as long as it ranges over at
  most `capacity` distinct keys each of them is announced exactly once.
  */
  lemma {:induction false} AnnouncedExactlyOnce<K(!new)>(capacity: nat, history: seq<K>, keys: seq<K>, k: K)
    requires capacity >= 1
    requires |Elements(history + keys)| <= capacity
    ensures TimesNew(capacity, history, keys, k) == if k in keys && k !in history then 1 else 0
    decreases |keys|
  {
    if keys != [] {
      var next := history + [keys[0]];
      assert next + keys[1..] == history + keys;
      AnnouncedExactlyOnce(capacity, next, keys[1..], k);
      SeenExactlyWhenRecent(capacity, history, k);
      if keys[0] == k && k in history {
        SinceLastOmits(history, k);
        assert Elements(SinceLast(history, k)) + {k} <= Elements(history + keys);
        StrictSubset(Elements(SinceLast(history, k)), Elements(history + keys), k);
      }
      assert keys == [keys[0]] + keys[1..];
    }
  }

  lemma StrictSubset<K>(small: set<K>, large: set<K>, k: K)
    requires small <= large && k in large && k !in small
    ensures |small| < |large|
  {
    SubsetSize(small + {k}, large);
  }

  // ----- the two mutually inverse maps -----

  /** `seen` and `order` are inverse to each other. */
  ghost predicate Inverse<K(!new)>(seen: map<K, nat>, order: map<nat, K>, nextSeq: nat) {
    && (forall k :: k in seen ==> seen[k] in order && order[seen[k]] == k)
    && (forall n :: n in order ==> order[n] in seen && seen[order[n]] == n && n < nextSeq)
  }

  /** `recency` lists the keys of `seen` by ascending sequence number. */
  ghost predicate Lists<K(!new)>(seen: map<K, nat>, recency: seq<K>) {
    && (forall k :: k in seen <==> k in recency)
    && (forall i, j :: 0 <= i < j < |recency| && recency[i] in seen && recency[j] in seen ==>
          seen[recency[i]] < seen[recency[j]])
  }

  ghost predicate Linked<K(!new)>(seen: map<K, nat>, order: map<nat, K>, nextSeq: nat, recency: seq<K>) {
    Inverse(seen, order, nextSeq) && Lists(seen, recency)
  }

  lemma LinkedSizes<K(!new)>(seen: map<K, nat>, order: map<nat, K>, nextSeq: nat, recency: seq<K>)
    requires Linked(seen, order, nextSeq, recency)
    ensures |seen| == |recency| && Distinct(recency)
  {
    assert forall i :: 0 <= i < |recency| ==> recency[i] in seen;
    assert seen.Keys == Elements(recency);
    DistinctSize(recency);
  }

  lemma LinkedOldest<K(!new)>(seen: map<K, nat>, order: map<nat, K>, nextSeq: nat, recency: seq<K>)
    requires Linked(seen, order, nextSeq, recency) && recency != []
    ensures recency[0] in seen && seen[recency[0]] in order
    ensures forall n :: n in order ==> seen[recency[0]] <= n
  {
    assert recency[0] in seen;
    forall n | n in order ensures seen[recency[0]] <= n {
      assert order[n] in recency;
    }
  }

  /** Dropping the smallest sequence number drops the head of the recency list. */
  lemma LinkedPop<K(!new)>(seen: map<K, nat>, order: map<nat, K>, nextSeq: nat, recency: seq<K>, first: nat)
    requires Linked(seen, order, nextSeq, recency) && recency != []
    requires first in order && forall n :: n in order ==> first <= n
    ensures Linked(seen - {order[first]}, order - {first}, nextSeq, recency[1..])
  {
    LinkedOldest(seen, order, nextSeq, recency);
    assert first == seen[recency[0]];
    assert order[first] == recency[0];
    LinkedForget(seen, order, nextSeq, recency, 0);
    assert recency[..0] + recency[1..] == recency[1..];
  }

  lemma {:induction false} LinkedForget<K(!new)>(seen: map<K, nat>, order: map<nat, K>, nextSeq: nat, recency: seq<K>, i: nat)
    requires Linked(seen, order, nextSeq, recency) && i < |recency|
    ensures recency[i] in seen
    ensures Linked(seen - {recency[i]}, order - {seen[recency[i]]}, nextSeq, recency[..i] + recency[i + 1..])
  {
    LinkedSizes(seen, order, nextSeq, recency);
    ListsForget(seen, recency, i);
    InverseForget(seen, order, nextSeq, recency[i]);
  }

  lemma InverseForget<K(!new)>(seen: map<K, nat>, order: map<nat, K>, nextSeq: nat, k: K)
    requires Inverse(seen, order, nextSeq) && k in seen
    ensures Inverse(seen - {k}, order - {seen[k]}, nextSeq)
  {
  }

  lemma {:induction false} ForgetMembers<K(!new)>(recency: seq<K>, i: nat)
    requires i < |recency| && Distinct(recency)
    ensures forall x :: x in recency[..i] + recency[i + 1..] <==> x in recency && x != recency[i]
  {
    WithoutSplit(recency, i);
    WithoutElements(recency, recency[i]);
  }

  lemma {:induction false} ListsForget<K(!new)>(seen: map<K, nat>, recency: seq<K>, i: nat)
    requires Lists(seen, recency) && i < |recency| && Distinct(recency)
    ensures Lists(seen - {recency[i]}, recency[..i] + recency[i + 1..])
  {
    ForgetMembers(recency, i);
    ForgetOrder(seen, recency, i);
  }

  lemma {:induction false} ForgetOrder<K(!new)>(seen: map<K, nat>, recency: seq<K>, i: nat)
    requires Lists(seen, recency) && i < |recency|
    ensures var r := recency[..i] + recency[i + 1..];
      forall a, b :: 0 <= a < b < |r| && r[a] in seen && r[b] in seen ==> seen[r[a]] < seen[r[b]]
  {
    var r := recency[..i] + recency[i + 1..];
    forall a, b | 0 <= a < b < |r| && r[a] in seen && r[b] in seen
      ensures seen[r[a]] < seen[r[b]]
    {
      var a', b' := if a < i then a else a + 1, if b < i then b else b + 1;
      assert r[a] == recency[a'] && r[b] == recency[b'];
    }
  }

  lemma {:induction false} LinkedRefresh<K(!new)>(seen: map<K, nat>, order: map<nat, K>, s: nat, recency: seq<K>, i: nat)
    requires Linked(seen, order, s, recency) && i < |recency|
    ensures recency[i] in seen
    ensures Linked(seen[recency[i] := s], (order - {seen[recency[i]]})[s := recency[i]], s + 1,
                   recency[..i] + recency[i + 1..] + [recency[i]])
  {
    var k := recency[i];
    LinkedForget(seen, order, s, recency, i);
    LinkedAdmit(seen - {k}, order - {seen[k]}, s, recency[..i] + recency[i + 1..], k);
    assert (seen - {k})[k := s] == seen[k := s];
  }

  /** Renewing a held key is a sighting of it. */
  lemma {:induction false} RefreshIsTouch<K(!new)>(seen: map<K, nat>, order: map<nat, K>, s: nat, recency: seq<K>, capacity: nat, k: K)
    requires Linked(seen, order, s, recency) && k in seen && |recency| <= capacity
    ensures seen[k] in order
    ensures Linked(seen[k := s], (order - {seen[k]})[s := k], s + 1, Touch(recency, capacity, k))
    ensures |Touch(recency, capacity, k)| <= capacity
  {
    LinkedSizes(seen, order, s, recency);
    var i :| 0 <= i < |recency| && recency[i] == k;
    LinkedRefresh(seen, order, s, recency, i);
    WithoutSplit(recency, i);
  }

  lemma LinkedAdmit<K(!new)>(seen: map<K, nat>, order: map<nat, K>, s: nat, recency: seq<K>, k: K)
    requires Linked(seen, order, s, recency) && k !in seen
    ensures Linked(seen[k := s], order[s := k], s + 1, recency + [k])
  {
  }

  class BoundedSeenSet<K(==, !new)> {
    var seen: map<K, nat>
    var order: map<nat, K>
    var nextSeq: nat
    const capacity: nat
    /** The keys held, least recently seen first. */
    ghost var recency: seq<K>

    ghost predicate Valid()
      reads this
    {
      capacity >= 1 && |recency| <= capacity && Linked(seen, order, nextSeq, recency)
    }

    constructor (cap: nat)
      ensures Valid() && recency == [] && capacity == if cap >= 1 then cap else 1
    {
      seen, order, nextSeq := map[], map[], 0;
      capacity := if cap >= 1 then cap else 1;
      recency := [];
    }

    /** Forgets the key with the smallest sequence number. */
    method EvictOldest()
      requires Linked(seen, order, nextSeq, recency) && recency != []
      modifies this`seen, this`order, this`recency
      ensures Linked(seen, order, nextSeq, recency)
      ensures recency == old(recency)[1..]
    {
      LinkedOldest(seen, order, nextSeq, recency);
      var first :| first in order && forall n :: n in order ==> first <= n;
      LinkedPop(seen, order, nextSeq, recency, first);
      var evicted := order[first];
      order := order - {first};
      seen := seen - {evicted};
      recency := recency[1..];
    }

    /** Returns whether `key` had already been recorded, and makes it the most recent one. */
    method CheckAndInsert(key: K) returns (known: bool)
      requires Valid()
      modifies this
      ensures Valid()
      ensures known == (key in old(recency))
      ensures recency == Touch(old(recency), capacity, key)
    {
      var s := nextSeq;
      nextSeq := nextSeq + 1;
      if key in seen {
        Refresh(key, s);
        known := true;
      } else {
        Admit(key, s);
        known := false;
      }
    }

    method Admit(key: K, s: nat)
      requires Linked(seen, order, s, recency) && key !in seen
      requires capacity >= 1 && |recency| <= capacity && nextSeq == s + 1
      modifies this`seen, this`order, this`recency
      ensures Valid() && recency == Touch(old(recency), capacity, key)
    {
      WithoutAbsent(recency, key);
      LinkedAdmit(seen, order, s, recency, key);
      seen := seen[key := s];
      order := order[s := key];
      ghost var full := recency + [key];
      recency := full;
      LinkedSizes(seen, order, nextSeq, recency);
      while |seen| > capacity
        invariant Linked(seen, order, nextSeq, recency) && |seen| == |recency|
        invariant recency == full || (|full| == capacity + 1 && recency == full[1..])
        decreases |seen|
      {
        EvictOldest();
        LinkedSizes(seen, order, nextSeq, recency);
      }
    }

    method Refresh(key: K, s: nat)
      requires Linked(seen, order, s, recency) && key in seen
      requires capacity >= 1 && |recency| <= capacity && nextSeq == s + 1
      modifies this`seen, this`order, this`recency
      ensures Valid() && recency == Touch(old(recency), capacity, key)
    {
      RefreshIsTouch(seen, order, s, recency, capacity, key);
      var seen', order' := seen[key := s], (order - {seen[key]})[s := key];
      ghost var recency' := Touch(recency, capacity, key);
      assert Linked(seen', order', nextSeq, recency');
      seen, order, recency := seen', order', recency';
    }
  }

  /**
  Claims a plate-solve output for delivery. A claim succeeds the first time its key
  is offered, and an operation whose delivery is switched off claims nothing.
  */
  method ClaimPlateSolveOutput<K(!new)>(seen: BoundedSeenSet<K>, chatEnabled: bool, key: Option<K>) returns (claimed: bool)
    requires seen.Valid()
    modifies seen
    ensures seen.Valid()
    ensures claimed == (chatEnabled && key.Some? && key.value !in old(seen.recency))
    ensures seen.recency == if chatEnabled && key.Some? then Touch(old(seen.recency), seen.capacity, key.value)
                            else old(seen.recency)
  {
    if !chatEnabled || key.None? {
      return false;
    }
    var known := seen.CheckAndInsert(key.value);
    claimed := !known;
  }
}
