/**
What every reconciliation keeps: the tracked operations mirror the snapshot, each key's
notifications form a proper lifecycle, and no solve result is shown twice.
*/
module Lifecycle {
  import opened Wrappers
  import opened SequenceOperations
  import opened Reconciler
  import EventNames

  /** The notifications about one key, in order. */
  function Stream(notes: seq<Note>, k: string): seq<Update> {
    if notes == [] then []
    else Stream(notes[..|notes| - 1], k) + if notes[|notes| - 1].key == k then [notes[|notes| - 1].update] else []
  }

  function Updates(notes: seq<(Tracked, Update)>): (us: seq<Update>)
    ensures |us| == |notes| && forall i :: 0 <= i < |notes| ==> us[i] == notes[i].1
  {
    if notes == [] then [] else [notes[0].1] + Updates(notes[1..])
  }

  // ----- each key is walked once -----

  lemma Associates(a: seq<Update>, u: Update, b: seq<Update>)
    ensures a + [u] + b == a + ([u] + b)
  {
  }

  lemma StreamSnoc(notes: seq<Note>, note: Note, k: string)
    ensures Stream(notes + [note], k) == Stream(notes, k) + if note.key == k then [note.update] else []
  {
    assert (notes + [note])[..|notes|] == notes;
  }

  lemma {:induction false} SayStream(s: Pass, key: string, notes: seq<(Tracked, Update)>, k: string)
    ensures s.Say(key, notes).tracked == s.tracked && s.Say(key, notes).claims == s.claims
    ensures Stream(s.Say(key, notes).notes, k) == Stream(s.notes, k) + if k == key then Updates(notes) else []
    decreases |notes|
  {
    if notes != [] {
      var note := Note(key, notes[0].0, notes[0].1);
      SayStream(s.(notes := s.notes + [note]), key, notes[1..], k);
      StreamSnoc(s.notes, note, k);
      assert Stream(s.notes, k) + [note.update] + Updates(notes[1..]) == Stream(s.notes, k) + Updates(notes) by {
        Associates(Stream(s.notes, k), note.update, Updates(notes[1..]));
      }
    }
  }

  lemma {:induction false} AdvanceOther(s: Pass, key: string, incoming: map<string, Operation>, p: Poll, k: string)
    requires k != key
    ensures var s' := AdvanceKey(s, key, incoming, p);
      Get(s'.tracked, k) == Get(s.tracked, k) && Stream(s'.notes, k) == Stream(s.notes, k)
  {
    if key in s.tracked && key !in p.suppressed {
      var next := Get(incoming, key);
      var offer := AdvanceOffer(s.tracked[key], next, p);
      var (t, notes) := Advance(s.tracked[key], next, p, s.Claimable(offer));
      SayStream(s.Claim(offer).Put(key, t), key, notes, k);
    }
  }

  /** What the first walk makes of one tracked key. */
  ghost predicate Advanced(before: Pass, after: Pass, incoming: map<string, Operation>, p: Poll, k: string, claimed: bool) {
    if k !in before.tracked then Get(after.tracked, k) == None && Stream(after.notes, k) == Stream(before.notes, k)
    else if k in p.suppressed then Get(after.tracked, k) == None && Stream(after.notes, k) == Stream(before.notes, k)
    else
      var (t, notes) := Advance(before.tracked[k], Get(incoming, k), p, claimed);
      Get(after.tracked, k) == t && Stream(after.notes, k) == Stream(before.notes, k) + Updates(notes)
  }

  lemma {:induction false} AdvanceOwn(s: Pass, k: string, incoming: map<string, Operation>, p: Poll) returns (claimed: bool)
    ensures Advanced(s, AdvanceKey(s, k, incoming, p), incoming, p, k, claimed)
  {
    claimed := false;
    if k in s.tracked && k !in p.suppressed {
      var next := Get(incoming, k);
      var offer := AdvanceOffer(s.tracked[k], next, p);
      claimed := s.Claimable(offer);
      var (t, notes) := Advance(s.tracked[k], next, p, claimed);
      SayStream(s.Claim(offer).Put(k, t), k, notes, k);
    }
  }

  lemma {:induction false} FirstPassOther(s: Pass, order: seq<string>, incoming: map<string, Operation>, p: Poll, k: string)
    requires k !in order
    ensures var s' := FirstPass(s, order, incoming, p);
      Get(s'.tracked, k) == Get(s.tracked, k) && Stream(s'.notes, k) == Stream(s.notes, k)
  {
    if order != [] {
      var front := order[..|order| - 1];
      FirstPassOther(s, front, incoming, p, k);
      AdvanceOther(FirstPass(s, front, incoming, p), order[|order| - 1], incoming, p, k);
    }
  }

  lemma {:induction false} FirstPassOwn(s: Pass, order: seq<string>, incoming: map<string, Operation>, p: Poll, k: string)
      returns (claimed: bool)
    requires Distinct(order) && k in order
    ensures Advanced(s, FirstPass(s, order, incoming, p), incoming, p, k, claimed)
  {
    var front, last := order[..|order| - 1], order[|order| - 1];
    var mid := FirstPass(s, front, incoming, p);
    if last == k {
      FirstPassOther(s, front, incoming, p, k);
      claimed := AdvanceOwn(mid, k, incoming, p);
    } else {
      assert order == front + [last];
      claimed := FirstPassOwn(s, front, incoming, p, k);
      AdvanceOther(mid, last, incoming, p, k);
    }
  }

  lemma {:induction false} BeginOther(s: Pass, key: string, incoming: map<string, Operation>, p: Poll, center: Option<string>, k: string)
    requires k != key
    ensures var s' := BeginKey(s, key, incoming, p, center);
      Get(s'.tracked, k) == Get(s.tracked, k) && Stream(s'.notes, k) == Stream(s.notes, k)
  {
    if key in incoming && incoming[key].status.Active? && key !in s.tracked {
      var offer := Offer(incoming[key]);
      var (t, notes) := Begin(incoming[key], p, center == Some(key), s.Claimable(offer));
      SayStream(s.Claim(offer).Put(key, Some(t)), key, notes, k);
    }
  }

  /** A key the second walk starts tracking. */
  predicate Begins(tracked: map<string, Tracked>, incoming: map<string, Operation>, k: string) {
    k in incoming && incoming[k].status.Active? && k !in tracked
  }

  ghost predicate Begun(before: Pass, after: Pass, incoming: map<string, Operation>, p: Poll, center: Option<string>, k: string, claimed: bool) {
    if Begins(before.tracked, incoming, k) then
      var (t, notes) := Begin(incoming[k], p, center == Some(k), claimed);
      Get(after.tracked, k) == Some(t) && Stream(after.notes, k) == Stream(before.notes, k) + Updates(notes)
    else Get(after.tracked, k) == Get(before.tracked, k) && Stream(after.notes, k) == Stream(before.notes, k)
  }

  lemma {:induction false} BeginOwn(s: Pass, k: string, incoming: map<string, Operation>, p: Poll, center: Option<string>) returns (claimed: bool)
    ensures Begun(s, BeginKey(s, k, incoming, p, center), incoming, p, center, k, claimed)
  {
    claimed := false;
    if Begins(s.tracked, incoming, k) {
      var offer := Offer(incoming[k]);
      claimed := s.Claimable(offer);
      var (t, notes) := Begin(incoming[k], p, center == Some(k), claimed);
      SayStream(s.Claim(offer).Put(k, Some(t)), k, notes, k);
    }
  }

  lemma {:induction false} SecondPassOther(s: Pass, order: seq<string>, incoming: map<string, Operation>, p: Poll, center: Option<string>, k: string)
    requires k !in order
    ensures var s' := SecondPass(s, order, incoming, p, center);
      Get(s'.tracked, k) == Get(s.tracked, k) && Stream(s'.notes, k) == Stream(s.notes, k)
  {
    if order != [] {
      var front := order[..|order| - 1];
      SecondPassOther(s, front, incoming, p, center, k);
      BeginOther(SecondPass(s, front, incoming, p, center), order[|order| - 1], incoming, p, center, k);
    }
  }

  lemma {:induction false} SecondPassOwn(s: Pass, order: seq<string>, incoming: map<string, Operation>, p: Poll, center: Option<string>, k: string)
      returns (claimed: bool)
    requires Distinct(order) && (k in incoming ==> k in order)
    ensures Begun(s, SecondPass(s, order, incoming, p, center), incoming, p, center, k, claimed)
  {
    if k !in order {
      SecondPassOther(s, order, incoming, p, center, k);
      claimed := false;
    } else {
      var front, last := order[..|order| - 1], order[|order| - 1];
      var mid := SecondPass(s, front, incoming, p, center);
      assert order == front + [last];
      if last == k {
        SecondPassOther(s, front, incoming, p, center, k);
        claimed := BeginOwn(mid, k, incoming, p, center);
      } else {
        claimed := SecondPassOwn(s, front, incoming, p, center, k);
        BeginOther(mid, last, incoming, p, center, k);
      }
    }
  }

  // ----- the tracked operations mirror the snapshot -----

  lemma {:induction false} IncomingOmitsSuppressed(tracked: map<string, Tracked>, p: Poll, operations: seq<Operation>, k: string)
    ensures k in Incoming(tracked, p, operations) ==> k !in p.suppressed
  {
    if operations != [] {
      IncomingOmitsSuppressed(tracked, p, operations[..|operations| - 1], k);
    }
  }

  lemma {:induction false} ChosenIsIncoming(incoming: map<string, Operation>, order: seq<string>)
    ensures var c := ChooseCenter(incoming, order);
      c.Some? ==> c.value in incoming && CenterCandidate(incoming[c.value])
  {
    if order != [] {
      ChosenIsIncoming(incoming, order[1..]);
    }
  }

  /** Both walks, seen from one key. */
  lemma {:induction false} PollAtKey(s: State, p: Poll, k: string) returns (first: bool, second: bool)
    requires Walks(s, p)
    ensures Advanced(s.Before(p), s.Middle(p), s.Snapshot(p), p, k, first)
    ensures Begun(s.Middle(p), s.After(p), s.Snapshot(p), p, s.Center(p), k, second)
    ensures (k in s.Before(p).tracked <==> k in s.tracked) && (k in s.Snapshot(p) ==> k !in p.suppressed)
  {
    IncomingOmitsSuppressed(s.tracked, p, p.operations, k);
    ChosenIsIncoming(Incoming(s.tracked, p, p.operations), p.centerOrder);
    var before := s.Before(p);
    assert k in before.tracked <==> k in s.tracked;
    first := false;
    if k in s.tracked {
      first := FirstPassOwn(before, p.trackedOrder, s.Snapshot(p), p, k);
    } else {
      FirstPassOther(before, p.trackedOrder, s.Snapshot(p), p, k);
    }
    second := SecondPassOwn(s.Middle(p), p.incomingOrder, s.Snapshot(p), p, s.Center(p), k);
  }

  // ----- what a snapshot is -----

  /** `j` is where the poll lists `k` for the last time. */
  ghost predicate LastListing(operations: seq<Operation>, k: string, j: int) {
    0 <= j < |operations| && operations[j].key == k
    && forall i :: j < i < |operations| ==> operations[i].key != k
  }

  /** Is a legacy coordinate item at this key known for a center, by its event or by an earlier poll? */
  predicate KnownCenter(s: State, p: Poll, k: string) {
    (k in s.tracked && s.tracked[k].operation.kind.MountCenter?) || s.Center(p) == Some(k)
  }

  lemma {:induction false} IncomingListsLast(tracked: map<string, Tracked>, p: Poll, operations: seq<Operation>, k: string)
      returns (j: int)
    ensures k in Incoming(tracked, p, operations) <==> k !in p.suppressed && j >= 0
    ensures j < 0 ==> forall i :: 0 <= i < |operations| ==> operations[i].key != k
    ensures j >= 0 ==> LastListing(operations, k, j)
    ensures k in Incoming(tracked, p, operations) ==>
      Incoming(tracked, p, operations)[k] ==
        if k in tracked && tracked[k].operation.kind.MountCenter? then operations[j].Promoted() else operations[j]
  {
    if operations == [] {
      j := -1;
    } else {
      var n := |operations| - 1;
      j := IncomingListsLast(tracked, p, operations[..n], k);
      if operations[n].key == k { j := n; }
    }
  }

  /**
  The snapshot is what the poll lists: a key is in it exactly when it is listed and not
  suppressed, and stands for its last listing, with known centers classified as such.
  */
  lemma {:induction false} SnapshotListsLast(s: State, p: Poll, k: string) returns (j: int)
    ensures k in s.Snapshot(p) <==> k !in p.suppressed && j >= 0
    ensures j < 0 ==> forall i :: 0 <= i < |p.operations| ==> p.operations[i].key != k
    ensures j >= 0 ==> LastListing(p.operations, k, j)
    ensures k in s.Snapshot(p) ==>
      s.Snapshot(p)[k] == if KnownCenter(s, p, k) then p.operations[j].Promoted() else p.operations[j]
  {
    j := IncomingListsLast(s.tracked, p, p.operations, k);
    ChosenIsIncoming(Incoming(s.tracked, p, p.operations), p.centerOrder);
  }

  /**
  After every poll exactly the keys whose last listing is active and unsuppressed are
  tracked, each as listed there.
  */
  lemma {:induction false} TrackedMirrorsSnapshot(s: State, p: Poll, k: string) returns (j: int)
    requires Walks(s, p)
    ensures k in s.Next(p).tracked <==> k !in p.suppressed && LastListing(p.operations, k, j) && p.operations[j].status.Active?
    ensures k in s.Next(p).tracked ==>
      s.Next(p).tracked[k].operation == if KnownCenter(s, p, k) then p.operations[j].Promoted() else p.operations[j]
    ensures LastListing(p.operations, k, j) || forall i :: 0 <= i < |p.operations| ==> p.operations[i].key != k
  {
    j := SnapshotListsLast(s, p, k);
    var first, second := PollAtKey(s, p, k);
  }

  // ----- the lifecycle of one key -----

  /** A tracked item is open and remembers its last milestone. */
  datatype Phase = Idle | Open(last: nat)

  /** A notification, or one of the two silent turns: a center its own event announced, and a suppression or revocation. */
  datatype Mark = Sent(update: Update) | Deduplicated | Silenced {
    predicate Opens() { Deduplicated? || (Sent? && update.Started?) }

    predicate Closes() { Silenced? || (Sent? && update.Terminal()) }
  }

  function Turn(phase: Phase, m: Mark): Option<Phase> {
    if m.Opens() then (if phase.Idle? then Some(Open(0)) else None)
    else if phase.Idle? then None
    else if m.Closes() then Some(Idle)
    else if m.update.Progress? then
      (if m.update.percent in {25, 50, 75} && phase.last < m.update.percent then Some(Open(m.update.percent)) else None)
    else Some(phase)
  }

  function Accept(phase: Phase, word: seq<Mark>): Option<Phase> {
    if word == [] then Some(phase)
    else
      var before := Accept(phase, word[..|word| - 1]);
      if before.None? then None else Turn(before.value, word[|word| - 1])
  }

  function PhaseOf(tracked: map<string, Tracked>, k: string): Phase {
    if k in tracked then Open(tracked[k].lastMilestone) else Idle
  }

  function AllSent(updates: seq<Update>): (word: seq<Mark>)
    ensures |word| == |updates| && forall i :: 0 <= i < |word| ==> word[i] == Sent(updates[i])
  {
    seq(|updates|, i requires 0 <= i < |updates| => Sent(updates[i]))
  }

  /** How many of a poll's notifications about `k` belong to the item that ended there: at most one terminal. */
  function EndedFirst(updates: seq<Update>): nat {
    if updates != [] && updates[0].Terminal() then 1 else 0
  }

  /** The center a MOUNT-CENTER event already announced starts being tracked in this poll. */
  predicate StartsSilently(s: State, p: Poll, k: string) {
    s.Center(p) == Some(k) && Begins(s.Middle(p).tracked, s.Snapshot(p), k)
  }

  /** A poll's word for one key: its notifications, plus the silent turns. */
  function Word(s: State, p: Poll, k: string): seq<Mark> {
    var updates := Stream(s.After(p).notes, k);
    if k in p.suppressed then (if k in s.tracked then [Silenced] else []) + AllSent(updates)
    else MarkStart(updates, StartsSilently(s, p, k))
  }

  /** A silent start goes between the end of the old item and the notifications of the new one. */
  function MarkStart(updates: seq<Update>, silent: bool): seq<Mark> {
    if silent then AllSent(updates[..EndedFirst(updates)]) + [Deduplicated] + AllSent(updates[EndedFirst(updates)..])
    else AllSent(updates)
  }

  lemma AcceptSnoc(phase: Phase, word: seq<Mark>, m: Mark)
    ensures Accept(phase, word + [m]) ==
      if Accept(phase, word).None? then None else Turn(Accept(phase, word).value, m)
  {
    assert (word + [m])[..|word|] == word;
  }

  lemma {:induction false} AcceptConcat(phase: Phase, a: seq<Mark>, b: seq<Mark>)
    ensures Accept(phase, a + b) == if Accept(phase, a).None? then None else Accept(Accept(phase, a).value, b)
  {
    if b == [] {
      assert a + b == a;
    } else {
      var front, last := b[..|b| - 1], b[|b| - 1];
      AcceptConcat(phase, a, front);
      assert a + b == (a + front) + [last];
      AcceptSnoc(phase, a + front, last);
    }
  }

  lemma AcceptOne(phase: Phase, m: Mark)
    ensures Accept(phase, [m]) == Turn(phase, m) && Accept(phase, []) == Some(phase)
  {
    AcceptSnoc(phase, [], m);
    assert [] + [m] == [m];
  }

  lemma AcceptTwo(phase: Phase, m: Mark, n: Mark)
    ensures Accept(phase, [m, n]) == if Turn(phase, m).None? then None else Turn(Turn(phase, m).value, n)
  {
    AcceptOne(phase, m);
    AcceptSnoc(phase, [m], n);
    assert [m] + [n] == [m, n];
  }

  /** Advancing an open item is accepted and ends where tracking ends. */
  lemma {:induction false} AdvanceIsAccepted(t: Tracked, next: Option<Operation>, p: Poll, claimed: bool)
    ensures var (t', notes) := Advance(t, next, p, claimed); var us := Updates(notes);
      && Accept(Open(t.lastMilestone), AllSent(us)) == Some(if t'.Some? then Open(t'.value.lastMilestone) else Idle)
      && (t'.None? ==> |us| == 1 && us[0].Terminal())
      && (t'.Some? ==> EndedFirst(us) == 0)
  {
    var (t', notes) := Advance(t, next, p, claimed);
    var us := Updates(notes);
    var phase := Open(t.lastMilestone);
    if |us| == 1 {
      AcceptOne(phase, Sent(us[0]));
      assert AllSent(us) == [Sent(us[0])];
    }
  }

  /** An announced start is accepted from idle; a silent one is once its turn is marked. */
  lemma {:induction false} BeginIsAccepted(op: Operation, p: Poll, silent: bool, claimed: bool)
    requires p.announce
    ensures var (t, notes) := Begin(op, p, silent, claimed); var us := Updates(notes);
      && Accept(Idle, (if silent then [Deduplicated] else []) + AllSent(us)) == Some(Open(t.lastMilestone))
      && (forall u :: u in us ==> !u.Terminal())
  {
    BeginShape(op, p, silent, claimed);
    var us := (if silent then [] else [Started]) + (if claimed then [Output] else []);
    var opener := if silent then Deduplicated else Sent(Started);
    OpenersAreAccepted(opener);
    assert (if silent then [Deduplicated] else []) + AllSent(us) == if claimed then [opener, Sent(Output)] else [opener];
  }

  lemma BeginShape(op: Operation, p: Poll, silent: bool, claimed: bool)
    requires p.announce
    ensures Begin(op, p, silent, claimed).0.lastMilestone == 0
    ensures Updates(Begin(op, p, silent, claimed).1)
         == (if silent then [] else [Started]) + (if claimed then [Output] else [])
  {
  }

  lemma OpenersAreAccepted(opener: Mark)
    requires opener.Opens()
    ensures Accept(Idle, [opener]) == Accept(Idle, [opener, Sent(Output)]) == Some(Open(0))
  {
    AcceptOne(Idle, opener);
    AcceptTwo(Idle, opener, Sent(Output));
  }

  /**
  One announced poll: the key's word takes it from its phase before to its phase after.
  */
  lemma {:induction false} PollIsAccepted(s: State, p: Poll, k: string)
    requires Walks(s, p) && p.announce
    ensures Accept(PhaseOf(s.tracked, k), Word(s, p, k)) == Some(PhaseOf(s.Next(p).tracked, k))
  {
    var first, second := PollAtKey(s, p, k);
    var phase := PhaseOf(s.tracked, k);
    var updates := Stream(s.After(p).notes, k);
    PromotionKeepsPhase(s, p, k);
    if k in p.suppressed {
      AcceptOne(phase, Silenced);
      assert updates == [];
    } else {
      UnsuppressedIsAccepted(s, p, k, first, second);
    }
  }

  lemma {:induction false} PromotionKeepsPhase(s: State, p: Poll, k: string)
    ensures PhaseOf(s.Before(p).tracked, k) == PhaseOf(s.tracked, k) && s.Before(p).notes == []
  {
  }

  lemma {:induction false} UnsuppressedIsAccepted(s: State, p: Poll, k: string, first: bool, second: bool)
    requires Walks(s, p) && p.announce && k !in p.suppressed
    requires Advanced(s.Before(p), s.Middle(p), s.Snapshot(p), p, k, first)
    requires Begun(s.Middle(p), s.After(p), s.Snapshot(p), p, s.Center(p), k, second)
    ensures Accept(PhaseOf(s.tracked, k), Word(s, p, k)) == Some(PhaseOf(s.Next(p).tracked, k))
  {
    MiddleIsAccepted(s, p, k, first);
    var one := Stream(s.Middle(p).notes, k);
    if Begins(s.Middle(p).tracked, s.Snapshot(p), k) {
      var tail := StartIsAccepted(s, p, k, second);
      AcceptConcat(PhaseOf(s.tracked, k), AllSent(one), tail);
    }
  }

  /** The part of a word that starts a new item. */
  lemma {:induction false} StartIsAccepted(s: State, p: Poll, k: string, second: bool) returns (tail: seq<Mark>)
    requires p.announce && k !in p.suppressed && Begins(s.Middle(p).tracked, s.Snapshot(p), k)
    requires Begun(s.Middle(p), s.After(p), s.Snapshot(p), p, s.Center(p), k, second)
    requires var one := Stream(s.Middle(p).notes, k); |one| == EndedFirst(one)
    ensures Word(s, p, k) == AllSent(Stream(s.Middle(p).notes, k)) + tail
    ensures Accept(Idle, tail) == Some(PhaseOf(s.Next(p).tracked, k))
  {
    var one := Stream(s.Middle(p).notes, k);
    var silent := s.Center(p) == Some(k);
    var two := Updates(Begin(s.Snapshot(p)[k], p, silent, second).1);
    BeginIsAccepted(s.Snapshot(p)[k], p, silent, second);
    tail := (if silent then [Deduplicated] else []) + AllSent(two);
    MarkStartSplits(one, two, silent);
  }

  lemma {:induction false} MarkStartSplits(one: seq<Update>, two: seq<Update>, silent: bool)
    requires |one| == EndedFirst(one)
    requires forall u :: u in two ==> !u.Terminal()
    ensures MarkStart(one + two, silent) == AllSent(one) + ((if silent then [Deduplicated] else []) + AllSent(two))
  {
    SplitAtEnd(one, two);
    AllSentConcat(one, two);
    MarksConcat(AllSent(one), Deduplicated, AllSent(two));
  }

  lemma AllSentConcat(one: seq<Update>, two: seq<Update>)
    ensures AllSent(one + two) == AllSent(one) + AllSent(two)
  {
  }

  lemma MarksConcat(a: seq<Mark>, m: Mark, b: seq<Mark>)
    ensures a + [m] + b == a + ([m] + b) && a + b == a + ([] + b)
  {
  }

  lemma {:induction false} MiddleIsAccepted(s: State, p: Poll, k: string, first: bool)
    requires k !in p.suppressed && Advanced(s.Before(p), s.Middle(p), s.Snapshot(p), p, k, first)
    ensures var one := Stream(s.Middle(p).notes, k);
      && Accept(PhaseOf(s.tracked, k), AllSent(one)) == Some(PhaseOf(s.Middle(p).tracked, k))
      && (k !in s.Middle(p).tracked ==> |one| == EndedFirst(one))
  {
    PromotionKeepsPhase(s, p, k);
    if k in s.Before(p).tracked {
      AdvanceIsAccepted(s.Before(p).tracked[k], Get(s.Snapshot(p), k), p, first);
      var notes := Advance(s.Before(p).tracked[k], Get(s.Snapshot(p), k), p, first).1;
      assert Stream(s.Middle(p).notes, k) == [] + Updates(notes) == Updates(notes);
    }
  }

  /** The notifications of an ended item come before those of its successor. */
  lemma SplitAtEnd(one: seq<Update>, two: seq<Update>)
    requires |one| == EndedFirst(one)
    requires forall u :: u in two ==> !u.Terminal()
    ensures EndedFirst(one + two) == |one|
    ensures (one + two)[..|one|] == one && (one + two)[|one|..] == two
  {
    if one == [] && two != [] {
      assert two[0] in two;
    }
  }

  // ----- whole runs -----

  /** What reaches the reconciler: snapshots, MOUNT-CENTER events and privacy markers. */
  datatype Event = Polled(poll: Poll) | CenterSeen(at: int) | Revoked(scope: EventNames.Scope)

  function Step(s: State, e: Event): State {
    match e
    case Polled(p) => s.Next(p)
    case CenterSeen(at) => s.NoteCenter(at)
    case Revoked(scope) => s.Revoke(scope)
  }

  function Run(s: State, events: seq<Event>): State {
    if events == [] then s else Step(Run(s, events[..|events| - 1]), events[|events| - 1])
  }

  function StepWord(s: State, e: Event, k: string): seq<Mark> {
    match e
    case Polled(p) => Word(s, p, k)
    case CenterSeen(_) => []
    case Revoked(scope) => if k in s.tracked && Revokes(scope, s.tracked[k].operation.kind) then [Silenced] else []
  }

  function RunWord(s: State, events: seq<Event>, k: string): seq<Mark> {
    if events == [] then []
    else RunWord(s, events[..|events| - 1], k)
         + StepWord(Run(s, events[..|events| - 1]), events[|events| - 1], k)
  }

  ghost predicate AnnouncedRun(s: State, events: seq<Event>) {
    forall i :: 0 <= i < |events| && events[i].Polled? ==>
      events[i].poll.announce && Walks(Run(s, events[..i]), events[i].poll)
  }

  /**
  Main result: over any run of announced polls, center events and privacy markers, from any
  state, a key's notifications are a lifecycle, and it is open exactly while the key is tracked.
  */
  lemma {:induction false} RunIsAccepted(s: State, events: seq<Event>, k: string)
    requires AnnouncedRun(s, events)
    ensures Accept(PhaseOf(s.tracked, k), RunWord(s, events, k)) == Some(PhaseOf(Run(s, events).tracked, k))
  {
    if events != [] {
      var front, last := events[..|events| - 1], events[|events| - 1];
      assert forall i :: 0 <= i < |front| ==> front[..i] == events[..i];
      RunIsAccepted(s, front, k);
      var mid := Run(s, front);
      if last.Polled? {
        PollIsAccepted(mid, last.poll, k);
      } else {
        AcceptOne(PhaseOf(mid.tracked, k), Silenced);
      }
      AcceptConcat(PhaseOf(s.tracked, k), RunWord(s, front, k), StepWord(mid, last, k));
    }
  }

  // ----- what acceptance means -----

  lemma {:induction false} AcceptPrefix(phase: Phase, word: seq<Mark>, n: nat)
    requires Accept(phase, word).Some? && n <= |word|
    ensures Accept(phase, word[..n]).Some?
    ensures n < |word| ==>
      Accept(phase, word[..n + 1]).Some? && Turn(Accept(phase, word[..n]).value, word[n]) == Accept(phase, word[..n + 1])
    decreases |word|
  {
    if n < |word| {
      var front := word[..|word| - 1];
      if n < |front| {
        AcceptPrefix(phase, front, n);
        assert front[..n] == word[..n] && front[..n + 1] == word[..n + 1];
      } else {
        assert word[..n] == front && word[..n + 1] == word;
      }
    } else {
      assert word[..n] == word;
    }
  }

  /** A stretch without a terminal or a silencing keeps an open item open, and its milestones rising. */
  lemma {:induction false} StaysOpen(phase: Phase, word: seq<Mark>, i: nat, j: nat)
    requires Accept(phase, word).Some? && i < j <= |word|
    requires Accept(phase, word[..i + 1]).Some? && Accept(phase, word[..i + 1]).value.Open?
    requires forall m :: i < m < j ==> !word[m].Closes()
    ensures Accept(phase, word[..j]).Some? && Accept(phase, word[..j]).value.Open?
    ensures Accept(phase, word[..j]).value.last >= Accept(phase, word[..i + 1]).value.last
    decreases j
  {
    if i + 1 < j {
      StaysOpen(phase, word, i, j - 1);
      AcceptPrefix(phase, word, j - 1);
    }
  }

  /** No second start without a terminal notification, a suppression or a revocation in between. */
  lemma {:induction false} StartsAreSeparated(phase: Phase, word: seq<Mark>, i: nat, j: nat)
    requires Accept(phase, word).Some? && i < j < |word| && word[i].Opens() && word[j].Opens()
    ensures exists m :: i < m < j && word[m].Closes()
  {
    AcceptPrefix(phase, word, i);
    if forall m :: i < m < j ==> !word[m].Closes() {
      StaysOpen(phase, word, i, j);
      AcceptPrefix(phase, word, j);
      assert false;
    }
  }

  /** Milestones of one item are 25, 50 and 75, announced in strictly rising order. */
  lemma {:induction false} MilestonesRise(phase: Phase, word: seq<Mark>, i: nat, j: nat)
    requires Accept(phase, word).Some? && i < j < |word|
    requires word[i].Sent? && word[i].update.Progress? && word[j].Sent? && word[j].update.Progress?
    requires forall m :: i < m < j ==> !word[m].Closes()
    ensures word[i].update.percent in {25, 50, 75} && word[j].update.percent in {25, 50, 75}
    ensures word[i].update.percent < word[j].update.percent
  {
    AcceptPrefix(phase, word, i);
    AcceptPrefix(phase, word, j);
    StaysOpen(phase, word, i, j);
  }

  /** The first milestone an open item announces is above the one it starts from. */
  lemma {:induction false} FirstMilestoneRises(phase: Phase, word: seq<Mark>, i: nat)
    requires phase.Open? && Accept(phase, word).Some? && i < |word|
    requires word[i].Sent? && word[i].update.Progress?
    requires forall m :: 0 <= m < i ==> !word[m].Closes()
    ensures word[i].update.percent in {25, 50, 75} && word[i].update.percent > phase.last
  {
    AcceptPrefix(phase, word, i);
    if i == 0 {
      assert word[..0] == [];
    } else {
      AcceptPrefix(phase, word, 0);
      assert word[..0] == [];
      StaysOpen(phase, word, 0, i);
    }
  }

  /** After a silent poll no milestone already passed is left to announce. */
  lemma {:induction false} BaselineSeeds(s: State, p: Poll, k: string)
    requires Walks(s, p) && !p.announce && k in s.Next(p).tracked
    ensures var t := s.Next(p).tracked[k];
      t.Progress(p.now).Some? ==> CompletedMilestone(t.Progress(p.now).value) <= t.lastMilestone
  {
    var first, second := PollAtKey(s, p, k);
    if Begins(s.Middle(p).tracked, s.Snapshot(p), k) {
      SeededMilestone(s.Snapshot(p)[k], p, s.Center(p) == Some(k), second);
    } else {
      AdvancedMilestone(s.Before(p).tracked[k], Get(s.Snapshot(p), k), p, first);
    }
  }

  lemma SeededMilestone(op: Operation, p: Poll, silent: bool, claimed: bool)
    requires !p.announce
    ensures var t := Begin(op, p, silent, claimed).0;
      t.Progress(p.now).Some? ==> t.lastMilestone == CompletedMilestone(t.Progress(p.now).value)
  {
  }

  lemma AdvancedMilestone(t: Tracked, next: Option<Operation>, p: Poll, claimed: bool)
    ensures var t' := Advance(t, next, p, claimed).0;
      t'.Some? && t'.value.Progress(p.now).Some? ==>
        CompletedMilestone(t'.value.Progress(p.now).value) <= t'.value.lastMilestone
  {
  }

  /**
  An operation found under way by the baseline, first or retried, never announces a milestone
  it had passed by then, over any later run, however often its end estimate moves.
  */
  lemma {:induction false} BaselineNeverReplays(s: State, p: Poll, events: seq<Event>, k: string, i: nat)
    requires Walks(s, p) && !p.announce && k in s.Next(p).tracked
    requires AnnouncedRun(s.Next(p), events)
    requires var word := RunWord(s.Next(p), events, k);
      && i < |word| && word[i].Sent? && word[i].update.Progress?
      && forall m :: 0 <= m < i ==> !word[m].Closes()
    ensures var begun := s.Next(p).tracked[k].Progress(p.now);
      begun.Some? ==> RunWord(s.Next(p), events, k)[i].update.percent > begun.value
  {
    var seeded := s.Next(p);
    RunIsAccepted(seeded, events, k);
    FirstMilestoneRises(PhaseOf(seeded.tracked, k), RunWord(seeded, events, k), i);
    BaselineSeeds(s, p, k);
  }

  // ----- what silent starts cost -----

  /**
  A silent start is the matched center's, once, within two minutes of its event, and uses the
  event up.
  */
  lemma SilentStartIsACenter(s: State, p: Poll, k: string)
    requires Deduplicated in Word(s, p, k)
    ensures s.Center(p) == Some(k) && multiset(Word(s, p, k))[Deduplicated] == 1
    ensures s.centerSeenAt.Some? && p.now - s.centerSeenAt.value <= CENTER_EVENT_WINDOW
    ensures s.Next(p).centerSeenAt == None
  {
    var updates := Stream(s.After(p).notes, k);
    var n := EndedFirst(updates);
    SentOnly(updates);
    if StartsSilently(s, p, k) && k !in p.suppressed {
      SentOnly(updates[..n]);
      SentOnly(updates[n..]);
    }
  }

  lemma SentOnly(updates: seq<Update>)
    ensures Deduplicated !in AllSent(updates) && multiset(AllSent(updates))[Deduplicated] == 0
  {
  }

  /** Center events that have not been matched or forgotten yet: one or none. */
  function Unmatched(s: State): nat { if s.centerSeenAt.Some? then 1 else 0 }

  function CenterEvents(events: seq<Event>): nat {
    if events == [] then 0
    else CenterEvents(events[..|events| - 1]) + if events[|events| - 1].CenterSeen? then 1 else 0
  }

  ghost predicate StartsSomeSilently(s: State, p: Poll) {
    exists k :: Deduplicated in Word(s, p, k)
  }

  /** Polls of a run in which some item, hence exactly one, starts silently. */
  ghost function SilentStarts(s: State, events: seq<Event>): nat {
    if events == [] then 0
    else
      var front, last := events[..|events| - 1], events[|events| - 1];
      SilentStarts(s, front) + if last.Polled? && StartsSomeSilently(Run(s, front), last.poll) then 1 else 0
  }

  /** Over any run there are no more silent starts than MOUNT-CENTER events to pay for them. */
  lemma {:induction false} SilentStartsArePaid(s: State, events: seq<Event>)
    ensures SilentStarts(s, events) + Unmatched(Run(s, events)) <= CenterEvents(events) + Unmatched(s)
  {
    if events != [] {
      var front, last := events[..|events| - 1], events[|events| - 1];
      SilentStartsArePaid(s, front);
      var mid := Run(s, front);
      if last.Polled? && StartsSomeSilently(mid, last.poll) {
        var k :| Deduplicated in Word(mid, last.poll, k);
        SilentStartIsACenter(mid, last.poll, k);
      } else if last.Polled? {
        PollsOnlySpend(mid, last.poll);
      }
    }
  }

  lemma PollsOnlySpend(s: State, p: Poll)
    ensures Unmatched(s.Next(p)) <= Unmatched(s)
  {
  }

  // ----- what notes carry -----

  /** A progress note carries an operation that has come at least that far. */
  predicate Earned(t: Tracked, u: Update, now: int) {
    u.Progress? ==> t.Progress(now).Some? && u.percent == CompletedMilestone(t.Progress(now).value) <= t.Progress(now).value
  }

  predicate Enabled(operations: map<string, Operation>) {
    forall k :: k in operations ==> operations[k].chatEnabled
  }

  predicate EnabledTracking(tracked: map<string, Tracked>) {
    forall k :: k in tracked ==> tracked[k].operation.chatEnabled
  }

  /** A note is earned, and where only enabled operations are about, it is of one. */
  predicate SoundNote(t: Tracked, u: Update, now: int, enabled: bool) {
    Earned(t, u, now) && (enabled ==> t.operation.chatEnabled)
  }

  predicate SoundPass(s: Pass, now: int, enabled: bool) {
    && (enabled ==> EnabledTracking(s.tracked))
    && forall i :: 0 <= i < |s.notes| ==> SoundNote(s.notes[i].tracked, s.notes[i].update, now, enabled)
  }

  lemma {:induction false} SayKeepsSound(s: Pass, key: string, notes: seq<(Tracked, Update)>, now: int, enabled: bool)
    requires SoundPass(s, now, enabled)
    requires forall i :: 0 <= i < |notes| ==> SoundNote(notes[i].0, notes[i].1, now, enabled)
    ensures SoundPass(s.Say(key, notes), now, enabled)
    decreases |notes|
  {
    if notes != [] {
      SayKeepsSound(s.(notes := s.notes + [Note(key, notes[0].0, notes[0].1)]), key, notes[1..], now, enabled);
    }
  }

  lemma AdvanceIsSound(t: Tracked, next: Option<Operation>, p: Poll, claimed: bool, enabled: bool)
    requires enabled ==> t.operation.chatEnabled && (next.Some? ==> next.value.chatEnabled)
    ensures var (t', notes) := Advance(t, next, p, claimed);
      && (enabled && t'.Some? ==> t'.value.operation.chatEnabled)
      && forall i :: 0 <= i < |notes| ==> SoundNote(notes[i].0, notes[i].1, p.now, enabled)
  {
    if next.Some? && t.operation.SameIdentity(next.value) && next.value.status.Active? {
      NextMilestoneIsHighestNew(Refreshed(t, next.value, p.camera), p.now);
    }
  }

  lemma AdvanceKeyKeepsSound(s: Pass, key: string, incoming: map<string, Operation>, p: Poll, enabled: bool)
    requires SoundPass(s, p.now, enabled) && (enabled ==> Enabled(incoming))
    ensures SoundPass(AdvanceKey(s, key, incoming, p), p.now, enabled)
  {
    if key in s.tracked && key !in p.suppressed {
      var next := Get(incoming, key);
      var offer := AdvanceOffer(s.tracked[key], next, p);
      var (t, notes) := Advance(s.tracked[key], next, p, s.Claimable(offer));
      AdvanceIsSound(s.tracked[key], next, p, s.Claimable(offer), enabled);
      SayKeepsSound(s.Claim(offer).Put(key, t), key, notes, p.now, enabled);
    }
  }

  lemma BeginKeyKeepsSound(s: Pass, key: string, incoming: map<string, Operation>, p: Poll, center: Option<string>, enabled: bool)
    requires SoundPass(s, p.now, enabled) && (enabled ==> Enabled(incoming))
    ensures SoundPass(BeginKey(s, key, incoming, p, center), p.now, enabled)
  {
    if Begins(s.tracked, incoming, key) {
      var offer := Offer(incoming[key]);
      var (t, notes) := Begin(incoming[key], p, center == Some(key), s.Claimable(offer));
      SayKeepsSound(s.Claim(offer).Put(key, Some(t)), key, notes, p.now, enabled);
    }
  }

  lemma {:induction false} FirstPassKeepsSound(s: Pass, order: seq<string>, incoming: map<string, Operation>, p: Poll, enabled: bool)
    requires SoundPass(s, p.now, enabled) && (enabled ==> Enabled(incoming))
    ensures SoundPass(FirstPass(s, order, incoming, p), p.now, enabled)
  {
    if order != [] {
      FirstPassKeepsSound(s, order[..|order| - 1], incoming, p, enabled);
      AdvanceKeyKeepsSound(FirstPass(s, order[..|order| - 1], incoming, p), order[|order| - 1], incoming, p, enabled);
    }
  }

  lemma {:induction false} SecondPassKeepsSound(
      s: Pass, order: seq<string>, incoming: map<string, Operation>, p: Poll, center: Option<string>, enabled: bool)
    requires SoundPass(s, p.now, enabled) && (enabled ==> Enabled(incoming))
    ensures SoundPass(SecondPass(s, order, incoming, p, center), p.now, enabled)
  {
    if order != [] {
      var front := order[..|order| - 1];
      SecondPassKeepsSound(s, front, incoming, p, center, enabled);
      BeginKeyKeepsSound(SecondPass(s, front, incoming, p, center), order[|order| - 1], incoming, p, center, enabled);
    }
  }

  lemma PollIsSound(s: State, p: Poll, enabled: bool)
    requires enabled ==> EnabledTracking(s.tracked) && Enabled(s.Snapshot(p))
    ensures SoundPass(s.After(p), p.now, enabled)
  {
    FirstPassKeepsSound(s.Before(p), p.trackedOrder, s.Snapshot(p), p, enabled);
    SecondPassKeepsSound(s.Middle(p), p.incomingOrder, s.Snapshot(p), p, s.Center(p), enabled);
  }

  /** Every milestone a poll notes is the highest its operation has completed, never above its progress. */
  lemma MilestonesAreEarned(s: State, p: Poll)
    ensures forall i :: 0 <= i < |s.After(p).notes| ==> Earned(s.After(p).notes[i].tracked, s.After(p).notes[i].update, p.now)
  {
    PollIsSound(s, p, false);
  }

  lemma {:induction false} IncomingIsEnabled(tracked: map<string, Tracked>, p: Poll, operations: seq<Operation>)
    requires forall i :: 0 <= i < |operations| ==> operations[i].chatEnabled
    ensures Enabled(Incoming(tracked, p, operations))
  {
    if operations != [] { IncomingIsEnabled(tracked, p, operations[..|operations| - 1]); }
  }

  lemma {:induction false} DeliveredIsAll(p: Poll, notes: seq<Note>)
    requires p.announce && forall i :: 0 <= i < |notes| ==> notes[i].tracked.operation.chatEnabled
    ensures Delivered(p, notes) == notes
  {
    if notes != [] { DeliveredIsAll(p, notes[..|notes| - 1]); }
  }

  /** Snapshots carry only enabled operations; then chat hears every notification, and it stays that way. */
  lemma ChatHearsEverything(s: State, p: Poll)
    requires p.announce && EnabledTracking(s.tracked)
    requires forall i :: 0 <= i < |p.operations| ==> p.operations[i].chatEnabled
    ensures Delivered(p, s.After(p).notes) == s.After(p).notes
    ensures EnabledTracking(s.Next(p).tracked)
  {
    IncomingIsEnabled(s.tracked, p, p.operations);
    PollIsSound(s, p, true);
    DeliveredIsAll(p, s.After(p).notes);
  }
}
