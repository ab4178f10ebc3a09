/** Solve results are shown once, and the reconciler in place. */
module SequenceReconcilers {
  import opened Wrappers
  import opened SeenSet
  import opened SequenceOperations
  import opened Reconciler
  import opened Lifecycle
  import EventNames

  // ----- every solve result is shown at most once -----

  predicate Shows(n: Note, o: string) {
    n.update.ShowsOutput() && n.tracked.lastOutputKey == Some(o)
  }

  function Shown(notes: seq<Note>, o: string): nat {
    if notes == [] then 0 else Shown(notes[..|notes| - 1], o) + if Shows(notes[|notes| - 1], o) then 1 else 0
  }

  /** How often a claim of `o` has succeeded. */
  function Won(claims: seq<string>, o: string): nat {
    TimesNew(SEEN_SET_CAPACITY, [], claims, o)
  }

  lemma {:induction false} TimesNewSnoc(history: seq<string>, keys: seq<string>, k: string, o: string)
    ensures TimesNew(SEEN_SET_CAPACITY, history, keys + [k], o) == TimesNew(SEEN_SET_CAPACITY, history, keys, o)
      + if k == o && k !in TouchAll([], SEEN_SET_CAPACITY, history + keys) then 1 else 0
    decreases |keys|
  {
    if keys == [] {
      assert keys + [k] == [k] && history + keys == history;
    } else {
      assert (keys + [k])[0] == keys[0] && (keys + [k])[1..] == keys[1..] + [k];
      assert history + [keys[0]] + keys[1..] == history + keys;
      TimesNewSnoc(history + [keys[0]], keys[1..], k, o);
    }
  }

  lemma {:induction false} ClaimWins(s: Pass, offer: Option<string>, o: string)
    ensures Won(s.Claim(offer).claims, o) == Won(s.claims, o) + if offer == Some(o) && s.Claimable(offer) then 1 else 0
  {
    if offer.Some? {
      TimesNewSnoc([], s.claims, offer.value, o);
      assert [] + s.claims == s.claims;
    }
  }

  lemma {:induction false} SayShows(s: Pass, key: string, notes: seq<(Tracked, Update)>, o: string)
    requires |notes| <= 1
    ensures Shown(s.Say(key, notes).notes, o) ==
      Shown(s.notes, o) + if notes != [] && Shows(Note(key, notes[0].0, notes[0].1), o) then 1 else 0
  {
    if notes != [] {
      var note := Note(key, notes[0].0, notes[0].1);
      assert (s.notes + [note])[..|s.notes|] == s.notes;
      assert s.Say(key, notes).notes == s.notes + [note];
    }
  }

  /** Advancing says at most one thing, and shows only the result its claim has won. */
  lemma {:induction false} AdvanceShowsItsOffer(t: Tracked, next: Option<Operation>, p: Poll, claimed: bool, key: string, o: string)
    requires claimed ==> AdvanceOffer(t, next, p).Some?
    ensures var notes := Advance(t, next, p, claimed).1;
      |notes| <= 1 && (notes != [] && Shows(Note(key, notes[0].0, notes[0].1), o) ==>
        claimed && AdvanceOffer(t, next, p) == Some(o))
  {
  }

  lemma {:induction false} AdvanceShowsWhatItWins(s: Pass, key: string, incoming: map<string, Operation>, p: Poll, o: string)
    ensures var s' := AdvanceKey(s, key, incoming, p);
      Shown(s'.notes, o) + Won(s.claims, o) <= Shown(s.notes, o) + Won(s'.claims, o)
  {
    if key in s.tracked && key !in p.suppressed {
      var next := Get(incoming, key);
      var offer := AdvanceOffer(s.tracked[key], next, p);
      var (t, notes) := Advance(s.tracked[key], next, p, s.Claimable(offer));
      ClaimWins(s, offer, o);
      AdvanceShowsItsOffer(s.tracked[key], next, p, s.Claimable(offer), key, o);
      SayStream(s.Claim(offer).Put(key, t), key, notes, key);
      SayShows(s.Claim(offer).Put(key, t), key, notes, o);
    }
  }

  lemma {:induction false} SaySplits(s: Pass, key: string, a: (Tracked, Update), b: (Tracked, Update))
    ensures s.Say(key, [a, b]) == s.Say(key, [a]).Say(key, [b])
  {
    assert [a, b][1..] == [b];
  }

  lemma {:induction false} BeginShowsWhatItWins(s: Pass, key: string, incoming: map<string, Operation>, p: Poll, center: Option<string>, o: string)
    ensures var s' := BeginKey(s, key, incoming, p, center);
      Shown(s'.notes, o) + Won(s.claims, o) <= Shown(s.notes, o) + Won(s'.claims, o)
  {
    if Begins(s.tracked, incoming, key) {
      var offer := Offer(incoming[key]);
      var (t, notes) := Begin(incoming[key], p, center == Some(key), s.Claimable(offer));
      var put := s.Claim(offer).Put(key, Some(t));
      ClaimWins(s, offer, o);
      SayStream(put, key, notes, key);
      if |notes| == 2 {
        assert notes == [notes[0], notes[1]];
        SaySplits(put, key, notes[0], notes[1]);
        SayShows(put, key, [notes[0]], o);
        SayShows(put.Say(key, [notes[0]]), key, [notes[1]], o);
      } else {
        SayShows(put, key, notes, o);
      }
    }
  }

  lemma {:induction false} FirstPassShows(s: Pass, order: seq<string>, incoming: map<string, Operation>, p: Poll, o: string)
    ensures var s' := FirstPass(s, order, incoming, p);
      Shown(s'.notes, o) + Won(s.claims, o) <= Shown(s.notes, o) + Won(s'.claims, o)
  {
    if order != [] {
      var front := order[..|order| - 1];
      FirstPassShows(s, front, incoming, p, o);
      AdvanceShowsWhatItWins(FirstPass(s, front, incoming, p), order[|order| - 1], incoming, p, o);
    }
  }

  lemma {:induction false} SecondPassShows(s: Pass, order: seq<string>, incoming: map<string, Operation>, p: Poll, center: Option<string>, o: string)
    ensures var s' := SecondPass(s, order, incoming, p, center);
      Shown(s'.notes, o) + Won(s.claims, o) <= Shown(s.notes, o) + Won(s'.claims, o)
  {
    if order != [] {
      var front := order[..|order| - 1];
      SecondPassShows(s, front, incoming, p, center, o);
      BeginShowsWhatItWins(SecondPass(s, front, incoming, p, center), order[|order| - 1], incoming, p, center, o);
    }
  }

  function RunShown(s: State, events: seq<Lifecycle.Event>, o: string): nat {
    if events == [] then 0
    else
      var before, e := Run(s, events[..|events| - 1]), events[|events| - 1];
      RunShown(s, events[..|events| - 1], o) + if e.Polled? then Shown(before.After(e.poll).notes, o) else 0
  }

  lemma {:induction false} RunShowsWhatItWins(s: State, events: seq<Lifecycle.Event>, o: string)
    ensures RunShown(s, events, o) + Won(s.claims, o) <= Won(Run(s, events).claims, o)
  {
    if events != [] {
      var front, e := events[..|events| - 1], events[|events| - 1];
      RunShowsWhatItWins(s, front, o);
      if e.Polled? {
        var before := Run(s, front);
        FirstPassShows(before.Before(e.poll), e.poll.trackedOrder, before.Snapshot(e.poll), e.poll, o);
        SecondPassShows(before.Middle(e.poll), e.poll.incomingOrder, before.Snapshot(e.poll), e.poll, before.Center(e.poll), o);
      }
    }
  }

  /** The claims of `o` that its dedup key had not been claimed for within the last 20,000 distinct ones. */
  function FreshClaims(claims: seq<string>, o: string): nat {
    if claims == [] then 0
    else
      var front, last := claims[..|claims| - 1], claims[|claims| - 1];
      FreshClaims(front, o)
      + if last == o && (o !in front || |Elements(SinceLast(front, o))| >= SEEN_SET_CAPACITY) then 1 else 0
  }

  lemma {:induction false} WonIsFresh(claims: seq<string>, o: string)
    ensures Won(claims, o) == FreshClaims(claims, o)
  {
    if claims != [] {
      var front, last := claims[..|claims| - 1], claims[|claims| - 1];
      WonIsFresh(front, o);
      assert claims == front + [last] && [] + front == front;
      TimesNewSnoc([], front, last, o);
      SeenExactlyWhenRecent(SEEN_SET_CAPACITY, front, o);
    }
  }

  /**
  Over any run whatsoever a solve result is shown at most once per fresh claim: again only
  after 20,000 other results were claimed since.
  */
  lemma {:induction false} OutputShownOnlyWhenFresh(s: State, events: seq<Lifecycle.Event>, o: string)
    ensures RunShown(s, events, o) + FreshClaims(s.claims, o) <= FreshClaims(Run(s, events).claims, o)
  {
    RunShowsWhatItWins(s, events, o);
    WonIsFresh(s.claims, o);
    WonIsFresh(Run(s, events).claims, o);
  }

  /**
  However operations loop, restart or repeat their last result under other keys, one
  solve result is shown at most once in a run, and not at all if it was claimed before,
  as long as no more than 20,000 results have been claimed.
  */
  lemma {:induction false} OutputShownAtMostOnce(s: State, events: seq<Lifecycle.Event>, o: string)
    requires |Elements(Run(s, events).claims)| <= SEEN_SET_CAPACITY
    ensures RunShown(s, events, o) <= 1
    ensures o in s.claims ==> RunShown(s, events, o) == 0
  {
    RunShowsWhatItWins(s, events, o);
    var claims := Run(s, events).claims;
    assert [] + claims == claims;
    AnnouncedExactlyOnce(SEEN_SET_CAPACITY, [], claims, o);
    if o in s.claims {
      FirstSightingIsNew(SEEN_SET_CAPACITY, [], s.claims, o);
    }
  }

  // ----- the reconciler in place -----

  class SequenceReconciler {
    var tracked: map<string, Tracked>
    const outputsSeen: BoundedSeenSet<string>
    var centerSeenAt: Option<int>
    /** Every output claimed so far. */
    ghost var claims: seq<string>

    ghost predicate Valid()
      reads this, outputsSeen
    {
      && outputsSeen.Valid() && outputsSeen.capacity == SEEN_SET_CAPACITY
      && outputsSeen.recency == TouchAll([], SEEN_SET_CAPACITY, claims)
    }

    ghost function View(): State
      reads this
    {
      State(tracked, claims, centerSeenAt)
    }

    constructor ()
      ensures Valid() && View() == State(map[], [], None) && fresh(outputsSeen)
    {
      tracked, centerSeenAt, claims := map[], None, [];
      outputsSeen := new BoundedSeenSet(SEEN_SET_CAPACITY);
    }

    method Claim(offer: Option<string>) returns (won: bool)
      requires Valid()
      modifies this`claims, outputsSeen
      ensures Valid()
      ensures var before := Pass(tracked, old(claims), []);
        won == before.Claimable(offer) && claims == before.Claim(offer).claims
    {
      won := ClaimPlateSolveOutput(outputsSeen, offer.Some?, offer);
      if offer.Some? {
        claims := claims + [offer.value];
        assert claims[..|claims| - 1] == old(claims);
      }
    }

    /** One key of the first walk. */
    method AdvanceOne(key: string, incoming: map<string, Operation>, p: Poll, notes: seq<Note>) returns (notes': seq<Note>)
      requires Valid()
      modifies this`tracked, this`claims, outputsSeen
      ensures Valid()
      ensures Pass(tracked, claims, notes') == AdvanceKey(Pass(old(tracked), old(claims), notes), key, incoming, p)
    {
      notes' := notes;
      if key !in tracked {
        return;
      }
      if key in p.suppressed {
        tracked := tracked - {key};
        return;
      }
      ghost var before := Pass(tracked, claims, notes);
      var next := Get(incoming, key);
      var offer := AdvanceOffer(tracked[key], next, p);
      var claimed := Claim(offer);
      var (t, said) := Advance(tracked[key], next, p, claimed);
      tracked := if t.Some? then tracked[key := t.value] else tracked - {key};
      notes' := Report(key, said, notes, before.Claim(offer).Put(key, t));
    }

    /** One key of the second walk. */
    method BeginOne(key: string, incoming: map<string, Operation>, p: Poll, center: Option<string>, notes: seq<Note>) returns (notes': seq<Note>)
      requires Valid()
      modifies this`tracked, this`claims, outputsSeen
      ensures Valid()
      ensures Pass(tracked, claims, notes') == BeginKey(Pass(old(tracked), old(claims), notes), key, incoming, p, center)
    {
      notes' := notes;
      if key !in incoming || !incoming[key].status.Active? || key in tracked {
        return;
      }
      ghost var before := Pass(tracked, claims, notes);
      var offer := Offer(incoming[key]);
      var claimed := Claim(offer);
      var (t, said) := Begin(incoming[key], p, center == Some(key), claimed);
      tracked := tracked[key := t];
      notes' := Report(key, said, notes, before.Claim(offer).Put(key, Some(t)));
    }

    /** Appends the notifications of one key. */
    static method Report(key: string, said: seq<(Tracked, Update)>, notes: seq<Note>, ghost s: Pass) returns (notes': seq<Note>)
      requires s.notes == notes
      ensures s.Say(key, said) == s.(notes := notes')
    {
      notes' := notes;
      for i := 0 to |said|
        invariant s.Say(key, said) == s.(notes := notes').Say(key, said[i..])
      {
        assert said[i..][1..] == said[i + 1..];
        notes' := notes' + [Note(key, said[i].0, said[i].1)];
      }
    }

    /** A MOUNT-CENTER event, to be matched by the next polls. */
    method NoteCenter(at: int)
      requires Valid()
      modifies this`centerSeenAt
      ensures Valid() && View() == old(View()).NoteCenter(at)
    {
      centerSeenAt := Some(at);
    }

    /** A privacy marker of this scope. */
    method RevokeScope(scope: EventNames.Scope)
      requires Valid()
      modifies this`tracked, this`centerSeenAt
      ensures Valid() && View() == old(View()).Revoke(scope)
    {
      if scope.Mount? {
        centerSeenAt := None;
      }
      tracked := map k | k in tracked && !Revokes(scope, tracked[k].operation.kind) :: tracked[k];
    }

    /** The whole reconciliation; returns what reaches chat. */
    method Reconcile(p: Poll) returns (delivered: seq<Note>)
      requires Valid()
      modifies this, outputsSeen
      ensures Valid()
      ensures View() == old(View()).Next(p)
      ensures delivered == Delivered(p, old(View()).After(p).notes)
    {
      ghost var s := View();
      if centerSeenAt.Some? && p.now - centerSeenAt.value > CENTER_EVENT_WINDOW {
        centerSeenAt := None;
      }
      var incoming := Incoming(tracked, p, p.operations);
      var center: Option<string> := None;
      if centerSeenAt.Some? {
        center := ChooseCenter(incoming, p.centerOrder);
        ChosenIsIncoming(incoming, p.centerOrder);
        if center.Some? {
          incoming := PromoteIn(incoming, center.value);
          tracked := PromoteTracked(tracked, center.value);
          centerSeenAt := None;
        }
      }
      assert Pass(tracked, claims, []) == s.Before(p) && incoming == s.Snapshot(p) && center == s.Center(p);
      assert centerSeenAt == s.Next(p).centerSeenAt;
      var notes := WalkTracked(incoming, p);
      notes := WalkIncoming(incoming, p, center, notes);
      delivered := Deliver(p, notes);
    }

    method WalkTracked(incoming: map<string, Operation>, p: Poll) returns (notes: seq<Note>)
      requires Valid()
      modifies this`tracked, this`claims, outputsSeen
      ensures Valid()
      ensures Pass(tracked, claims, notes) == FirstPass(Pass(old(tracked), old(claims), []), p.trackedOrder, incoming, p)
    {
      notes := [];
      ghost var start := Pass(tracked, claims, []);
      for i := 0 to |p.trackedOrder|
        invariant Valid()
        invariant Pass(tracked, claims, notes) == FirstPass(start, p.trackedOrder[..i], incoming, p)
      {
        FirstPassSnoc(start, p.trackedOrder, i, incoming, p);
        notes := AdvanceOne(p.trackedOrder[i], incoming, p, notes);
      }
      assert p.trackedOrder[..|p.trackedOrder|] == p.trackedOrder;
    }

    method WalkIncoming(incoming: map<string, Operation>, p: Poll, center: Option<string>, notes: seq<Note>) returns (notes': seq<Note>)
      requires Valid()
      modifies this`tracked, this`claims, outputsSeen
      ensures Valid()
      ensures Pass(tracked, claims, notes')
           == SecondPass(Pass(old(tracked), old(claims), notes), p.incomingOrder, incoming, p, center)
    {
      notes' := notes;
      ghost var start := Pass(tracked, claims, notes);
      for i := 0 to |p.incomingOrder|
        invariant Valid()
        invariant Pass(tracked, claims, notes') == SecondPass(start, p.incomingOrder[..i], incoming, p, center)
      {
        SecondPassSnoc(start, p.incomingOrder, i, incoming, p, center);
        notes' := BeginOne(p.incomingOrder[i], incoming, p, center, notes');
      }
      assert p.incomingOrder[..|p.incomingOrder|] == p.incomingOrder;
    }

    static method Deliver(p: Poll, notes: seq<Note>) returns (delivered: seq<Note>)
      ensures delivered == Delivered(p, notes)
    {
      delivered := [];
      for i := 0 to |notes|
        invariant delivered == Delivered(p, notes[..i])
      {
        assert notes[..i + 1][..i] == notes[..i];
        if p.announce && notes[i].tracked.operation.chatEnabled {
          delivered := delivered + [notes[i]];
        }
      }
      assert notes[..|notes|] == notes;
    }
  }
}
