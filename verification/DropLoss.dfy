/** What a privacy marker that the history keeps carrying costs the drop counts. */
module DropLoss {
  import opened Wrappers
  import opened EventNames
  import opened Events
  import opened Batches
  import opened SeenSet
  import opened EventProcessing
  import opened EventRuns
  import ScopeTable
  import Diagnostics
  import Elision
  import ElisionSnapshot

  /** What the notice of a poll, if one is due, announces of slot `k`. */
  ghost function NoticeShare(r: Elision.Reporter, ctx: Context, k: ElisionSnapshot.Key): nat {
    if ctx.hasServices && r.TakeNotice(ctx.doneAt).1.Some? then Elision.Held(r, k) else 0
  }

  lemma RevokedHeld(r: Elision.Reporter, events: seq<Event>, k: ElisionSnapshot.Key)
    ensures Elision.Held(RevokeElisions(r, events), k) == if Disables(events, k.scope) then 0 else Elision.Held(r, k)
  {
  }

  lemma NotifiedHeld(u: Updater, ctx: Context, k: ElisionSnapshot.Key)
    ensures Elision.Held(Notify(u, ctx).elisions, k) + NoticeShare(u.elisions, ctx, k) == Elision.Held(u.elisions, k)
  {
  }

  /**
  Polling a history again loses exactly the drop counts of the scopes it carries a marker of,
  however long ago that marker was applied: of every other slot what was pending is announced or
  still pending, of those nothing is.
  */
  lemma {:induction false} OldMarkersLoseDrops(
      u: Updater, events: seq<Event>, ctx: Context, again: Context, k: ElisionSnapshot.Key)
    requires KeepsItsKeys(u)
    requires |Elements(EventKeys(events))| <= SEEN_SET_CAPACITY && |Elements(MarkerKeys(events))| <= SEEN_SET_CAPACITY
    ensures var once := ProcessLive(u, events, ctx); var twice := ProcessLive(once, events, again);
      Elision.Held(twice.elisions, k) + NoticeShare(RevokeElisions(once.elisions, events), again, k)
      == if Disables(events, k.scope) then 0 else Elision.Held(once.elisions, k)
  {
    var once := ProcessLive(u, events, ctx);
    RedeliveryIsSilent(u, events, ctx, again);
    RevokedHeld(once.elisions, events, k);
    NotifiedHeld(once.(elisions := RevokeElisions(once.elisions, events)), again, k);
  }

  /** A drop is counted under the scope of its event. */
  lemma DropKeyScope(e: Event)
    requires DropKey(e).Some?
    ensures DropKey(e).value.scope == ScopeOf(e.name)
  {
    ScopeTable.TableIsTheCascade(e.name);
  }

  /** An enabled event, new to the updater, that its flood budget refuses. */
  predicate Refused(u: Updater, e: Event, ctx: Context) {
    && e.chatEnabled && ShouldProcess(e) && KeyOf(e) !in u.seen
    && !u.limiter.Allow(Diagnostics.DiagnosticOf(e), ctx.receivedAt).1
  }

  lemma WalkOfTwo(u: Updater, marker: Event, e: Event, ctx: Context)
    requires !marker.chatEnabled && e.chatEnabled
    ensures WalkLive(u, [marker, e], ctx) == LiveEnabled(LiveMarker(u, marker), e, ctx)
  {
    var step, batch := LiveStep(ctx), [marker, e];
    assert batch[1..] == [e] && [e][1..] == [];
    assert !Disables([], ScopeOf(e.name));
    assert Walk(u, batch, step) == Walk(step(u, marker), [e], step) == step(step(u, marker), e);
  }

  lemma RefusedIsDropped(u: Updater, e: Event, ctx: Context)
    requires Refused(u, e, ctx)
    ensures LiveEnabled(u, e, ctx).elisions == u.elisions.DroppedAtHub(DropKey(e))
  {
  }

  lemma FirstDrop(r: Elision.Reporter, k: ElisionSnapshot.Key)
    requires !r.hasSource && r.pending == map[]
    ensures r.DroppedAtHub(Some(k)) == r.(pending := map[k := Elision.PlusHub(None)])
  {
  }

  lemma DropAfterMarker(u: Updater, marker: Event, e: Event, ctx: Context)
    requires !marker.chatEnabled && MarkerOf(marker) in u.markers && Refused(u, e, ctx) && DropKey(e).Some?
    requires !u.elisions.hasSource && u.elisions.pending == map[]
    ensures WalkLive(u, [marker, e], ctx).elisions == u.elisions.(pending := map[DropKey(e).value := Elision.PlusHub(None)])
  {
    WalkOfTwo(u, marker, e, ctx);
    RefusedIsDropped(LiveMarker(u, marker), e, ctx);
    FirstDrop(u.elisions, DropKey(e).value);
  }

  lemma NothingToRevoke(r: Elision.Reporter, events: seq<Event>)
    requires r.pending == map[]
    ensures RevokeElisions(r, events) == r
  {
    assert RevokeElisions(r, events).pending == map[];
  }

  lemma NotDue(u: Updater, ctx: Context)
    requires !u.elisions.NoticeDue(ctx.doneAt)
    ensures Notify(u, ctx) == u
  {
  }

  /** The first poll counts the drop. */
  lemma FirstPollCounts(u: Updater, marker: Event, e: Event, ctx: Context)
    requires !marker.chatEnabled && MarkerOf(marker) in u.markers && Refused(u, e, ctx) && DropKey(e).Some?
    requires !u.elisions.hasSource && u.elisions.pending == map[] && !u.elisions.NoticeDue(ctx.doneAt)
    ensures ProcessLive(u, [marker, e], ctx).elisions == u.elisions.(pending := map[DropKey(e).value := Elision.PlusHub(None)])
  {
    NothingToRevoke(u.elisions, [marker, e]);
    assert u.(elisions := u.elisions) == u;
    DropAfterMarker(u, marker, e, ctx);
    NotDue(WalkLive(u, [marker, e], ctx), ctx);
  }

  /**
  The loss at its smallest: a batch that still carries an applied marker, and a later diagnostic
  of the same scope out of tokens. The first poll counts the drop; the second forgets it unsaid.
  */
  lemma {:induction false} LostDrop(u: Updater, marker: Event, e: Event, ctx: Context, again: Context)
    requires KeepsItsKeys(u) && !marker.chatEnabled && MarkerOf(marker) in u.markers && ScopeOf(marker.name) == ScopeOf(e.name)
    requires Refused(u, e, ctx) && DropKey(e).Some?
    requires !u.elisions.hasSource && u.elisions.pending == map[]
    requires !u.elisions.NoticeDue(ctx.doneAt) && !u.elisions.NoticeDue(again.doneAt)
    ensures var once := ProcessLive(u, [marker, e], ctx); var twice := ProcessLive(once, [marker, e], again);
      && Elision.Held(once.elisions, DropKey(e).value) == 1
      && twice.elisions.pending == map[] && twice.core == once.core
  {
    var once := ProcessLive(u, [marker, e], ctx);
    FirstPollCounts(u, marker, e, ctx);
    assert Elision.TotalOf(Some(Elision.PlusHub(None))) == 1;
    DropKeyScope(e);
    SecondPollForgets(once, marker, e, DropKey(e).value);
    TwoKeys(marker, e);
    RedeliveryIsSilent(u, [marker, e], ctx, again);
    NotDue(once.(elisions := RevokeElisions(once.elisions, [marker, e])), again);
  }

  lemma SecondPollForgets(once: Updater, marker: Event, e: Event, k: ElisionSnapshot.Key)
    requires !marker.chatEnabled && ScopeOf(marker.name) == k.scope && once.elisions.pending.Keys == {k}
    ensures RevokeElisions(once.elisions, [marker, e]) == once.elisions.(pending := map[])
  {
    assert [marker, e][0] == marker;
    assert Disables([marker, e], k.scope);
    assert RevokeElisions(once.elisions, [marker, e]).pending == map[];
  }

  lemma TwoKeys(marker: Event, e: Event)
    requires !marker.chatEnabled && e.chatEnabled
    ensures |Elements(EventKeys([marker, e]))| <= SEEN_SET_CAPACITY && |Elements(MarkerKeys([marker, e]))| <= SEEN_SET_CAPACITY
  {
    var batch := [marker, e];
    assert batch[1..] == [e] && [e][1..] == [];
    assert MarkerKeys([e]) == [];
    assert MarkerKeys(batch) == [MarkerOf(marker)];
    assert Elements(MarkerKeys(batch)) == {MarkerOf(marker)};
    assert EventKeys(batch) == EventKeys([e]);
    assert Elements(EventKeys(batch)) <= {KeyOf(e)};
    SubsetSize(Elements(EventKeys(batch)), {KeyOf(e)});
  }
}
