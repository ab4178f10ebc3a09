/** The updater's event loops, in place, proved equal to `ProcessLive` and `ProcessBaseline`. */
module ChatUpdaters {
  import opened Wrappers
  import opened EventNames
  import opened Events
  import opened EventState
  import opened Batches
  import opened SeenSet
  import opened EventProcessing
  import FloodControl
  import Elision
  import ElisionSnapshot

  class ChatUpdater {
    /** Reconstructed state, and everything applied and delivered so far. */
    var core: Core
    const eventsSeen: BoundedSeenSet<EventKey>
    const disabledEventTombstones: BoundedSeenSet<MarkerKey>
    const limiter: FloodControl.EventRateLimiter
    const elisions: Elision.EventElisionReporter

    ghost predicate Valid()
      reads this, eventsSeen, disabledEventTombstones
    {
      && eventsSeen.Valid() && eventsSeen.capacity == SEEN_SET_CAPACITY
      && disabledEventTombstones.Valid() && disabledEventTombstones.capacity == SEEN_SET_CAPACITY
      && (eventsSeen as object) != disabledEventTombstones
      && limiter.Separate()
    }

    ghost function View(): Updater
      reads this, eventsSeen, disabledEventTombstones, limiter, limiter.errors, limiter.logs, elisions
    {
      Updater(core, eventsSeen.recency, disabledEventTombstones.recency, limiter.View(), elisions.View())
    }

    constructor (now: nat)
      ensures Valid()
      ensures View() == NewUpdater(now)
      ensures fresh(eventsSeen) && fresh(disabledEventTombstones) && fresh(elisions)
      ensures fresh(limiter) && fresh(limiter.errors) && fresh(limiter.logs)
    {
      core := Core(EventState.Initial(), []);
      eventsSeen := new BoundedSeenSet(SEEN_SET_CAPACITY);
      disabledEventTombstones := new BoundedSeenSet(SEEN_SET_CAPACITY);
      limiter := new FloodControl.EventRateLimiter(now);
      elisions := new Elision.EventElisionReporter();
    }

    /** One enabled event that is not obsolete. */
    method ProcessEnabled(e: Event, ctx: Context)
      requires Valid()
      modifies this`core, eventsSeen, limiter, limiter.errors, limiter.logs, elisions
      ensures Valid() && View() == LiveEnabled(old(View()), e, ctx)
    {
      if !ShouldProcess(e) {
        return;
      }
      var known := eventsSeen.CheckAndInsert(KeyOf(e));
      if known {
        return;
      }
      var allowed := limiter.Allow(e, ctx.receivedAt);
      if !allowed {
        elisions.DroppedAtHub(WireText(e.name), LogLevel(e), e.chatEnabled);
        core := ApplyTo(core.Note(Dropped(e)), e, ctx).0;
        return;
      }
      core := core.Note(Admitted(e));
      HandleEvent(e, ctx);
    }

    method HandleEvent(e: Event, ctx: Context)
      modifies this`core
      ensures core == Handle(old(core), e, ctx)
    {
      var suppressRefresh := IsHighWindRefresh(core.state, e);
      var (applied, ok) := ApplyTo(core, e, ctx);
      core := applied;
      if !ok || suppressRefresh {
        return;
      }
      core := Deliver(core, e, ctx);
    }

    /** One disabled event: its scope is revoked the first time it is seen. */
    method ProcessMarker(e: Event)
      requires Valid()
      modifies this`core, disabledEventTombstones
      ensures Valid() && View() == LiveMarker(old(View()), e)
    {
      var known := disabledEventTombstones.CheckAndInsert(MarkerOf(e));
      if !known {
        core := RevokeIn(core, ScopeOf(e.name), e.time.instant);
      }
    }

    /** One poll: the counters of the response, then its events. */
    method PollEvents(counters: Option<seq<ElisionSnapshot.ElidedEventCount>>, events: seq<Event>, ctx: Context)
      requires Valid()
      modifies this`core, eventsSeen, disabledEventTombstones, limiter, limiter.errors, limiter.logs, elisions
      ensures Valid()
      ensures View() == Process(old(View()), Live(SlotsIn(counters), events, ctx))
    {
      elisions.ObserveSource(counters, false);
      ProcessLiveEvents(events, ctx);
    }

    /** The first response of a new updater seeds its state in silence. */
    method SeedEvents(counters: Option<seq<ElisionSnapshot.ElidedEventCount>>, events: seq<Event>, ctx: Context)
      requires Valid()
      modifies this`core, eventsSeen, disabledEventTombstones, elisions
      ensures Valid()
      ensures View() == Process(old(View()), Initial(SlotsIn(counters), events, ctx))
    {
      elisions.ObserveSource(counters, true);
      ProcessBaselineEvents(events, ctx);
    }

    /** One image poll, as far as the queued summaries go. */
    method PollImages(p: ImagePoll)
      requires Valid()
      modifies this`core
      ensures Valid() && View() == Process(old(View()), ImagesPolled(p))
    {
      if !p.summarizes {
        core := core.(state := core.state.(summaries := []));
      }
      if p.marker {
        core := RevokeIn(core, Images, None);
      }
      var extended := ExtendSummaries(core.state.summaries, p);
      var waiting: seq<ImageSummary> := [];
      if p.summarizes && p.hasServices {
        waiting := KeepWaiting(extended, p.now);
      }
      core := core.(state := core.state.(summaries := waiting));
    }

    static method ExtendSummaries(summaries: seq<ImageSummary>, p: ImagePoll) returns (extended: seq<ImageSummary>)
      ensures extended == ExtendedByAll(summaries, p.captures, p.now)
    {
      extended := summaries;
      for i := 0 to |p.captures|
        invariant extended == ExtendedByAll(summaries, p.captures[..i], p.now)
      {
        assert p.captures[..i + 1][..i] == p.captures[..i];
        extended := Extended(extended, p.captures[i], p.now);
      }
      assert p.captures[..|p.captures|] == p.captures;
    }

    static method KeepWaiting(summaries: seq<ImageSummary>, now: nat) returns (waiting: seq<ImageSummary>)
      ensures waiting == Waiting(summaries, now)
    {
      waiting := [];
      for i := 0 to |summaries|
        invariant waiting == Waiting(summaries[..i], now)
      {
        assert summaries[..i + 1][..i] == summaries[..i];
        if !summaries[i].Ready(now) {
          waiting := waiting + [summaries[i]];
        }
      }
      assert summaries[..|summaries|] == summaries;
    }

    static function SlotsIn(counters: Option<seq<ElisionSnapshot.ElidedEventCount>>): Option<seq<ElisionSnapshot.Slot>> {
      if counters.Some? then Some(ElisionSnapshot.SlotsOf(counters.value)) else None
    }

    method ProcessLiveEvents(events: seq<Event>, ctx: Context)
      requires Valid()
      modifies this`core, eventsSeen, disabledEventTombstones, limiter, limiter.errors, limiter.logs, elisions
      ensures Valid() && View() == ProcessLive(old(View()), events, ctx)
    {
      RevokeDisabled(events);
      WalkEvents(events, ctx);
      if ctx.hasServices {
        var count := elisions.TakeNotice(ctx.doneAt);
        if count.Some? {
          core := core.Note(Elided(count.value));
        }
      }
    }

    /** The first loop of a response: every marker discards what is pending for its scope. */
    method RevokeDisabled(events: seq<Event>)
      modifies elisions
      ensures elisions.View() == RevokeElisions(old(elisions.View()), events)
    {
      for index := 0 to |events|
        invariant elisions.View() == RevokeElisions(old(elisions.View()), events[..index])
      {
        RevokedOneMore(old(elisions.View()), events, index);
        if !events[index].chatEnabled {
          elisions.RevokeScope(ScopeOf(events[index].name));
        }
      }
      assert events[..|events|] == events;
    }

    /** The second loop: the events themselves, behind the privacy boundaries of the batch. */
    method WalkEvents(events: seq<Event>, ctx: Context)
      requires Valid()
      modifies this`core, eventsSeen, disabledEventTombstones, limiter, limiter.errors, limiter.logs, elisions
      ensures Valid() && View() == WalkLive(old(View()), events, ctx)
    {
      var boundaries := PrivacyBoundaries(events);
      for index := 0 to |events|
        invariant Valid()
        invariant Walk(View(), events[index..], LiveStep(ctx)) == Walk(old(View()), events, LiveStep(ctx))
      {
        var e := events[index];
        ghost var rest := events[index..];
        assert rest[0] == e && rest[1..] == events[index + 1..];
        BoundaryIsObsolete(events, boundaries, index);
        var scope := ScopeOf(e.name);
        if e.chatEnabled && scope in boundaries && index < boundaries[scope] {
          continue;
        }
        if e.chatEnabled {
          ProcessEnabled(e, ctx);
        } else {
          ProcessMarker(e);
        }
      }
    }

    method ProcessBaselineEvents(events: seq<Event>, ctx: Context)
      requires Valid()
      modifies this`core, eventsSeen, disabledEventTombstones
      ensures Valid() && View() == ProcessBaseline(old(View()), events, ctx)
    {
      var latest: Option<(Option<int>, Target)> := None;
      var boundaries := PrivacyBoundaries(events);
      for index := 0 to |events|
        invariant Valid()
        invariant Walk(Baseline(View(), latest), events[index..], BaselineStep(ctx))
               == Walk(Baseline(old(View()), None), events, BaselineStep(ctx))
      {
        var e := events[index];
        ghost var rest := events[index..];
        assert rest[0] == e && rest[1..] == events[index + 1..];
        BoundaryIsObsolete(events, boundaries, index);
        var scope := ScopeOf(e.name);
        if e.chatEnabled && scope in boundaries && index < boundaries[scope] {
          continue;
        }
        if e.chatEnabled {
          latest := SeedEnabled(e, ctx, latest);
        } else {
          latest := SeedMarker(e, latest);
        }
      }
      if latest.Some? {
        core := core.(state := core.state.(scheduler := core.state.scheduler.(target := Some(latest.value.1))));
      }
    }

    method SeedMarker(e: Event, latest: Option<(Option<int>, Target)>) returns (next: Option<(Option<int>, Target)>)
      requires Valid()
      modifies this`core, disabledEventTombstones
      ensures Valid() && Baseline(View(), next) == BaselineMarker(Baseline(old(View()), latest), e)
    {
      var _ := disabledEventTombstones.CheckAndInsert(MarkerOf(e));
      next := if ScopeOf(e.name) == TargetScheduler then None else latest;
      core := RevokeIn(core, ScopeOf(e.name), e.time.instant);
    }

    method SeedEnabled(e: Event, ctx: Context, latest: Option<(Option<int>, Target)>) returns (next: Option<(Option<int>, Target)>)
      requires Valid()
      modifies this`core, eventsSeen
      ensures Valid() && Baseline(View(), next) == BaselineEnabled(Baseline(old(View()), latest), e, ctx)
    {
      next := latest;
      if IsRedundantFilter(e) {
        return;
      }
      if (e.name.TsTargetstart? || e.name.TsNewtargetstart?) && NamesTarget(e) && IsNewer(e.time.instant, latest) {
        next := Some((e.time.instant, TargetOf(e.details.value)));
      }
      core := BaselineCore(core, e, ctx);
      var _ := eventsSeen.CheckAndInsert(KeyOf(e));
    }
  }
}
