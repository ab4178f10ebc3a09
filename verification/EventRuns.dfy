/**
Whole runs of responses: history polled again is silent, each event is handled once, and the
scheduler wait is the register that its transitions write.
*/
module EventRuns {
  import opened Wrappers
  import opened EventNames
  import opened Events
  import opened EventState
  import opened Batches
  import opened SeenSet
  import opened EventProcessing
  import SchedulerWait
  import opened WaitTransitions
  import Elision
  import ElisionSnapshot

  // ----- redelivery -----

  /** The dedup keys a batch presents: of its enabled, current and usable events. */
  function EventKeys(events: seq<Event>): seq<EventKey> {
    if events == [] then []
    else (if events[0].chatEnabled && !FirstIsObsolete(events) && ShouldProcess(events[0]) then [KeyOf(events[0])] else [])
         + EventKeys(events[1..])
  }

  function MarkerKeys(events: seq<Event>): seq<MarkerKey> {
    if events == [] then []
    else (if events[0].chatEnabled then [] else [MarkerOf(events[0])]) + MarkerKeys(events[1..])
  }

  /** Live processing sights exactly the keys its batch presents. */
  lemma {:induction false} LiveSights(u: Updater, events: seq<Event>, ctx: Context)
    ensures WalkLive(u, events, ctx).seen == TouchAll(u.seen, SEEN_SET_CAPACITY, EventKeys(events))
    ensures WalkLive(u, events, ctx).markers == TouchAll(u.markers, SEEN_SET_CAPACITY, MarkerKeys(events))
    decreases |events|
  {
    if events != [] {
      var next := if FirstIsObsolete(events) then u else LiveStep(ctx)(u, events[0]);
      LiveSights(next, events[1..], ctx);
      StepSights(u, events[0], ctx);
      FirstKeys(u.seen, u.markers, events);
    }
  }

  lemma {:induction false} StepSights(u: Updater, e: Event, ctx: Context)
    ensures LiveStep(ctx)(u, e).seen
         == if e.chatEnabled && ShouldProcess(e) then Touch(u.seen, SEEN_SET_CAPACITY, KeyOf(e)) else u.seen
    ensures LiveStep(ctx)(u, e).markers
         == if e.chatEnabled then u.markers else Touch(u.markers, SEEN_SET_CAPACITY, MarkerOf(e))
  {
  }

  lemma {:induction false} FirstKeys(seen: seq<EventKey>, markers: seq<MarkerKey>, events: seq<Event>)
    requires events != []
    ensures var e, rest := events[0], events[1..];
      && TouchAll(seen, SEEN_SET_CAPACITY, EventKeys(events))
         == TouchAll(if e.chatEnabled && !FirstIsObsolete(events) && ShouldProcess(e)
                     then Touch(seen, SEEN_SET_CAPACITY, KeyOf(e)) else seen, SEEN_SET_CAPACITY, EventKeys(rest))
      && TouchAll(markers, SEEN_SET_CAPACITY, MarkerKeys(events))
         == TouchAll(if e.chatEnabled then markers else Touch(markers, SEEN_SET_CAPACITY, MarkerOf(e)),
                     SEEN_SET_CAPACITY, MarkerKeys(rest))
  {
    var e := events[0];
    TouchOne(seen, KeyOf(e), EventKeys(events[1..]));
    TouchOne(markers, MarkerOf(e), MarkerKeys(events[1..]));
  }

  lemma {:induction false} TouchOne<K>(list: seq<K>, k: K, keys: seq<K>)
    ensures TouchAll(Touch(list, SEEN_SET_CAPACITY, k), SEEN_SET_CAPACITY, keys)
         == TouchAll(list, SEEN_SET_CAPACITY, [k] + keys)
    ensures [] + keys == keys
  {
    assert [k][..0] == [];
    assert TouchAll(list, SEEN_SET_CAPACITY, [k]) == Touch(list, SEEN_SET_CAPACITY, k);
    TouchAllConcat(list, SEEN_SET_CAPACITY, [k], keys);
  }

  ghost predicate KeepsItsKeys(u: Updater) {
    Holdable(u.seen, SEEN_SET_CAPACITY) && Holdable(u.markers, SEEN_SET_CAPACITY)
  }

  /** A batch of nothing but known keys does nothing but refresh them. */
  lemma {:induction false} KnownBatchIsSilent(u: Updater, events: seq<Event>, ctx: Context)
    requires KeepsItsKeys(u)
    requires forall k :: k in EventKeys(events) ==> k in u.seen
    requires forall k :: k in MarkerKeys(events) ==> k in u.markers
    ensures var v := WalkLive(u, events, ctx); v.core == u.core && v.limiter == u.limiter && v.elisions == u.elisions
    decreases |events|
  {
    if events != [] {
      var e := events[0];
      var next := if FirstIsObsolete(events) then u else LiveStep(ctx)(u, e);
      KnownEventIsSilent(u, events, ctx);
      KnownBatchIsSilent(next, events[1..], ctx);
    }
  }

  lemma {:induction false} KnownEventIsSilent(u: Updater, events: seq<Event>, ctx: Context)
    requires KeepsItsKeys(u) && events != []
    requires forall k :: k in EventKeys(events) ==> k in u.seen
    requires forall k :: k in MarkerKeys(events) ==> k in u.markers
    ensures var next := if FirstIsObsolete(events) then u else LiveStep(ctx)(u, events[0]);
      && next.core == u.core && next.limiter == u.limiter && next.elisions == u.elisions && KeepsItsKeys(next)
      && (forall k :: k in EventKeys(events[1..]) ==> k in next.seen)
      && (forall k :: k in MarkerKeys(events[1..]) ==> k in next.markers)
  {
    var e := events[0];
    if !e.chatEnabled {
      assert MarkerKeys(events) == [MarkerOf(e)] + MarkerKeys(events[1..]);
      assert MarkerOf(e) in MarkerKeys(events);
      TouchKeepsHoldable(u.markers, SEEN_SET_CAPACITY, MarkerOf(e));
    } else if !FirstIsObsolete(events) && ShouldProcess(e) {
      assert EventKeys(events) == [KeyOf(e)] + EventKeys(events[1..]);
      assert KeyOf(e) in EventKeys(events);
      TouchKeepsHoldable(u.seen, SEEN_SET_CAPACITY, KeyOf(e));
    }
  }

  /** The dedup sets after a whole response. */
  lemma {:induction false} OnceSights(u: Updater, events: seq<Event>, ctx: Context)
    requires KeepsItsKeys(u)
    requires |Elements(EventKeys(events))| <= SEEN_SET_CAPACITY && |Elements(MarkerKeys(events))| <= SEEN_SET_CAPACITY
    ensures var once := ProcessLive(u, events, ctx);
      && KeepsItsKeys(once)
      && (forall k :: k in EventKeys(events) ==> k in once.seen)
      && (forall k :: k in MarkerKeys(events) ==> k in once.markers)
  {
    LiveSights(u.(elisions := RevokeElisions(u.elisions, events)), events, ctx);
    TouchAllKeepsHoldable(u.seen, SEEN_SET_CAPACITY, EventKeys(events));
    TouchAllKeepsHoldable(u.markers, SEEN_SET_CAPACITY, MarkerKeys(events));
    forall k | k in EventKeys(events) ensures k in TouchAll(u.seen, SEEN_SET_CAPACITY, EventKeys(events)) {
      RecentKeysStay(u.seen, SEEN_SET_CAPACITY, EventKeys(events), k);
    }
    forall k | k in MarkerKeys(events) ensures k in TouchAll(u.markers, SEEN_SET_CAPACITY, MarkerKeys(events)) {
      RecentKeysStay(u.markers, SEEN_SET_CAPACITY, MarkerKeys(events), k);
    }
  }

  /** A second poll of known events: their markers' pending counts go, and a due notice is sent. */
  ghost function Repolled(once: Updater, events: seq<Event>, again: Context): Updater {
    Notify(once.(elisions := RevokeElisions(once.elisions, events)), again)
  }

  /**
  Polling the same history again is silent: no state changes, no marker is applied a second time,
  no event is delivered and no flood budget is spent. All that can follow is the notice of earlier
  drops, if it is due by then.
  */
  lemma {:induction false} RedeliveryIsSilent(u: Updater, events: seq<Event>, ctx: Context, again: Context)
    requires KeepsItsKeys(u)
    requires |Elements(EventKeys(events))| <= SEEN_SET_CAPACITY && |Elements(MarkerKeys(events))| <= SEEN_SET_CAPACITY
    ensures var once := ProcessLive(u, events, ctx); var twice := ProcessLive(once, events, again);
      && twice.core == Repolled(once, events, again).core && twice.elisions == Repolled(once, events, again).elisions
      && twice.core.state == once.core.state && twice.limiter == once.limiter
  {
    var once := ProcessLive(u, events, ctx);
    OnceSights(u, events, ctx);
    KnownBatchIsSilent(once.(elisions := RevokeElisions(once.elisions, events)), events, again);
  }

  // ----- each event is handled once -----

  predicate HandlesKey(a: Action, k: EventKey) {
    (a.Admitted? || a.Dropped?) && KeyOf(a.event) == k
  }

  /** How often events with dedup key `k` were admitted or dropped. */
  function HandledTimes(log: seq<Action>, k: EventKey): nat {
    if log == [] then 0 else HandledTimes(log[..|log| - 1], k) + if HandlesKey(log[|log| - 1], k) then 1 else 0
  }

  lemma HandledSnoc(log: seq<Action>, a: Action, k: EventKey)
    ensures HandledTimes(log + [a], k) == HandledTimes(log, k) + if HandlesKey(a, k) then 1 else 0
  {
    assert (log + [a])[..|log|] == log;
  }

  /** `longer` adds at most one action to `log`, and admits or drops nothing. */
  predicate AddsQuietly(log: seq<Action>, longer: seq<Action>) {
    || longer == log
    || (|longer| == |log| + 1 && longer[..|log|] == log && !longer[|log|].Admitted? && !longer[|log|].Dropped?)
  }

  lemma QuietKeepsTimes(log: seq<Action>, longer: seq<Action>, k: EventKey)
    requires AddsQuietly(log, longer)
    ensures HandledTimes(longer, k) == HandledTimes(log, k)
  {
    if longer != log { HandledSnoc(log, longer[|log|], k); assert longer == log + [longer[|log|]]; }
  }

  lemma DeliverAddsQuietly(c: Core, e: Event, ctx: Context)
    ensures AddsQuietly(c.log, Deliver(c, e, ctx).log)
  {
    if Handled(e.name) {
      DeliversTo(c, e, ctx);
      HandlersAddQuietly(c, e, ctx);
    } else {
      PlainDelivery(c, e, ctx);
    }
  }

  lemma HandlersAddQuietly(c: Core, e: Event, ctx: Context)
    ensures AddsQuietly(c.log, HandleTarget(c, e, ctx).log) && AddsQuietly(c.log, HandleFilter(c, e, ctx).log)
    ensures AddsQuietly(c.log, HandleAutofocus(c, e, ctx).log) && AddsQuietly(c.log, HandleSequence(c, e, ctx).log)
  {
  }

  lemma ApplyToAddsQuietly(c: Core, e: Event, ctx: Context)
    ensures AddsQuietly(c.log, ApplyTo(c, e, ctx).0.log)
  {
  }

  lemma HandleKeepsTimes(c: Core, e: Event, ctx: Context, k: EventKey)
    ensures HandledTimes(Handle(c, e, ctx).log, k) == HandledTimes(c.log, k)
  {
    var applied := ApplyTo(c, e, ctx).0;
    ApplyToAddsQuietly(c, e, ctx);
    QuietKeepsTimes(c.log, applied.log, k);
    DeliverAddsQuietly(applied, e, ctx);
    QuietKeepsTimes(applied.log, Deliver(applied, e, ctx).log, k);
  }

  /** A new event is handled once, and nothing else is. */
  lemma FreshHandles(u: Updater, e: Event, ctx: Context, k: EventKey)
    ensures HandledTimes(LiveFresh(u, e, ctx).core.log, k) == HandledTimes(u.core.log, k) + if KeyOf(e) == k then 1 else 0
  {
    HandledSnoc(u.core.log, Admitted(e), k);
    HandledSnoc(u.core.log, Dropped(e), k);
    HandleKeepsTimes(u.core.Note(Admitted(e)), e, ctx, k);
    ApplyToAddsQuietly(u.core.Note(Dropped(e)), e, ctx);
    QuietKeepsTimes(u.core.Note(Dropped(e)).log, ApplyTo(u.core.Note(Dropped(e)), e, ctx).0.log, k);
  }

  lemma EnabledHandles(u: Updater, e: Event, ctx: Context, k: EventKey)
    ensures HandledTimes(LiveEnabled(u, e, ctx).core.log, k)
         == HandledTimes(u.core.log, k) + if ShouldProcess(e) && KeyOf(e) == k && k !in u.seen then 1 else 0
  {
    FreshHandles(u.(seen := Touch(u.seen, SEEN_SET_CAPACITY, KeyOf(e))), e, ctx, k);
  }

  lemma MarkerHandles(u: Updater, e: Event, k: EventKey)
    ensures HandledTimes(LiveMarker(u, e).core.log, k) == HandledTimes(u.core.log, k)
  {
    HandledSnoc(u.core.log, Revoked(ScopeOf(e.name)), k);
  }

  lemma StepHandles(u: Updater, e: Event, ctx: Context, k: EventKey)
    ensures HandledTimes(LiveStep(ctx)(u, e).core.log, k)
         == HandledTimes(u.core.log, k) + if e.chatEnabled && ShouldProcess(e) && KeyOf(e) == k && k !in u.seen then 1 else 0
  {
    EnabledHandles(u, e, ctx, k);
    MarkerHandles(u, e, k);
  }

  /** A walk handles `k` as often as the dedup set takes it for new. */
  lemma {:induction false} WalkHandles(u: Updater, events: seq<Event>, ctx: Context, history: seq<EventKey>, k: EventKey)
    requires u.seen == TouchAll([], SEEN_SET_CAPACITY, history)
    ensures HandledTimes(WalkLive(u, events, ctx).core.log, k)
         == HandledTimes(u.core.log, k) + TimesNew(SEEN_SET_CAPACITY, history, EventKeys(events), k)
    decreases |events|
  {
    if events != [] {
      var e, rest := events[0], events[1..];
      if e.chatEnabled && !FirstIsObsolete(events) && ShouldProcess(e) {
        StepHandles(u, e, ctx, k);
        StepSights(u, e, ctx);
        var longer := history + [KeyOf(e)];
        assert longer[..|history|] == history;
        assert EventKeys(events)[0] == KeyOf(e) && EventKeys(events)[1..] == EventKeys(rest);
        WalkHandles(LiveStep(ctx)(u, e), rest, ctx, longer, k);
      } else {
        var next := if FirstIsObsolete(events) then u else LiveStep(ctx)(u, e);
        StepHandles(u, e, ctx, k);
        StepSights(u, e, ctx);
        assert EventKeys(events) == EventKeys(rest);
        WalkHandles(next, rest, ctx, history, k);
      }
    }
  }

  /** The dedup keys a baseline presents. */
  function BaselineKeys(events: seq<Event>): seq<EventKey> {
    if events == [] then []
    else (if events[0].chatEnabled && !FirstIsObsolete(events) && !IsRedundantFilter(events[0]) then [KeyOf(events[0])] else [])
         + BaselineKeys(events[1..])
  }

  function KeysOf(r: Response): seq<EventKey> {
    match r
    case Live(_, events, _) => EventKeys(events)
    case Initial(_, events, _) => BaselineKeys(events)
    case ImagesPolled(_) => []
  }

  function AllKeys(responses: seq<Response>): seq<EventKey>
    decreases |responses|
  {
    if responses == [] then [] else KeysOf(responses[0]) + AllKeys(responses[1..])
  }

  lemma BaselineCoreHandles(c: Core, e: Event, ctx: Context, k: EventKey)
    ensures HandledTimes(BaselineCore(c, e, ctx).log, k) == HandledTimes(c.log, k)
  {
    ApplyToAddsQuietly(c, e, ctx);
    QuietKeepsTimes(c.log, ApplyTo(c, e, ctx).0.log, k);
  }

  lemma BaselineEnabledSights(b: Baseline, e: Event, ctx: Context, k: EventKey)
    ensures var u := BaselineEnabled(b, e, ctx).updater;
      && u.seen == (if IsRedundantFilter(e) then b.updater.seen else Touch(b.updater.seen, SEEN_SET_CAPACITY, KeyOf(e)))
      && HandledTimes(u.core.log, k) == HandledTimes(b.updater.core.log, k)
  {
    BaselineCoreHandles(b.updater.core, e, ctx, k);
  }

  lemma BaselineMarkerSights(b: Baseline, e: Event, k: EventKey)
    ensures var u := BaselineMarker(b, e).updater;
      u.seen == b.updater.seen && HandledTimes(u.core.log, k) == HandledTimes(b.updater.core.log, k)
  {
    HandledSnoc(b.updater.core.log, Revoked(ScopeOf(e.name)), k);
  }

  lemma BaselineStepSights(b: Baseline, e: Event, ctx: Context, k: EventKey)
    ensures var u := BaselineStep(ctx)(b, e).updater;
      && u.seen == (if e.chatEnabled && !IsRedundantFilter(e) then Touch(b.updater.seen, SEEN_SET_CAPACITY, KeyOf(e)) else b.updater.seen)
      && HandledTimes(u.core.log, k) == HandledTimes(b.updater.core.log, k)
  {
    BaselineEnabledSights(b, e, ctx, k);
    BaselineMarkerSights(b, e, k);
  }

  /** A baseline handles nothing, and sights what it presents. */
  lemma {:induction false} BaselineSights(b: Baseline, events: seq<Event>, ctx: Context, k: EventKey)
    ensures var c := Walk(b, events, BaselineStep(ctx)).updater;
      && c.seen == TouchAll(b.updater.seen, SEEN_SET_CAPACITY, BaselineKeys(events))
      && HandledTimes(c.core.log, k) == HandledTimes(b.updater.core.log, k)
    decreases |events|
  {
    if events != [] {
      var e, rest := events[0], events[1..];
      var next := if FirstIsObsolete(events) then b else BaselineStep(ctx)(b, e);
      BaselineStepSights(b, e, ctx, k);
      BaselineSights(next, rest, ctx, k);
      TouchOne(b.updater.seen, KeyOf(e), BaselineKeys(rest));
    }
  }

  /** How often `k` is new to the dedup set in a response that handles its events. */
  ghost function NewIn(r: Response, history: seq<EventKey>, k: EventKey): nat {
    if r.Live? then TimesNew(SEEN_SET_CAPACITY, history, KeysOf(r), k) else 0
  }

  lemma {:induction false} ProcessHandles(u: Updater, r: Response, history: seq<EventKey>, k: EventKey)
    requires u.seen == TouchAll([], SEEN_SET_CAPACITY, history)
    ensures HandledTimes(Process(u, r).core.log, k) == HandledTimes(u.core.log, k) + NewIn(r, history, k)
    ensures Process(u, r).seen == TouchAll([], SEEN_SET_CAPACITY, history + KeysOf(r))
  {
    TouchAllConcat([], SEEN_SET_CAPACITY, history, KeysOf(r));
    match r
    case Live(counters, events, ctx) => LiveHandles(u.(elisions := u.elisions.Observe(counters, false)), events, ctx, history, k);
    case Initial(counters, events, ctx) => InitialHandles(u.(elisions := u.elisions.Observe(counters, true)), events, ctx, k);
    case ImagesPolled(poll) => ImagesKeepTimes(u.core, poll, k);
  }

  lemma InitialHandles(u: Updater, events: seq<Event>, ctx: Context, k: EventKey)
    ensures HandledTimes(ProcessBaseline(u, events, ctx).core.log, k) == HandledTimes(u.core.log, k)
    ensures ProcessBaseline(u, events, ctx).seen == TouchAll(u.seen, SEEN_SET_CAPACITY, BaselineKeys(events))
  {
    BaselineSights(Baseline(u, None), events, ctx, k);
  }

  lemma ImagesKeepTimes(c: Core, p: ImagePoll, k: EventKey)
    ensures HandledTimes(AfterImages(c, p).log, k) == HandledTimes(c.log, k)
  {
    HandledSnoc(c.log, Revoked(Images), k);
  }

  lemma {:induction false} LiveHandles(u: Updater, events: seq<Event>, ctx: Context, history: seq<EventKey>, k: EventKey)
    requires u.seen == TouchAll([], SEEN_SET_CAPACITY, history)
    ensures HandledTimes(ProcessLive(u, events, ctx).core.log, k)
         == HandledTimes(u.core.log, k) + TimesNew(SEEN_SET_CAPACITY, history, EventKeys(events), k)
    ensures ProcessLive(u, events, ctx).seen == TouchAll(u.seen, SEEN_SET_CAPACITY, EventKeys(events))
  {
    var start := u.(elisions := RevokeElisions(u.elisions, events));
    WalkHandles(start, events, ctx, history, k);
    LiveSights(start, events, ctx);
    var walked := WalkLive(start, events, ctx);
    QuietKeepsTimes(walked.core.log, Notify(walked, ctx).core.log, k);
  }

  lemma {:induction false} TimesNewConcat(history: seq<EventKey>, a: seq<EventKey>, b: seq<EventKey>, k: EventKey)
    ensures TimesNew(SEEN_SET_CAPACITY, history, a + b, k)
         == TimesNew(SEEN_SET_CAPACITY, history, a, k) + TimesNew(SEEN_SET_CAPACITY, history + a, b, k)
    decreases |a|
  {
    if a == [] {
      assert a + b == b && history + a == history;
    } else {
      assert (a + b)[0] == a[0] && (a + b)[1..] == a[1..] + b;
      assert history + [a[0]] + a[1..] == history + a;
      TimesNewConcat(history + [a[0]], a[1..], b, k);
    }
  }

  lemma {:induction false} RunHandles(u: Updater, responses: seq<Response>, history: seq<EventKey>, k: EventKey)
    requires u.seen == TouchAll([], SEEN_SET_CAPACITY, history)
    ensures var times := TimesNew(SEEN_SET_CAPACITY, history, AllKeys(responses), k);
      && HandledTimes(Run(u, responses).core.log, k) <= HandledTimes(u.core.log, k) + times
      && ((forall i :: 0 <= i < |responses| ==> responses[i].Live?) ==>
            HandledTimes(Run(u, responses).core.log, k) == HandledTimes(u.core.log, k) + times)
    decreases |responses|
  {
    if responses != [] {
      var r := responses[0];
      ProcessHandles(u, r, history, k);
      TimesNewConcat(history, KeysOf(r), AllKeys(responses[1..]), k);
      RunHandles(Process(u, r), responses[1..], history + KeysOf(r), k);
      if forall i :: 0 <= i < |responses| ==> responses[i].Live? {
        assert forall i :: 0 <= i < |responses[1..]| ==> responses[1..][i] == responses[i + 1];
      }
    }
  }

  /**
  However histories overlap, repeat and reorder over a run, as long as they range over at most
  20,000 events, each event is admitted or dropped at most once; and without a baseline among
  them, exactly once if some response presents it.
  */
  lemma {:induction false} EachEventIsHandledOnce(now: nat, responses: seq<Response>, k: EventKey)
    requires |Elements(AllKeys(responses))| <= SEEN_SET_CAPACITY
    ensures var times := HandledTimes(Run(NewUpdater(now), responses).core.log, k);
      && times <= 1
      && ((forall i :: 0 <= i < |responses| ==> responses[i].Live?) ==>
            times == if k in AllKeys(responses) then 1 else 0)
  {
    RunHandles(NewUpdater(now), responses, [], k);
    assert [] + AllKeys(responses) == AllKeys(responses);
    AnnouncedExactlyOnce(SEEN_SET_CAPACITY, [], AllKeys(responses), k);
  }

  // ----- the scheduler wait over whole runs -----

  function RevocationOf(e: Event): seq<SchedulerWait.Transition> {
    if ScopeOf(e.name) == TargetScheduler then [SchedulerWait.Revoked(e.time.instant)] else []
  }

  function WaitOf(c: Core): SchedulerWait.Wait { c.state.scheduler.wait }

  lemma ApplyMovesWait(c: Core, e: Event, ctx: Context)
    ensures WaitOf(ApplyTo(c, e, ctx).0) == SchedulerWait.Run(WaitOf(c), TransitionOf(e))
  {
    if TransitionOf(e) != [] { OneTransition(WaitOf(c), TransitionOf(e)[0]); }
    ApplyStepsWait(c.state, e, ctx.now);
  }

  lemma DeliverKeepsWait(c: Core, e: Event, ctx: Context)
    ensures WaitOf(Deliver(c, e, ctx)) == WaitOf(c)
  {
    if Handled(e.name) {
      DeliversTo(c, e, ctx);
      HandlersKeepWait(c, e, ctx);
    } else {
      PlainDelivery(c, e, ctx);
    }
  }

  lemma HandlersKeepWait(c: Core, e: Event, ctx: Context)
    ensures WaitOf(HandleTarget(c, e, ctx)) == WaitOf(c) && WaitOf(HandleFilter(c, e, ctx)) == WaitOf(c)
    ensures WaitOf(HandleAutofocus(c, e, ctx)) == WaitOf(c) && WaitOf(HandleSequence(c, e, ctx)) == WaitOf(c)
  {
  }

  lemma FreshMovesWait(u: Updater, e: Event, ctx: Context)
    ensures WaitOf(LiveFresh(u, e, ctx).core) == SchedulerWait.Run(WaitOf(u.core), TransitionOf(e))
  {
    ApplyMovesWait(u.core.Note(Admitted(e)), e, ctx);
    ApplyMovesWait(u.core.Note(Dropped(e)), e, ctx);
    DeliverKeepsWait(ApplyTo(u.core.Note(Admitted(e)), e, ctx).0, e, ctx);
  }

  lemma RevokeMovesWait(c: Core, e: Event)
    ensures WaitOf(RevokeIn(c, ScopeOf(e.name), e.time.instant)) == SchedulerWait.Run(WaitOf(c), RevocationOf(e))
  {
    if RevocationOf(e) != [] { OneTransition(WaitOf(c), RevocationOf(e)[0]); }
    RevokeStepsWait(c.state, ScopeOf(e.name), e.time.instant);
  }

  /** The transition an event that the walk does not skip makes, given what is known already. */
  function LiveTransition(u: Updater, e: Event): seq<SchedulerWait.Transition> {
    if e.chatEnabled then (if ShouldProcess(e) && KeyOf(e) !in u.seen then TransitionOf(e) else [])
    else if MarkerOf(e) in u.markers then [] else RevocationOf(e)
  }

  lemma StepMovesWait(u: Updater, e: Event, ctx: Context)
    ensures WaitOf(LiveStep(ctx)(u, e).core) == SchedulerWait.Run(WaitOf(u.core), LiveTransition(u, e))
  {
    if e.chatEnabled {
      FreshMovesWait(u.(seen := Touch(u.seen, SEEN_SET_CAPACITY, KeyOf(e))), e, ctx);
    } else {
      RevokeMovesWait(u.core, e);
    }
  }

  function BaselineTransition(e: Event): seq<SchedulerWait.Transition> {
    if !e.chatEnabled then RevocationOf(e) else if IsRedundantFilter(e) then [] else TransitionOf(e)
  }

  lemma BaselineStepMovesWait(b: Baseline, e: Event, ctx: Context)
    ensures WaitOf(BaselineStep(ctx)(b, e).updater.core) == SchedulerWait.Run(WaitOf(b.updater.core), BaselineTransition(e))
  {
    ApplyMovesWait(b.updater.core, e, ctx);
    RevokeMovesWait(b.updater.core, e);
  }

  /** The transitions of a batch, in order: of its new events and markers, behind its privacy boundaries. */
  function LiveTransitions(u: Updater, events: seq<Event>, ctx: Context): seq<SchedulerWait.Transition>
    decreases |events|
  {
    if events == [] then []
    else if FirstIsObsolete(events) then LiveTransitions(u, events[1..], ctx)
    else LiveTransition(u, events[0]) + LiveTransitions(LiveStep(ctx)(u, events[0]), events[1..], ctx)
  }

  function BaselineTransitions(events: seq<Event>): seq<SchedulerWait.Transition> {
    if events == [] then []
    else (if FirstIsObsolete(events) then [] else BaselineTransition(events[0])) + BaselineTransitions(events[1..])
  }

  lemma {:induction false} WalkMovesWait(u: Updater, events: seq<Event>, ctx: Context)
    ensures WaitOf(WalkLive(u, events, ctx).core) == SchedulerWait.Run(WaitOf(u.core), LiveTransitions(u, events, ctx))
    decreases |events|
  {
    if events != [] {
      if FirstIsObsolete(events) {
        WalkMovesWait(u, events[1..], ctx);
      } else {
        var next := LiveStep(ctx)(u, events[0]);
        StepMovesWait(u, events[0], ctx);
        WalkMovesWait(next, events[1..], ctx);
        RunsConcat(WaitOf(u.core), LiveTransition(u, events[0]), LiveTransitions(next, events[1..], ctx));
      }
    }
  }

  lemma {:induction false} BaselineMovesWait(b: Baseline, events: seq<Event>, ctx: Context)
    ensures WaitOf(Walk(b, events, BaselineStep(ctx)).updater.core)
         == SchedulerWait.Run(WaitOf(b.updater.core), BaselineTransitions(events))
    decreases |events|
  {
    if events != [] {
      var first := if FirstIsObsolete(events) then [] else BaselineTransition(events[0]);
      var next := if FirstIsObsolete(events) then b else BaselineStep(ctx)(b, events[0]);
      BaselineStepMovesWait(b, events[0], ctx);
      BaselineMovesWait(next, events[1..], ctx);
      assert SchedulerWait.Run(WaitOf(b.updater.core), []) == WaitOf(b.updater.core);
      RunsConcat(WaitOf(b.updater.core), first, BaselineTransitions(events[1..]));
    }
  }

  ghost function TransitionsOf(u: Updater, r: Response): seq<SchedulerWait.Transition> {
    match r
    case Live(counters, events, ctx) =>
      LiveTransitions(u.(elisions := RevokeElisions(u.elisions.Observe(counters, false), events)), events, ctx)
    case Initial(_, events, _) => BaselineTransitions(events)
    case ImagesPolled(_) => []
  }

  lemma {:induction false} ProcessMovesWait(u: Updater, r: Response)
    ensures WaitOf(Process(u, r).core) == SchedulerWait.Run(WaitOf(u.core), TransitionsOf(u, r))
  {
    match r
    case Live(counters, events, ctx) =>
      WalkMovesWait(u.(elisions := RevokeElisions(u.elisions.Observe(counters, false), events)), events, ctx);
    case Initial(counters, events, ctx) =>
      BaselineMovesWait(Baseline(u.(elisions := u.elisions.Observe(counters, true)), None), events, ctx);
    case ImagesPolled(poll) =>
  }

  /** Every transition a run applies, in order. */
  ghost function AllTransitions(u: Updater, responses: seq<Response>): seq<SchedulerWait.Transition>
    decreases |responses|
  {
    if responses == [] then []
    else TransitionsOf(u, responses[0]) + AllTransitions(Process(u, responses[0]), responses[1..])
  }

  /** Over any run the updater's wait is the register that its transitions write. */
  lemma {:induction false} WaitIsTheRegister(u: Updater, responses: seq<Response>)
    ensures WaitOf(Run(u, responses).core) == SchedulerWait.Run(WaitOf(u.core), AllTransitions(u, responses))
    decreases |responses|
  {
    if responses != [] {
      var next := Process(u, responses[0]);
      ProcessMovesWait(u, responses[0]);
      WaitIsTheRegister(next, responses[1..]);
      RunsConcat(WaitOf(u.core), TransitionsOf(u, responses[0]), AllTransitions(next, responses[1..]));
    }
  }

  /** So after any run of dated, enabled history a new updater waits as its newest transition says. */
  lemma {:induction false} NewestTransitionDecides(now: nat, responses: seq<Response>, t: SchedulerWait.Transition)
    requires var ts := AllTransitions(NewUpdater(now), responses); SchedulerWait.Dated(ts) && SchedulerWait.IsNewest(ts, t)
    ensures WaitOf(Run(NewUpdater(now), responses).core) == SchedulerWait.Wait(SchedulerWait.Written(t), t.at)
  {
    var u := NewUpdater(now);
    WaitIsTheRegister(u, responses);
    SchedulerWait.LastWriterWins(WaitOf(u.core), AllTransitions(u, responses), t);
  }
}
