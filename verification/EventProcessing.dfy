/**
The two ways a history response is processed: as the silent baseline of a new updater,
and live. Both walk the batch behind its privacy boundaries; live processing also
deduplicates, limits floods and delivers.

`log` records what is done, in order: state applied and revoked, and what is delivered.
*/
module EventProcessing {
  import opened Wrappers
  import opened EventNames
  import opened Events
  import opened EventState
  import opened Batches
  import opened SeenSet
  import Diagnostics
  import FloodControl
  import Elision
  import ElisionSnapshot

  const STALE_AUTOFOCUS: int := 600_000_000_000

  /** The identity of an enabled event. Hashing is taken as injective. */
  datatype EventKey = EventKey(time: string, name: EventName, details: Option<Details>)

  /** All that is kept of a disabled one. */
  datatype MarkerKey = MarkerKey(time: string, scope: Scope)

  datatype Action =
    | Applied(scope: Scope)
    | Revoked(scope: Scope)
    | Admitted(event: Event)
    | Dropped(event: Event)
    | Elided(count: nat)
    | Posted(event: Event)
    | TargetStarted(target: Target)
    | TargetChanged(formerly: Target, target: Target)
    | FilterChanged(previous: Filter, current: Filter)

  /**
  What one response is processed under: receipt time, wall clock, services, the filter wheel's own
  answer, and the time at which it is done.
  */
  datatype Context = Context(
    receivedAt: nat, now: int, hasServices: bool, legacyHub: bool, wheel: Option<Filter>, doneAt: nat)

  datatype Core = Core(state: State, log: seq<Action>) {
    function Note(a: Action): Core { this.(log := log + [a]) }

    function Post(ctx: Context, a: Action): Core { if ctx.hasServices then Note(a) else this }
  }

  // ----- handlers -----

  function TargetOf(d: Details): Target
    requires d.TargetStart?
  {
    Target(d.target, d.endsAt, d.body)
  }

  predicate NamesTarget(e: Event) {
    e.details.Some? && e.details.value.TargetStart? && e.details.value.target != "Sequential Instruction Set"
  }

  function HandleTarget(c: Core, e: Event, ctx: Context): Core {
    if !NamesTarget(e) then c
    else
      var target := TargetOf(e.details.value);
      var before := c.state.scheduler.target;
      var known := c.(state := c.state.(scheduler := c.state.scheduler.(target := Some(target))));
      if before.None? then known.Post(ctx, TargetStarted(target))
      else if before.value.name != target.name then known.Post(ctx, TargetChanged(before.value, target))
      else known
  }

  /** Empty names are filled in from the wheel and from the filter last seen. */
  function HandleFilter(c: Core, e: Event, ctx: Context): Core {
    if e.details.None? || !e.details.value.FilterWheelChange? then c
    else
      var d := e.details.value;
      var after := if d.newFilter.IsUnknown() && ctx.wheel.Some? then ctx.wheel.value else d.newFilter;
      var before := if d.previousFilter.IsUnknown() && c.state.filter.Some? then c.state.filter.value else d.previousFilter;
      if !after.IsUnknown() && !before.IsUnknown() && after.name == before.name then
        c.(state := c.state.(filter := Some(after)))
      else
        var known := if after.IsUnknown() then c else c.(state := c.state.(filter := Some(after)));
        known.Post(ctx, FilterChanged(before, after))
  }

  /** A newer completion supersedes whatever is still waiting for its report. */
  function HandleAutofocus(c: Core, e: Event, ctx: Context): Core {
    if ctx.legacyHub && e.time.instant.Some? && ctx.now - e.time.instant.value >= STALE_AUTOFOCUS then c
    else c.(state := c.state.(autofocus := [e]))
  }

  /** A full queue forgets its oldest summary. */
  function QueueSummary(summaries: seq<ImageSummary>, summary: ImageSummary): seq<ImageSummary> {
    (if |summaries| == MAX_SUMMARIES then summaries[1..] else summaries) + [summary]
  }

  /** The next sequence bounds the images of every summary that had none after it yet. */
  function Bounded(summaries: seq<ImageSummary>, startedAt: Option<int>): (bounded: seq<ImageSummary>)
    ensures |bounded| == |summaries|
  {
    seq(|summaries|, i requires 0 <= i < |summaries| =>
      if summaries[i].nextSequenceAt.None? then summaries[i].(nextSequenceAt := startedAt) else summaries[i])
  }

  predicate NeverStarted(e: Event) {
    e.details.Some? && e.details.value.SequenceFinished? && e.details.value.outcome == "cancelled_or_not_started"
  }

  /** A finished sequence is owed a summary of its images. */
  function HandleSequence(c: Core, e: Event, ctx: Context): Core {
    var s := c.state;
    if !ctx.hasServices then c
    else if e.name.SequenceStarting? then
      c.(state := s.(summaries := Bounded(s.summaries, s.sequence.startedAt))).Note(Posted(e))
    else if e.name.SequenceFinished? && !NeverStarted(e) && e.time.instant.Some? then
      var summary := ImageSummary(s.sequence.startedAt, e.time.instant.value, None, ctx.receivedAt, ctx.receivedAt);
      c.(state := s.(summaries := QueueSummary(s.summaries, summary))).Note(Posted(e))
    else c.Note(Posted(e))
  }

  function Deliver(c: Core, e: Event, ctx: Context): Core {
    match e.name
    case TsTargetstart | TsNewtargetstart => HandleTarget(c, e, ctx)
    case FilterwheelChanged => HandleFilter(c, e, ctx)
    case AutofocusFinished => HandleAutofocus(c, e, ctx)
    case SequenceStarting | SequenceFinished | SequenceEntityFailed => HandleSequence(c, e, ctx)
    case ImageSave => c
    case _ => c.Post(ctx, Posted(e))
  }

  function ApplyTo(c: Core, e: Event, ctx: Context): (Core, bool) {
    var (state, ok) := Apply(c.state, e, ctx.now);
    (if ok then Core(state, c.log).Note(Applied(ScopeOf(e.name))) else c, ok)
  }

  /** A high-wind alert that is already up is refreshed without a second message. */
  predicate IsHighWindRefresh(s: State, e: Event) {
    e.details.Some? && e.details.value.WeatherHighWind? && e.details.value.isHighWind && s.highWind.active == Some(true)
  }

  function Handle(c: Core, e: Event, ctx: Context): Core {
    var (applied, ok) := ApplyTo(c, e, ctx);
    if !ok || IsHighWindRefresh(c.state, e) then applied else Deliver(applied, e, ctx)
  }

  function RevokeIn(c: Core, scope: Scope, at: Option<int>): Core {
    Core(Revoke(c.state, scope, at), c.log).Note(Revoked(scope))
  }

  // ----- live processing -----

  datatype Updater = Updater(
    core: Core, seen: seq<EventKey>, markers: seq<MarkerKey>, limiter: FloodControl.Limiter, elisions: Elision.Reporter)

  function LogLevel(e: Event): Option<string> {
    if e.details.Some? && e.details.value.NinaLog? then Some(e.details.value.level) else None
  }

  /** The accounting slot of a dropped event. */
  function DropKey(e: Event): Option<ElisionSnapshot.Key> {
    if e.chatEnabled then ElisionSnapshot.KeyOf(WireText(e.name), LogLevel(e)) else None
  }

  function KeyOf(e: Event): EventKey {
    EventKey(e.time.text, e.name, e.details)
  }

  function MarkerOf(e: Event): MarkerKey {
    MarkerKey(e.time.text, ScopeOf(e.name))
  }

  predicate ShouldProcess(e: Event) {
    && HasUsableDetails(e)
    && (e.name.FilterwheelChanged? && e.details.Some? && e.details.value.FilterWheelChange?
        && !e.details.value.newFilter.IsUnknown() && !e.details.value.previousFilter.IsUnknown() ==>
          e.details.value.newFilter.name != e.details.value.previousFilter.name)
  }

  function LiveMarker(u: Updater, e: Event): Updater {
    var key := MarkerOf(e);
    u.(markers := Touch(u.markers, SEEN_SET_CAPACITY, key),
       core := if key in u.markers then u.core else RevokeIn(u.core, key.scope, e.time.instant))
  }

  function LiveFresh(u: Updater, e: Event, ctx: Context): Updater {
    var (limiter, ok) := u.limiter.Allow(Diagnostics.DiagnosticOf(e), ctx.receivedAt);
    u.(limiter := limiter,
       elisions := if ok then u.elisions else u.elisions.DroppedAtHub(DropKey(e)),
       core := if ok then Handle(u.core.Note(Admitted(e)), e, ctx) else ApplyTo(u.core.Note(Dropped(e)), e, ctx).0)
  }

  function LiveEnabled(u: Updater, e: Event, ctx: Context): Updater {
    if !ShouldProcess(e) then u
    else
      var key := KeyOf(e);
      var touched := u.(seen := Touch(u.seen, SEEN_SET_CAPACITY, key));
      if key in u.seen then touched else LiveFresh(touched, e, ctx)
  }

  function LiveStep(ctx: Context): (Updater, Event) -> Updater {
    (u: Updater, e: Event) => if e.chatEnabled then LiveEnabled(u, e, ctx) else LiveMarker(u, e)
  }

  function WalkLive(u: Updater, events: seq<Event>, ctx: Context): Updater {
    Walk(u, events, LiveStep(ctx))
  }

  /** Counts pending for a scope that any marker of the batch names are discarded, whether or not it is new. */
  function RevokeElisions(r: Elision.Reporter, events: seq<Event>): Elision.Reporter {
    r.(pending := map k | k in r.pending && !Disables(events, k.scope) :: r.pending[k])
  }

  lemma RevokedOneMore(r: Elision.Reporter, events: seq<Event>, index: nat)
    requires index < |events|
    ensures var before := RevokeElisions(r, events[..index]);
      RevokeElisions(r, events[..index + 1]) ==
        if events[index].chatEnabled then before else before.Revoke(ScopeOf(events[index].name))
  {
    assert events[..index + 1] == events[..index] + [events[index]];
    forall scope: Scope
      ensures Disables(events[..index + 1], scope)
         <==> Disables(events[..index], scope) || (!events[index].chatEnabled && ScopeOf(events[index].name) == scope)
    {
      DisablesSnoc(events[..index], events[index], scope);
    }
  }

  /** The notice of what was dropped, when one is due and chat can carry it. */
  ghost function Notify(u: Updater, ctx: Context): Updater {
    if !ctx.hasServices then u
    else
      var (elisions, count) := u.elisions.TakeNotice(ctx.doneAt);
      u.(elisions := elisions, core := if count.Some? then u.core.Note(Elided(count.value)) else u.core)
  }

  ghost function ProcessLive(u: Updater, events: seq<Event>, ctx: Context): Updater {
    Notify(WalkLive(u.(elisions := RevokeElisions(u.elisions, events)), events, ctx), ctx)
  }

  // ----- the baseline -----

  /** The newest scheduler target so far, with its time. */
  datatype Baseline = Baseline(updater: Updater, latest: Option<(Option<int>, Target)>)

  predicate IsNewer(candidate: Option<int>, latest: Option<(Option<int>, Target)>) {
    || latest.None?
    || (if candidate.Some? then latest.value.0.None? || candidate.value > latest.value.0.value
        else latest.value.0.None?)
  }

  /** Every marker is applied on every attempt, so a retried baseline cannot resurrect older state. */
  function BaselineMarker(b: Baseline, e: Event): Baseline {
    var u, scope := b.updater, ScopeOf(e.name);
    Baseline(u.(markers := Touch(u.markers, SEEN_SET_CAPACITY, MarkerOf(e)),
                core := RevokeIn(u.core, scope, e.time.instant)),
             if scope == TargetScheduler then None else b.latest)
  }

  predicate IsRedundantFilter(e: Event) {
    e.name.FilterwheelChanged? && e.details.Some? && e.details.value.FilterWheelChange?
    && e.details.value.newFilter.name == e.details.value.previousFilter.name && !e.details.value.newFilter.IsUnknown()
  }

  predicate NamesFilter(e: Event) {
    e.name.FilterwheelChanged? && e.details.Some? && e.details.value.FilterWheelChange?
    && !e.details.value.newFilter.IsUnknown()
  }

  function BaselineCore(c: Core, e: Event, ctx: Context): Core {
    var applied := ApplyTo(c, e, ctx).0;
    if NamesFilter(e) then applied.(state := applied.state.(filter := Some(e.details.value.newFilter))) else applied
  }

  function BaselineEnabled(b: Baseline, e: Event, ctx: Context): Baseline {
    if IsRedundantFilter(e) then b
    else
      var latest :=
        if (e.name.TsTargetstart? || e.name.TsNewtargetstart?) && NamesTarget(e) && IsNewer(e.time.instant, b.latest)
        then Some((e.time.instant, TargetOf(e.details.value))) else b.latest;
      var u := b.updater;
      Baseline(u.(core := BaselineCore(u.core, e, ctx),
                  seen := Touch(u.seen, SEEN_SET_CAPACITY, KeyOf(e))), latest)
  }

  function BaselineStep(ctx: Context): (Baseline, Event) -> Baseline {
    (b: Baseline, e: Event) => if e.chatEnabled then BaselineEnabled(b, e, ctx) else BaselineMarker(b, e)
  }

  function Finish(b: Baseline): Updater {
    if b.latest.None? then b.updater
    else
      var c := b.updater.core;
      b.updater.(core := c.(state := c.state.(scheduler := c.state.scheduler.(target := Some(b.latest.value.1)))))
  }

  function ProcessBaseline(u: Updater, events: seq<Event>, ctx: Context): Updater {
    Finish(Walk(Baseline(u, None), events, BaselineStep(ctx)))
  }

  // ----- image polls -----

  /**
  What an image poll means to the queued summaries: whether summaries are on, whether it carries a
  new privacy marker, and the new light frames after it, each with whether its start is known.
  */
  datatype ImagePoll = ImagePoll(
    summarizes: bool, marker: bool, captures: seq<(int, bool)>, now: nat, hasServices: bool)

  /** A new frame that belongs to a summary keeps it waiting. */
  function Extended(summaries: seq<ImageSummary>, capture: (int, bool), now: nat): (extended: seq<ImageSummary>)
    ensures |extended| == |summaries|
  {
    seq(|summaries|, i requires 0 <= i < |summaries| =>
      if summaries[i].Includes(capture.0, capture.1) then summaries[i].(lastImageAt := now) else summaries[i])
  }

  function ExtendedByAll(summaries: seq<ImageSummary>, captures: seq<(int, bool)>, now: nat): (extended: seq<ImageSummary>)
    ensures |extended| == |summaries|
  {
    if captures == [] then summaries
    else Extended(ExtendedByAll(summaries, captures[..|captures| - 1], now), captures[|captures| - 1], now)
  }

  /** Those not ready to be sent yet. */
  function Waiting(summaries: seq<ImageSummary>, now: nat): (waiting: seq<ImageSummary>)
    ensures |waiting| <= |summaries|
  {
    if summaries == [] then []
    else
      var last := summaries[|summaries| - 1];
      Waiting(summaries[..|summaries| - 1], now) + if last.Ready(now) then [] else [last]
  }

  function AfterImages(c: Core, p: ImagePoll): Core {
    var kept := if p.summarizes then c else c.(state := c.state.(summaries := []));
    var marked := if p.marker then RevokeIn(kept, Images, None) else kept;
    var extended := ExtendedByAll(marked.state.summaries, p.captures, p.now);
    marked.(state := marked.state.(summaries := if p.summarizes && p.hasServices then Waiting(extended, p.now) else []))
  }

  // ----- privacy -----

  /**
  Live processing cannot tell a batch from its redaction: whatever was withdrawn later in
  the same response, and everything a disabled event says beyond its scope and time,
  leaves no trace in the state, the deliveries, the budgets, the drop counts or the dedup sets.
  */
  lemma {:induction false} LiveLeaksNothing(u: Updater, events: seq<Event>, redacted: seq<Event>, ctx: Context)
    requires Redacts(events, redacted)
    ensures ProcessLive(u, events, ctx) == ProcessLive(u, redacted, ctx)
  {
    var step := LiveStep(ctx);
    forall v: Updater, e, f | SameMarker(e, f) ensures step(v, e) == step(v, f) {
      assert step(v, e) == LiveMarker(v, e) && step(v, f) == LiveMarker(v, f);
    }
    forall k | k in u.elisions.pending ensures Disables(events, k.scope) <==> Disables(redacted, k.scope) {
      RedactionKeepsMarkers(events, redacted, k.scope);
    }
    assert RevokeElisions(u.elisions, events) == RevokeElisions(u.elisions, redacted);
    WalkIgnoresRedacted(u.(elisions := RevokeElisions(u.elisions, events)), events, redacted, step);
  }

  lemma {:induction false} BaselineLeaksNothing(u: Updater, events: seq<Event>, redacted: seq<Event>, ctx: Context)
    requires Redacts(events, redacted)
    ensures ProcessBaseline(u, events, ctx) == ProcessBaseline(u, redacted, ctx)
  {
    var step := BaselineStep(ctx);
    forall b: Baseline, e, f | SameMarker(e, f) ensures step(b, e) == step(b, f) {
      assert step(b, e) == BaselineMarker(b, e) && step(b, f) == BaselineMarker(b, f);
    }
    WalkIgnoresRedacted(Baseline(u, None), events, redacted, step);
  }

  // ----- provenance -----

  /** An enabled event of `scope` was applied since the scope was last revoked. */
  predicate Granted(log: seq<Action>, scope: Scope) {
    log != [] &&
    (|| log[|log| - 1] == Applied(scope)
     || (log[|log| - 1] != Revoked(scope) && Granted(log[..|log| - 1], scope)))
  }

  /** Whatever is known about a scope, some enabled event of that scope still vouches for. */
  ghost predicate Vouched(c: Core) {
    && (forall scope :: !Blank(c.state, scope) ==> Granted(c.log, scope))
    && |c.state.summaries| <= MAX_SUMMARIES
  }

  lemma GrantedSnoc(log: seq<Action>, a: Action, scope: Scope)
    ensures Granted(log + [a], scope) <==> a == Applied(scope) || (a != Revoked(scope) && Granted(log, scope))
  {
    assert (log + [a])[..|log|] == log;
  }

  lemma {:induction false} NoteKeepsVouched(c: Core, a: Action)
    requires Vouched(c) && !a.Revoked?
    ensures Vouched(c.Note(a))
  {
    forall scope | !Blank(c.state, scope) ensures Granted(c.log + [a], scope) {
      GrantedSnoc(c.log, a, scope);
    }
  }

  /** New content of a granted scope is vouched for. */
  lemma {:induction false} GrowthIsVouched(c: Core, t: State, owner: Scope)
    requires Vouched(c) && OnlyGrows(c.state, t, owner) && Granted(c.log, owner)
    ensures Vouched(c.(state := t))
  {
    forall scope | !Blank(t, scope) ensures Granted(c.log, scope) {
      if scope != owner && Blank(c.state, scope) {
        GrowthElsewhereKeepsBlank(c.state, t, owner, scope);
      }
    }
  }

  lemma {:induction false} RevokeKeepsVouched(c: Core, scope: Scope, at: Option<int>)
    requires Vouched(c)
    ensures Vouched(RevokeIn(c, scope, at))
  {
    var t := Revoke(c.state, scope, at);
    RevokedSummaries(c.state, scope, at);
    forall s | !Blank(t, s) ensures Granted(c.log + [Revoked(scope)], s) {
      RevokeIsLocal(c.state, scope, at, s);
      SameIsBlank(c.state, t, s);
      GrantedSnoc(c.log, Revoked(scope), s);
    }
  }

  lemma RevokedSummaries(s: State, scope: Scope, at: Option<int>)
    ensures Revoke(s, scope, at).summaries == if scope.Sequence? || scope.Images? then [] else s.summaries
  {
  }

  lemma SameIsBlank(s: State, t: State, scope: Scope)
    ensures SamePart(s, t, scope) ==> (Blank(s, scope) <==> Blank(t, scope))
  {
  }

  lemma {:induction false} ApplyKeepsVouched(c: Core, e: Event, ctx: Context)
    requires Vouched(c)
    ensures Vouched(ApplyTo(c, e, ctx).0)
    ensures ApplyTo(c, e, ctx).1 ==> Granted(ApplyTo(c, e, ctx).0.log, ScopeOf(e.name))
  {
    var owner := ScopeOf(e.name);
    ApplyIsOwned(c.state, e, ctx.now);
    NoteKeepsVouched(c, Applied(owner));
    GrantedSnoc(c.log, Applied(owner), owner);
    GrowthIsVouched(c.Note(Applied(owner)), Apply(c.state, e, ctx.now).0, owner);
  }

  /** At most one message follows a change that its scope vouches for. */
  lemma {:induction false} PostKeepsVouched(c: Core, t: State, owner: Scope, ctx: Context, a: Action)
    requires Vouched(c) && OnlyGrows(c.state, t, owner) && Granted(c.log, owner) && !a.Revoked?
    ensures Vouched(c.(state := t)) && Vouched(c.(state := t).Post(ctx, a))
  {
    GrowthIsVouched(c, t, owner);
    NoteKeepsVouched(c.(state := t), a);
  }

  lemma {:induction false} TargetKeepsVouched(c: Core, e: Event, ctx: Context)
    requires Vouched(c) && Granted(c.log, TargetScheduler)
    ensures Vouched(HandleTarget(c, e, ctx))
  {
    if NamesTarget(e) {
      var target := TargetOf(e.details.value);
      var t := c.state.(scheduler := c.state.scheduler.(target := Some(target)));
      PostKeepsVouched(c, t, TargetScheduler, ctx, TargetStarted(target));
      if c.state.scheduler.target.Some? {
        PostKeepsVouched(c, t, TargetScheduler, ctx, TargetChanged(c.state.scheduler.target.value, target));
      }
    }
  }

  lemma {:induction false} FilterKeepsVouched(c: Core, e: Event, ctx: Context)
    requires Vouched(c) && Granted(c.log, FilterFocuserRotator)
    ensures Vouched(HandleFilter(c, e, ctx))
  {
    if e.details.Some? && e.details.value.FilterWheelChange? {
      var d := e.details.value;
      var after := if d.newFilter.IsUnknown() && ctx.wheel.Some? then ctx.wheel.value else d.newFilter;
      var before := if d.previousFilter.IsUnknown() && c.state.filter.Some? then c.state.filter.value else d.previousFilter;
      PostKeepsVouched(c, c.state.(filter := Some(after)), FilterFocuserRotator, ctx, FilterChanged(before, after));
      PostKeepsVouched(c, c.state, FilterFocuserRotator, ctx, FilterChanged(before, after));
      assert c.(state := c.state) == c;
    }
  }

  /** Which handler an event goes to. */
  lemma DeliversTo(c: Core, e: Event, ctx: Context)
    ensures e.name.TsTargetstart? || e.name.TsNewtargetstart? ==> Deliver(c, e, ctx) == HandleTarget(c, e, ctx)
    ensures e.name.FilterwheelChanged? ==> Deliver(c, e, ctx) == HandleFilter(c, e, ctx)
    ensures e.name.AutofocusFinished? ==> Deliver(c, e, ctx) == HandleAutofocus(c, e, ctx)
    ensures IsSequenceEvent(e.name) ==> Deliver(c, e, ctx) == HandleSequence(c, e, ctx)
  {
    if IsSequenceEvent(e.name) { SequenceDelivers(c, e, ctx); }
    if e.name.TsTargetstart? || e.name.TsNewtargetstart? { TargetDelivers(c, e, ctx); }
  }

  lemma SequenceDelivers(c: Core, e: Event, ctx: Context)
    requires IsSequenceEvent(e.name)
    ensures Deliver(c, e, ctx) == HandleSequence(c, e, ctx)
  {
  }

  lemma TargetDelivers(c: Core, e: Event, ctx: Context)
    requires e.name.TsTargetstart? || e.name.TsNewtargetstart?
    ensures Deliver(c, e, ctx) == HandleTarget(c, e, ctx)
  {
  }

  /** The scope that has granted what a handler writes. */
  lemma HandlerScopes(name: EventName)
    ensures name.TsTargetstart? || name.TsNewtargetstart? ==> ScopeOf(name) == TargetScheduler
    ensures name.FilterwheelChanged? ==> ScopeOf(name) == FilterFocuserRotator
    ensures name.AutofocusFinished? ==> ScopeOf(name) == Autofocus
    ensures IsSequenceEvent(name) ==> ScopeOf(name) == Sequence
  {
  }

  /** Does the event have a handler that touches state? */
  predicate Handled(name: EventName) {
    || name.TsTargetstart? || name.TsNewtargetstart? || name.FilterwheelChanged? || name.AutofocusFinished?
    || IsSequenceEvent(name)
  }

  lemma {:induction false} DeliverKeepsVouched(c: Core, e: Event, ctx: Context)
    requires Vouched(c) && Granted(c.log, ScopeOf(e.name))
    ensures Vouched(Deliver(c, e, ctx))
  {
    if Handled(e.name) {
      var owner := ScopeOf(e.name);
      DeliversTo(c, e, ctx);
      HandlerScopes(e.name);
      HandlersKeepVouched(c, e, ctx, owner);
    } else {
      PlainDelivery(c, e, ctx);
      NoteKeepsVouched(c, Posted(e));
    }
  }

  lemma {:induction false} HandlersKeepVouched(c: Core, e: Event, ctx: Context, owner: Scope)
    requires Vouched(c) && Granted(c.log, owner)
    ensures owner.TargetScheduler? ==> Vouched(HandleTarget(c, e, ctx))
    ensures owner.FilterFocuserRotator? ==> Vouched(HandleFilter(c, e, ctx))
    ensures owner.Autofocus? ==> Vouched(HandleAutofocus(c, e, ctx))
    ensures owner.Sequence? ==> Vouched(HandleSequence(c, e, ctx))
  {
    match owner
    case TargetScheduler => TargetKeepsVouched(c, e, ctx);
    case FilterFocuserRotator => FilterKeepsVouched(c, e, ctx);
    case Autofocus => AutofocusKeepsVouched(c, e, ctx);
    case Sequence => SequenceKeepsVouched(c, e, ctx);
    case _ =>
  }

  lemma {:induction false} SequenceKeepsVouched(c: Core, e: Event, ctx: Context)
    requires Vouched(c) && Granted(c.log, Sequence)
    ensures Vouched(HandleSequence(c, e, ctx))
  {
    var t := HandleSequence(c, e, ctx).state;
    assert OnlyGrows(c.state, t, Sequence);
    GrowthIsVouched(c, t, Sequence);
    NoteKeepsVouched(c.(state := t), Posted(e));
  }

  lemma PlainDelivery(c: Core, e: Event, ctx: Context)
    requires !Handled(e.name)
    ensures Deliver(c, e, ctx) == c || Deliver(c, e, ctx) == c.Note(Posted(e))
  {
  }

  lemma {:induction false} AutofocusKeepsVouched(c: Core, e: Event, ctx: Context)
    requires Vouched(c) && Granted(c.log, Autofocus)
    ensures Vouched(HandleAutofocus(c, e, ctx))
  {
    GrowthIsVouched(c, c.state.(autofocus := [e]), Autofocus);
  }

  lemma {:induction false} HandleKeepsVouched(c: Core, e: Event, ctx: Context)
    requires Vouched(c)
    ensures Vouched(Handle(c, e, ctx))
  {
    ApplyKeepsVouched(c, e, ctx);
    var (applied, ok) := ApplyTo(c, e, ctx);
    if ok {
      DeliverKeepsVouched(applied, e, ctx);
    }
  }

  lemma {:induction false} FreshKeepsVouched(u: Updater, e: Event, ctx: Context)
    requires Vouched(u.core)
    ensures Vouched(LiveFresh(u, e, ctx).core)
  {
    NoteKeepsVouched(u.core, Admitted(e));
    NoteKeepsVouched(u.core, Dropped(e));
    HandleKeepsVouched(u.core.Note(Admitted(e)), e, ctx);
    ApplyKeepsVouched(u.core.Note(Dropped(e)), e, ctx);
  }

  lemma {:induction false} LiveStepKeepsVouched(u: Updater, e: Event, ctx: Context)
    requires Vouched(u.core)
    ensures Vouched(LiveStep(ctx)(u, e).core)
  {
    if e.chatEnabled {
      FreshKeepsVouched(u.(seen := Touch(u.seen, SEEN_SET_CAPACITY, KeyOf(e))), e, ctx);
    } else {
      RevokeKeepsVouched(u.core, ScopeOf(e.name), e.time.instant);
    }
  }

  lemma {:induction false} WalkKeepsVouched(u: Updater, events: seq<Event>, ctx: Context)
    requires Vouched(u.core)
    ensures Vouched(WalkLive(u, events, ctx).core)
    decreases |events|
  {
    if events != [] {
      LiveStepKeepsVouched(u, events[0], ctx);
      WalkKeepsVouched(if FirstIsObsolete(events) then u else LiveStep(ctx)(u, events[0]), events[1..], ctx);
    }
  }

  lemma {:induction false} LiveKeepsVouched(u: Updater, events: seq<Event>, ctx: Context)
    requires Vouched(u.core)
    ensures Vouched(ProcessLive(u, events, ctx).core)
  {
    var start := u.(elisions := RevokeElisions(u.elisions, events));
    WalkKeepsVouched(start, events, ctx);
    var walked := WalkLive(start, events, ctx);
    var count := walked.elisions.TakeNotice(ctx.doneAt).1;
    if count.Some? { NoteKeepsVouched(walked.core, Elided(count.value)); }
  }

  /** In the baseline the pending scheduler target is vouched for as well. */
  ghost predicate BaselineVouched(b: Baseline) {
    Vouched(b.updater.core) && (b.latest.Some? ==> Granted(b.updater.core.log, TargetScheduler))
  }

  lemma {:induction false} BaselineMarkerKeepsVouched(b: Baseline, e: Event)
    requires BaselineVouched(b)
    ensures BaselineVouched(BaselineMarker(b, e))
  {
    RevokeKeepsVouched(b.updater.core, ScopeOf(e.name), e.time.instant);
    GrantedSnoc(b.updater.core.log, Revoked(ScopeOf(e.name)), TargetScheduler);
  }

  lemma {:induction false} BaselineCoreKeepsVouched(c: Core, e: Event, ctx: Context)
    requires Vouched(c)
    ensures Vouched(BaselineCore(c, e, ctx))
  {
    ApplyKeepsVouched(c, e, ctx);
    if NamesFilter(e) {
      FilterChangesApply(c.state, e, ctx.now);
      var applied := ApplyTo(c, e, ctx).0;
      GrowthIsVouched(applied, applied.state.(filter := Some(e.details.value.newFilter)), FilterFocuserRotator);
    }
  }

  lemma FilterChangesApply(s: State, e: Event, now: int)
    requires e.name.FilterwheelChanged?
    ensures Apply(s, e, now).1 && ScopeOf(e.name) == FilterFocuserRotator
  {
  }

  lemma {:induction false} BaselineCoreGrants(c: Core, e: Event, ctx: Context)
    ensures Granted(c.log, TargetScheduler) ==> Granted(BaselineCore(c, e, ctx).log, TargetScheduler)
    ensures e.name.TsTargetstart? || e.name.TsNewtargetstart? ==> Granted(BaselineCore(c, e, ctx).log, TargetScheduler)
  {
    BaselineCoreLogs(c, e, ctx);
    GrantedSnoc(c.log, Applied(ScopeOf(e.name)), TargetScheduler);
  }

  lemma {:induction false} BaselineCoreLogs(c: Core, e: Event, ctx: Context)
    ensures var log := BaselineCore(c, e, ctx).log;
      && (log == c.log || log == c.log + [Applied(ScopeOf(e.name))])
      && (e.name.TsTargetstart? || e.name.TsNewtargetstart? ==> log == c.log + [Applied(TargetScheduler)])
  {
    if e.name.TsTargetstart? || e.name.TsNewtargetstart? {
      TargetStartsApply(c.state, e, ctx.now);
    }
  }

  lemma TargetStartsApply(s: State, e: Event, now: int)
    requires e.name.TsTargetstart? || e.name.TsNewtargetstart?
    ensures Apply(s, e, now).1
  {
  }

  lemma {:induction false} BaselineEnabledKeepsVouched(b: Baseline, e: Event, ctx: Context)
    requires BaselineVouched(b)
    ensures BaselineVouched(BaselineEnabled(b, e, ctx))
  {
    BaselineCoreKeepsVouched(b.updater.core, e, ctx);
    BaselineCoreGrants(b.updater.core, e, ctx);
  }

  lemma {:induction false} BaselineWalkKeepsVouched(b: Baseline, events: seq<Event>, ctx: Context)
    requires BaselineVouched(b)
    ensures BaselineVouched(Walk(b, events, BaselineStep(ctx)))
    decreases |events|
  {
    if events != [] {
      BaselineMarkerKeepsVouched(b, events[0]);
      BaselineEnabledKeepsVouched(b, events[0], ctx);
      BaselineWalkKeepsVouched(if FirstIsObsolete(events) then b else BaselineStep(ctx)(b, events[0]), events[1..], ctx);
    }
  }

  lemma {:induction false} BaselineKeepsVouched(u: Updater, events: seq<Event>, ctx: Context)
    requires Vouched(u.core)
    ensures Vouched(ProcessBaseline(u, events, ctx).core)
  {
    BaselineWalkKeepsVouched(Baseline(u, None), events, ctx);
    var b := Walk(Baseline(u, None), events, BaselineStep(ctx));
    if b.latest.Some? {
      GrowthIsVouched(b.updater.core, Finish(b).core.state, TargetScheduler);
    }
  }

  /** A response carries events and, from a reporting plugin, its drop counters. */
  datatype Response =
    | Live(counters: Option<seq<ElisionSnapshot.Slot>>, events: seq<Event>, ctx: Context)
    | Initial(counters: Option<seq<ElisionSnapshot.Slot>>, events: seq<Event>, ctx: Context)
    | ImagesPolled(poll: ImagePoll)

  ghost function Process(u: Updater, r: Response): Updater {
    match r
    case Live(counters, events, ctx) => ProcessLive(u.(elisions := u.elisions.Observe(counters, false)), events, ctx)
    case Initial(counters, events, ctx) => ProcessBaseline(u.(elisions := u.elisions.Observe(counters, true)), events, ctx)
    case ImagesPolled(poll) => u.(core := AfterImages(u.core, poll))
  }

  /** Polls only take summaries away. */
  lemma {:induction false} ImagesKeepVouched(c: Core, p: ImagePoll)
    requires Vouched(c)
    ensures Vouched(AfterImages(c, p))
  {
    var kept := if p.summarizes then c else c.(state := c.state.(summaries := []));
    FewerSummariesAreVouched(c, kept.state.summaries);
    RevokeKeepsVouched(kept, Images, None);
    var marked := if p.marker then RevokeIn(kept, Images, None) else kept;
    FewerSummariesAreVouched(marked, AfterImages(c, p).state.summaries);
  }

  lemma {:induction false} FewerSummariesAreVouched(c: Core, summaries: seq<ImageSummary>)
    requires Vouched(c) && |summaries| <= |c.state.summaries|
    ensures Vouched(c.(state := c.state.(summaries := summaries)))
  {
    var t := c.state.(summaries := summaries);
    forall scope | !Blank(t, scope) ensures Granted(c.log, scope) {
      assert !Blank(c.state, scope);
    }
  }

  ghost function Run(u: Updater, responses: seq<Response>): Updater
    decreases |responses|
  {
    if responses == [] then u else Run(Process(u, responses[0]), responses[1..])
  }

  /** A new updater knows nothing and has recorded nothing. */
  function NewUpdater(now: nat): Updater {
    Updater(Core(EventState.Initial(), []), [], [], FloodControl.NewLimiter(now), Elision.NewReporter())
  }

  lemma {:induction false} RunKeepsVouched(u: Updater, responses: seq<Response>)
    requires Vouched(u.core)
    ensures Vouched(Run(u, responses).core)
    decreases |responses|
  {
    if responses != [] {
      match responses[0] {
        case Live(counters, events, ctx) => LiveKeepsVouched(u.(elisions := u.elisions.Observe(counters, false)), events, ctx);
        case Initial(counters, events, ctx) => BaselineKeepsVouched(u.(elisions := u.elisions.Observe(counters, true)), events, ctx);
        case ImagesPolled(poll) => ImagesKeepVouched(u.core, poll);
      }
      RunKeepsVouched(Process(u, responses[0]), responses[1..]);
    }
  }

  lemma NothingIsVouched(now: nat)
    ensures Vouched(NewUpdater(now).core)
  {
  }

  /**
  In every state a new updater can reach, content of a scope is known only if an enabled event
  of that very scope was applied and the scope has not been revoked since; and at most eight
  image summaries are owed.
  */
  lemma {:induction false} KnownOnlyWhileGranted(now: nat, responses: seq<Response>, scope: Scope)
    ensures var c := Run(NewUpdater(now), responses).core;
      && (!Blank(c.state, scope) ==> Granted(c.log, scope))
      && |c.state.summaries| <= MAX_SUMMARIES
  {
    NothingIsVouched(now);
    RunKeepsVouched(NewUpdater(now), responses);
  }
}
