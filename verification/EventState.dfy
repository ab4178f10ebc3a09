/**
State reconstructed from events, grouped by the delivery scope that owns it.

`Apply` is what an enabled event does to it, `Revoke` what the disabled marker of a
scope does. Only the scope and the time of a marker are ever read.
*/
module EventState {
  import opened Wrappers
  import opened EventNames
  import opened Events
  import opened SchedulerWait

  /** A target announced by the scheduler. */
  datatype Target = Target(name: string, endsAt: Option<Stamp>, body: string)

  datatype SchedulerStatus = SchedulerStatus(target: Option<Target>, wait: Wait)

  datatype Observation = Observation(position: int, temperature: Option<real>)

  /** The ordering mark also covers connection and privacy boundaries. */
  datatype FocuserStatus = FocuserStatus(observation: Option<Observation>, at: Option<int>)

  datatype MountStatus = MountStatus(lastEvent: Option<EventName>, centerSeenAt: Option<int>)

  datatype Failure = Failure(entity: string, entityType: string, error: string)

  datatype SequenceStatus = SequenceStatus(running: bool, startedAt: Option<int>, failure: Option<Failure>, outcome: Option<string>)

  datatype SafetyStatus = Unknown | ConnectedUnknown | Safe | Unsafe | Disconnected

  datatype WeatherStatus = WeatherStatus(conditions: Option<Conditions>, at: Option<int>)

  datatype HighWindStatus = HighWindStatus(active: Option<bool>, conditions: Option<Conditions>, at: Option<int>, threshold: Option<real>)

  datatype DomeStatus = DomeStatus(shutterOpen: Option<bool>, azimuth: Option<real>, parked: Option<bool>, homed: Option<bool>)

  datatype FlatStatus = FlatStatus(cover: Option<string>, lightOn: Option<bool>, brightness: Option<int>)

  datatype ConnectionStatus = ConnectionStatus(dome: Option<bool>, flat: Option<bool>, weather: Option<bool>, switch: Option<bool>)

  const MAX_SUMMARIES: nat := 8
  const SUMMARY_MIN_DELAY: int := 15_000_000_000
  const SUMMARY_QUIET: int := 10_000_000_000
  const SUMMARY_MAX_DELAY: int := 120_000_000_000

  /** An image summary owed for a finished sequence, waiting for its last images. */
  datatype ImageSummary = ImageSummary(
    startedAt: Option<int>, finishedAt: int, nextSequenceAt: Option<int>, queuedAt: nat, lastImageAt: nat)
  {
    predicate Ready(now: nat) {
      var elapsed := Max(now - queuedAt, 0);
      || elapsed >= SUMMARY_MAX_DELAY
      || (elapsed >= SUMMARY_MIN_DELAY && Max(now - lastImageAt, 0) >= SUMMARY_QUIET)
    }

    predicate Includes(capturedAt: int, startKnown: bool) {
      || capturedAt <= finishedAt
      || (!startKnown && capturedAt - finishedAt <= SUMMARY_MAX_DELAY
          && (nextSequenceAt.None? || capturedAt < nextSequenceAt.value))
    }
  }

  datatype State = State(
    scheduler: SchedulerStatus, filter: Option<Filter>, focuser: FocuserStatus, mount: MountStatus, guiding: Option<EventName>,
    sequence: SequenceStatus, safety: SafetyStatus, weather: WeatherStatus, highWind: HighWindStatus, dome: DomeStatus,
    flat: FlatStatus,
    connections: ConnectionStatus, autofocus: seq<Event>, summaries: seq<ImageSummary>)

  function NoDome(): DomeStatus { DomeStatus(None, None, None, None) }
  function NoFlat(): FlatStatus { FlatStatus(None, None, None) }
  function NoWeather(): WeatherStatus { WeatherStatus(None, None) }
  function NoHighWind(): HighWindStatus { HighWindStatus(None, None, None, None) }
  function NoSequence(): SequenceStatus { SequenceStatus(false, None, None, None) }
  function NoConnections(): ConnectionStatus { ConnectionStatus(None, None, None, None) }

  function Initial(): State {
    State(SchedulerStatus(None, Wait(None, None)), None, FocuserStatus(None, None), MountStatus(None, None), None, NoSequence(), Unknown,
          NoWeather(), NoHighWind(), NoDome(), NoFlat(), NoConnections(), [], [])
  }

  // ----- disabled markers -----

  function Revoke(s: State, scope: Scope, at: Option<int>): State {
    match scope
    case TargetScheduler => s.(scheduler := SchedulerStatus(None, s.scheduler.wait.ClearForPrivacy(at)))
    case FilterFocuserRotator => s.(filter := None)
    case FocuserMotion => s.(focuser := FocuserStatus(None, at))
    case Mount => s.(mount := MountStatus(None, None))
    case Guiding => s.(guiding := None)
    case Sequence => s.(sequence := NoSequence(), summaries := [])
    case Safety => s.(safety := Unknown)
    case WeatherChanges => s.(weather := NoWeather())
    case HighWindAlerts => s.(highWind := NoHighWind())
    case Autofocus => s.(autofocus := [])
    case Observatory => s.(dome := NoDome(), flat := NoFlat())
    case EquipmentConnections => s.(connections := NoConnections())
    case Images => s.(summaries := [])
    case SlewMotion | RotatorMotion | CommandFailures | NinaNotifications | NinaLogs | Other => s
  }

  // ----- enabled events -----

  function ApplyFocuser(s: State, e: Event): (State, bool) {
    var at := e.time.instant;
    if s.focuser.at.Some? && (at.None? || at.value < s.focuser.at.value) then (s, false)
    else if e.name == EventName.FocuserMoved then
      if e.details.Some? && e.details.value.FocuserMoved? then
        (s.(focuser := FocuserStatus(Some(Observation(e.details.value.to, e.details.value.temperature)), at)), true)
      else (s, true)
    else (s.(focuser := FocuserStatus(None, at)), true)
  }

  function ApplySequence(s: State, e: Event): State {
    var ended := s.(scheduler := s.scheduler.(wait := s.scheduler.wait.ClearAt(e.time.instant)));
    match e.name
    case SequenceStarting => ended.(sequence := SequenceStatus(true, e.time.instant, None, None))
    case SequenceFinished =>
      if e.details.Some? && e.details.value.SequenceFinished? then
        var d := e.details.value;
        var failed := d.hadFailures || d.outcome == "failed" || d.outcome == "completed_with_failures";
        var failure := if failed && s.sequence.failure.None?
                       then Some(Failure("Sequence", "Sequence root", d.status)) else s.sequence.failure;
        ended.(sequence := s.sequence.(running := false, outcome := Some(d.outcome), failure := failure))
      else ended.(sequence := s.sequence.(running := false, outcome := None))
    case _ =>
      s.(sequence := s.sequence.(failure := Some(
        if e.details.Some? && e.details.value.SequenceEntityFailed?
        then Failure(e.details.value.entity, e.details.value.entityType, e.details.value.error)
        else Failure("Sequence item", "Unknown", "N.I.N.A. reported that the sequence item failed"))))
  }

  function ApplyDome(s: State, e: Event): State {
    match e.name
    case DomeConnected => s.(connections := s.connections.(dome := Some(true)), dome := NoDome())
    case DomeDisconnected => s.(connections := s.connections.(dome := Some(false)), dome := NoDome())
    case DomeShutterOpened => s.(dome := s.dome.(shutterOpen := Some(true)))
    case DomeShutterClosed => s.(dome := s.dome.(shutterOpen := Some(false)))
    case DomeHomed => s.(dome := s.dome.(homed := Some(true), parked := Some(false), azimuth := None))
    case DomeParked => s.(dome := s.dome.(parked := Some(true), homed := Some(false), azimuth := None))
    case DomeSynced => s.(dome := s.dome.(azimuth := None))
    case _ =>
      if e.details.Some? && e.details.value.DomeSlewed? then
        s.(dome := s.dome.(azimuth := Some(e.details.value.azimuth), parked := Some(false), homed := Some(false)))
      else s
  }

  function ApplyFlat(s: State, e: Event): State {
    match e.name
    case FlatConnected => s.(connections := s.connections.(flat := Some(true)), flat := NoFlat())
    case FlatDisconnected => s.(connections := s.connections.(flat := Some(false)), flat := NoFlat())
    case FlatCoverOpened => s.(flat := s.flat.(cover := Some("Open")))
    case FlatCoverClosed => s.(flat := s.flat.(cover := Some("Closed")))
    case FlatLightToggled =>
      s.(flat := s.flat.(lightOn :=
        if e.details.Some? && e.details.value.FlatLightToggled? then e.details.value.on else None))
    case _ =>
      if e.details.Some? && e.details.value.FlatBrightnessChanged? then
        s.(flat := s.flat.(brightness := Some(e.details.value.brightness)))
      else s
  }

  /** A new connection epoch keeps an active alert, which nothing has shown to be over, and nothing else. */
  function WeatherEpoch(s: State, connected: bool): State {
    s.(connections := s.connections.(weather := Some(connected)),
       weather := NoWeather(),
       highWind := if s.highWind.active == Some(true) then s.highWind else NoHighWind())
  }

  function ApplyWeather(s: State, e: Event): State {
    match e.name
    case WeatherConnected => WeatherEpoch(s, true)
    case WeatherDisconnected => WeatherEpoch(s, false)
    case WeatherChanged =>
      if e.details.Some? && e.details.value.WeatherChanged? then
        var c := e.details.value.conditions;
        s.(weather := if c.IsEmpty() then NoWeather() else WeatherStatus(Some(c), e.time.instant))
      else s
    case _ =>
      if e.details.Some? && e.details.value.WeatherHighWind? then
        var d := e.details.value;
        s.(highWind := HighWindStatus(
          Some(d.isHighWind),
          if d.conditions.IsEmpty() then None else Some(d.conditions),
          if d.conditions.IsEmpty() then None else e.time.instant,
          d.threshold))
      else s
  }

  predicate IsSequenceEvent(name: EventName) {
    name.SequenceStarting? || name.SequenceFinished? || name.SequenceEntityFailed?
  }

  predicate IsDomeEvent(name: EventName) {
    || name.DomeConnected? || name.DomeDisconnected? || name.DomeShutterOpened? || name.DomeShutterClosed?
    || name.DomeHomed? || name.DomeParked? || name.DomeSynced? || name.DomeSlewed?
  }

  predicate IsFlatEvent(name: EventName) {
    || name.FlatConnected? || name.FlatDisconnected? || name.FlatCoverOpened? || name.FlatCoverClosed?
    || name.FlatLightToggled? || name.FlatBrightnessChanged?
  }

  predicate IsWeatherEvent(name: EventName) {
    name.WeatherConnected? || name.WeatherDisconnected? || name.WeatherChanged? || name.WeatherHighWind?
  }

  function ApplyScheduler(s: State, e: Event): (State, bool) {
    match e.name
    case TsWaitstart =>
      var plan := if e.details.Some? && e.details.value.WaitStart? then e.details.value.waitEnd.instant else None;
      var (wait, ok) := s.scheduler.wait.Record(e.time.instant, plan);
      (s.(scheduler := s.scheduler.(wait := wait)), ok)
    case TsTargetstart | TsNewtargetstart =>
      (s.(scheduler := s.scheduler.(wait := s.scheduler.wait.ClearAt(e.time.instant))), true)
    case _ => (s, true)
  }

  function ApplyOther(s: State, e: Event, now: int): State {
    match e.name
    case MountParked | MountUnparked | MountHomed | MountSlewed => s.(mount := s.mount.(lastEvent := Some(e.name)))
    case MountCenter => s.(mount := MountStatus(Some(e.name), Some(now)))
    case GuiderStart | GuiderStop => s.(guiding := Some(e.name))
    case SafetyConnected => s.(safety := ConnectedUnknown)
    case SafetyDisconnected => s.(safety := Disconnected)
    case SafetyChanged =>
      if e.details.Some? && e.details.value.SafetyChanged?
      then s.(safety := if e.details.value.isSafe then Safe else Unsafe) else s
    case SwitchConnected => s.(connections := s.connections.(switch := Some(true)))
    case SwitchDisconnected => s.(connections := s.connections.(switch := Some(false)))
    case _ => s
  }

  /** The effect of an enabled event, and whether it counts as applied. `now` is the wall clock. */
  function Apply(s: State, e: Event, now: int): (State, bool) {
    if !HasUsableDetails(e) then (s, false)
    else if e.name.TsWaitstart? || e.name.TsTargetstart? || e.name.TsNewtargetstart? then ApplyScheduler(s, e)
    else if e.name.FocuserConnected? || e.name.FocuserDisconnected? || e.name.FocuserMoved? then ApplyFocuser(s, e)
    else if IsSequenceEvent(e.name) then (ApplySequence(s, e), true)
    else if IsDomeEvent(e.name) then (ApplyDome(s, e), true)
    else if IsFlatEvent(e.name) then (ApplyFlat(s, e), true)
    else if IsWeatherEvent(e.name) then (ApplyWeather(s, e), true)
    else (ApplyOther(s, e, now), true)
  }

  // ----- ownership -----

  /** Nothing owned by `scope` is known. Ordering watermarks are not content. */
  predicate Blank(s: State, scope: Scope) {
    match scope
    case TargetScheduler => s.scheduler.target == None && s.scheduler.wait.end == None
    case FilterFocuserRotator => s.filter == None
    case FocuserMotion => s.focuser.observation == None
    case Mount => s.mount == MountStatus(None, None)
    case Guiding => s.guiding == None
    case Sequence => s.sequence == NoSequence() && s.summaries == []
    case Safety => s.safety == Unknown
    case WeatherChanges => s.weather == NoWeather()
    case HighWindAlerts => s.highWind == NoHighWind()
    case Autofocus => s.autofocus == []
    case Observatory => s.dome == NoDome() && s.flat == NoFlat()
    case EquipmentConnections => s.connections == NoConnections()
    case _ => true
  }

  /** Everything owned by `scope` is the same, watermarks included. */
  predicate SamePart(s: State, t: State, scope: Scope) {
    match scope
    case TargetScheduler => s.scheduler == t.scheduler
    case FilterFocuserRotator => s.filter == t.filter
    case FocuserMotion => s.focuser == t.focuser
    case Mount => s.mount == t.mount
    case Guiding => s.guiding == t.guiding
    case Sequence => s.sequence == t.sequence && s.summaries == t.summaries
    case Safety => s.safety == t.safety
    case WeatherChanges => s.weather == t.weather
    case HighWindAlerts => s.highWind == t.highWind
    case Autofocus => s.autofocus == t.autofocus
    case Observatory => s.dome == t.dome && s.flat == t.flat
    case EquipmentConnections => s.connections == t.connections
    case _ => true
  }

  /** A value is kept or forgotten, never replaced. */
  predicate KeptOrForgotten<T(==)>(before: T, after: T, nothing: T) {
    after == before || after == nothing
  }

  /** From `s` to `t` only the content of `owner` may grow; the rest is kept or forgotten. */
  predicate OnlyGrows(s: State, t: State, owner: Scope) {
    && (owner.TargetScheduler? || (t.scheduler.target == s.scheduler.target
                                   && KeptOrForgotten(s.scheduler.wait.end, t.scheduler.wait.end, None)))
    && (owner.FilterFocuserRotator? || t.filter == s.filter)
    && (owner.FocuserMotion? || KeptOrForgotten(s.focuser.observation, t.focuser.observation, None))
    && (owner.Mount? || t.mount == s.mount)
    && (owner.Guiding? || t.guiding == s.guiding)
    && (owner.Sequence? || t.sequence == s.sequence)
    && (owner.Safety? || t.safety == s.safety)
    && (owner.WeatherChanges? || KeptOrForgotten(s.weather, t.weather, NoWeather()))
    && (owner.HighWindAlerts? || KeptOrForgotten(s.highWind, t.highWind, NoHighWind()))
    && (owner.Observatory? || (KeptOrForgotten(s.dome, t.dome, NoDome()) && KeptOrForgotten(s.flat, t.flat, NoFlat())))
    && (owner.EquipmentConnections? || t.connections == s.connections)
    && (owner.Autofocus? || t.autofocus == s.autofocus)
    && (t.summaries == s.summaries || (owner.Sequence? && |t.summaries| <= MAX_SUMMARIES))
  }

  /**
  A marker blanks its own scope and leaves every other scope exactly as it was, with one
  exception: an image marker takes the queued image summaries of the sequence scope along.
  */
  lemma RevokeIsLocal(s: State, scope: Scope, at: Option<int>, other: Scope)
    ensures Blank(Revoke(s, scope, at), scope)
    ensures other != scope && !(scope.Images? && other.Sequence?) ==> SamePart(s, Revoke(s, scope, at), other)
    ensures scope.Images? ==> Revoke(s, scope, at) == s.(summaries := [])
  {
  }

  lemma SequenceIsOwned(s: State, e: Event)
    requires IsSequenceEvent(e.name)
    ensures OnlyGrows(s, ApplySequence(s, e), ScopeOf(e.name))
  {
    SequenceGrows(s, e);
  }

  lemma SequenceGrows(s: State, e: Event)
    ensures OnlyGrows(s, ApplySequence(s, e), Sequence)
  {
  }

  lemma DomeIsOwned(s: State, e: Event)
    requires IsDomeEvent(e.name)
    ensures OnlyGrows(s, ApplyDome(s, e), ScopeOf(e.name))
  {
    if e.name.DomeConnected? || e.name.DomeDisconnected? {
      assert ScopeOf(e.name) == EquipmentConnections;
    } else {
      DomeGrows(s, e);
    }
  }

  lemma DomeGrows(s: State, e: Event)
    requires !e.name.DomeConnected? && !e.name.DomeDisconnected?
    ensures OnlyGrows(s, ApplyDome(s, e), Observatory)
  {
  }

  lemma FlatIsOwned(s: State, e: Event)
    requires IsFlatEvent(e.name)
    ensures OnlyGrows(s, ApplyFlat(s, e), ScopeOf(e.name))
  {
  }

  lemma WeatherIsOwned(s: State, e: Event)
    requires IsWeatherEvent(e.name)
    ensures OnlyGrows(s, ApplyWeather(s, e), ScopeOf(e.name))
  {
  }

  lemma SchedulerIsOwned(s: State, e: Event)
    requires e.name.TsWaitstart? || e.name.TsTargetstart? || e.name.TsNewtargetstart?
    ensures OnlyGrows(s, ApplyScheduler(s, e).0, ScopeOf(e.name))
  {
  }

  lemma FocuserIsOwned(s: State, e: Event)
    requires e.name.FocuserConnected? || e.name.FocuserDisconnected? || e.name.FocuserMoved?
    ensures OnlyGrows(s, ApplyFocuser(s, e).0, ScopeOf(e.name))
  {
  }

  lemma OthersAreOwned(s: State, e: Event, now: int)
    ensures OnlyGrows(s, ApplyOther(s, e, now), ScopeOf(e.name))
  {
  }

  /** An enabled event brings content to its own scope only; elsewhere it can at most take some away. */
  lemma ApplyIsOwned(s: State, e: Event, now: int)
    ensures OnlyGrows(s, Apply(s, e, now).0, ScopeOf(e.name))
  {
    if e.name.TsWaitstart? || e.name.TsTargetstart? || e.name.TsNewtargetstart? {
      SchedulerIsOwned(s, e);
    } else if e.name.FocuserConnected? || e.name.FocuserDisconnected? || e.name.FocuserMoved? {
      FocuserIsOwned(s, e);
    } else if IsSequenceEvent(e.name) {
      SequenceIsOwned(s, e);
    } else if IsDomeEvent(e.name) {
      DomeIsOwned(s, e);
    } else if IsFlatEvent(e.name) {
      FlatIsOwned(s, e);
    } else if IsWeatherEvent(e.name) {
      WeatherIsOwned(s, e);
    } else {
      OthersAreOwned(s, e, now);
    }
  }

  /** Losing content never makes a blank scope known. */
  lemma GrowthElsewhereKeepsBlank(s: State, t: State, owner: Scope, scope: Scope)
    requires OnlyGrows(s, t, owner) && scope != owner && Blank(s, scope)
    ensures Blank(t, scope)
  {
  }
}
