/** The history records both sides exchange, reduced to what the updater branches on. */
module Events {
  import opened Wrappers
  import opened Text
  import opened EventNames

  /** A wire timestamp: its text and, when the text parses, the instant it names. */
  datatype Stamp = Stamp(text: string, instant: Option<int>)

  datatype Filter = Filter(name: string, id: int) {
    predicate IsUnknown() { name == "" || id < 0 }
  }

  /** Weather readings; only the two wind sensors are ever singled out. */
  datatype Conditions = Conditions(windSpeed: Option<real>, windGust: Option<real>, others: map<string, real>) {
    predicate IsEmpty() { windSpeed.None? && windGust.None? && others == map[] }
    predicate HasWindReading() { windSpeed.Some? || windGust.Some? }
  }

  datatype Details =
    | NinaLog(level: string, body: string)
    | NinaNotification(level: string, body: string)
    | FilterWheelChange(newFilter: Filter, previousFilter: Filter)
    | TargetStart(target: string, endsAt: Option<Stamp>, body: string)
    | WaitStart(waitEnd: Stamp)
    | AutofocusFinished(report: Stamp)
    | SafetyChanged(isSafe: bool)
    | WeatherChanged(conditions: Conditions)
    | WeatherHighWind(isHighWind: bool, threshold: Option<real>, conditions: Conditions)
    | FocuserMoved(to: int, temperature: Option<real>)
    | DomeSlewed(azimuth: real)
    | FlatLightToggled(on: Option<bool>)
    | FlatBrightnessChanged(brightness: int)
    | SequenceFinished(outcome: string, status: string, hadFailures: bool)
    | SequenceEntityFailed(entity: string, entityType: string, error: string)
    | OtherDetails(body: string)

  datatype Event = Event(time: Stamp, name: EventName, chatEnabled: bool, details: Option<Details>)

  /** Log-level aliases share one spelling, so they share one accounting slot. */
  function NormalizeLogLevel(level: Option<string>): string {
    var normalized := AsciiUpper(Take(Trim(if level.Some? then level.value else ""), 16));
    if normalized == "INFO" then "INFORMATION"
    else if normalized == "WARN" then "WARNING"
    else if normalized == "FATAL" || normalized == "CRITICAL" then "ERROR"
    else if normalized == "VERBOSE" then "TRACE"
    else normalized
  }

  /** Events that drive durable state must carry the details that state is made of. */
  predicate HasUsableDetails(e: Event) {
    match e.name
    case FocuserMoved => e.details.Some? && e.details.value.FocuserMoved? && e.details.value.to >= 0
    case WeatherChanged => e.details.Some? && e.details.value.WeatherChanged? && !e.details.value.conditions.IsEmpty()
    case WeatherHighWind =>
      e.details.Some? && e.details.value.WeatherHighWind? && e.details.value.conditions.HasWindReading()
    case _ => true
  }
}
