/** Which events are diagnostics, and what makes two of them the same one. */
module Diagnostics {
  import opened Wrappers
  import opened Text
  import opened EventNames
  import opened Events

  datatype Class = Error | Log

  /**
  What is hashed: the name and the details, never the timestamp. Hashing is taken as
  injective. The class is a function of the other two fields and is carried for reading.
  */
  datatype Fingerprint = Fingerprint(name: EventName, details: Option<Details>, category: Class)

  function DiagnosticClass(e: Event): Option<Class> {
    var name := WireText(e.name);
    if !e.chatEnabled || name == "CHATSTRONOMY-COMMAND-FAILED" then None
    else if StartsWith(name, "ERROR-") || EndsWith(name, "-FAILED") || EndsWith(name, "-TIMEOUT") then Some(Error)
    else if name == "NINA-LOG" || name == "NINA-NOTIFICATION" then
      var level :=
        if e.details.Some? && (e.details.value.NinaLog? || e.details.value.NinaNotification?)
        then AsciiUpper(Trim(e.details.value.level)) else "";
      Some(if level in ["WARN", "WARNING", "ERROR", "FATAL", "CRITICAL"] then Error else Log)
    else None
  }

  /** The fingerprint of a diagnostic; anything else is never limited. */
  function DiagnosticOf(e: Event): Option<Fingerprint> {
    var category := DiagnosticClass(e);
    if category.None? then None else Some(Fingerprint(e.name, e.details, category.value))
  }
}
