/**
Event names and the local delivery switch ("scope") that governs each of them.

An event carries the listed name its wire text matches, or `Unlisted` when none does.
`DeliveryScope` is the prefix and suffix cascade on the wire text, and `ScopeOf` the table
it amounts to on the listed names.
*/
module EventNames {
  import opened Text

  datatype Scope =
    | Images | Autofocus | Guiding | Mount | SlewMotion | Sequence | Safety | WeatherChanges | HighWindAlerts
    | TargetScheduler | FilterFocuserRotator | FocuserMotion | RotatorMotion | EquipmentConnections | Observatory
    | CommandFailures | NinaNotifications | NinaLogs | Other

  datatype EventName =
    | CameraDisconnected | CameraConnected | CameraDownloadTimeout
    | FilterwheelDisconnected | FilterwheelConnected | FilterwheelChanged
    | MountDisconnected | MountConnected | MountUnparked | MountParked | MountBeforeFlip | MountAfterFlip | MountHomed | MountCenter | MountSlewStarted | MountSlewed
    | FocuserDisconnected | FocuserConnected | FocuserUserFocused | FocuserMoved
    | RotatorDisconnected | RotatorConnected | RotatorMoveStarted | RotatorMoved | RotatorMovedMechanical | RotatorSynced
    | GuiderConnected | GuiderDisconnected | GuiderStart | GuiderStop | GuiderDither
    | FlatConnected | FlatDisconnected | FlatBrightnessChanged | FlatLightToggled | FlatCoverOpened | FlatCoverClosed
    | WeatherConnected | WeatherDisconnected | WeatherChanged | WeatherHighWind
    | SwitchConnected | SwitchDisconnected
    | DomeConnected | DomeDisconnected | DomeShutterOpened | DomeShutterClosed | DomeHomed | DomeParked | DomeSlewed | DomeSynced
    | SafetyConnected | SafetyDisconnected | SafetyChanged
    | ImageSave | ImageSaveFailed | ImagePrepared
    | ApiCaptureFinished
    | AutofocusStarting | AutofocusFinished | AutofocusPointAdded
    | ErrorAf | ErrorPlatesolve
    | SequenceStarting | SequenceFinished | SequenceEntityFailed
    | TsTargetstart | TsNewtargetstart | TsWaitstart
    | NinaNotification | NinaLog
    | ChatstronomyCommandFailed
    | Unlisted(text: string)

  /** What an event is about, with the dash that follows it. */
  function Prefix(name: EventName): string {
    match name
    case CameraDisconnected | CameraConnected | CameraDownloadTimeout => "CAMERA-"
    case FilterwheelDisconnected | FilterwheelConnected | FilterwheelChanged => "FILTERWHEEL-"
    case MountDisconnected | MountConnected | MountUnparked | MountParked | MountBeforeFlip | MountAfterFlip
       | MountHomed | MountCenter | MountSlewStarted | MountSlewed => "MOUNT-"
    case FocuserDisconnected | FocuserConnected | FocuserUserFocused | FocuserMoved => "FOCUSER-"
    case RotatorDisconnected | RotatorConnected | RotatorMoveStarted | RotatorMoved | RotatorMovedMechanical
       | RotatorSynced => "ROTATOR-"
    case GuiderConnected | GuiderDisconnected | GuiderStart | GuiderStop | GuiderDither => "GUIDER-"
    case FlatConnected | FlatDisconnected | FlatBrightnessChanged | FlatLightToggled | FlatCoverOpened
       | FlatCoverClosed => "FLAT-"
    case WeatherConnected | WeatherDisconnected | WeatherChanged | WeatherHighWind => "WEATHER-"
    case SwitchConnected | SwitchDisconnected => "SWITCH-"
    case DomeConnected | DomeDisconnected | DomeShutterOpened | DomeShutterClosed | DomeHomed | DomeParked
       | DomeSlewed | DomeSynced => "DOME-"
    case SafetyConnected | SafetyDisconnected | SafetyChanged => "SAFETY-"
    case ImageSave | ImageSaveFailed | ImagePrepared => "IMAGE-"
    case ApiCaptureFinished => "API-"
    case AutofocusStarting | AutofocusFinished | AutofocusPointAdded => "AUTOFOCUS-"
    case ErrorAf | ErrorPlatesolve => "ERROR-"
    case SequenceStarting | SequenceFinished | SequenceEntityFailed => "SEQUENCE-"
    case TsTargetstart | TsNewtargetstart | TsWaitstart => "TS-"
    case NinaNotification | NinaLog => "NINA-"
    case ChatstronomyCommandFailed => "CHATSTRONOMY-"
    case Unlisted(_) => ""
  }

  /** What happened. */
  function Verb(name: EventName): string {
    match name
    case CameraDisconnected | FilterwheelDisconnected | MountDisconnected | FocuserDisconnected
       | RotatorDisconnected | GuiderDisconnected | FlatDisconnected | WeatherDisconnected
       | SwitchDisconnected | DomeDisconnected | SafetyDisconnected => "DISCONNECTED"
    case CameraConnected | FilterwheelConnected | MountConnected | FocuserConnected | RotatorConnected
       | GuiderConnected | FlatConnected | WeatherConnected | SwitchConnected | DomeConnected
       | SafetyConnected => "CONNECTED"
    case CameraDownloadTimeout => "DOWNLOAD-TIMEOUT"
    case FilterwheelChanged | WeatherChanged | SafetyChanged => "CHANGED"
    case MountUnparked => "UNPARKED"
    case MountParked | DomeParked => "PARKED"
    case MountBeforeFlip => "BEFORE-FLIP"
    case MountAfterFlip => "AFTER-FLIP"
    case MountHomed | DomeHomed => "HOMED"
    case MountCenter => "CENTER"
    case MountSlewStarted => "SLEW-STARTED"
    case MountSlewed | DomeSlewed => "SLEWED"
    case FocuserUserFocused => "USER-FOCUSED"
    case FocuserMoved | RotatorMoved => "MOVED"
    case RotatorMoveStarted => "MOVE-STARTED"
    case RotatorMovedMechanical => "MOVED-MECHANICAL"
    case RotatorSynced | DomeSynced => "SYNCED"
    case GuiderStart => "START"
    case GuiderStop => "STOP"
    case GuiderDither => "DITHER"
    case FlatBrightnessChanged => "BRIGHTNESS-CHANGED"
    case FlatLightToggled => "LIGHT-TOGGLED"
    case FlatCoverOpened => "COVER-OPENED"
    case FlatCoverClosed => "COVER-CLOSED"
    case WeatherHighWind => "HIGH-WIND"
    case DomeShutterOpened => "SHUTTER-OPENED"
    case DomeShutterClosed => "SHUTTER-CLOSED"
    case ImageSave => "SAVE"
    case ImageSaveFailed => "SAVE-FAILED"
    case ImagePrepared => "PREPARED"
    case ApiCaptureFinished => "CAPTURE-FINISHED"
    case AutofocusStarting | SequenceStarting => "STARTING"
    case AutofocusFinished | SequenceFinished => "FINISHED"
    case AutofocusPointAdded => "POINT-ADDED"
    case ErrorAf => "AF"
    case ErrorPlatesolve => "PLATESOLVE"
    case SequenceEntityFailed => "ENTITY-FAILED"
    case TsTargetstart => "TARGETSTART"
    case TsNewtargetstart => "NEWTARGETSTART"
    case TsWaitstart => "WAITSTART"
    case NinaNotification => "NOTIFICATION"
    case NinaLog => "LOG"
    case ChatstronomyCommandFailed => "COMMAND-FAILED"
    case Unlisted(text) => text
  }

  function WireText(name: EventName): string {
    Prefix(name) + Verb(name)
  }

  function DeliveryScope(event: string): Scope {
    if event == "NINA-NOTIFICATION" then NinaNotifications
    else if event == "NINA-LOG" then NinaLogs
    else if StartsWith(event, "TS-") then TargetScheduler
    else if StartsWith(event, "SEQUENCE-") then Sequence
    else if StartsWith(event, "SAFETY-") then Safety
    else if event == "WEATHER-CHANGED" then WeatherChanges
    else if event == "WEATHER-HIGH-WIND" then HighWindAlerts
    else if event == "CHATSTRONOMY-COMMAND-FAILED" then CommandFailures
    else if StartsWith(event, "IMAGE-") || event == "API-CAPTURE-FINISHED" || event == "CAMERA-DOWNLOAD-TIMEOUT" then Images
    else if StartsWith(event, "AUTOFOCUS-") || event == "ERROR-AF" then Autofocus
    else if EndsWith(event, "-CONNECTED") || EndsWith(event, "-DISCONNECTED") then EquipmentConnections
    else if StartsWith(event, "GUIDER-") then Guiding
    else if event == "MOUNT-SLEW-STARTED" then SlewMotion
    else if event == "ROTATOR-MOVE-STARTED" then RotatorMotion
    else if event == "FOCUSER-MOVED" then FocuserMotion
    else if StartsWith(event, "MOUNT-") || event == "ERROR-PLATESOLVE" then Mount
    else if StartsWith(event, "FILTERWHEEL-") || StartsWith(event, "ROTATOR-") || StartsWith(event, "FOCUSER-") then FilterFocuserRotator
    else if StartsWith(event, "DOME-") || StartsWith(event, "FLAT-") then Observatory
    else Other
  }

  /** The scope table: one row per listed name, the cascade for everything else. */
  function ScopeOf(name: EventName): Scope {
    match name
    case CameraDisconnected | CameraConnected | FilterwheelDisconnected | FilterwheelConnected | MountDisconnected | MountConnected => EquipmentConnections
    case FocuserDisconnected | FocuserConnected | RotatorDisconnected | RotatorConnected | GuiderConnected | GuiderDisconnected => EquipmentConnections
    case FlatConnected | FlatDisconnected | WeatherConnected | WeatherDisconnected | SwitchConnected | SwitchDisconnected => EquipmentConnections
    case DomeConnected | DomeDisconnected => EquipmentConnections
    case CameraDownloadTimeout | ImageSave | ImageSaveFailed | ImagePrepared | ApiCaptureFinished => Images
    case FilterwheelChanged | FocuserUserFocused | RotatorMoved | RotatorMovedMechanical | RotatorSynced => FilterFocuserRotator
    case MountUnparked | MountParked | MountBeforeFlip | MountAfterFlip | MountHomed | MountCenter => Mount
    case MountSlewed | ErrorPlatesolve => Mount
    case MountSlewStarted => SlewMotion
    case FocuserMoved => FocuserMotion
    case RotatorMoveStarted => RotatorMotion
    case GuiderStart | GuiderStop | GuiderDither => Guiding
    case FlatBrightnessChanged | FlatLightToggled | FlatCoverOpened | FlatCoverClosed | DomeShutterOpened | DomeShutterClosed => Observatory
    case DomeHomed | DomeParked | DomeSlewed | DomeSynced => Observatory
    case WeatherChanged => WeatherChanges
    case WeatherHighWind => HighWindAlerts
    case SafetyConnected | SafetyDisconnected | SafetyChanged => Safety
    case AutofocusStarting | AutofocusFinished | AutofocusPointAdded | ErrorAf => Autofocus
    case SequenceStarting | SequenceFinished | SequenceEntityFailed => Sequence
    case TsTargetstart | TsNewtargetstart | TsWaitstart => TargetScheduler
    case NinaNotification => NinaNotifications
    case NinaLog => NinaLogs
    case ChatstronomyCommandFailed => CommandFailures
    case Unlisted(text) => DeliveryScope(text)
  }
}
