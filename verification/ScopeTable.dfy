/**
The scope table is the cascade. Each prefix has one lemma about every text that carries it; a
listed name then needs only its prefix and whether its verb is a connection.
*/
module ScopeTable {
  import opened Text
  import opened EventNames

  /** Texts that differ in some position are not equal, nor is one the start of the other. */
  lemma Differ(s: string, head: string, i: nat)
    requires i < |s| && i < |head| && s[i] != head[i]
    ensures s != head && !StartsWith(s, head)
  {
  }

  predicate Connection(s: string) {
    EndsWith(s, "-CONNECTED") || EndsWith(s, "-DISCONNECTED")
  }

  lemma OwnPrefix(p: string, v: string)
    ensures StartsWith(p + v, p)
  {
  }

  lemma ConnectionVerb(p: string, v: string)
    requires p != "" && p[|p| - 1] == '-' && (v == "CONNECTED" || v == "DISCONNECTED")
    ensures Connection(p + v)
  {
    var s := p + v;
    if v == "CONNECTED" {
      assert s[|s| - 10..] == "-CONNECTED";
    } else {
      assert s[|s| - 13..] == "-DISCONNECTED";
    }
  }

  lemma OtherVerb(p: string, v: string, w: string, i: nat)
    requires |v| == |w| ==> i < |v| && v[i] != w[i]
    ensures p + v != p + w
  {
    if |v| == |w| {
      assert (p + v)[|p| + i] == v[i] && (p + w)[|p| + i] == w[i];
    } else {
      assert |p + v| != |p + w|;
    }
  }

  /** Both endings close with CTED. */
  predicate Plain(v: string) {
    |v| >= 4 && (v[|v| - 3] != 'T' || v[|v| - 4] != 'C')
  }

  lemma PlainVerb(p: string, v: string)
    requires Plain(v)
    ensures !Connection(p + v)
  {
    var s := p + v;
    assert s[|s| - 3] == v[|v| - 3] && s[|s| - 4] == v[|v| - 4];
    assert |s| >= 10 ==> s[|s| - 10..][7] == s[|s| - 3] && s[|s| - 10..][6] == s[|s| - 4];
    assert |s| >= 13 ==> s[|s| - 13..][10] == s[|s| - 3] && s[|s| - 13..][9] == s[|s| - 4];
  }

  /** A text starts as its prefix does. */
  lemma Head(s: string, prefix: string, i: nat)
    requires StartsWith(s, prefix) && i < |prefix|
    ensures |s| >= |prefix| && s[i] == prefix[i]
  {
  }

  // ----- the arms other initials skip -----

  /** An arm is skipped by every text with another initial. */
  lemma EarlyInitials(s: string)
    requires s != ""
    ensures s[0] != 'N' ==> s != "NINA-NOTIFICATION" && s != "NINA-LOG"
    ensures s[0] != 'T' ==> !StartsWith(s, "TS-")
    ensures s[0] != 'S' ==> !StartsWith(s, "SEQUENCE-") && !StartsWith(s, "SAFETY-")
    ensures s[0] != 'W' ==> s != "WEATHER-CHANGED" && s != "WEATHER-HIGH-WIND"
    ensures s[0] != 'C' ==> s != "CHATSTRONOMY-COMMAND-FAILED" && s != "CAMERA-DOWNLOAD-TIMEOUT"
    ensures s[0] != 'I' ==> !StartsWith(s, "IMAGE-")
    ensures s[0] != 'A' ==> s != "API-CAPTURE-FINISHED" && !StartsWith(s, "AUTOFOCUS-")
  {
    if s[0] != 'N' { Differ(s, "NINA-NOTIFICATION", 0); Differ(s, "NINA-LOG", 0); }
    if s[0] != 'T' { Differ(s, "TS-", 0); }
    if s[0] != 'S' { Differ(s, "SEQUENCE-", 0); Differ(s, "SAFETY-", 0); }
    if s[0] != 'W' { Differ(s, "WEATHER-CHANGED", 0); Differ(s, "WEATHER-HIGH-WIND", 0); }
    if s[0] != 'C' { Differ(s, "CHATSTRONOMY-COMMAND-FAILED", 0); Differ(s, "CAMERA-DOWNLOAD-TIMEOUT", 0); }
    if s[0] != 'I' { Differ(s, "IMAGE-", 0); }
    if s[0] != 'A' { Differ(s, "API-CAPTURE-FINISHED", 0); Differ(s, "AUTOFOCUS-", 0); }
  }

  /** The remaining arms. */
  lemma LateInitials(s: string)
    requires s != ""
    ensures s[0] != 'E' ==> s != "ERROR-AF" && s != "ERROR-PLATESOLVE"
    ensures s[0] != 'G' ==> !StartsWith(s, "GUIDER-")
    ensures s[0] != 'M' ==> s != "MOUNT-SLEW-STARTED" && !StartsWith(s, "MOUNT-")
    ensures s[0] != 'R' ==> s != "ROTATOR-MOVE-STARTED" && !StartsWith(s, "ROTATOR-")
    ensures s[0] != 'F' ==> s != "FOCUSER-MOVED" && !StartsWith(s, "FILTERWHEEL-")
    ensures s[0] != 'F' ==> !StartsWith(s, "FOCUSER-") && !StartsWith(s, "FLAT-")
    ensures s[0] != 'D' ==> !StartsWith(s, "DOME-")
  {
    if s[0] != 'E' { Differ(s, "ERROR-AF", 0); Differ(s, "ERROR-PLATESOLVE", 0); }
    if s[0] != 'G' { Differ(s, "GUIDER-", 0); }
    if s[0] != 'M' { Differ(s, "MOUNT-SLEW-STARTED", 0); Differ(s, "MOUNT-", 0); }
    if s[0] != 'R' { Differ(s, "ROTATOR-MOVE-STARTED", 0); Differ(s, "ROTATOR-", 0); }
    if s[0] != 'F' {
      Differ(s, "FOCUSER-MOVED", 0);
      Differ(s, "FILTERWHEEL-", 0);
      Differ(s, "FOCUSER-", 0);
      Differ(s, "FLAT-", 0);
    }
    if s[0] != 'D' { Differ(s, "DOME-", 0); }
  }

  // ----- one lemma per prefix -----

  lemma MountPrefix(s: string)
    requires StartsWith(s, "MOUNT-")
    ensures DeliveryScope(s) ==
      if Connection(s) then EquipmentConnections
      else if s == "MOUNT-SLEW-STARTED" then SlewMotion else Mount
  {
    Head(s, "MOUNT-", 0);
    EarlyInitials(s);
    LateInitials(s);
  }

  lemma RotatorPrefix(s: string)
    requires StartsWith(s, "ROTATOR-")
    ensures DeliveryScope(s) ==
      if Connection(s) then EquipmentConnections
      else if s == "ROTATOR-MOVE-STARTED" then RotatorMotion else FilterFocuserRotator
  {
    Head(s, "ROTATOR-", 0);
    EarlyInitials(s);
    LateInitials(s);
  }

  lemma FocuserPrefix(s: string)
    requires StartsWith(s, "FOCUSER-")
    ensures DeliveryScope(s) ==
      if Connection(s) then EquipmentConnections
      else if s == "FOCUSER-MOVED" then FocuserMotion else FilterFocuserRotator
  {
    Head(s, "FOCUSER-", 0);
    EarlyInitials(s);
    LateInitials(s);
  }

  lemma FilterwheelPrefix(s: string)
    requires StartsWith(s, "FILTERWHEEL-")
    ensures DeliveryScope(s) ==
      if Connection(s) then EquipmentConnections else FilterFocuserRotator
  {
    Head(s, "FILTERWHEEL-", 0);
    EarlyInitials(s);
    LateInitials(s);
    Head(s, "FILTERWHEEL-", 1);
    Differ(s, "FOCUSER-MOVED", 1);
  }

  lemma GuiderPrefix(s: string)
    requires StartsWith(s, "GUIDER-")
    ensures DeliveryScope(s) ==
      if Connection(s) then EquipmentConnections else Guiding
  {
    Head(s, "GUIDER-", 0);
    EarlyInitials(s);
    LateInitials(s);
  }

  lemma DomePrefix(s: string)
    requires StartsWith(s, "DOME-")
    ensures DeliveryScope(s) ==
      if Connection(s) then EquipmentConnections else Observatory
  {
    Head(s, "DOME-", 0);
    EarlyInitials(s);
    LateInitials(s);
  }

  lemma FlatPrefix(s: string)
    requires StartsWith(s, "FLAT-")
    ensures DeliveryScope(s) ==
      if Connection(s) then EquipmentConnections else Observatory
  {
    Head(s, "FLAT-", 0);
    EarlyInitials(s);
    LateInitials(s);
    Head(s, "FLAT-", 1);
    Differ(s, "FILTERWHEEL-", 1);
    Differ(s, "FOCUSER-", 1);
    Differ(s, "FOCUSER-MOVED", 1);
  }

  lemma SwitchPrefix(s: string)
    requires StartsWith(s, "SWITCH-")
    ensures DeliveryScope(s) ==
      if Connection(s) then EquipmentConnections else Other
  {
    Head(s, "SWITCH-", 0);
    EarlyInitials(s);
    LateInitials(s);
    Head(s, "SWITCH-", 1);
    Differ(s, "SEQUENCE-", 1);
    Differ(s, "SAFETY-", 1);
  }

  lemma WeatherPrefix(s: string)
    requires StartsWith(s, "WEATHER-")
    ensures DeliveryScope(s) ==
      if s == "WEATHER-CHANGED" then WeatherChanges
      else if s == "WEATHER-HIGH-WIND" then HighWindAlerts else if Connection(s) then EquipmentConnections else Other
  {
    Head(s, "WEATHER-", 0);
    EarlyInitials(s);
    LateInitials(s);
  }

  lemma CameraPrefix(s: string)
    requires StartsWith(s, "CAMERA-")
    ensures DeliveryScope(s) ==
      if s == "CAMERA-DOWNLOAD-TIMEOUT" then Images
      else if Connection(s) then EquipmentConnections else Other
  {
    Head(s, "CAMERA-", 0);
    EarlyInitials(s);
    LateInitials(s);
    Head(s, "CAMERA-", 1);
    Differ(s, "CHATSTRONOMY-COMMAND-FAILED", 1);
  }

  lemma TsPrefix(s: string)
    requires StartsWith(s, "TS-")
    ensures DeliveryScope(s) ==
      TargetScheduler
  {
    Head(s, "TS-", 0);
    EarlyInitials(s);
    LateInitials(s);
  }

  lemma SequencePrefix(s: string)
    requires StartsWith(s, "SEQUENCE-")
    ensures DeliveryScope(s) ==
      Sequence
  {
    Head(s, "SEQUENCE-", 0);
    EarlyInitials(s);
    LateInitials(s);
  }

  lemma SafetyPrefix(s: string)
    requires StartsWith(s, "SAFETY-")
    ensures DeliveryScope(s) ==
      Safety
  {
    Head(s, "SAFETY-", 0);
    EarlyInitials(s);
    LateInitials(s);
    Head(s, "SAFETY-", 1);
    Differ(s, "SEQUENCE-", 1);
  }

  lemma ImagePrefix(s: string)
    requires StartsWith(s, "IMAGE-")
    ensures DeliveryScope(s) ==
      Images
  {
    Head(s, "IMAGE-", 0);
    EarlyInitials(s);
    LateInitials(s);
  }

  lemma AutofocusPrefix(s: string)
    requires StartsWith(s, "AUTOFOCUS-")
    ensures DeliveryScope(s) ==
      Autofocus
  {
    Head(s, "AUTOFOCUS-", 0);
    EarlyInitials(s);
    LateInitials(s);
    Head(s, "AUTOFOCUS-", 1);
    Differ(s, "API-CAPTURE-FINISHED", 1);
  }

  lemma ErrorPrefix(s: string)
    requires StartsWith(s, "ERROR-")
    ensures DeliveryScope(s) ==
      if s == "ERROR-AF" then Autofocus else if Connection(s) then EquipmentConnections
      else if s == "ERROR-PLATESOLVE" then Mount else Other
  {
    Head(s, "ERROR-", 0);
    EarlyInitials(s);
    LateInitials(s);
  }

  lemma NinaPrefix(s: string)
    requires StartsWith(s, "NINA-")
    ensures DeliveryScope(s) ==
      if s == "NINA-NOTIFICATION" then NinaNotifications
      else if s == "NINA-LOG" then NinaLogs else if Connection(s) then EquipmentConnections else Other
  {
    Head(s, "NINA-", 0);
    EarlyInitials(s);
    LateInitials(s);
  }

  lemma ApiPrefix(s: string)
    requires StartsWith(s, "API-")
    ensures DeliveryScope(s) ==
      if s == "API-CAPTURE-FINISHED" then Images
      else if Connection(s) then EquipmentConnections else Other
  {
    Head(s, "API-", 0);
    EarlyInitials(s);
    LateInitials(s);
    Head(s, "API-", 1);
    Differ(s, "AUTOFOCUS-", 1);
  }

  lemma ChatstronomyPrefix(s: string)
    requires StartsWith(s, "CHATSTRONOMY-")
    ensures DeliveryScope(s) ==
      if s == "CHATSTRONOMY-COMMAND-FAILED" then CommandFailures
      else if Connection(s) then EquipmentConnections else Other
  {
    Head(s, "CHATSTRONOMY-", 0);
    EarlyInitials(s);
    LateInitials(s);
    Head(s, "CHATSTRONOMY-", 1);
    Differ(s, "CAMERA-DOWNLOAD-TIMEOUT", 1);
  }

  // ----- the listed names -----

  /** The connection events of the devices whose scope depends on it. */
  predicate Connects(name: EventName) {
    || name.CameraDisconnected? || name.CameraConnected? || name.FilterwheelDisconnected?
    || name.FilterwheelConnected? || name.MountDisconnected? || name.MountConnected?
    || name.FocuserDisconnected? || name.FocuserConnected? || name.RotatorDisconnected?
    || name.RotatorConnected? || name.GuiderConnected? || name.GuiderDisconnected? || name.FlatConnected?
    || name.FlatDisconnected? || name.WeatherConnected? || name.WeatherDisconnected?
    || name.SwitchConnected? || name.SwitchDisconnected? || name.DomeConnected? || name.DomeDisconnected?
  }

  // The other events of those devices, in three groups.

  predicate Moves(name: EventName) {
    || name.MountUnparked? || name.MountParked? || name.MountBeforeFlip? || name.MountAfterFlip?
    || name.MountHomed? || name.MountCenter? || name.MountSlewStarted? || name.MountSlewed?
    || name.FocuserUserFocused? || name.FocuserMoved? || name.RotatorMoveStarted? || name.RotatorMoved?
    || name.RotatorMovedMechanical? || name.RotatorSynced? || name.GuiderStart? || name.GuiderStop?
    || name.GuiderDither?
  }

  predicate Reports(name: EventName) {
    || name.ErrorPlatesolve? || name.CameraDownloadTimeout? || name.FilterwheelChanged?
    || name.FlatBrightnessChanged? || name.FlatLightToggled? || name.FlatCoverOpened?
    || name.FlatCoverClosed? || name.WeatherChanged? || name.WeatherHighWind?
  }

  predicate Turns(name: EventName) {
    || name.DomeShutterOpened? || name.DomeShutterClosed? || name.DomeHomed? || name.DomeParked?
    || name.DomeSlewed? || name.DomeSynced?
  }

  lemma ConnectingVerbs(name: EventName)
    requires Connects(name)
    ensures Verb(name) == "CONNECTED" || Verb(name) == "DISCONNECTED"
  {
  }

  lemma MovingVerbs(name: EventName)
    requires Moves(name)
    ensures Plain(Verb(name))
  {
  }

  lemma ReportingVerbs(name: EventName)
    requires Reports(name)
    ensures Plain(Verb(name))
  {
  }

  lemma TurningVerbs(name: EventName)
    requires Turns(name)
    ensures Plain(Verb(name))
  {
  }

  lemma PlainVerbs(name: EventName)
    requires Moves(name) || Reports(name) || Turns(name)
    ensures Plain(Verb(name))
  {
    if Moves(name) {
      MovingVerbs(name);
    } else if Reports(name) {
      ReportingVerbs(name);
    } else {
      TurningVerbs(name);
    }
  }

  lemma DashedPrefix(name: EventName)
    requires !name.Unlisted?
    ensures var p := Prefix(name); p != "" && p[|p| - 1] == '-'
  {
  }

  /** Of the device events exactly the connection events end like one. */
  lemma ConnectionEvents(name: EventName)
    requires Connects(name) || Moves(name) || Reports(name) || Turns(name)
    ensures Connection(WireText(name)) <==> Connects(name)
  {
    if Connects(name) {
      DashedPrefix(name);
      ConnectingVerbs(name);
      ConnectionVerb(Prefix(name), Verb(name));
    } else {
      PlainVerbs(name);
      PlainVerb(Prefix(name), Verb(name));
    }
  }

  lemma StartsWithPrefix(name: EventName)
    ensures StartsWith(WireText(name), Prefix(name))
  {
    OwnPrefix(Prefix(name), Verb(name));
  }

  predicate IsMount(name: EventName) {
    name.MountDisconnected? || name.MountConnected? || name.MountUnparked? || name.MountParked?
    || name.MountBeforeFlip? || name.MountAfterFlip? || name.MountHomed? || name.MountCenter?
    || name.MountSlewStarted? || name.MountSlewed?
  }

  lemma MountFacts(name: EventName)
    requires IsMount(name)
    ensures Prefix(name) == "MOUNT-"
    ensures ScopeOf(name) ==
      if name.MountSlewStarted? then SlewMotion else
      if Connects(name) then EquipmentConnections else Mount
  {
  }

  lemma MountSlewStartedText(name: EventName)
    requires IsMount(name)
    ensures WireText(name) == "MOUNT-SLEW-STARTED" <==> name.MountSlewStarted?
  {
    assert "MOUNT-SLEW-STARTED" == "MOUNT-" + "SLEW-STARTED";
    var v := Verb(name);
    if !name.MountSlewStarted? { assert |v| != 12 || v[0] != 'S'; OtherVerb("MOUNT-", v, "SLEW-STARTED", 0); }
  }

  lemma MountRows(name: EventName)
    requires IsMount(name)
    ensures DeliveryScope(WireText(name)) == ScopeOf(name)
  {
    StartsWithPrefix(name);
    MountFacts(name);
    ConnectionEvents(name);
    MountSlewStartedText(name);
    MountPrefix(WireText(name));
  }

  predicate IsRotator(name: EventName) {
    name.RotatorDisconnected? || name.RotatorConnected? || name.RotatorMoveStarted?
    || name.RotatorMoved? || name.RotatorMovedMechanical? || name.RotatorSynced?
  }

  lemma RotatorFacts(name: EventName)
    requires IsRotator(name)
    ensures Prefix(name) == "ROTATOR-"
    ensures ScopeOf(name) ==
      if name.RotatorMoveStarted? then RotatorMotion else
      if Connects(name) then EquipmentConnections else FilterFocuserRotator
  {
  }

  lemma RotatorMoveStartedText(name: EventName)
    requires IsRotator(name)
    ensures WireText(name) == "ROTATOR-MOVE-STARTED" <==> name.RotatorMoveStarted?
  {
    assert "ROTATOR-MOVE-STARTED" == "ROTATOR-" + "MOVE-STARTED";
    var v := Verb(name);
    if !name.RotatorMoveStarted? { assert |v| != 12 || v[0] != 'M'; OtherVerb("ROTATOR-", v, "MOVE-STARTED", 0); }
  }

  lemma RotatorRows(name: EventName)
    requires IsRotator(name)
    ensures DeliveryScope(WireText(name)) == ScopeOf(name)
  {
    StartsWithPrefix(name);
    RotatorFacts(name);
    ConnectionEvents(name);
    RotatorMoveStartedText(name);
    RotatorPrefix(WireText(name));
  }

  predicate IsFocuser(name: EventName) {
    name.FocuserDisconnected? || name.FocuserConnected? || name.FocuserUserFocused?
    || name.FocuserMoved?
  }

  lemma FocuserFacts(name: EventName)
    requires IsFocuser(name)
    ensures Prefix(name) == "FOCUSER-"
    ensures ScopeOf(name) ==
      if name.FocuserMoved? then FocuserMotion else
      if Connects(name) then EquipmentConnections else FilterFocuserRotator
  {
  }

  lemma FocuserMovedText(name: EventName)
    requires IsFocuser(name)
    ensures WireText(name) == "FOCUSER-MOVED" <==> name.FocuserMoved?
  {
    assert "FOCUSER-MOVED" == "FOCUSER-" + "MOVED";
    var v := Verb(name);
    if !name.FocuserMoved? { OtherVerb("FOCUSER-", v, "MOVED", 0); }
  }

  lemma FocuserRows(name: EventName)
    requires IsFocuser(name)
    ensures DeliveryScope(WireText(name)) == ScopeOf(name)
  {
    StartsWithPrefix(name);
    FocuserFacts(name);
    ConnectionEvents(name);
    FocuserMovedText(name);
    FocuserPrefix(WireText(name));
  }

  predicate IsFilterwheel(name: EventName) {
    name.FilterwheelDisconnected? || name.FilterwheelConnected? || name.FilterwheelChanged?
  }

  lemma FilterwheelFacts(name: EventName)
    requires IsFilterwheel(name)
    ensures Prefix(name) == "FILTERWHEEL-"
    ensures ScopeOf(name) ==
      if Connects(name) then EquipmentConnections else FilterFocuserRotator
  {
  }

  lemma FilterwheelRows(name: EventName)
    requires IsFilterwheel(name)
    ensures DeliveryScope(WireText(name)) == ScopeOf(name)
  {
    StartsWithPrefix(name);
    FilterwheelFacts(name);
    ConnectionEvents(name);
    FilterwheelPrefix(WireText(name));
  }

  predicate IsGuider(name: EventName) {
    name.GuiderConnected? || name.GuiderDisconnected? || name.GuiderStart? || name.GuiderStop?
    || name.GuiderDither?
  }

  lemma GuiderFacts(name: EventName)
    requires IsGuider(name)
    ensures Prefix(name) == "GUIDER-"
    ensures ScopeOf(name) == if Connects(name) then EquipmentConnections else Guiding
  {
  }

  lemma GuiderRows(name: EventName)
    requires IsGuider(name)
    ensures DeliveryScope(WireText(name)) == ScopeOf(name)
  {
    StartsWithPrefix(name);
    GuiderFacts(name);
    ConnectionEvents(name);
    GuiderPrefix(WireText(name));
  }

  predicate IsDome(name: EventName) {
    name.DomeConnected? || name.DomeDisconnected? || name.DomeShutterOpened? || name.DomeShutterClosed?
    || name.DomeHomed? || name.DomeParked? || name.DomeSlewed? || name.DomeSynced?
  }

  lemma DomeFacts(name: EventName)
    requires IsDome(name)
    ensures Prefix(name) == "DOME-"
    ensures ScopeOf(name) == if Connects(name) then EquipmentConnections else Observatory
  {
  }

  lemma DomeRows(name: EventName)
    requires IsDome(name)
    ensures DeliveryScope(WireText(name)) == ScopeOf(name)
  {
    StartsWithPrefix(name);
    DomeFacts(name);
    ConnectionEvents(name);
    DomePrefix(WireText(name));
  }

  predicate IsFlat(name: EventName) {
    name.FlatConnected? || name.FlatDisconnected? || name.FlatBrightnessChanged?
    || name.FlatLightToggled? || name.FlatCoverOpened? || name.FlatCoverClosed?
  }

  lemma FlatFacts(name: EventName)
    requires IsFlat(name)
    ensures Prefix(name) == "FLAT-"
    ensures ScopeOf(name) == if Connects(name) then EquipmentConnections else Observatory
  {
  }

  lemma FlatRows(name: EventName)
    requires IsFlat(name)
    ensures DeliveryScope(WireText(name)) == ScopeOf(name)
  {
    StartsWithPrefix(name);
    FlatFacts(name);
    ConnectionEvents(name);
    FlatPrefix(WireText(name));
  }

  predicate IsSwitch(name: EventName) {
    name.SwitchConnected? || name.SwitchDisconnected?
  }

  lemma SwitchFacts(name: EventName)
    requires IsSwitch(name)
    ensures Prefix(name) == "SWITCH-"
    ensures ScopeOf(name) == if Connects(name) then EquipmentConnections else Other
  {
  }

  lemma SwitchRows(name: EventName)
    requires IsSwitch(name)
    ensures DeliveryScope(WireText(name)) == ScopeOf(name)
  {
    StartsWithPrefix(name);
    SwitchFacts(name);
    ConnectionEvents(name);
    SwitchPrefix(WireText(name));
  }

  predicate IsWeather(name: EventName) {
    name.WeatherConnected? || name.WeatherDisconnected? || name.WeatherChanged? || name.WeatherHighWind?
  }

  lemma WeatherFacts(name: EventName)
    requires IsWeather(name)
    ensures Prefix(name) == "WEATHER-"
    ensures ScopeOf(name) ==
      if name.WeatherChanged? then WeatherChanges else if name.WeatherHighWind? then HighWindAlerts else
      if Connects(name) then EquipmentConnections else Other
  {
  }

  lemma WeatherChangedText(name: EventName)
    requires IsWeather(name)
    ensures WireText(name) == "WEATHER-CHANGED" <==> name.WeatherChanged?
  {
    assert "WEATHER-CHANGED" == "WEATHER-" + "CHANGED";
    var v := Verb(name);
    if !name.WeatherChanged? { OtherVerb("WEATHER-", v, "CHANGED", 0); }
  }

  lemma WeatherHighWindText(name: EventName)
    requires IsWeather(name)
    ensures WireText(name) == "WEATHER-HIGH-WIND" <==> name.WeatherHighWind?
  {
    assert "WEATHER-HIGH-WIND" == "WEATHER-" + "HIGH-WIND";
    var v := Verb(name);
    if !name.WeatherHighWind? { assert |v| != 9 || v[0] != 'H'; OtherVerb("WEATHER-", v, "HIGH-WIND", 0); }
  }

  lemma WeatherRows(name: EventName)
    requires IsWeather(name)
    ensures DeliveryScope(WireText(name)) == ScopeOf(name)
  {
    StartsWithPrefix(name);
    WeatherFacts(name);
    ConnectionEvents(name);
    WeatherChangedText(name);
    WeatherHighWindText(name);
    WeatherPrefix(WireText(name));
  }

  predicate IsCamera(name: EventName) {
    name.CameraDisconnected? || name.CameraConnected? || name.CameraDownloadTimeout?
  }

  lemma CameraFacts(name: EventName)
    requires IsCamera(name)
    ensures Prefix(name) == "CAMERA-"
    ensures ScopeOf(name) ==
      if name.CameraDownloadTimeout? then Images else
      if Connects(name) then EquipmentConnections else Other
  {
  }

  lemma CameraDownloadTimeoutText(name: EventName)
    requires IsCamera(name)
    ensures WireText(name) == "CAMERA-DOWNLOAD-TIMEOUT" <==> name.CameraDownloadTimeout?
  {
    assert "CAMERA-DOWNLOAD-TIMEOUT" == "CAMERA-" + "DOWNLOAD-TIMEOUT";
    var v := Verb(name);
    if !name.CameraDownloadTimeout? { OtherVerb("CAMERA-", v, "DOWNLOAD-TIMEOUT", 0); }
  }

  lemma CameraRows(name: EventName)
    requires IsCamera(name)
    ensures DeliveryScope(WireText(name)) == ScopeOf(name)
  {
    StartsWithPrefix(name);
    CameraFacts(name);
    ConnectionEvents(name);
    CameraDownloadTimeoutText(name);
    CameraPrefix(WireText(name));
  }

  predicate IsTs(name: EventName) {
    name.TsTargetstart? || name.TsNewtargetstart? || name.TsWaitstart?
  }

  lemma TsFacts(name: EventName)
    requires IsTs(name)
    ensures Prefix(name) == "TS-"
    ensures ScopeOf(name) == TargetScheduler
  {
  }

  lemma TsRows(name: EventName)
    requires IsTs(name)
    ensures DeliveryScope(WireText(name)) == ScopeOf(name)
  {
    StartsWithPrefix(name);
    TsFacts(name);
    TsPrefix(WireText(name));
  }

  predicate IsSequence(name: EventName) {
    name.SequenceStarting? || name.SequenceFinished? || name.SequenceEntityFailed?
  }

  lemma SequenceFacts(name: EventName)
    requires IsSequence(name)
    ensures Prefix(name) == "SEQUENCE-"
    ensures ScopeOf(name) == Sequence
  {
  }

  lemma SequenceRows(name: EventName)
    requires IsSequence(name)
    ensures DeliveryScope(WireText(name)) == ScopeOf(name)
  {
    StartsWithPrefix(name);
    SequenceFacts(name);
    SequencePrefix(WireText(name));
  }

  predicate IsSafety(name: EventName) {
    name.SafetyConnected? || name.SafetyDisconnected? || name.SafetyChanged?
  }

  lemma SafetyFacts(name: EventName)
    requires IsSafety(name)
    ensures Prefix(name) == "SAFETY-"
    ensures ScopeOf(name) == Safety
  {
  }

  lemma SafetyRows(name: EventName)
    requires IsSafety(name)
    ensures DeliveryScope(WireText(name)) == ScopeOf(name)
  {
    StartsWithPrefix(name);
    SafetyFacts(name);
    SafetyPrefix(WireText(name));
  }

  predicate IsImage(name: EventName) {
    name.ImageSave? || name.ImageSaveFailed? || name.ImagePrepared?
  }

  lemma ImageFacts(name: EventName)
    requires IsImage(name)
    ensures Prefix(name) == "IMAGE-"
    ensures ScopeOf(name) == Images
  {
  }

  lemma ImageRows(name: EventName)
    requires IsImage(name)
    ensures DeliveryScope(WireText(name)) == ScopeOf(name)
  {
    StartsWithPrefix(name);
    ImageFacts(name);
    ImagePrefix(WireText(name));
  }

  predicate IsAutofocus(name: EventName) {
    name.AutofocusStarting? || name.AutofocusFinished? || name.AutofocusPointAdded?
  }

  lemma AutofocusFacts(name: EventName)
    requires IsAutofocus(name)
    ensures Prefix(name) == "AUTOFOCUS-"
    ensures ScopeOf(name) == Autofocus
  {
  }

  lemma AutofocusRows(name: EventName)
    requires IsAutofocus(name)
    ensures DeliveryScope(WireText(name)) == ScopeOf(name)
  {
    StartsWithPrefix(name);
    AutofocusFacts(name);
    AutofocusPrefix(WireText(name));
  }

  predicate IsError(name: EventName) {
    name.ErrorAf? || name.ErrorPlatesolve?
  }

  lemma ErrorFacts(name: EventName)
    requires IsError(name)
    ensures Prefix(name) == "ERROR-"
    ensures ScopeOf(name) ==
      if name.ErrorAf? then Autofocus else if name.ErrorPlatesolve? then Mount else Other
  {
  }

  lemma ErrorAfText(name: EventName)
    requires IsError(name)
    ensures WireText(name) == "ERROR-AF" <==> name.ErrorAf?
  {
    assert "ERROR-AF" == "ERROR-" + "AF";
    var v := Verb(name);
    if !name.ErrorAf? { OtherVerb("ERROR-", v, "AF", 0); }
  }

  lemma ErrorPlatesolveText(name: EventName)
    requires IsError(name)
    ensures WireText(name) == "ERROR-PLATESOLVE" <==> name.ErrorPlatesolve?
  {
    assert "ERROR-PLATESOLVE" == "ERROR-" + "PLATESOLVE";
    var v := Verb(name);
    if !name.ErrorPlatesolve? { OtherVerb("ERROR-", v, "PLATESOLVE", 0); }
  }

  lemma ErrorRows(name: EventName)
    requires IsError(name)
    ensures DeliveryScope(WireText(name)) == ScopeOf(name)
  {
    StartsWithPrefix(name);
    ErrorFacts(name);
    if name.ErrorPlatesolve? { ConnectionEvents(name); }
    ErrorAfText(name);
    ErrorPlatesolveText(name);
    ErrorPrefix(WireText(name));
  }

  predicate IsNina(name: EventName) {
    name.NinaNotification? || name.NinaLog?
  }

  lemma NinaFacts(name: EventName)
    requires IsNina(name)
    ensures Prefix(name) == "NINA-"
    ensures ScopeOf(name) ==
      if name.NinaNotification? then NinaNotifications else if name.NinaLog? then NinaLogs else Other
  {
  }

  lemma NinaNotificationText(name: EventName)
    requires IsNina(name)
    ensures WireText(name) == "NINA-NOTIFICATION" <==> name.NinaNotification?
  {
    assert "NINA-NOTIFICATION" == "NINA-" + "NOTIFICATION";
    var v := Verb(name);
    if !name.NinaNotification? { OtherVerb("NINA-", v, "NOTIFICATION", 0); }
  }

  lemma NinaLogText(name: EventName)
    requires IsNina(name)
    ensures WireText(name) == "NINA-LOG" <==> name.NinaLog?
  {
    assert "NINA-LOG" == "NINA-" + "LOG";
    var v := Verb(name);
    if !name.NinaLog? { OtherVerb("NINA-", v, "LOG", 0); }
  }

  lemma NinaRows(name: EventName)
    requires IsNina(name)
    ensures DeliveryScope(WireText(name)) == ScopeOf(name)
  {
    StartsWithPrefix(name);
    NinaFacts(name);
    NinaNotificationText(name);
    NinaLogText(name);
    NinaPrefix(WireText(name));
  }

  predicate IsApi(name: EventName) {
    name.ApiCaptureFinished?
  }

  lemma ApiFacts(name: EventName)
    requires IsApi(name)
    ensures Prefix(name) == "API-"
    ensures ScopeOf(name) == if name.ApiCaptureFinished? then Images else Other
  {
  }

  lemma ApiCaptureFinishedText(name: EventName)
    requires IsApi(name)
    ensures WireText(name) == "API-CAPTURE-FINISHED" <==> name.ApiCaptureFinished?
  {
    assert "API-CAPTURE-FINISHED" == "API-" + "CAPTURE-FINISHED";
  }

  lemma ApiRows(name: EventName)
    requires IsApi(name)
    ensures DeliveryScope(WireText(name)) == ScopeOf(name)
  {
    StartsWithPrefix(name);
    ApiFacts(name);
    ApiCaptureFinishedText(name);
    ApiPrefix(WireText(name));
  }

  predicate IsChatstronomy(name: EventName) {
    name.ChatstronomyCommandFailed?
  }

  lemma ChatstronomyFacts(name: EventName)
    requires IsChatstronomy(name)
    ensures Prefix(name) == "CHATSTRONOMY-"
    ensures ScopeOf(name) ==
      if name.ChatstronomyCommandFailed? then CommandFailures else Other
  {
  }

  lemma ChatstronomyCommandFailedText(name: EventName)
    requires IsChatstronomy(name)
    ensures WireText(name) == "CHATSTRONOMY-COMMAND-FAILED" <==> name.ChatstronomyCommandFailed?
  {
    assert "CHATSTRONOMY-COMMAND-FAILED" == "CHATSTRONOMY-" + "COMMAND-FAILED";
  }

  lemma ChatstronomyRows(name: EventName)
    requires IsChatstronomy(name)
    ensures DeliveryScope(WireText(name)) == ScopeOf(name)
  {
    StartsWithPrefix(name);
    ChatstronomyFacts(name);
    ChatstronomyCommandFailedText(name);
    ChatstronomyPrefix(WireText(name));
  }

  predicate OfDevice(name: EventName) {
    Connects(name) || Moves(name) || Turns(name) || (Reports(name) && !name.ErrorPlatesolve?)
  }

  lemma DeviceRows(name: EventName)
    requires OfDevice(name)
    ensures DeliveryScope(WireText(name)) == ScopeOf(name)
  {
    match name
    case CameraDisconnected | CameraConnected | CameraDownloadTimeout => CameraRows(name);
    case FilterwheelDisconnected | FilterwheelConnected | FilterwheelChanged => FilterwheelRows(name);
    case MountDisconnected | MountConnected | MountUnparked | MountParked | MountBeforeFlip | MountAfterFlip
      | MountHomed | MountCenter | MountSlewStarted | MountSlewed => MountRows(name);
    case FocuserDisconnected | FocuserConnected | FocuserUserFocused | FocuserMoved => FocuserRows(name);
    case RotatorDisconnected | RotatorConnected | RotatorMoveStarted | RotatorMoved | RotatorMovedMechanical
      | RotatorSynced => RotatorRows(name);
    case GuiderConnected | GuiderDisconnected | GuiderStart | GuiderStop | GuiderDither => GuiderRows(name);
    case FlatConnected | FlatDisconnected | FlatBrightnessChanged | FlatLightToggled | FlatCoverOpened
      | FlatCoverClosed => FlatRows(name);
    case WeatherConnected | WeatherDisconnected | WeatherChanged | WeatherHighWind => WeatherRows(name);
    case SwitchConnected | SwitchDisconnected => SwitchRows(name);
    case DomeConnected | DomeDisconnected | DomeShutterOpened | DomeShutterClosed | DomeHomed | DomeParked
      | DomeSlewed | DomeSynced => DomeRows(name);
  }

  lemma OperationRows(name: EventName)
    requires !OfDevice(name) && !name.Unlisted?
    ensures DeliveryScope(WireText(name)) == ScopeOf(name)
  {
    match name
    case TsTargetstart | TsNewtargetstart | TsWaitstart => TsRows(name);
    case SequenceStarting | SequenceFinished | SequenceEntityFailed => SequenceRows(name);
    case SafetyConnected | SafetyDisconnected | SafetyChanged => SafetyRows(name);
    case ImageSave | ImageSaveFailed | ImagePrepared => ImageRows(name);
    case AutofocusStarting | AutofocusFinished | AutofocusPointAdded => AutofocusRows(name);
    case ErrorAf | ErrorPlatesolve => ErrorRows(name);
    case NinaNotification | NinaLog => NinaRows(name);
    case ApiCaptureFinished => ApiRows(name);
    case ChatstronomyCommandFailed => ChatstronomyRows(name);
  }

  lemma UnlistedText(name: EventName)
    requires name.Unlisted?
    ensures WireText(name) == name.text
  {
    assert "" + name.text == name.text;
  }

  /** Each row of the table is the scope its wire text falls through to. */
  lemma TableIsTheCascade(name: EventName)
    ensures ScopeOf(name) == DeliveryScope(WireText(name))
  {
    if name.Unlisted? {
      UnlistedText(name);
    } else if OfDevice(name) {
      DeviceRows(name);
    } else {
      OperationRows(name);
    }
  }
}
