/**
Long-running items of the live sequence tree, and how far along a tracked one is.
Times are nanoseconds; temperatures and percentages are exact.
*/
module SequenceOperations {
  import opened Wrappers

  const MILLISECOND: int := 1_000_000

  datatype Status = Active | Failed | Finished | OtherStatus

  /** A plate-solve result; `identity` is what its dedup key is hashed from. */
  datatype SolveOutput = SolveOutput(identity: string, body: string)

  datatype Kind =
    | CameraCooling(target: real, minimum: Option<int>)
    | CameraWarming(minimum: Option<int>)
    | TimeWait(targetTime: Option<int>, duration: Option<int>)
    | AstronomicalWait(body: string)
    | SafetyWait(body: string)
    | ConditionWait(body: string)
    | ManualWait
    | MountSlew(coordinates: Option<string>, mayBeCenter: bool)
    | MountCenter(coordinates: Option<string>, rotation: Option<real>, output: Option<SolveOutput>)
    | PlateSolve(coordinates: Option<string>, rotation: Option<real>, output: Option<SolveOutput>)
  {
    predicate UsesCamera() { CameraCooling? || CameraWarming? }

    /** The same enum variant. */
    predicate SameVariant(other: Kind) {
      match this
      case CameraCooling(_, _) => other.CameraCooling?
      case CameraWarming(_) => other.CameraWarming?
      case TimeWait(_, _) => other.TimeWait?
      case AstronomicalWait(_) => other.AstronomicalWait?
      case SafetyWait(_) => other.SafetyWait?
      case ConditionWait(_) => other.ConditionWait?
      case ManualWait => other.ManualWait?
      case MountSlew(_, _) => other.MountSlew?
      case MountCenter(_, _, _) => other.MountCenter?
      case PlateSolve(_, _, _) => other.PlateSolve?
    }
  }

  datatype Operation = Operation(key: string, name: string, status: Status, chatEnabled: bool, kind: Kind) {
    function OutputKey(): Option<string> {
      if (kind.MountCenter? || kind.PlateSolve?) && kind.output.Some? then Some(kind.output.value.identity) else None
    }

    predicate Promotable() { kind.MountSlew? && kind.mayBeCenter }

    /** An ambiguous coordinate item that a center event has identified. */
    function Promoted(): Operation {
      if Promotable() then this.(kind := MountCenter(kind.coordinates, None, None)) else this
    }

    predicate SameIdentity(next: Operation) { name == next.name && kind.SameVariant(next.kind) }
  }

  /** `None` stands for a temperature that is not finite. */
  datatype Camera = Camera(temperature: Option<real>, atTarget: bool)

  datatype Tracked = Tracked(
    operation: Operation, startedAt: int, estimatedEnd: Option<int>, initialTemperature: Option<real>,
    camera: Option<Camera>, lastMilestone: nat, lastOutputKey: Option<string>)
  {
    function Progress(now: int): Option<nat> {
      match operation.kind
      case TimeWait(_, _) => if estimatedEnd.None? then None else Some(TimedPercent(startedAt, estimatedEnd.value, now))
      case CameraCooling(target, _) => CoolingPercent(initialTemperature, target, camera)
      case CameraWarming(minimum) =>
        var end := if estimatedEnd.Some? then estimatedEnd
                   else if minimum.Some? then Some(startedAt + minimum.value) else None;
        if end.None? then None else Some(TimedPercent(startedAt, end.value, now))
      case _ => None
    }

    function NextMilestone(now: int): Option<nat> {
      var p := Progress(now);
      if p.None? then None
      else if p.value >= 75 && lastMilestone < 75 then Some(75)
      else if p.value >= 50 && lastMilestone < 50 then Some(50)
      else if p.value >= 25 && lastMilestone < 25 then Some(25)
      else None
    }

    /** The end a timed wait has of itself. */
    function IntrinsicEnd(): Option<int> {
      if !operation.kind.TimeWait? then None
      else if operation.kind.targetTime.Some? then operation.kind.targetTime
      else if operation.kind.duration.Some? then Some(startedAt + operation.kind.duration.value)
      else None
    }
  }

  function CompletedMilestone(progress: nat): nat {
    if progress >= 75 then 75 else if progress >= 50 then 50 else if progress >= 25 then 25 else 0
  }

  /** Whole milliseconds, rounded toward zero. */
  function Millis(nanos: int): int {
    if nanos >= 0 then nanos / MILLISECOND else -(-nanos / MILLISECOND)
  }

  function Clamp(x: int, low: int, high: int): int {
    if x < low then low else if x > high then high else x
  }

  /** `elapsed / total` in percent, rounded half up. */
  function TimedPercent(start: int, end: int, now: int): (p: nat)
    ensures p <= 100
  {
    var total := Millis(end - start);
    if total <= 0 then 100
    else
      var elapsed := Clamp(Millis(now - start), 0, total);
      PercentBounds(elapsed, total);
      (200 * elapsed + total) / (2 * total)
  }

  lemma PercentBounds(elapsed: nat, total: nat)
    requires elapsed <= total && total > 0
    ensures 0 <= (200 * elapsed + total) / (2 * total) <= 100
  {
    var q := (200 * elapsed + total) / (2 * total);
    assert q * (2 * total) <= 200 * elapsed + total < 101 * (2 * total);
    Quotient(q, 101, 2 * total);
  }

  lemma Quotient(a: int, b: int, n: nat)
    requires n > 0 && a * n < b * n
    ensures a < b
  {
  }

  function RealClamp(x: real): (r: real)
    ensures 0.0 <= r <= 1.0
  {
    if x < 0.0 then 0.0 else if x > 1.0 then 1.0 else x
  }

  function RealAbs(x: real): real {
    if x < 0.0 then -x else x
  }

  /** How much of the way to the target temperature has been covered. */
  function CoolingPercent(initial: Option<real>, target: real, camera: Option<Camera>): (p: Option<nat>)
    ensures p.Some? ==> p.value <= 100
  {
    if initial.None? || camera.None? then None
    else if camera.value.atTarget then Some(100)
    else
      var total := RealAbs(initial.value - target);
      if total < 0.1 || camera.value.temperature.None? then None
      else
        var remaining := RealAbs(camera.value.temperature.value - target);
        Some((RealClamp(1.0 - remaining / total) * 100.0 + 0.5).Floor)
  }

  function NewTracked(operation: Operation, now: int, camera: Option<Camera>): Tracked {
    var kind := operation.kind;
    var end := if kind.TimeWait? && kind.targetTime.Some? then kind.targetTime
               else if kind.TimeWait? && kind.duration.Some? then Some(now + kind.duration.value)
               else if kind.CameraWarming? && kind.minimum.Some? then Some(now + kind.minimum.value)
               else None;
    Tracked(operation, now, end, if camera.Some? then camera.value.temperature else None, camera, 0, None)
  }

  // ----- progress -----

  lemma ProgressIsPercent(t: Tracked, now: int)
    ensures t.Progress(now).Some? ==> t.Progress(now).value <= 100
  {
  }

  /** For a fixed start and end, the percentage never falls as time passes. */
  lemma {:induction false} TimedPercentGrows(start: int, end: int, now: int, later: int)
    requires now <= later
    ensures TimedPercent(start, end, now) <= TimedPercent(start, end, later)
  {
    var total := Millis(end - start);
    if total > 0 {
      MillisGrow(now - start, later - start);
      var a, b := Clamp(Millis(now - start), 0, total), Clamp(Millis(later - start), 0, total);
      assert a <= b;
      DivisionGrows(200 * a + total, 200 * b + total, 2 * total);
    }
  }

  lemma MillisGrow(a: int, b: int)
    requires a <= b
    ensures Millis(a) <= Millis(b)
  {
  }

  lemma DivisionGrows(a: nat, b: nat, n: nat)
    requires a <= b && n > 0
    ensures a / n <= b / n
  {
    assert (a / n) * n <= a <= b < (b / n + 1) * n;
    Quotient(a / n, b / n + 1, n);
  }

  lemma {:induction false} WaitProgressGrows(t: Tracked, now: int, later: int)
    requires (t.operation.kind.TimeWait? || t.operation.kind.CameraWarming?) && now <= later
    ensures t.Progress(now).Some? <==> t.Progress(later).Some?
    ensures t.Progress(now).Some? ==> t.Progress(now).value <= t.Progress(later).value
  {
    if t.estimatedEnd.Some? {
      TimedPercentGrows(t.startedAt, t.estimatedEnd.value, now, later);
    } else if t.operation.kind.CameraWarming? && t.operation.kind.minimum.Some? {
      TimedPercentGrows(t.startedAt, t.startedAt + t.operation.kind.minimum.value, now, later);
    }
  }

  /** The next milestone is the highest one reached that is above the last; none is announced early or twice. */
  lemma NextMilestoneIsHighestNew(t: Tracked, now: int)
    ensures var m := t.NextMilestone(now); var p := t.Progress(now);
      && (m.Some? ==> p.Some? && m.value == CompletedMilestone(p.value) && t.lastMilestone < m.value <= p.value)
      && (m.None? && p.Some? ==> CompletedMilestone(p.value) <= t.lastMilestone)
  {
  }
}
