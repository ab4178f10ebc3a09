/**
The rolling history of LIGHT frames: the last 24 hours, at most 2,000 points, in order
of capture. Time is in nanoseconds.

The reference for the points kept as frames arrive is a single trim of every frame ever
accepted.
*/
module FrameHistory {
  import opened Wrappers

  const MAX_STATISTICS_POINTS: nat := 2_000
  const MINUTE: int := 60_000_000_000
  const HISTORY: int := 24 * 60 * MINUTE
  const CLOCK_SKEW: int := 5 * MINUTE

  datatype Options = Options(everyNFrames: nat, onSequenceEnd: bool) {
    predicate Enabled() { everyNFrames > 0 || onSequenceEnd }
  }

  /** A floating-point measurement. */
  datatype Measure = Finite(value: real) | PositiveInfinity | NegativeInfinity | NotANumber {
    predicate Positive() { PositiveInfinity? || (Finite? && value > 0.0) }
  }

  datatype Image = Image(
    chatEnabled: bool, imageType: string, hfr: Measure, stars: int,
    starDetectionAvailable: Option<bool>, timestampIsExposureStart: Option<bool>, filter: string)

  datatype Point = Point(capturedAt: int, exposureStartKnown: bool, hfr: Option<real>, stars: Option<int>, filter: string)

  function PointOf(image: Image, capturedAt: int): Point {
    var available := if image.starDetectionAvailable.Some? then image.starDetectionAvailable.value
                     else image.hfr.Positive() || image.stars > 0;
    Point(capturedAt,
          image.timestampIsExposureStart == Some(true),
          if available && image.hfr.Finite? && image.hfr.value > 0.0 then Some(image.hfr.value) else None,
          if available && image.stars >= 0 then Some(image.stars) else None,
          if |image.filter| <= 80 then image.filter else image.filter[..80])
  }

  /** What `record` keeps: an enabled light frame of the last 24 hours, up to five minutes ahead of the clock. */
  predicate Accepts(options: Options, image: Image, capturedAt: int, now: int) {
    options.Enabled() && image.chatEnabled && image.imageType == "LIGHT"
    && now - HISTORY <= capturedAt <= now + CLOCK_SKEW
  }

  // ----- sorting and trimming -----

  /** Stable: an equal capture time goes after those already there. */
  function Insert(sorted: seq<Point>, p: Point): seq<Point> {
    if sorted != [] && sorted[0].capturedAt <= p.capturedAt then [sorted[0]] + Insert(sorted[1..], p)
    else [p] + sorted
  }

  function SortByCapture(points: seq<Point>): seq<Point> {
    if points == [] then []
    else Insert(SortByCapture(points[..|points| - 1]), points[|points| - 1])
  }

  function Since(points: seq<Point>, cutoff: int): seq<Point> {
    if points == [] then []
    else (if points[0].capturedAt >= cutoff then [points[0]] else []) + Since(points[1..], cutoff)
  }

  function Trim(points: seq<Point>, now: int): seq<Point> {
    LastN(SortByCapture(Since(points, now - HISTORY)), MAX_STATISTICS_POINTS)
  }

  predicate Sorted(s: seq<Point>) {
    forall i, j :: 0 <= i < j < |s| ==> s[i].capturedAt <= s[j].capturedAt
  }

  function At(points: seq<Point>, time: int): seq<Point> {
    if points == [] then []
    else (if points[0].capturedAt == time then [points[0]] else []) + At(points[1..], time)
  }

  lemma {:induction false} InsertAdds(s: seq<Point>, p: Point)
    ensures multiset(Insert(s, p)) == multiset(s) + multiset{p}
  {
    if s != [] && s[0].capturedAt <= p.capturedAt {
      InsertAdds(s[1..], p);
      assert s == [s[0]] + s[1..];
    }
  }

  lemma {:induction false} InsertSorts(s: seq<Point>, p: Point)
    requires Sorted(s)
    ensures Sorted(Insert(s, p))
  {
    if s != [] && s[0].capturedAt <= p.capturedAt {
      InsertSorts(s[1..], p);
      InsertStaysAbove(s[1..], p, s[0].capturedAt);
    }
  }

  lemma {:induction false} InsertStaysAbove(s: seq<Point>, p: Point, time: int)
    requires p.capturedAt >= time && forall i :: 0 <= i < |s| ==> s[i].capturedAt >= time
    ensures forall i :: 0 <= i < |Insert(s, p)| ==> Insert(s, p)[i].capturedAt >= time
  {
    if s != [] && s[0].capturedAt <= p.capturedAt { InsertStaysAbove(s[1..], p, time); }
  }

  lemma {:induction false} InsertIsStable(s: seq<Point>, p: Point, time: int)
    requires Sorted(s)
    ensures At(Insert(s, p), time) == At(s, time) + if p.capturedAt == time then [p] else []
  {
    if s != [] && s[0].capturedAt <= p.capturedAt {
      InsertIsStable(s[1..], p, time);
      assert Insert(s, p)[1..] == Insert(s[1..], p);
    } else {
      assert ([p] + s)[1..] == s;
      if p.capturedAt == time {
        NoneBefore(s, time);
      }
    }
  }

  lemma {:induction false} NoneBefore(s: seq<Point>, time: int)
    requires forall i :: 0 <= i < |s| ==> s[i].capturedAt > time
    ensures At(s, time) == []
  {
    if s != [] {
      NoneBefore(s[1..], time);
    }
  }

  lemma {:induction false} AtSnoc(points: seq<Point>, p: Point, time: int)
    ensures At(points + [p], time) == At(points, time) + if p.capturedAt == time then [p] else []
  {
    if points == [] {
      assert points + [p] == [p];
    } else {
      AtSnoc(points[1..], p, time);
      TailSnoc(points, p);
      Associative(if points[0].capturedAt == time then [points[0]] else [], At(points[1..], time),
                  if p.capturedAt == time then [p] else []);
    }
  }

  lemma TailSnoc(points: seq<Point>, p: Point)
    requires points != []
    ensures (points + [p])[0] == points[0] && (points + [p])[1..] == points[1..] + [p]
  {
  }

  lemma Associative(a: seq<Point>, b: seq<Point>, c: seq<Point>)
    ensures a + b + c == a + (b + c)
  {
  }

  lemma {:induction false} SortSorts(points: seq<Point>)
    ensures Sorted(SortByCapture(points)) && multiset(SortByCapture(points)) == multiset(points)
  {
    if points != [] {
      var front, last := points[..|points| - 1], points[|points| - 1];
      SortSorts(front);
      InsertSorts(SortByCapture(front), last);
      InsertAdds(SortByCapture(front), last);
      assert points == front + [last];
    }
  }

  lemma {:induction false} SortKeepsTies(points: seq<Point>, time: int)
    ensures At(SortByCapture(points), time) == At(points, time)
  {
    if points != [] {
      var front, last := points[..|points| - 1], points[|points| - 1];
      SortKeepsTies(front, time);
      assert front + [last] == points;
      TiesSnoc(front, last, time);
    }
  }

  lemma {:induction false} TiesSnoc(front: seq<Point>, last: Point, time: int)
    requires At(SortByCapture(front), time) == At(front, time)
    ensures At(Insert(SortByCapture(front), last), time) == At(front + [last], time)
  {
    SortSorts(front);
    InsertIsStable(SortByCapture(front), last, time);
    AtSnoc(front, last, time);
  }

  /** The sort is one: ordered, a permutation, and stable among equal capture times. */
  lemma {:induction false} SortIsStable(points: seq<Point>, time: int)
    ensures Sorted(SortByCapture(points)) && multiset(SortByCapture(points)) == multiset(points)
    ensures At(SortByCapture(points), time) == At(points, time)
  {
    SortSorts(points);
    SortKeepsTies(points, time);
  }

  // ----- trimming as you go is trimming at the end -----

  lemma {:induction false} SinceInsert(s: seq<Point>, p: Point, cutoff: int)
    requires Sorted(s)
    ensures Since(Insert(s, p), cutoff) == if p.capturedAt >= cutoff then Insert(Since(s, cutoff), p) else Since(s, cutoff)
  {
    if s != [] && s[0].capturedAt <= p.capturedAt {
      SinceInsert(s[1..], p, cutoff);
      assert Insert(s, p)[1..] == Insert(s[1..], p);
      if s[0].capturedAt >= cutoff {
        assert Since(s, cutoff)[1..] == Since(s[1..], cutoff);
      } else {
        assert Since(s, cutoff) == Since(s[1..], cutoff);
      }
    } else {
      assert ([p] + s)[1..] == s;
      InsertFirst(s, p, cutoff);
    }
  }

  lemma {:induction false} InsertFirst(s: seq<Point>, p: Point, cutoff: int)
    requires forall i :: 0 <= i < |s| ==> s[i].capturedAt > p.capturedAt
    ensures Insert(Since(s, cutoff), p) == [p] + Since(s, cutoff)
  {
    if s != [] && s[0].capturedAt < cutoff {
      InsertFirst(s[1..], p, cutoff);
      assert Since(s, cutoff) == Since(s[1..], cutoff);
    }
  }

  lemma {:induction false} SinceSnoc(points: seq<Point>, p: Point, cutoff: int)
    ensures Since(points + [p], cutoff) == Since(points, cutoff) + if p.capturedAt >= cutoff then [p] else []
  {
    if points == [] {
      assert points + [p] == [p];
    } else {
      SinceSnoc(points[1..], p, cutoff);
      TailSnoc(points, p);
      Associative(if points[0].capturedAt >= cutoff then [points[0]] else [], Since(points[1..], cutoff),
                  if p.capturedAt >= cutoff then [p] else []);
    }
  }

  /** Filtering before or after the sort is the same. */
  lemma {:induction false} SortThenFilter(points: seq<Point>, cutoff: int)
    ensures SortByCapture(Since(points, cutoff)) == Since(SortByCapture(points), cutoff)
  {
    if points != [] {
      var front, last := points[..|points| - 1], points[|points| - 1];
      SortThenFilter(front, cutoff);
      assert points == front + [last];
      SortThenFilterSnoc(front, last, cutoff);
    }
  }

  lemma {:induction false} SortThenFilterSnoc(front: seq<Point>, last: Point, cutoff: int)
    requires SortByCapture(Since(front, cutoff)) == Since(SortByCapture(front), cutoff)
    ensures SortByCapture(Since(front + [last], cutoff)) == Since(SortByCapture(front + [last]), cutoff)
  {
    SortSorts(front);
    SortSnoc(front, last);
    SinceInsert(SortByCapture(front), last, cutoff);
    SinceSnoc(front, last, cutoff);
    SortSnoc(Since(front, cutoff), last);
  }

  lemma SortSnoc(points: seq<Point>, p: Point)
    ensures SortByCapture(points + [p]) == Insert(SortByCapture(points), p)
    ensures points + [] == points
  {
    assert (points + [p])[..|points|] == points;
  }

  lemma {:induction false} AllLive(s: seq<Point>, cutoff: int)
    requires Sorted(s) && (s != [] ==> s[0].capturedAt >= cutoff)
    ensures Since(s, cutoff) == s
  {
    if s != [] {
      AllLive(s[1..], cutoff);
    }
  }

  lemma {:induction false} SortedIsSorted(s: seq<Point>)
    requires Sorted(s)
    ensures SortByCapture(s) == s
  {
    if s != [] {
      SortedIsSorted(s[..|s| - 1]);
      InsertLast(s[..|s| - 1], s[|s| - 1]);
      assert s == s[..|s| - 1] + [s[|s| - 1]];
    }
  }

  lemma {:induction false} InsertLast(s: seq<Point>, p: Point)
    requires forall i :: 0 <= i < |s| ==> s[i].capturedAt <= p.capturedAt
    ensures Insert(s, p) == s + [p]
  {
    if s != [] {
      InsertLast(s[1..], p);
      assert s == [s[0]] + s[1..];
    }
  }

  /** What is left of a sorted history at `cutoff`. */
  function Remaining(s: seq<Point>, cutoff: int, n: nat): seq<Point> {
    LastN(Since(s, cutoff), n)
  }

  /** Forgetting the oldest point is safe if it has expired or enough newer ones follow, whatever comes next. */
  lemma {:induction false} OldestIsExpendable(s: seq<Point>, p: Point, cutoff: int, n: nat)
    requires Sorted(s) && s != [] && (s[0].capturedAt < cutoff || |s| > n)
    ensures Remaining(s, cutoff, n) == Remaining(s[1..], cutoff, n)
    ensures Remaining(Insert(s, p), cutoff, n) == Remaining(Insert(s[1..], p), cutoff, n)
  {
    SinceInsert(s, p, cutoff);
    SinceInsert(s[1..], p, cutoff);
    if s[0].capturedAt < cutoff {
      assert Since(s, cutoff) == Since(s[1..], cutoff);
    } else {
      AllLive(s, cutoff);
      AllLive(s[1..], cutoff);
      OldestOfManyIsExpendable(s, p, n);
    }
  }

  lemma {:induction false} OldestOfManyIsExpendable(s: seq<Point>, p: Point, n: nat)
    requires |s| > n && Sorted(s)
    ensures LastN(Insert(s, p), n) == LastN(Insert(s[1..], p), n) && LastN(s, n) == LastN(s[1..], n)
  {
    var rest := s[1..];
    assert s == [s[0]] + rest;
    LastNIgnoresHead(s[0], rest, n);
    if s[0].capturedAt <= p.capturedAt {
      InsertSize(rest, p);
      LastNIgnoresHead(s[0], Insert(rest, p), n);
    } else {
      InsertBeforeAll(s, p);
      InsertBeforeAll(rest, p);
      LastNIgnoresHead(p, s, n);
      LastNIgnoresHead(p, rest, n);
    }
  }

  lemma LastNIgnoresHead(p: Point, s: seq<Point>, n: nat)
    requires |s| >= n
    ensures LastN([p] + s, n) == LastN(s, n)
  {
  }

  lemma InsertBeforeAll(s: seq<Point>, p: Point)
    requires s == [] || s[0].capturedAt > p.capturedAt
    ensures Insert(s, p) == [p] + s
  {
  }

  lemma InsertSize(s: seq<Point>, p: Point)
    ensures |Insert(s, p)| == |s| + 1
  {
  }

  lemma {:induction false} PrefixIsExpendable(s: seq<Point>, k: nat, p: Point, cutoff: int, n: nat)
    requires Sorted(s) && k <= |s|
    requires forall i :: 0 <= i < k ==> s[i].capturedAt < cutoff || |s| - i > n
    ensures Remaining(s, cutoff, n) == Remaining(s[k..], cutoff, n)
    ensures Remaining(Insert(s, p), cutoff, n) == Remaining(Insert(s[k..], p), cutoff, n)
  {
    if k > 0 {
      OldestIsExpendable(s, p, cutoff, n);
      PrefixIsExpendable(s[1..], k - 1, p, cutoff, n);
      assert s[1..][k - 1..] == s[k..];
    }
  }

  /** Trimming leaves a suffix of the sorted history. */
  lemma {:induction false} SinceIsSuffix(s: seq<Point>, cutoff: int) returns (k: nat)
    requires Sorted(s)
    ensures k <= |s| && Since(s, cutoff) == s[k..]
    ensures forall i :: 0 <= i < k ==> s[i].capturedAt < cutoff
  {
    if s == [] || s[0].capturedAt >= cutoff {
      AllLive(s, cutoff);
      k := 0;
    } else {
      var j := SinceIsSuffix(s[1..], cutoff);
      k := j + 1;
      forall i | 0 <= i < k ensures s[i].capturedAt < cutoff {
        if i > 0 { assert s[i] == s[1..][i - 1]; }
      }
      assert Since(s, cutoff) == Since(s[1..], cutoff);
      assert s[1..][j..] == s[k..];
    }
  }

  lemma {:induction false} TrimIsSuffix(points: seq<Point>, earlier: int, now: int) returns (k: nat)
    requires earlier <= now
    ensures var s := SortByCapture(points);
      && Sorted(s) && k <= |s| && Trim(points, earlier) == s[k..]
      && forall i :: 0 <= i < k ==> s[i].capturedAt < now - HISTORY || |s| - i > MAX_STATISTICS_POINTS
  {
    SortSorts(points);
    SortThenFilter(points, earlier - HISTORY);
    var s := SortByCapture(points);
    var j := SinceIsSuffix(s, earlier - HISTORY);
    k := LastNOfSuffix(s, j, MAX_STATISTICS_POINTS);
  }

  lemma LastNOfSuffix(s: seq<Point>, j: nat, n: nat) returns (k: nat)
    requires j <= |s|
    ensures j <= k <= |s| && LastN(s[j..], n) == s[k..]
    ensures k == j || |s| - k == n
  {
    k := if |s| - j <= n then j else |s| - n;
    assert s[j..][k - j..] == s[k..];
  }

  /** One more trim, or one more frame and a trim: the earlier trim makes no difference. */
  lemma {:induction false} EarlierTrimIsInvisible(points: seq<Point>, p: Point, earlier: int, now: int)
    requires earlier <= now
    ensures Trim(Trim(points, earlier), now) == Trim(points, now)
    ensures Trim(Trim(points, earlier) + [p], now) == Trim(points + [p], now)
  {
    var s := SortByCapture(points);
    var cutoff := now - HISTORY;
    var k := TrimIsSuffix(points, earlier, now);
    PrefixIsExpendable(s, k, p, cutoff, MAX_STATISTICS_POINTS);
    SortedIsSorted(s[k..]);
    SortThenFilter(points, cutoff);
    SortThenFilter(s[k..], cutoff);
    SortThenFilter(points + [p], cutoff);
    SortThenFilter(s[k..] + [p], cutoff);
    SortSnoc(points, p);
    SortSnoc(s[k..], p);
  }

  // ----- the history -----

  datatype History = History(options: Options, points: seq<Point>, framesSincePlot: nat, periodicDue: bool) {
    function Clear(): History { this.(points := [], framesSincePlot := 0, periodicDue := false) }

    function Configure(next: Options, now: int): History {
      var reset := if options != next then this.(framesSincePlot := 0, periodicDue := false) else this;
      var changed := reset.(options := next);
      var kept := if next.Enabled() then changed else changed.Clear();
      kept.(points := Trim(kept.points, now))
    }

    function Record(image: Image, capturedAt: int, now: int, live: bool): History {
      if !Accepts(options, image, capturedAt, now) then this
      else
        var added := this.(points := Trim(points + [PointOf(image, capturedAt)], now));
        if live && options.everyNFrames > 0 then added.Tick() else added
    }

    function Tick(): History {
      if framesSincePlot + 1 >= options.everyNFrames then this.(framesSincePlot := 0, periodicDue := true)
      else this.(framesSincePlot := framesSincePlot + 1)
    }
  }

  /** What happens to a history: frames, polls, a response's chart options, an image privacy marker, a chart sent. */
  datatype Step =
    | Frame(image: Image, capturedAt: int, now: int, live: bool)
    | Poll(now: int)
    | Configured(options: Options, now: int)
    | Cleared(now: int)
    | ChartTaken(now: int)

  function Advance(h: History, step: Step): History {
    match step
    case Frame(image, capturedAt, now, live) => h.Record(image, capturedAt, now, live)
    case Poll(now) => h.(points := Trim(h.points, now))
    case Configured(options, now) => h.Configure(options, now)
    case Cleared(_) => h.Clear()
    case ChartTaken(_) => h.(periodicDue := false)
  }

  function Run(h: History, steps: seq<Step>): History {
    if steps == [] then h else Advance(Run(h, steps[..|steps| - 1]), steps[|steps| - 1])
  }

  /** The options in force after the steps. */
  function OptionsAfter(options: Options, steps: seq<Step>): Options {
    if steps == [] then options
    else
      var step := steps[|steps| - 1];
      if step.Configured? then step.options else OptionsAfter(options, steps[..|steps| - 1])
  }

  /** Steps that forget every point: charts switched off, or image privacy. */
  predicate Forgets(step: Step) {
    step.Cleared? || (step.Configured? && !step.options.Enabled())
  }

  /** Every point accepted since the last step that forgets them, in order of arrival. */
  function AcceptedPoints(options: Options, steps: seq<Step>): seq<Point> {
    if steps == [] then []
    else
      var front, step := steps[..|steps| - 1], steps[|steps| - 1];
      var before := AcceptedPoints(options, front);
      if Forgets(step) then []
      else if step.Frame? && Accepts(OptionsAfter(options, front), step.image, step.capturedAt, step.now)
      then before + [PointOf(step.image, step.capturedAt)] else before
  }

  predicate ClockOrder(steps: seq<Step>) {
    forall i, j :: 0 <= i < j < |steps| ==> steps[i].now <= steps[j].now
  }

  lemma {:induction false} OptionsFollow(h: History, steps: seq<Step>)
    ensures Run(h, steps).options == OptionsAfter(h.options, steps)
  {
    if steps != [] { OptionsFollow(h, steps[..|steps| - 1]); }
  }

  /**
  Main result: as long as the clock does not go back, whatever the options change to, the points
  kept step by step are, after any final poll, those of one trim over everything accepted since
  charts were last switched off or cleared: keep the last 24 hours, sort by capture, keep the
  newest 2,000.
  */
  lemma {:induction false} RollingIsBatch(h: History, steps: seq<Step>, now: int)
    requires h.points == [] && ClockOrder(steps)
    requires forall i :: 0 <= i < |steps| ==> steps[i].now <= now
    ensures Trim(Run(h, steps).points, now) == Trim(AcceptedPoints(h.options, steps), now)
  {
    if steps != [] {
      var front, step := steps[..|steps| - 1], steps[|steps| - 1];
      RollingIsBatch(h, front, step.now);
      RollingIsBatch(h, front, now);
      OptionsFollow(h, front);
      StepIsBatch(Run(h, front), AcceptedPoints(h.options, front), step, now);
    }
  }

  /** One step on a history that agrees with its batch. */
  lemma {:induction false} StepIsBatch(h: History, all: seq<Point>, step: Step, now: int)
    requires step.now <= now
    requires Trim(h.points, step.now) == Trim(all, step.now) && Trim(h.points, now) == Trim(all, now)
    ensures Trim(Advance(h, step).points, now) ==
      Trim(if Forgets(step) then []
           else if step.Frame? && Accepts(h.options, step.image, step.capturedAt, step.now)
           then all + [PointOf(step.image, step.capturedAt)] else all, now)
  {
    if Forgets(step) {
      assert Trim([], step.now) == [];
    } else if step.Poll? || step.Configured? {
      EarlierTrimIsInvisible(h.points, Point(0, false, None, None, ""), step.now, now);
    } else if step.Frame? && Accepts(h.options, step.image, step.capturedAt, step.now) {
      AcceptedFrame(h.points, all, PointOf(step.image, step.capturedAt), step.now, now);
    }
  }

  lemma {:induction false} AcceptedFrame(kept: seq<Point>, all: seq<Point>, p: Point, earlier: int, now: int)
    requires earlier <= now && Trim(kept, earlier) == Trim(all, earlier)
    ensures Trim(Trim(kept + [p], earlier), now) == Trim(all + [p], now)
  {
    EarlierTrimIsInvisible(kept + [p], p, earlier, now);
    EarlierTrimIsInvisible(kept, p, earlier, now);
    EarlierTrimIsInvisible(all, p, earlier, now);
  }

  // ----- the chart cadence -----

  /** Steps that start the count of frames over. */
  predicate Resets(options: Options, step: Step) {
    Forgets(step) || (step.Configured? && step.options != options)
  }

  /** Live light frames since the count last started over. */
  function LiveFrames(options: Options, steps: seq<Step>): nat {
    if steps == [] then 0
    else
      var front, step := steps[..|steps| - 1], steps[|steps| - 1];
      var o := OptionsAfter(options, front);
      if Resets(o, step) then 0
      else
        LiveFrames(options, front)
        + if step.Frame? && step.live && o.everyNFrames > 0 && Accepts(o, step.image, step.capturedAt, step.now) then 1 else 0
  }

  /** That count as it stood when a chart was last taken, or 0 if none was since it started over. */
  function Charted(options: Options, steps: seq<Step>): nat {
    if steps == [] then 0
    else
      var front, step := steps[..|steps| - 1], steps[|steps| - 1];
      if Resets(OptionsAfter(options, front), step) then 0
      else if step.ChartTaken? then LiveFrames(options, front)
      else Charted(options, front)
  }

  /** The cadence state that `total` frames, `charted` of them before the last chart, amount to. */
  predicate KeepsCadence(h: History, total: nat, charted: nat) {
    var n := h.options.everyNFrames;
    && charted <= total
    && (n > 0 ==> h.framesSincePlot == total % n && h.periodicDue == (total / n > charted / n))
    && (n == 0 ==> h.framesSincePlot == 0 && !h.periodicDue && total == 0)
  }

  /**
  A chart is due exactly when the live light frames have completed a group of `n` since the last
  one was taken: the remainder carries over, a backlog makes one chart, and new options start over.
  */
  lemma {:induction false} ChartEveryNFrames(h: History, steps: seq<Step>)
    requires h.framesSincePlot == 0 && !h.periodicDue
    ensures KeepsCadence(Run(h, steps), LiveFrames(h.options, steps), Charted(h.options, steps))
  {
    if steps != [] {
      var front, step := steps[..|steps| - 1], steps[|steps| - 1];
      ChartEveryNFrames(h, front);
      OptionsFollow(h, front);
      CadenceStep(Run(h, front), step, LiveFrames(h.options, front), Charted(h.options, front));
    } else if h.options.everyNFrames > 0 {
      NextQuotient(0, h.options.everyNFrames);
    }
  }

  lemma CadenceStep(h: History, step: Step, total: nat, charted: nat)
    requires KeepsCadence(h, total, charted)
    ensures var counts := step.Frame? && step.live && h.options.everyNFrames > 0
                          && Accepts(h.options, step.image, step.capturedAt, step.now);
      KeepsCadence(Advance(h, step),
                   if Resets(h.options, step) then 0 else total + if counts then 1 else 0,
                   if Resets(h.options, step) then 0 else if step.ChartTaken? then total else charted)
  {
    var n := Advance(h, step).options.everyNFrames;
    if n > 0 {
      NextQuotient(0, n);
      NextQuotient(total, n);
      QuotientGrows(charted, total, n);
    }
  }

  lemma NextQuotient(total: nat, n: nat)
    requires n > 0
    ensures (total + 1) % n == if total % n + 1 >= n then 0 else total % n + 1
    ensures (total + 1) / n == total / n + if total % n + 1 >= n then 1 else 0
    ensures 0 % n == 0 && 0 / n == 0
  {
    var q, r := total / n, total % n;
    assert total == q * n + r;
    if r + 1 < n {
      Division(total + 1, q, r + 1, n);
    } else {
      assert (q + 1) * n == q * n + n;
      Division(total + 1, q + 1, 0, n);
    }
    Division(0, 0, 0, n);
  }

  lemma Division(a: nat, q: nat, r: nat, n: nat)
    requires r < n && a == q * n + r
    ensures a / n == q && a % n == r
  {
    var d := a / n - q;
    assert d * n == (a / n) * n - q * n == r - a % n;
    SmallMultiple(d, n);
  }

  lemma QuotientGrows(a: nat, b: nat, n: nat)
    requires n > 0 && a <= b
    ensures a / n <= b / n
    decreases b - a
  {
    if a < b {
      QuotientGrows(a, b - 1, n);
      NextQuotient(b - 1, n);
    }
  }

  lemma SmallMultiple(d: int, n: int)
    requires -n < d * n < n
    ensures d == 0
  {
  }

  // ----- the mutable history -----

  class LightFrameHistory {
    var options: Options
    var points: seq<Point>
    var framesSincePlot: nat
    var periodicDue: bool

    function View(): History
      reads this
    {
      History(options, points, framesSincePlot, periodicDue)
    }

    constructor ()
      ensures View() == History(Options(0, false), [], 0, false)
    {
      options, points, framesSincePlot, periodicDue := Options(0, false), [], 0, false;
    }

    method Configure(next: Options, now: int)
      modifies this
      ensures View() == old(View()).Configure(next, now)
    {
      if options != next {
        framesSincePlot := 0;
        periodicDue := false;
      }
      options := next;
      if !next.Enabled() {
        Clear();
      }
      TrimPoints(now);
    }

    method Clear()
      modifies this
      ensures View() == old(View()).Clear()
    {
      points := [];
      framesSincePlot := 0;
      periodicDue := false;
    }

    method Record(image: Image, capturedAt: int, now: int, live: bool)
      modifies this
      ensures View() == old(View()).Record(image, capturedAt, now, live)
    {
      if !options.Enabled() || !image.chatEnabled || image.imageType != "LIGHT"
         || capturedAt < now - HISTORY || capturedAt > now + CLOCK_SKEW {
        return;
      }
      points := points + [PointOf(image, capturedAt)];
      TrimPoints(now);
      if live && options.everyNFrames > 0 {
        framesSincePlot := framesSincePlot + 1;
        if framesSincePlot >= options.everyNFrames {
          framesSincePlot := 0;
          periodicDue := true;
        }
      }
    }

    method TakePeriodicDue() returns (due: bool)
      modifies this`periodicDue
      ensures due == old(periodicDue) && !periodicDue
    {
      due := periodicDue;
      periodicDue := false;
    }

    method Snapshot(now: int) returns (snapshot: seq<Point>)
      modifies this`points
      ensures snapshot == points == Trim(old(points), now)
    {
      TrimPoints(now);
      snapshot := points;
    }

    method TrimPoints(now: int)
      modifies this`points
      ensures points == Trim(old(points), now)
    {
      points := Since(points, now - HISTORY);
      points := SortByCapture(points);
      if |points| > MAX_STATISTICS_POINTS {
        points := points[|points| - MAX_STATISTICS_POINTS..];
      }
    }
  }
}
