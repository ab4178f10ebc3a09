/**
Both chart splitters cut a series into maximal runs: `contiguous_finite_runs` at samples
that are not finite, the image-statistics loop also where the filter changes.

A series is read as one label per sample, `None` for a gap. `Split` is the cut and
`IsSplit` says what any correct cut is; the two agree because there is only one.
*/
module ChartSegments {
  import opened Wrappers

  function Flatten<T>(runs: seq<seq<T>>): seq<T> {
    if runs == [] then [] else Flatten(runs[..|runs| - 1]) + runs[|runs| - 1]
  }

  /** The positions that hold a sample, in order. */
  function Samples<L>(labels: seq<Option<L>>): seq<nat> {
    if labels == [] then []
    else Samples(labels[..|labels| - 1]) + if labels[|labels| - 1].Some? then [|labels| - 1] else []
  }

  /** Positions `i` and `i + 1` belong together. */
  predicate Joined<L(==)>(labels: seq<Option<L>>, i: int, j: int) {
    0 <= i < |labels| && j == i + 1 < |labels| && labels[i].Some? && labels[i] == labels[j]
  }

  ghost predicate IsRun<L>(labels: seq<Option<L>>, run: seq<nat>) {
    run != [] && forall k :: 0 <= k < |run| - 1 ==> Joined(labels, run[k], run[k + 1])
  }

  /** Gap-free and maximal: samples of a run belong together, samples of two runs do not. */
  ghost predicate Cuts<L>(labels: seq<Option<L>>, runs: seq<seq<nat>>) {
    && (forall r :: 0 <= r < |runs| ==> IsRun(labels, runs[r]))
    && (forall r, t :: 0 <= r && t == r + 1 < |runs| ==>
          runs[r] != [] && runs[t] != [] && !Joined(labels, runs[r][|runs[r]| - 1], runs[t][0]))
  }

  /** Lossless, gap-free and maximal. */
  ghost predicate IsSplit<L>(labels: seq<Option<L>>, runs: seq<seq<nat>>) {
    Flatten(runs) == Samples(labels) && Cuts(labels, runs)
  }

  function Split<L(==)>(labels: seq<Option<L>>): seq<seq<nat>> {
    if labels == [] then []
    else
      var n := |labels| - 1;
      var runs := Split(labels[..n]);
      if labels[n].None? then runs
      else if runs != [] && runs[|runs| - 1] != [] && Joined(labels, runs[|runs| - 1][|runs[|runs| - 1]| - 1], n)
      then runs[..|runs| - 1] + [runs[|runs| - 1] + [n]]
      else runs + [[n]]
  }

  lemma FlattenSnoc<T>(runs: seq<seq<T>>, run: seq<T>)
    ensures Flatten(runs + [run]) == Flatten(runs) + run
  {
    assert (runs + [run])[..|runs|] == runs;
  }

  lemma {:induction false} IsRunOfPrefix<L>(labels: seq<Option<L>>, n: nat, run: seq<nat>)
    requires n <= |labels| && IsRun(labels[..n], run)
    ensures IsRun(labels, run)
  {
    forall k | 0 <= k < |run| - 1 ensures Joined(labels, run[k], run[k + 1]) {
      assert Joined(labels[..n], run[k], run[k + 1]);
    }
  }

  lemma {:induction false} SamplesInRange<L>(labels: seq<Option<L>>)
    ensures forall k :: 0 <= k < |Samples(labels)| ==> Samples(labels)[k] < |labels| && labels[Samples(labels)[k]].Some?
    ensures forall j, k :: 0 <= j < k < |Samples(labels)| ==> Samples(labels)[j] < Samples(labels)[k]
  {
    if labels != [] {
      SamplesInRange(labels[..|labels| - 1]);
    }
  }

  lemma {:induction false} LastIsInFlatten(runs: seq<seq<nat>>)
    requires runs != [] && runs[|runs| - 1] != []
    ensures Flatten(runs) != []
    ensures Flatten(runs)[|Flatten(runs)| - 1] == runs[|runs| - 1][|runs[|runs| - 1]| - 1]
  {
  }

  lemma {:induction false} FlattenAt(runs: seq<seq<nat>>, r: nat, k: nat)
    requires r < |runs| && k < |runs[r]|
    ensures runs[r][k] in Flatten(runs)
  {
    if r < |runs| - 1 {
      FlattenAt(runs[..|runs| - 1], r, k);
    }
  }

  /** The split of a series is a correct cut. */
  lemma {:induction false} SplitIsSplit<L>(labels: seq<Option<L>>)
    ensures IsSplit(labels, Split(labels))
  {
    if labels != [] {
      var n := |labels| - 1;
      var runs := Split(labels[..n]);
      SplitIsSplit(labels[..n]);
      SamplesInRange(labels[..n]);
      forall r | 0 <= r < |runs| ensures IsRun(labels, runs[r]) {
        IsRunOfPrefix(labels, n, runs[r]);
      }
      forall r, t | 0 <= r && t == r + 1 < |runs| ensures !Joined(labels, runs[r][|runs[r]| - 1], runs[t][0]) {
        FlattenAt(runs, t, 0);
        assert !Joined(labels[..n], runs[r][|runs[r]| - 1], runs[t][0]);
      }
      if labels[n].Some? {
        AppendSample(labels, runs);
      }
    }
  }

  lemma {:induction false} AppendSample<L>(labels: seq<Option<L>>, runs: seq<seq<nat>>)
    requires labels != [] && labels[|labels| - 1].Some?
    requires runs == Split(labels[..|labels| - 1]) && Flatten(runs) == Samples(labels[..|labels| - 1])
    requires Cuts(labels, runs)
    ensures IsSplit(labels, Split(labels))
  {
    var n, m := |labels| - 1, |runs| - 1;
    if runs != [] && Joined(labels, runs[m][|runs[m]| - 1], n) {
      ExtendLastRun(labels, runs, n);
    } else {
      StartRun(labels, runs, n);
    }
  }

  lemma {:induction false} StartRun<L>(labels: seq<Option<L>>, runs: seq<seq<nat>>, n: nat)
    requires Cuts(labels, runs)
    requires runs != [] ==> !Joined(labels, runs[|runs| - 1][|runs[|runs| - 1]| - 1], n)
    ensures Cuts(labels, runs + [[n]]) && Flatten(runs + [[n]]) == Flatten(runs) + [n]
  {
    FlattenSnoc(runs, [n]);
    StartedRunCuts(labels, runs, n);
  }

  lemma {:induction false} StartedRunCuts<L>(labels: seq<Option<L>>, runs: seq<seq<nat>>, n: nat)
    requires Cuts(labels, runs)
    requires runs != [] ==> !Joined(labels, runs[|runs| - 1][|runs[|runs| - 1]| - 1], n)
    ensures Cuts(labels, runs + [[n]])
  {
    var longer := runs + [[n]];
    assert IsRun(labels, [n]);
    forall r | 0 <= r < |longer| ensures IsRun(labels, longer[r]) {
      assert longer[r] == if r < |runs| then runs[r] else [n];
    }
    forall r, t | 0 <= r && t == r + 1 < |longer|
      ensures longer[r] != [] && longer[t] != [] && !Joined(labels, longer[r][|longer[r]| - 1], longer[t][0])
    {
      assert longer[r] == runs[r] && IsRun(labels, runs[r]);
      if t < |runs| { assert longer[t] == runs[t]; }
    }
  }

  lemma {:induction false} ExtendLastRun<L>(labels: seq<Option<L>>, runs: seq<seq<nat>>, n: nat)
    requires runs != [] && Cuts(labels, runs) && Joined(labels, runs[|runs| - 1][|runs[|runs| - 1]| - 1], n)
    ensures var m := |runs| - 1; var longer := runs[..m] + [runs[m] + [n]];
      Cuts(labels, longer) && Flatten(longer) == Flatten(runs) + [n]
  {
    var m := |runs| - 1;
    var longer := runs[..m] + [runs[m] + [n]];
    assert runs == runs[..m] + [runs[m]];
    FlattenSnoc(runs[..m], runs[m]);
    FlattenSnoc(runs[..m], runs[m] + [n]);
    assert Flatten(runs[..m]) + (runs[m] + [n]) == Flatten(runs) + [n];
    assert IsRun(labels, longer[m]);
    forall r, t | 0 <= r && t == r + 1 < |longer|
      ensures longer[r] != [] && longer[t] != [] && !Joined(labels, longer[r][|longer[r]| - 1], longer[t][0])
    {
      assert IsRun(labels, runs[t]);
      assert longer[t][0] == runs[t][0] && longer[r] == runs[r];
    }
  }

  /** There is no other correct cut: lossless, gap-free and maximal leave no choice. */
  lemma {:induction false} SplitIsUnique<L>(labels: seq<Option<L>>, a: seq<seq<nat>>, b: seq<seq<nat>>)
    requires IsSplit(labels, a) && IsSplit(labels, b)
    ensures a == b
  {
    SameCuts(labels, a, b);
  }

  lemma {:induction false} SameCuts<L>(labels: seq<Option<L>>, a: seq<seq<nat>>, b: seq<seq<nat>>)
    requires Cuts(labels, a) && Cuts(labels, b) && Flatten(a) == Flatten(b)
    ensures a == b
    decreases |a|
  {
    if a == [] || b == [] {
      SomeRunsSomeSamples(labels, a);
      SomeRunsSomeSamples(labels, b);
    } else {
      SameLastRun(labels, a, b);
      CutsFront(labels, a);
      CutsFront(labels, b);
      SameCuts(labels, a[..|a| - 1], b[..|b| - 1]);
      SameEnds(a, b);
    }
  }

  lemma SomeRunsSomeSamples<L>(labels: seq<Option<L>>, runs: seq<seq<nat>>)
    requires Cuts(labels, runs)
    ensures Flatten(runs) == [] <==> runs == []
  {
    if runs != [] { assert IsRun(labels, runs[|runs| - 1]); }
  }

  lemma CutsFront<L>(labels: seq<Option<L>>, runs: seq<seq<nat>>)
    requires Cuts(labels, runs) && runs != []
    ensures Cuts(labels, runs[..|runs| - 1])
  {
  }

  lemma SameEnds(a: seq<seq<nat>>, b: seq<seq<nat>>)
    requires a != [] && b != [] && a[..|a| - 1] == b[..|b| - 1] && a[|a| - 1] == b[|b| - 1]
    ensures a == b
  {
    assert a == a[..|a| - 1] + [a[|a| - 1]] && b == b[..|b| - 1] + [b[|b| - 1]];
  }

  lemma {:induction false} SameLastRun<L>(labels: seq<Option<L>>, a: seq<seq<nat>>, b: seq<seq<nat>>)
    requires Cuts(labels, a) && Cuts(labels, b) && Flatten(a) == Flatten(b) && a != [] && b != []
    ensures a[|a| - 1] == b[|b| - 1]
    ensures Flatten(a[..|a| - 1]) == Flatten(b[..|b| - 1])
  {
    LastRun(a);
    LastRun(b);
    LastRunIsLongest(labels, a, b[|b| - 1]);
    LastRunIsLongest(labels, b, a[|a| - 1]);
  }

  lemma LastRun(a: seq<seq<nat>>)
    requires a != []
    ensures var x, all := a[|a| - 1], Flatten(a);
      |x| <= |all| && x == all[|all| - |x|..] && Flatten(a[..|a| - 1]) == all[..|all| - |x|]
  {
  }

  predicate JoinedAt<L(==)>(labels: seq<Option<L>>, all: seq<nat>, k: int) {
    0 < k < |all| && Joined(labels, all[k - 1], all[k])
  }

  /** No run that ends a cut's samples is longer than the cut's own last run. */
  lemma {:induction false} LastRunIsLongest<L>(labels: seq<Option<L>>, a: seq<seq<nat>>, y: seq<nat>)
    requires a != [] && Cuts(labels, a) && IsRun(labels, y) && |y| <= |Flatten(a)|
    requires Flatten(a)[|Flatten(a)| - |y|..] == y
    ensures |y| <= |a[|a| - 1]|
  {
    BoundaryIsCut(labels, a);
    RunIsJoined(labels, Flatten(a), y);
  }

  lemma {:induction false} BoundaryIsCut<L>(labels: seq<Option<L>>, a: seq<seq<nat>>)
    requires a != [] && Cuts(labels, a)
    ensures !JoinedAt(labels, Flatten(a), |Flatten(a)| - |a[|a| - 1]|)
    ensures |a| == 1 ==> Flatten(a) == a[0]
  {
    var i := |a| - 1;
    assert Flatten(a) == Flatten(a[..i]) + a[i];
    if i > 0 {
      LastIsInFlatten(a[..i]);
    }
  }

  lemma {:induction false} RunIsJoined<L>(labels: seq<Option<L>>, all: seq<nat>, y: seq<nat>)
    requires IsRun(labels, y) && |y| <= |all| && all[|all| - |y|..] == y
    ensures forall k :: |all| - |y| < k < |all| ==> JoinedAt(labels, all, k)
  {
    forall k | |all| - |y| < k < |all| ensures JoinedAt(labels, all, k) {
      var q := k - (|all| - |y|);
      assert all[k] == y[q] && all[k - 1] == y[q - 1];
      assert Joined(labels, y[q - 1], y[q - 1 + 1]);
    }
  }

  // ----- the two splitters -----

  function Finite(values: seq<Option<real>>): (labels: seq<Option<bool>>)
    ensures |labels| == |values|
    ensures forall i :: 0 <= i < |values| ==> labels[i] == if values[i].Some? then Some(true) else None
  {
    seq(|values|, i requires 0 <= i < |values| => if values[i].Some? then Some(true) else None)
  }

  /** The samples at the given positions, each with its position. */
  function Indexed(values: seq<Option<real>>, run: seq<nat>): seq<(nat, real)> {
    if run == [] then []
    else Indexed(values, run[..|run| - 1])
         + if run[|run| - 1] < |values| && values[run[|run| - 1]].Some?
           then [(run[|run| - 1], values[run[|run| - 1]].value)] else []
  }

  function IndexedRuns(values: seq<Option<real>>, runs: seq<seq<nat>>): seq<seq<(nat, real)>> {
    if runs == [] then []
    else IndexedRuns(values, runs[..|runs| - 1]) + [Indexed(values, runs[|runs| - 1])]
  }

  /** The run under construction, and the finished ones, make up the split so far. */
  ghost predicate Building<L>(labels: seq<Option<L>>, done: seq<seq<nat>>, current: seq<nat>) {
    && Split(labels) == (if current == [] then done else done + [current])
    && (current != [] ==> current[|current| - 1] == |labels| - 1)
    && (current == [] && labels != [] ==> labels[|labels| - 1].None?)
  }

  lemma {:induction false} BuildStep<L>(labels: seq<Option<L>>, next: Option<L>, done: seq<seq<nat>>, current: seq<nat>)
    requires Building(labels, done, current)
    requires current == [] ==> done == [] || (labels != [] && labels[|labels| - 1].None?)
    ensures var n := |labels|; var grown := labels + [next];
      if next.None? then Building(grown, if current == [] then done else done + [current], [])
      else if current != [] && labels[n - 1] == next then Building(grown, done, current + [n])
      else Building(grown, if current == [] then done else done + [current], [n])
  {
    var n, grown := |labels|, labels + [next];
    assert grown[..n] == labels;
    var runs := Split(labels);
    if next.Some? && current == [] && runs != [] {
      SplitIsSplit(labels);
      SamplesInRange(labels);
      LastIsInFlatten(runs);
      assert runs[|runs| - 1][|runs[|runs| - 1]| - 1] < n - 1 by {
        var s := Samples(labels);
        assert s[|s| - 1] < n;
        assert labels[s[|s| - 1]].Some?;
      }
    }
    if current != [] {
      assert (done + [current])[..|done|] == done;
    }
  }

  /** What is being built, if anything, is finished. */
  function Ended<T>(finished: seq<T>, none: bool, last: T): seq<T> { if none then finished else finished + [last] }

  /** `BuildStep` along one series. */
  lemma LabelStep<L>(labels: seq<Option<L>>, i: nat, done: seq<seq<nat>>, building: seq<nat>)
    requires i < |labels| && Building(labels[..i], done, building)
    requires building == [] ==> done == [] || (i > 0 && labels[i - 1].None?)
    ensures
      if labels[i].None? then Building(labels[..i + 1], Ended(done, building == [], building), [])
      else if building != [] && i > 0 && labels[i - 1] == labels[i] then Building(labels[..i + 1], done, building + [i])
      else Building(labels[..i + 1], Ended(done, building == [], building), [i])
  {
    BuildStep(labels[..i], labels[i], done, building);
    assert labels[..i + 1] == labels[..i] + [labels[i]];
  }

  lemma IndexedSnoc(values: seq<Option<real>>, run: seq<nat>, i: nat)
    requires i < |values| && values[i].Some?
    ensures Indexed(values, run + [i]) == Indexed(values, run) + [(i, values[i].value)]
  {
    assert (run + [i])[..|run|] == run;
  }

  lemma IndexedRunsSnoc(values: seq<Option<real>>, runs: seq<seq<nat>>, run: seq<nat>)
    ensures IndexedRuns(values, runs + [run]) == IndexedRuns(values, runs) + [Indexed(values, run)]
  {
    assert (runs + [run])[..|runs|] == runs;
  }

  /** Splits a series into runs of consecutive finite samples, keeping the original indices. */
  method ContiguousFiniteRuns(values: seq<Option<real>>) returns (runs: seq<seq<(nat, real)>>)
    ensures runs == IndexedRuns(values, Split(Finite(values)))
  {
    runs := [];
    var current: seq<(nat, real)> := [];
    ghost var done: seq<seq<nat>> := [];
    ghost var building: seq<nat> := [];
    ghost var labels := Finite(values);
    for i := 0 to |values|
      invariant Building(labels[..i], done, building)
      invariant runs == IndexedRuns(values, done)
      invariant current == Indexed(values, building) && (current == [] <==> building == [])
      invariant building != [] ==> values[i - 1].Some?
    {
      LabelStep(labels, i, done, building);
      if values[i].Some? {
        IndexedSnoc(values, building, i);
        current := current + [(i, values[i].value)];
        building := building + [i];
      } else if current != [] {
        IndexedRunsSnoc(values, done, building);
        runs := runs + [current];
        done := done + [building];
        current, building := [], [];
      }
    }
    assert labels[..|values|] == labels;
    if current != [] {
      IndexedRunsSnoc(values, done, building);
      runs := runs + [current];
    }
  }

  /** A plotted frame: its trimmed filter name, seconds since the first frame, and its measurement. */
  datatype Sample = Sample(filter: string, elapsed: real, value: Option<real>)

  function Filters(samples: seq<Sample>): (labels: seq<Option<string>>)
    ensures |labels| == |samples|
    ensures forall i :: 0 <= i < |samples| ==>
      labels[i] == if samples[i].value.Some? then Some(samples[i].filter) else None
  {
    seq(|samples|, i requires 0 <= i < |samples| => if samples[i].value.Some? then Some(samples[i].filter) else None)
  }

  datatype Segment = Segment(color: nat, points: seq<(real, real)>)

  function Mark(s: Sample, scale: real): (real, real)
    requires scale != 0.0 && s.value.Some?
  {
    (s.elapsed, s.value.value / scale)
  }

  function Plotted(samples: seq<Sample>, scale: real, run: seq<nat>): seq<(real, real)>
    requires scale != 0.0
  {
    if run == [] then []
    else Plotted(samples, scale, run[..|run| - 1])
         + if run[|run| - 1] < |samples| && samples[run[|run| - 1]].value.Some?
           then [Mark(samples[run[|run| - 1]], scale)] else []
  }

  /** A run in the colour of the filter its last frame was taken with. */
  function Coloured(samples: seq<Sample>, scale: real, colors: map<string, nat>, run: seq<nat>): Segment
    requires scale != 0.0 && run != [] && run[|run| - 1] < |samples| && samples[run[|run| - 1]].filter in colors
  {
    Segment(colors[samples[run[|run| - 1]].filter], Plotted(samples, scale, run))
  }

  ghost predicate Draws(samples: seq<Sample>, scale: real, colors: map<string, nat>, segments: seq<Segment>, runs: seq<seq<nat>>)
    requires scale != 0.0
  {
    && |segments| == |runs|
    && forall r :: 0 <= r < |runs| ==>
      && runs[r] != [] && runs[r][|runs[r]| - 1] < |samples| && samples[runs[r][|runs[r]| - 1]].filter in colors
      && segments[r] == Coloured(samples, scale, colors, runs[r])
  }

  lemma PlottedSnoc(samples: seq<Sample>, scale: real, run: seq<nat>, i: nat)
    requires scale != 0.0 && i < |samples| && samples[i].value.Some?
    ensures Plotted(samples, scale, run + [i])
         == Plotted(samples, scale, run) + [Mark(samples[i], scale)]
  {
    assert (run + [i])[..|run|] == run;
  }

  /** What the loop carries besides the segments already finished. */
  ghost predicate Carrying(samples: seq<Sample>, scale: real, colors: map<string, nat>, building: seq<nat>,
                           current: seq<(real, real)>, currentColor: nat, previousFilter: string)
    requires scale != 0.0
  {
    && current == Plotted(samples, scale, building) && (current == [] <==> building == [])
    && (building != [] ==>
         && building[|building| - 1] < |samples| && samples[building[|building| - 1]].filter == previousFilter
         && previousFilter in colors && colors[previousFilter] == currentColor)
  }

  lemma DrawsSnoc(samples: seq<Sample>, scale: real, colors: map<string, nat>, segments: seq<Segment>,
                  runs: seq<seq<nat>>, building: seq<nat>, current: seq<(real, real)>, color: nat, filter: string)
    requires scale != 0.0 && building != []
    requires Draws(samples, scale, colors, segments, runs)
    requires Carrying(samples, scale, colors, building, current, color, filter)
    ensures Draws(samples, scale, colors, segments + [Segment(color, current)], runs + [building])
  {
  }

  /** A measured frame joins what is being drawn, or starts it. */
  lemma CarryOn(samples: seq<Sample>, scale: real, colors: map<string, nat>, building: seq<nat>,
                current: seq<(real, real)>, color: nat, filter: string, i: nat)
    requires scale != 0.0 && i < |samples| && samples[i].value.Some? && samples[i].filter in colors
    requires Carrying(samples, scale, colors, building, current, color, filter)
    ensures Carrying(samples, scale, colors, building + [i], current + [Mark(samples[i], scale)],
                     colors[samples[i].filter], samples[i].filter)
  {
    PlottedSnoc(samples, scale, building, i);
  }

  /** The loop's variables, and which frames make up the segments finished and the one being drawn. */
  datatype Sketch = Sketch(
    segments: seq<Segment>, current: seq<(real, real)>, color: nat, filter: string, done: seq<seq<nat>>, building: seq<nat>)
  {
    function Ended(): Sketch {
      if current == [] then this
      else this.(segments := segments + [Segment(color, current)], current := [], done := done + [building], building := [])
    }

    function Extended(s: Sample, scale: real, colors: map<string, nat>, i: nat): Sketch
      requires scale != 0.0 && s.value.Some? && s.filter in colors
    {
      this.(current := current + [Mark(s, scale)], color := colors[s.filter], building := building + [i])
    }

    /** One turn of the loop. */
    function Turn(s: Sample, scale: real, colors: map<string, nat>, i: nat): Sketch
      requires scale != 0.0 && s.filter in colors
    {
      var kept := if s.value.None? || s.filter != filter then Ended() else this;
      var drawn := if s.value.Some? then kept.Extended(s, scale, colors, i) else kept;
      drawn.(filter := s.filter)
    }
  }

  predicate Coloring(samples: seq<Sample>, colors: map<string, nat>) {
    forall i :: 0 <= i < |samples| ==> samples[i].filter in colors
  }

  function Sketching(samples: seq<Sample>, scale: real, colors: map<string, nat>, i: nat): Sketch
    requires scale != 0.0 && i <= |samples| && Coloring(samples, colors)
  {
    if i == 0 then Sketch([], [], 0, "", [], [])
    else Sketching(samples, scale, colors, i - 1).Turn(samples[i - 1], scale, colors, i - 1)
  }

  /** The sketch after `i` frames stands for the split of their labels. */
  ghost predicate Sketched(samples: seq<Sample>, scale: real, colors: map<string, nat>, i: nat, k: Sketch)
    requires scale != 0.0 && i <= |samples|
  {
    && Building(Filters(samples)[..i], k.done, k.building)
    && Draws(samples, scale, colors, k.segments, k.done)
    && Carrying(samples, scale, colors, k.building, k.current, k.color, k.filter)
    && (if k.building != [] then i > 0 && Filters(samples)[i - 1] == Some(k.filter)
        else k.done == [] || (i > 0 && Filters(samples)[i - 1].None?))
  }

  lemma EndedDraws(samples: seq<Sample>, scale: real, colors: map<string, nat>, i: nat, k: Sketch)
    requires scale != 0.0 && i <= |samples| && Sketched(samples, scale, colors, i, k)
    ensures Draws(samples, scale, colors, k.Ended().segments, k.Ended().done)
    ensures k.Ended().done == Ended(k.done, k.building == [], k.building) && k.Ended().building == [] && k.Ended().current == []
  {
    if k.building != [] {
      DrawsSnoc(samples, scale, colors, k.segments, k.done, k.building, k.current, k.color, k.filter);
    }
  }

  lemma GapFrame(samples: seq<Sample>, scale: real, colors: map<string, nat>, i: nat, k: Sketch)
    requires scale != 0.0 && i < |samples| && Sketched(samples, scale, colors, i, k)
    requires samples[i].value.None? && samples[i].filter in colors
    ensures Sketched(samples, scale, colors, i + 1, k.Turn(samples[i], scale, colors, i))
  {
    LabelStep(Filters(samples), i, k.done, k.building);
    EndedDraws(samples, scale, colors, i, k);
  }

  lemma FirstFrame(samples: seq<Sample>, scale: real, colors: map<string, nat>, i: nat, k: Sketch)
    requires scale != 0.0 && i < |samples| && Sketched(samples, scale, colors, i, k)
    requires samples[i].value.Some? && samples[i].filter in colors && (samples[i].filter != k.filter || k.building == [])
    ensures Sketched(samples, scale, colors, i + 1, k.Turn(samples[i], scale, colors, i))
  {
    LabelStep(Filters(samples), i, k.done, k.building);
    EndedDraws(samples, scale, colors, i, k);
    CarryOn(samples, scale, colors, [], [], k.color, k.filter, i);
    assert [] + [i] == [i];
  }

  lemma NextFrame(samples: seq<Sample>, scale: real, colors: map<string, nat>, i: nat, k: Sketch)
    requires scale != 0.0 && i < |samples| && Sketched(samples, scale, colors, i, k)
    requires samples[i].value.Some? && samples[i].filter in colors && samples[i].filter == k.filter && k.building != []
    ensures Sketched(samples, scale, colors, i + 1, k.Turn(samples[i], scale, colors, i))
  {
    LabelStep(Filters(samples), i, k.done, k.building);
    CarryOn(samples, scale, colors, k.building, k.current, k.color, k.filter, i);
  }

  lemma TurnIsSketched(samples: seq<Sample>, scale: real, colors: map<string, nat>, i: nat, k: Sketch)
    requires scale != 0.0 && i < |samples| && Sketched(samples, scale, colors, i, k) && samples[i].filter in colors
    ensures Sketched(samples, scale, colors, i + 1, k.Turn(samples[i], scale, colors, i))
  {
    if samples[i].value.None? {
      GapFrame(samples, scale, colors, i, k);
    } else if samples[i].filter != k.filter || k.building == [] {
      FirstFrame(samples, scale, colors, i, k);
    } else {
      NextFrame(samples, scale, colors, i, k);
    }
  }

  lemma NothingSketched(samples: seq<Sample>, scale: real, colors: map<string, nat>)
    requires scale != 0.0
    ensures Sketched(samples, scale, colors, 0, Sketch([], [], 0, "", [], []))
  {
  }

  lemma {:induction false} SketchingIsSketched(samples: seq<Sample>, scale: real, colors: map<string, nat>, i: nat)
    requires scale != 0.0 && i <= |samples| && Coloring(samples, colors)
    ensures Sketched(samples, scale, colors, i, Sketching(samples, scale, colors, i))
  {
    if i == 0 {
      NothingSketched(samples, scale, colors);
    } else {
      SketchingIsSketched(samples, scale, colors, i - 1);
      TurnIsSketched(samples, scale, colors, i - 1, Sketching(samples, scale, colors, i - 1));
    }
  }

  lemma FinishedDraws(samples: seq<Sample>, scale: real, colors: map<string, nat>)
    requires scale != 0.0 && Coloring(samples, colors)
    ensures Draws(samples, scale, colors, Sketching(samples, scale, colors, |samples|).Ended().segments, Split(Filters(samples)))
  {
    SketchingIsSketched(samples, scale, colors, |samples|);
    EndedDraws(samples, scale, colors, |samples|, Sketching(samples, scale, colors, |samples|));
    assert Filters(samples)[..|samples|] == Filters(samples);
  }

  /** One segment per maximal run of measured frames through one filter, in that filter's colour. */
  method FilterSegments(samples: seq<Sample>, scale: real, colors: map<string, nat>) returns (segments: seq<Segment>)
    requires scale != 0.0 && Coloring(samples, colors)
    ensures Draws(samples, scale, colors, segments, Split(Filters(samples)))
  {
    segments := [];
    var current: seq<(real, real)> := [];
    var previousFilter := "";
    var currentColor := 0;
    for i := 0 to |samples|
      invariant var k := Sketching(samples, scale, colors, i);
        segments == k.segments && current == k.current && currentColor == k.color && previousFilter == k.filter
    {
      var s := samples[i];
      if (s.value.None? || s.filter != previousFilter) && current != [] {
        segments := segments + [Segment(currentColor, current)];
        current := [];
      }
      if s.value.Some? {
        currentColor := colors[s.filter];
        current := current + [Mark(s, scale)];
      }
      previousFilter := s.filter;
    }
    FinishedDraws(samples, scale, colors);
    if current != [] {
      segments := segments + [Segment(currentColor, current)];
    }
  }
}
