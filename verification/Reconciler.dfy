/**
The reconciler that turns successive snapshots of the sequence tree into a lifecycle
stream per operation.

Hash-map iteration order is arbitrary, so each walk over a map is given the order it
happens to take; results hold for every order.
*/
module Reconciler {
  import opened Wrappers
  import opened SeenSet
  import opened SequenceOperations
  import EventNames

  const CENTER_EVENT_WINDOW: int := 120_000_000_000

  datatype Update =
    | Started
    | Progress(percent: nat)
    | Output
    | Finished(attachOutput: bool)
    | Ended(attachOutput: bool)
    | Failed(attachOutput: bool)
  {
    predicate Terminal() { Finished? || Ended? || Failed? }

    predicate ShowsOutput() { Output? || (Terminal() && attachOutput) }
  }

  /** A notification, with the operation as it was tracked at that point. */
  datatype Note = Note(key: string, tracked: Tracked, update: Update)

  /** One snapshot, and the orders in which the maps happen to be walked. */
  datatype Poll = Poll(
    operations: seq<Operation>, suppressed: set<string>, camera: Option<Camera>, announce: bool, now: int,
    centerOrder: seq<string>, trackedOrder: seq<string>, incomingOrder: seq<string>)

  // ----- the snapshot -----

  /** Later operations win; a known center keeps its classification; suppressed ones are dropped. */
  function Incoming(tracked: map<string, Tracked>, p: Poll, operations: seq<Operation>): map<string, Operation> {
    if operations == [] then map[]
    else
      var before, op := Incoming(tracked, p, operations[..|operations| - 1]), operations[|operations| - 1];
      if op.key in p.suppressed then before
      else
        var wasCenter := op.key in tracked && tracked[op.key].operation.kind.MountCenter?;
        before[op.key := if wasCenter then op.Promoted() else op]
  }

  predicate CenterCandidate(op: Operation) {
    op.status.Active? && (op.kind.MountCenter? || op.Promotable())
  }

  /** The first active center, or coordinate item that may be one, in walking order. */
  function ChooseCenter(incoming: map<string, Operation>, order: seq<string>): Option<string> {
    if order == [] then None
    else if order[0] in incoming && CenterCandidate(incoming[order[0]]) then Some(order[0])
    else ChooseCenter(incoming, order[1..])
  }

  function PromoteIn(incoming: map<string, Operation>, k: string): map<string, Operation>
    requires k in incoming
  {
    incoming[k := incoming[k].Promoted()]
  }

  function PromoteTracked(tracked: map<string, Tracked>, k: string): map<string, Tracked> {
    if k in tracked then tracked[k := tracked[k].(operation := tracked[k].operation.Promoted())] else tracked
  }

  // ----- one key -----

  function WithCamera(t: Tracked, camera: Option<Camera>): Tracked {
    if t.operation.kind.UsesCamera() then t.(camera := camera) else t
  }

  function Refreshed(t: Tracked, next: Operation, camera: Option<Camera>): Tracked {
    var r := t.(operation := next);
    if next.kind.UsesCamera() then
      r.(initialTemperature :=
           if t.initialTemperature.None? && camera.Some? then camera.value.temperature else t.initialTemperature,
         camera := camera)
    else if next.kind.TimeWait? then r.(estimatedEnd := r.IntrinsicEnd())
    else r
  }

  function Milestone(t: Tracked, now: int): Tracked {
    if t.NextMilestone(now).Some? then t.(lastMilestone := t.NextMilestone(now).value) else t
  }

  /** A solve result the tracked operation has not carried yet. */
  predicate NewOutput(t: Tracked, next: Operation) {
    next.OutputKey().Some? && next.OutputKey() != t.lastOutputKey
  }

  /** The claim one step makes: switched-off operations offer nothing. */
  function Offer(op: Operation): Option<string> {
    if op.chatEnabled then op.OutputKey() else None
  }

  function TerminalUpdate(next: Operation, attach: bool): Update {
    match next.status
    case Failed => Update.Failed(attach)
    case Finished => Update.Finished(attach)
    case _ => Ended(attach)
  }

  /** What tracking `t` makes of the next snapshot, given whether its output claim succeeds. */
  function Advance(t: Tracked, next: Option<Operation>, p: Poll, claimed: bool): (Option<Tracked>, seq<(Tracked, Update)>) {
    if next.None? || !t.operation.SameIdentity(next.value) then (None, [(WithCamera(t, p.camera), Ended(false))])
    else if !next.value.status.Active? then
      (None, [(WithCamera(t, p.camera).(lastOutputKey := next.value.OutputKey(), operation := next.value),
               TerminalUpdate(next.value, claimed))])
    else
      var r := Refreshed(t, next.value, p.camera);
      var m := Milestone(r, p.now);
      var o := if NewOutput(m, next.value) then m.(lastOutputKey := next.value.OutputKey()) else m;
      (Some(o),
       (if r.NextMilestone(p.now).Some? then [(m, Progress(m.lastMilestone))] else [])
       + (if NewOutput(m, next.value) && claimed then [(o, Output)] else []))
  }

  function AdvanceOffer(t: Tracked, next: Option<Operation>, p: Poll): Option<string> {
    if next.None? || !t.operation.SameIdentity(next.value) then None
    else if next.value.status.Active? && !NewOutput(Milestone(Refreshed(t, next.value, p.camera), p.now), next.value) then None
    else Offer(next.value)
  }

  /** A newly active operation. `silent` is set for the center its own event already announced. */
  function Begin(op: Operation, p: Poll, silent: bool, claimed: bool): (Tracked, seq<(Tracked, Update)>) {
    var begun := NewTracked(op, p.now, if op.kind.UsesCamera() then p.camera else None);
    var done := begun.Progress(p.now);
    var seeded := if p.announce then begun
                  else begun.(lastMilestone := if done.Some? then CompletedMilestone(done.value) else 0);
    var t := seeded.(lastOutputKey := op.OutputKey());
    (t, (if p.announce && !silent then [(t, Started)] else []) + (if p.announce && claimed then [(t, Output)] else []))
  }

  // ----- the walks -----

  /** Tracked operations, every output ever claimed, and the notifications so far. */
  datatype Pass = Pass(tracked: map<string, Tracked>, claims: seq<string>, notes: seq<Note>) {
    predicate Claimable(offer: Option<string>) {
      offer.Some? && offer.value !in TouchAll([], SEEN_SET_CAPACITY, claims)
    }

    function Claim(offer: Option<string>): Pass {
      if offer.Some? then this.(claims := claims + [offer.value]) else this
    }

    function Say(key: string, notes': seq<(Tracked, Update)>): Pass
      decreases |notes'|
    {
      if notes' == [] then this
      else this.(notes := notes + [Note(key, notes'[0].0, notes'[0].1)]).Say(key, notes'[1..])
    }

    function Put(key: string, t: Option<Tracked>): Pass {
      this.(tracked := if t.Some? then tracked[key := t.value] else tracked - {key})
    }
  }

  function AdvanceKey(s: Pass, key: string, incoming: map<string, Operation>, p: Poll): Pass {
    if key !in s.tracked then s
    else if key in p.suppressed then s.Put(key, None)
    else
      var next := Get(incoming, key);
      var offer := AdvanceOffer(s.tracked[key], next, p);
      var (t, notes) := Advance(s.tracked[key], next, p, s.Claimable(offer));
      s.Claim(offer).Put(key, t).Say(key, notes)
  }

  function BeginKey(s: Pass, key: string, incoming: map<string, Operation>, p: Poll, center: Option<string>): Pass {
    if key !in incoming || !incoming[key].status.Active? || key in s.tracked then s
    else
      var offer := Offer(incoming[key]);
      var (t, notes) := Begin(incoming[key], p, center == Some(key), s.Claimable(offer));
      s.Claim(offer).Put(key, Some(t)).Say(key, notes)
  }

  function FirstPass(s: Pass, order: seq<string>, incoming: map<string, Operation>, p: Poll): Pass {
    if order == [] then s
    else AdvanceKey(FirstPass(s, order[..|order| - 1], incoming, p), order[|order| - 1], incoming, p)
  }

  function SecondPass(s: Pass, order: seq<string>, incoming: map<string, Operation>, p: Poll, center: Option<string>): Pass {
    if order == [] then s
    else BeginKey(SecondPass(s, order[..|order| - 1], incoming, p, center), order[|order| - 1], incoming, p, center)
  }

  lemma FirstPassSnoc(s: Pass, order: seq<string>, i: nat, incoming: map<string, Operation>, p: Poll)
    requires i < |order|
    ensures FirstPass(s, order[..i + 1], incoming, p) == AdvanceKey(FirstPass(s, order[..i], incoming, p), order[i], incoming, p)
  {
    assert order[..i + 1][..i] == order[..i];
  }

  lemma SecondPassSnoc(
      s: Pass, order: seq<string>, i: nat, incoming: map<string, Operation>, p: Poll, center: Option<string>)
    requires i < |order|
    ensures SecondPass(s, order[..i + 1], incoming, p, center)
         == BeginKey(SecondPass(s, order[..i], incoming, p, center), order[i], incoming, p, center)
  {
    assert order[..i + 1][..i] == order[..i];
  }

  /** The reconciler's state between polls. */
  datatype State = State(tracked: map<string, Tracked>, claims: seq<string>, centerSeenAt: Option<int>) {
    function CenterSeen(now: int): Option<int> {
      if centerSeenAt.Some? && now - centerSeenAt.value > CENTER_EVENT_WINDOW then None else centerSeenAt
    }

    function Center(p: Poll): Option<string> {
      if CenterSeen(p.now).Some? then ChooseCenter(Incoming(tracked, p, p.operations), p.centerOrder) else None
    }

    /** The snapshot after a center event has been matched to one of its operations. */
    function Snapshot(p: Poll): map<string, Operation> {
      var incoming, center := Incoming(tracked, p, p.operations), Center(p);
      if center.Some? && center.value in incoming then PromoteIn(incoming, center.value) else incoming
    }

    function Before(p: Poll): Pass {
      Pass(if Center(p).Some? then PromoteTracked(tracked, Center(p).value) else tracked, claims, [])
    }

    function Middle(p: Poll): Pass {
      FirstPass(Before(p), p.trackedOrder, Snapshot(p), p)
    }

    function After(p: Poll): Pass {
      SecondPass(Middle(p), p.incomingOrder, Snapshot(p), p, Center(p))
    }

    function Next(p: Poll): State {
      State(After(p).tracked, After(p).claims, if Center(p).Some? then None else CenterSeen(p.now))
    }

    /** A MOUNT-CENTER event waits for the operation it announces. */
    function NoteCenter(at: int): State { this.(centerSeenAt := Some(at)) }

    /** A privacy marker drops the operations of its scope without a word, and with them an unmatched center event. */
    function Revoke(scope: EventNames.Scope): State {
      this.(tracked := Retained(tracked, scope), centerSeenAt := if scope.Mount? then None else centerSeenAt)
    }
  }

  /** Does a marker of this scope revoke operations of this kind? */
  predicate Revokes(scope: EventNames.Scope, kind: Kind) {
    var mount := kind.MountSlew? || kind.MountCenter? || kind.PlateSolve?;
    || (scope.Mount? && mount)
    || (scope.Sequence? && !mount)
    || (scope.Safety? && kind.SafetyWait?)
  }

  function Retained(tracked: map<string, Tracked>, scope: EventNames.Scope): map<string, Tracked> {
    map k | k in tracked && !Revokes(scope, tracked[k].operation.kind) :: tracked[k]
  }

  /** Notifications that reach chat: enabled operations of announced polls. */
  function Delivered(p: Poll, notes: seq<Note>): seq<Note> {
    if notes == [] then []
    else Delivered(p, notes[..|notes| - 1])
         + if p.announce && notes[|notes| - 1].tracked.operation.chatEnabled then [notes[|notes| - 1]] else []
  }

  /** The orders really enumerate the maps that are walked. */
  ghost predicate Walks(s: State, p: Poll) {
    && Distinct(p.trackedOrder) && Distinct(p.incomingOrder)
    && (forall k :: k in p.trackedOrder <==> k in s.tracked)
    && (forall k :: k in p.incomingOrder <==> k in Incoming(s.tracked, p, p.operations))
    && (forall k :: k in p.centerOrder <==> k in Incoming(s.tracked, p, p.operations))
  }
}
