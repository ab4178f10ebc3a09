/**
How one history response is walked: an enabled event is skipped when a later event of
its own scope is disabled, everything else is handled in order.

`Redacts` says that one batch is another with nothing private left in it. Any handler
that reads only the scope and the time of a disabled event cannot tell them apart.
*/
module Batches {
  import opened Wrappers
  import opened EventNames
  import opened Events

  /** Some event of the batch switches `scope` off. */
  predicate Disables(events: seq<Event>, scope: Scope) {
    exists i :: 0 <= i < |events| && !events[i].chatEnabled && ScopeOf(events[i].name) == scope
  }

  /** The first event is enabled, but its scope is switched off later in the batch. */
  predicate FirstIsObsolete(events: seq<Event>)
    requires events != []
  {
    events[0].chatEnabled && Disables(events[1..], ScopeOf(events[0].name))
  }

  function Walk<U>(u: U, events: seq<Event>, step: (U, Event) -> U): U
    decreases |events|
  {
    if events == [] then u
    else Walk(if FirstIsObsolete(events) then u else step(u, events[0]), events[1..], step)
  }

  /** Two disabled markers that say the same: same scope, same time, whatever else they carry. */
  predicate SameMarker(e: Event, f: Event) {
    !e.chatEnabled && !f.chatEnabled && e.time == f.time && ScopeOf(e.name) == ScopeOf(f.name)
  }

  /**
  `redacted` is `events` with some obsolete events deleted and the names and details of
  disabled events replaced at will within their scope.
  */
  predicate Redacts(events: seq<Event>, redacted: seq<Event>)
    decreases |events|
  {
    if events == [] then redacted == []
    else
      || (FirstIsObsolete(events) && Redacts(events[1..], redacted))
      || (redacted != [] && (events[0] == redacted[0] || SameMarker(events[0], redacted[0]))
          && Redacts(events[1..], redacted[1..]))
  }

  ghost predicate ReadsMarkersOnly<U(!new)>(step: (U, Event) -> U) {
    forall u: U, e, f :: SameMarker(e, f) ==> step(u, e) == step(u, f)
  }

  lemma DisablesTail(events: seq<Event>, scope: Scope)
    requires events != []
    ensures Disables(events, scope) <==>
      (!events[0].chatEnabled && ScopeOf(events[0].name) == scope) || Disables(events[1..], scope)
  {
    if Disables(events, scope) {
      var i :| 0 <= i < |events| && !events[i].chatEnabled && ScopeOf(events[i].name) == scope;
      if i > 0 {
        assert events[1..][i - 1] == events[i];
      }
    }
  }

  lemma DisablesSnoc(events: seq<Event>, e: Event, scope: Scope)
    ensures Disables(events + [e], scope) <==> Disables(events, scope) || (!e.chatEnabled && ScopeOf(e.name) == scope)
  {
    var longer := events + [e];
    if Disables(events, scope) {
      var i :| 0 <= i < |events| && !events[i].chatEnabled && ScopeOf(events[i].name) == scope;
      assert longer[i] == events[i];
    }
    assert longer[|events|] == e;
  }

  lemma {:induction false} RedactionKeepsMarkers(events: seq<Event>, redacted: seq<Event>, scope: Scope)
    requires Redacts(events, redacted)
    ensures Disables(events, scope) <==> Disables(redacted, scope)
    decreases |events|
  {
    if events != [] {
      DisablesTail(events, scope);
      if FirstIsObsolete(events) && Redacts(events[1..], redacted) {
        RedactionKeepsMarkers(events[1..], redacted, scope);
      } else {
        RedactionKeepsMarkers(events[1..], redacted[1..], scope);
        DisablesTail(redacted, scope);
      }
    }
  }

  /** Deleting what was withdrawn, and everything private about the withdrawal, changes nothing. */
  lemma {:induction false} WalkIgnoresRedacted<U(!new)>(u: U, events: seq<Event>, redacted: seq<Event>, step: (U, Event) -> U)
    requires Redacts(events, redacted) && ReadsMarkersOnly(step)
    ensures Walk(u, events, step) == Walk(u, redacted, step)
    decreases |events|
  {
    if events != [] {
      if FirstIsObsolete(events) && Redacts(events[1..], redacted) {
        WalkIgnoresRedacted(u, events[1..], redacted, step);
      } else {
        RedactionKeepsMarkers(events[1..], redacted[1..], ScopeOf(events[0].name));
        var next := if FirstIsObsolete(events) then u else step(u, events[0]);
        assert next == if FirstIsObsolete(redacted) then u else step(u, redacted[0]);
        WalkIgnoresRedacted(next, events[1..], redacted[1..], step);
      }
    }
  }

  /** The strongest redaction: every obsolete event gone, every marker reduced to scope and time. */
  function Redact(events: seq<Event>, marker: Event -> Event): seq<Event> {
    if events == [] then []
    else if FirstIsObsolete(events) then Redact(events[1..], marker)
    else [if events[0].chatEnabled then events[0] else marker(events[0])] + Redact(events[1..], marker)
  }

  lemma {:induction false} RedactRedacts(events: seq<Event>, marker: Event -> Event)
    requires forall e: Event :: !e.chatEnabled ==> SameMarker(e, marker(e))
    ensures Redacts(events, Redact(events, marker))
  {
    if events != [] {
      RedactRedacts(events[1..], marker);
      if !FirstIsObsolete(events) {
        assert Redact(events, marker)[1..] == Redact(events[1..], marker);
      }
    }
  }

  // ----- the loop with its table of boundaries -----

  /** The scope each event revokes, if it is a privacy marker. */
  function Markers(events: seq<Event>): (markers: seq<Option<Scope>>)
    ensures |markers| == |events|
    ensures forall i :: 0 <= i < |events| ==>
      markers[i] == if events[i].chatEnabled then None else Some(ScopeOf(events[i].name))
  {
    seq(|events|, i requires 0 <= i < |events| => if events[i].chatEnabled then None else Some(ScopeOf(events[i].name)))
  }

  /** The index of the last marker of each scope. */
  ghost predicate IsBoundaryTable(markers: seq<Option<Scope>>, boundaries: map<Scope, nat>) {
    && (forall s :: s in boundaries ==> boundaries[s] < |markers| && markers[boundaries[s]] == Some(s))
    && (forall i :: 0 <= i < |markers| && markers[i].Some? ==>
         markers[i].value in boundaries && i <= boundaries[markers[i].value])
  }

  lemma TableGrows(markers: seq<Option<Scope>>, i: nat, boundaries: map<Scope, nat>)
    requires i < |markers| && IsBoundaryTable(markers[..i], boundaries)
    ensures markers[i].None? ==> IsBoundaryTable(markers[..i + 1], boundaries)
    ensures markers[i].Some? ==> IsBoundaryTable(markers[..i + 1], boundaries[markers[i].value := i])
  {
  }

  method PrivacyBoundaries(events: seq<Event>) returns (boundaries: map<Scope, nat>)
    ensures IsBoundaryTable(Markers(events), boundaries)
  {
    boundaries := map[];
    ghost var markers := Markers(events);
    for index := 0 to |events|
      invariant IsBoundaryTable(markers[..index], boundaries)
    {
      TableGrows(markers, index, boundaries);
      if !events[index].chatEnabled {
        boundaries := boundaries[ScopeOf(events[index].name) := index];
      }
    }
    assert markers[..|events|] == markers;
  }

  /** Looking the scope up in the table is looking for a later marker. */
  lemma {:induction false} BoundaryIsObsolete(events: seq<Event>, boundaries: map<Scope, nat>, index: nat)
    requires IsBoundaryTable(Markers(events), boundaries) && index < |events|
    ensures var e := events[index]; var scope := ScopeOf(e.name);
      (e.chatEnabled && scope in boundaries && index < boundaries[scope]) <==> FirstIsObsolete(events[index..])
  {
    var e, rest := events[index], events[index + 1..];
    var scope := ScopeOf(e.name);
    assert events[index..][1..] == rest;
    if scope in boundaries && index < boundaries[scope] {
      assert Markers(events)[boundaries[scope]] == Some(scope);
      assert rest[boundaries[scope] - index - 1] == events[boundaries[scope]];
    }
    if Disables(rest, scope) {
      var i :| 0 <= i < |rest| && !rest[i].chatEnabled && ScopeOf(rest[i].name) == scope;
      assert rest[i] == events[index + 1 + i];
      assert Markers(events)[index + 1 + i] == Some(scope);
    }
  }
}
