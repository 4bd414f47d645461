// What the supervisor is for: while nobody stops it, its process is brought up again whenever it has gone down, and when
// its context ends it gets out of the way of the next Start.
module SupervisorProgress {
  import opened Options
  import opened Supervisor

  // ---- Reasons to leave ----

  // A Stop came after g was claimed.
  ghost predicate StoppedSince(events: seq<Event>, g: nat) {
    exists k | 0 <= k < |events| :: events[k] == Stop && g in Run(Initial, events[..k]).places
  }

  // Somebody asked supervisor g to leave.
  ghost predicate Dismissed(events: seq<Event>, g: nat) { Cancel(g) in events || StoppedSince(events, g) }

  predicate OnTheWayOut(s: State, g: nat) { s.At(g, Leaving) || s.At(g, Gone) }

  lemma {:induction false} CancelledIsHistory(events: seq<Event>, g: nat)
    ensures g in Run(Initial, events).cancelled <==> Cancel(g) in events
  {
    if events != [] {
      var before, e := events[..|events| - 1], events[|events| - 1];
      CancelledIsHistory(before, g);
      assert events == before + [e];
      StepCancels(Run(Initial, before), e);
      hide Step, Run;
      assert Run(Initial, events) == Step(Run(Initial, before), e) by { RunOfLast(Initial, before, e); }
    }
  }

  lemma RunOfLast(s: State, before: seq<Event>, e: Event)
    ensures Run(s, before + [e]) == Step(Run(s, before), e)
  {
    assert (before + [e])[..|before|] == before;
  }

  lemma StepCancels(s: State, e: Event)
    ensures Step(s, e).cancelled == if e.Cancel? then s.cancelled + {e.g} else s.cancelled
  {
  }

  lemma DismissedExtends(before: seq<Event>, e: Event, g: nat)
    ensures Dismissed(before, g) ==> Dismissed(before + [e], g)
    ensures e == Stop && g in Run(Initial, before).places ==> Dismissed(before + [e], g)
  {
    var events := before + [e];
    if StoppedSince(before, g) {
      var k :| 0 <= k < |before| && before[k] == Stop && g in Run(Initial, before[..k]).places;
      assert events[..k] == before[..k] && events[k] == Stop;
    }
    if e == Stop && g in Run(Initial, before).places {
      assert events[..|before|] == before && events[|before|] == Stop;
    }
  }

  // Why a supervisor is out of office: superseded, or the current one, and then its context has ended.
  ghost predicate Excused(s: State, g: nat) {
    g in s.places && g == s.shared.generation && (!s.shared.running || OnTheWayOut(s, g)) ==> g in s.cancelled
  }

  lemma StepKeepsExcused(s: State, e: Event, g: nat)
    requires Consistent(s) && Excused(s, g)
    ensures Excused(Step(s, e), g)
    ensures g in Step(s, e).places && g != Step(s, e).shared.generation ==>
              g in s.places && (g != s.shared.generation || e == Stop || g in s.cancelled)
  {
  }

  // In every interleaving, a supervisor is on its way out or gone, or no longer owns the manager, only if its own context
  // has ended or a Stop came after it was started.
  lemma NoSupervisorLeavesUnasked(events: seq<Event>, g: nat)
    requires g in Run(Initial, events).places
    ensures !Run(Initial, events).shared.Owns(g) || OnTheWayOut(Run(Initial, events), g) ==> Dismissed(events, g)
    ensures Excused(Run(Initial, events), g)
  {
    OutOfOffice(events, g);
    CancelledIsHistory(events, g);
    hide Run, StoppedSince;
  }

  lemma {:induction false} OutOfOffice(events: seq<Event>, g: nat)
    ensures Excused(Run(Initial, events), g)
    ensures g in Run(Initial, events).places && g != Run(Initial, events).shared.generation ==> Dismissed(events, g)
    ensures OnTheWayOut(Run(Initial, events), g) && g != Run(Initial, events).shared.generation ==> Dismissed(events, g)
  {
    if events != [] {
      var before, e := events[..|events| - 1], events[|events| - 1];
      assert events == before + [e];
      OutOfOffice(before, g);
      RunsAreConsistent(before);
      StepKeepsExcused(Run(Initial, before), e, g);
      CancelledIsHistory(before, g);
      DismissedExtends(before, e, g);
      RunOfLast(Initial, before, e);
      hide Step, Run, StoppedSince, Excused, Consistent;
    }
  }

  // ---- Coming back up ----

  // The owner's own steps to its process running, from where it is.
  function WayUp(place: Place, g: nat): seq<Event> {
    match place
    case AtHead => [Head(g), Launch(g)]
    case Launching => [Launch(g)]
    case Returning => [Return(g), Retry(g), Head(g), Launch(g)]
    case BackingOff => [Retry(g), Head(g), Launch(g)]
    case _ => []
  }

  // The steps by which a supervisor whose context has ended goes away.
  function WayOut(s: State, g: nat): seq<Event>
    requires g in s.places
  {
    match s.places[g]
    case AtHead => if s.shared.Owns(g) then [Head(g), Launch(g), Return(g), Leave(g)] else [Head(g), Leave(g)]
    case Launching => [Launch(g), Return(g), Leave(g)]
    case Running => [Exit(g), Return(g), Leave(g)]
    case Returning => [Return(g), Leave(g)]
    case BackingOff => [GiveUp(g), Leave(g)]
    case Leaving => [Leave(g)]
    case Gone => []
  }

  lemma {:induction false} RunSplits(s: State, first: seq<Event>, last: seq<Event>)
    ensures Run(s, first + last) == Run(Run(s, first), last)
  {
    if last == [] {
      assert first + last == first;
    } else {
      var n := |last| - 1;
      RunSplits(s, first, last[..n]);
      assert (first + last)[..|first| + n] == first + last[..n];
    }
  }

  lemma RunOne(s: State, e: Event)
    ensures Run(s, [e]) == Step(s, e)
  {
    assert [e][..0] == [];
  }

  lemma RunTwo(s: State, a: Event, b: Event)
    ensures Run(s, [a, b]) == Step(Step(s, a), b)
  {
    assert [a, b][..1] == [a];
    RunOne(s, a);
  }

  lemma RunThree(s: State, a: Event, b: Event, c: Event)
    ensures Run(s, [a, b, c]) == Step(Step(Step(s, a), b), c)
  {
    assert [a, b, c][..2] == [a, b];
    RunTwo(s, a, b);
  }

  // A crashed process is started again: in every run, an undismissed supervisor whose process has returned is launching it
  // anew after its backoff and one pass of the loop head, with its command stored for the next Stop to signal.
  lemma CrashedProcessIsRestarted(events: seq<Event>, g: nat)
    requires Run(Initial, events).At(g, Returning) && !Dismissed(events, g)
    ensures var later := Run(Run(Initial, events), [Return(g), Retry(g), Head(g)]);
            later.At(g, Launching) && later.shared == Shared(true, g, Some(g))
  {
    NoSupervisorLeavesUnasked(events, g);
    CancelledIsHistory(events, g);
    var s := Run(Initial, events);
    RunThree(s, Return(g), Retry(g), Head(g));
    hide Run;
  }

  // More generally, wherever it is, its own steps bring its process up, and nothing else changes.
  lemma UndismissedSupervisorsComeUp(events: seq<Event>, g: nat)
    requires g in Run(Initial, events).places && !Dismissed(events, g)
    ensures var s := Run(Initial, events);
            var later := Run(s, WayUp(s.places[g], g));
            && later == State(Shared(true, g, Some(g)), s.places[g := Running], s.cancelled, s.killing)
  {
    RunsAreConsistent(events);
    NoSupervisorLeavesUnasked(events, g);
    CancelledIsHistory(events, g);
    var s := Run(Initial, events);
    ComesUp(s, g);
  }

  lemma FirstStepUp(s: State, g: nat)
    requires Consistent(s) && s.shared.Owns(g) && !OnTheWayOut(s, g) && g !in s.cancelled && !s.At(g, Running)
    ensures WayUp(s.places[g], g) != []
    ensures var r := Step(s, WayUp(s.places[g], g)[0]);
            && r.shared.Owns(g) && !OnTheWayOut(r, g) && r.cancelled == s.cancelled && r.killing == s.killing
            && r.places == s.places[g := r.places[g]] && WayUp(r.places[g], g) == WayUp(s.places[g], g)[1..]
  {
  }

  lemma {:induction false} ComesUp(s: State, g: nat)
    requires Consistent(s) && s.shared.Owns(g) && !OnTheWayOut(s, g) && g !in s.cancelled
    ensures Run(s, WayUp(s.places[g], g)) == State(Shared(true, g, Some(g)), s.places[g := Running], s.cancelled, s.killing)
    decreases |WayUp(s.places[g], g)|
  {
    if s.At(g, Running) {
      assert s.places[g := Running] == s.places;
    } else {
      var way := WayUp(s.places[g], g);
      var r := Step(s, way[0]);
      FirstStepUp(s, g);
      StepKeepsConsistent(s, way[0]);
      hide Step, Consistent, WayUp, OnTheWayOut;
      ComesUp(r, g);
      RunOne(s, way[0]);
      RunSplits(s, [way[0]], way[1..]);
      assert way == [way[0]] + way[1..];
      assert r.places[g := Running] == s.places[g := Running];
    }
  }

  predicate BetweenProcesses(s: State, g: nat) { s.At(g, Running) || s.At(g, Returning) || s.At(g, BackingOff) || OnTheWayOut(s, g) }

  lemma StepStaysBetween(s: State, e: Event, g: nat)
    requires BetweenProcesses(s, g) && Consistent(s) && e != Retry(g)
    ensures BetweenProcesses(Step(s, e), g)
  {
  }

  lemma Regroups(events: seq<Event>, more: seq<Event>)
    requires more != []
    ensures events + more == events + more[..|more| - 1] + [more[|more| - 1]]
  {
  }

  // But never at once: once a process has come up, its supervisor is at the loop head, or starting another, only after a
  // backoff has run out.
  lemma {:induction false} RestartsWaitForBackoff(events: seq<Event>, more: seq<Event>, g: nat)
    requires Run(Initial, events).At(g, Running) && Retry(g) !in more
    ensures BetweenProcesses(Run(Initial, events + more), g)
  {
    if more == [] {
      assert events + more == events;
    } else {
      hide Step, Consistent, BetweenProcesses, Run;
      var n := |more| - 1;
      RestartsWaitForBackoff(events, more[..n], g);
      RunsAreConsistent(events + more[..n]);
      StepStaysBetween(Run(Initial, events + more[..n]), more[n], g);
      RunOfLast(Initial, events + more[..n], more[n]);
      Regroups(events, more);
    }
  }

  // ---- Getting out of the way ----

  // A supervisor whose context has ended can always leave by its own steps, and if it was the owner, then the manager is free.
  lemma CancelledSupervisorsGetOut(events: seq<Event>, g: nat)
    requires g in Run(Initial, events).places && Cancel(g) in events
    ensures var s := Run(Initial, events);
            var later := Run(s, WayOut(s, g));
            && later.places == s.places[g := Gone] && later.cancelled == s.cancelled && later.killing == s.killing
            && later.shared == if s.shared.generation == g then Shared(false, g, None) else s.shared
  {
    RunsAreConsistent(events);
    CancelledIsHistory(events, g);
    GetsOut(Run(Initial, events), g);
  }

  lemma FirstStepOut(s: State, g: nat)
    requires Consistent(s) && g in s.places && g in s.cancelled && !s.At(g, Gone)
    ensures WayOut(s, g) != []
    ensures var r := Step(s, WayOut(s, g)[0]);
            && r.cancelled == s.cancelled && r.killing == s.killing && r.places == s.places[g := r.places[g]]
            && r.shared.generation == s.shared.generation && (s.shared.generation != g ==> r.shared == s.shared)
            && WayOut(r, g) == WayOut(s, g)[1..]
  {
  }

  lemma {:induction false} GetsOut(s: State, g: nat)
    requires Consistent(s) && g in s.places && g in s.cancelled
    ensures var later := Run(s, WayOut(s, g));
            && later.places == s.places[g := Gone] && later.cancelled == s.cancelled && later.killing == s.killing
            && later.shared == if s.shared.generation == g then Shared(false, g, None) else s.shared
    decreases |WayOut(s, g)|
  {
    if s.At(g, Gone) {
      assert s.places[g := Gone] == s.places;
    } else {
      var way := WayOut(s, g);
      var r := Step(s, way[0]);
      FirstStepOut(s, g);
      StepKeepsConsistent(s, way[0]);
      hide Step, Consistent, WayOut;
      GetsOut(r, g);
      RunOne(s, way[0]);
      RunSplits(s, [way[0]], way[1..]);
      assert way == [way[0]] + way[1..];
      assert r.places[g := Gone] == s.places[g := Gone];
    }
  }

  // ---- Processes end by themselves or are ended ----

  // A process goes down only by itself or by the signal of a Stop that found its command.
  lemma ProcessesAreOnlyKilledByStop(s: State, e: Event, g: nat)
    requires s.At(g, Running) && !Step(s, e).At(g, Running) && Consistent(s)
    ensures e == Exit(g) || (e == Kill(g) && g in s.killing)
  {
  }

  lemma {:induction false} KillsComeFromStop(events: seq<Event>, g: nat)
    requires g in Run(Initial, events).killing
    ensures exists k | 0 <= k < |events| :: events[k] == Stop && Run(Initial, events[..k]).shared.cmd == Some(g)
  {
    assert events != [];
    var n := |events| - 1;
    if g in Run(Initial, events[..n]).killing {
      KillsComeFromStop(events[..n], g);
      var k :| 0 <= k < n && events[..n][k] == Stop && Run(Initial, events[..n][..k]).shared.cmd == Some(g);
      assert events[..n][..k] == events[..k];
    } else {
      assert events[n] == Stop && Run(Initial, events[..n]).shared.cmd == Some(g);
    }
  }
}
