// The generation-numbered process supervisor of tui/internal/coremgr/coremgr.go. Each section under the mutex
// is one atomic step; the steps of callers and of any number of supervisors interleave freely.
module Supervisor {
  import opened Options

  // What the mutex guards. A command is named by the generation of the supervisor that stored it.
  datatype Shared = Shared(running: bool, generation: nat, cmd: Option<nat>) {
    // Start, second section: refused while running.
    function Claimed(): Shared { if running then this else Shared(true, generation + 1, cmd) }

    function Stopped(): Shared { Shared(false, generation + 1, cmd) }

    predicate Owns(g: nat) { running && generation == g }

    // Loop head: the owner stores a new command, any other supervisor leaves.
    function Headed(g: nat): Shared { if Owns(g) then this.(cmd := Some(g)) else this }

    // After cmd.Run returned.
    function Returned(g: nat): Shared { if generation == g then this.(cmd := None) else this }

    // The deferred section.
    function Departed(g: nat): Shared { if generation == g then Shared(false, generation, None) else this }
  }

  // Where a supervisor is: at the loop head, between storing its command and the process starting, with the
  // process running, with the process gone, backing off, on its way out, or gone.
  datatype Place = AtHead | Launching | Running | Returning | BackingOff | Leaving | Gone

  // Supervisors are named by the generation their Start claimed; StartsNeverShareAGeneration shows that no two starts
  // claim the same, so the map has room for all of them.
  datatype State = State(shared: Shared, places: map<nat, Place>, cancelled: set<nat>, killing: set<nat>) {
    predicate At(g: nat, place: Place) { g in places && places[g] == place }

    function Move(g: nat, place: Place): State { this.(places := places[g := place]) }
  }

  datatype Event =
    | Start
    | Stop
    | Kill(g: nat)  // the signal Stop sends once it has released the mutex
    | Cancel(g: nat)  // the context given to the Start of generation g ends
    | Head(g: nat)
    | Launch(g: nat)
    | Exit(g: nat)
    | Return(g: nat)
    | Retry(g: nat)  // the backoff is over
    | GiveUp(g: nat)  // the context ended during the backoff
    | Leave(g: nat)

  const Initial := State(Shared(false, 0, None), map[], {}, {})

  // An event that is not enabled changes nothing.
  function Step(s: State, e: Event): State {
    match e
    case Start =>
      if s.shared.running then s
      else s.(shared := s.shared.Claimed(), places := s.places[s.shared.generation + 1 := AtHead])
    case Stop =>
      s.(shared := s.shared.Stopped(), killing := if s.shared.cmd.Some? then s.killing + {s.shared.cmd.value} else s.killing)
    case Kill(g) =>
      // A command whose process has not started yet cannot be signalled.
      if g !in s.killing then s
      else if s.At(g, Running) then s.Move(g, Returning).(killing := s.killing - {g})
      else s.(killing := s.killing - {g})
    case Cancel(g) => s.(cancelled := s.cancelled + {g})
    case Head(g) =>
      if !s.At(g, AtHead) then s
      else s.Move(g, if s.shared.Owns(g) then Launching else Leaving).(shared := s.shared.Headed(g))
    case Launch(g) =>
      // A command whose context has ended does not start.
      if !s.At(g, Launching) then s else s.Move(g, if g in s.cancelled then Returning else Running)
    case Exit(g) => if !s.At(g, Running) then s else s.Move(g, Returning)
    case Return(g) =>
      if !s.At(g, Returning) then s
      else s.Move(g, if s.shared.Owns(g) && g !in s.cancelled then BackingOff else Leaving)
           .(shared := s.shared.Returned(g))
    case Retry(g) => if !s.At(g, BackingOff) then s else s.Move(g, AtHead)
    case GiveUp(g) => if !s.At(g, BackingOff) || g !in s.cancelled then s else s.Move(g, Leaving)
    case Leave(g) => if !s.At(g, Leaving) then s else s.Move(g, Gone).(shared := s.shared.Departed(g))
  }

  function Run(s: State, events: seq<Event>): State {
    if events == [] then s else Step(Run(s, events[..|events| - 1]), events[|events| - 1])
  }

  predicate HasCommand(place: Place) { place == Launching || place == Running || place == Returning }

  // While running, the current generation has its one supervisor, still alive, and cmd is that supervisor's command for
  // exactly as long as it has one; the current generation's supervisor is gone only once it has cleared what it stored.
  ghost predicate Consistent(s: State) {
    && (forall g | g in s.places :: 1 <= g <= s.shared.generation)
    && (s.shared.running ==>
          && s.shared.generation in s.places
          && s.places[s.shared.generation] != Gone
          && (HasCommand(s.places[s.shared.generation]) <==> s.shared.cmd == Some(s.shared.generation)))
    && (!s.shared.running && s.shared.generation in s.places ==> s.places[s.shared.generation] == Gone && s.shared.cmd == None)
    && (s.shared.cmd.Some? ==> s.shared.cmd.value in s.places)
  }

  lemma StepKeepsConsistent(s: State, e: Event)
    requires Consistent(s)
    ensures Consistent(Step(s, e))
  {
  }

  // Every interleaving of Start, Stop and supervisor steps.
  lemma {:induction false} RunsAreConsistent(events: seq<Event>)
    ensures Consistent(Run(Initial, events))
  {
    if events != [] {
      RunsAreConsistent(events[..|events| - 1]);
      StepKeepsConsistent(Run(Initial, events[..|events| - 1]), events[|events| - 1]);
    }
  }

  // The generations that the starts of a run claimed, in order.
  function Claims(events: seq<Event>): seq<nat> {
    if events == [] then []
    else
      var before := events[..|events| - 1];
      if events[|events| - 1].Start? && !Run(Initial, before).shared.running
      then Claims(before) + [Run(Initial, before).shared.generation + 1] else Claims(before)
  }

  // Each start that is not refused claims a generation of its own, above all earlier ones, and the supervisors of a
  // run are exactly those so named.
  lemma {:induction false} StartsNeverShareAGeneration(events: seq<Event>)
    ensures forall i, j | 0 <= i < j < |Claims(events)| :: Claims(events)[i] < Claims(events)[j]
    ensures forall i | 0 <= i < |Claims(events)| :: Claims(events)[i] <= Run(Initial, events).shared.generation
    ensures forall g: nat :: g in Run(Initial, events).places <==> g in Claims(events)
  {
    if events != [] {
      var before, e := events[..|events| - 1], events[|events| - 1];
      StartsNeverShareAGeneration(before);
      StepNames(Run(Initial, before), e);
      hide Step;
    }
  }

  lemma StepNames(s: State, e: Event)
    ensures s.shared.generation <= Step(s, e).shared.generation
    ensures Step(s, e).places.Keys
            == if e.Start? && !s.shared.running then s.places.Keys + {s.shared.generation + 1} else s.places.Keys
    ensures e.Start? && !s.shared.running ==> Step(s, e).shared.generation == s.shared.generation + 1
  {
  }

  predicate StepOf(e: Event, g: nat) { (e.Head? || e.Launch? || e.Exit? || e.Return? || e.Retry? || e.GiveUp? || e.Leave?) && e.g == g }

  // The owner of the current generation is the only supervisor whose steps can change what the mutex guards.
  lemma OnlyTheOwnerAlters(s: State, e: Event, g: nat)
    requires StepOf(e, g)
    ensures s.shared.generation == Step(s, e).shared.generation
    ensures g != s.shared.generation ==> Step(s, e).shared == s.shared
    ensures !s.shared.running ==> !Step(s, e).shared.running
  {
  }

  lemma {:induction false} GenerationsGrow(s: State, events: seq<Event>)
    ensures s.shared.generation <= Run(s, events).shared.generation
    ensures s.cancelled <= Run(s, events).cancelled
  {
    if events != [] { GenerationsGrow(s, events[..|events| - 1]); }
  }

  // After a Stop, however the run goes on, no supervisor that existed then passes the loop head again.
  lemma StoppedSupervisorsNeverPassTheHead(s: State, events: seq<Event>, g: nat)
    requires Consistent(s) && g in s.places
    ensures var later := Run(Step(s, Stop), events);
            && !later.shared.Owns(g)
            && (later.At(g, AtHead) ==> Step(later, Head(g)).At(g, Leaving) && Step(later, Head(g)).shared == later.shared)
  {
    GenerationsGrow(Step(s, Stop), events);
  }

  // What one step can do to the process and the pending kill of a superseded supervisor.
  lemma StepAfterStop(s: State, e: Event, g: nat)
    requires g < s.shared.generation && (s.At(g, Launching) ==> g in s.cancelled)
    ensures !s.At(g, Running) ==> !Step(s, e).At(g, Running)
    ensures Step(s, e).At(g, Launching) ==> s.At(g, Launching) && g in Step(s, e).cancelled
    ensures e == Kill(g) && g in s.killing ==> !Step(s, e).At(g, Running)
    ensures e != Kill(g) && g in s.killing ==> g in Step(s, e).killing
  {
  }

  // Once a Stop has found it not launching, a supervisor that existed then never launches or runs a process anew.
  lemma {:induction false} StoppedSupervisorsStayDown(s: State, events: seq<Event>, g: nat)
    requires Consistent(s) && g in s.places && (s.At(g, Launching) ==> g in s.cancelled)
    ensures var later := Run(Step(s, Stop), events);
            && (later.At(g, Launching) ==> g in later.cancelled)
            && (later.At(g, Running) ==> s.At(g, Running))
  {
    if events != [] {
      var before := events[..|events| - 1];
      StoppedSupervisorsStayDown(s, before, g);
      GenerationsGrow(Step(s, Stop), before);
      assert s.shared.generation < Step(s, Stop).shared.generation;
      StepAfterStop(Run(Step(s, Stop), before), events[|events| - 1], g);
      hide Step;
    }
  }

  ghost predicate RunsAfterStop(s: State, events: seq<Event>, g: nat) { Run(Step(s, Stop), events).At(g, Running) }

  // A process can come up after the Stop that was meant to end it exactly when that Stop falls between the
  // storing of the command and the start of its process, with the context still open.
  lemma StopMissesExactlyTheUnstartedProcess(s: State, g: nat)
    requires Consistent(s) && g in s.places && !s.At(g, Running)
    ensures (exists events :: RunsAfterStop(s, events, g))
            <==> s.At(g, Launching) && g !in s.cancelled
  {
    if s.At(g, Launching) && g !in s.cancelled {
      var events := [Launch(g)];
      assert events[..0] == [];
      assert Run(Step(s, Stop), events[..0]) == Step(s, Stop);
      assert Step(s, Stop).At(g, Launching) && g !in Step(s, Stop).cancelled;
      assert Run(Step(s, Stop), events) == Step(Step(s, Stop), Launch(g));
      assert RunsAfterStop(s, events, g);
    } else {
      forall events ensures !RunsAfterStop(s, events, g) {
        StoppedSupervisorsStayDown(s, events, g);
      }
    }
  }

  // The gap is reachable: here the process is up although the manager was stopped and nothing is left to signal it.
  lemma StoppedManagerCanKeepAProcess()
    ensures var s := Run(Initial, [Start, Head(1), Stop, Kill(1), Launch(1)]);
            !s.shared.running && s.At(1, Running) && s.killing == {}
  {
    var events := [Start, Head(1), Stop, Kill(1), Launch(1)];
    assert events[..4][..3] == [Start, Head(1), Stop] && events[..4][3] == Kill(1);
    assert [Start, Head(1), Stop][..2] == [Start, Head(1)];
    assert [Start, Head(1)][..1] == [Start];
    assert [Start][..0] == [];
    assert Run(Initial, []) == Initial;
    var s1 := Run(Initial, [Start]);
    assert s1.At(1, AtHead) && s1.shared == Shared(true, 1, None) && s1.killing == {};
    var s2 := Run(Initial, [Start, Head(1)]);
    assert s2.At(1, Launching) && s2.shared == Shared(true, 1, Some(1)) && s2.killing == {} && s2.cancelled == {};
    var s3 := Run(Initial, [Start, Head(1), Stop]);
    assert s3.At(1, Launching) && s3.killing == {1};
  }

  // A Stop that finds the owner's process running leaves its kill pending, and once that kill has come the process is
  // down for good, however the run goes on.
  lemma {:induction false} StopEndsTheRunningProcess(s: State, events: seq<Event>)
    requires Consistent(s) && s.shared.running && s.At(s.shared.generation, Running)
    ensures var g, later := s.shared.generation, Run(Step(s, Stop), events);
            if Kill(g) in events then !later.At(g, Running) else g in later.killing
  {
    if events != [] {
      var g, n := s.shared.generation, |events| - 1;
      var before := events[..n];
      assert Kill(g) in events <==> Kill(g) in before || events[n] == Kill(g);
      StopEndsTheRunningProcess(s, before);
      StoppedSupervisorsStayDown(s, before, g);
      GenerationsGrow(Step(s, Stop), before);
      assert Step(s, Stop).shared.generation == g + 1;
      hide Step;
      StepAfterStop(Run(Step(s, Stop), before), events[n], g);
    }
  }

  // ---- The manager object: its fields and one method per section under the mutex. ----

  class Manager {
    var cmd: Option<nat>
    var running: bool
    var generation: nat

    function View(): Shared
      reads this
    {
      Shared(running, generation, cmd)
    }

    constructor ()
      ensures View() == Initial.shared
    {
      cmd, running, generation := None, false, 0;
    }

    // Start's second section; None is the error "core already running".
    method ClaimStart() returns (claimed: Option<nat>)
      modifies this
      ensures claimed == if old(running) then None else Some(generation)
      ensures View() == old(View()).Claimed()
    {
      if running {
        return None;
      }
      generation := generation + 1;
      running := true;
      return Some(generation);
    }

    // Whether supervisor g may launch a process.
    method LoopHead(g: nat) returns (proceed: bool)
      modifies this
      ensures proceed == old(View()).Owns(g)
      ensures View() == old(View()).Headed(g)
    {
      if !running || generation != g {
        return false;
      }
      cmd := Some(g);
      return true;
    }

    method AfterRun(g: nat) returns (stopping: bool)
      modifies this
      ensures stopping == !old(View()).Owns(g)
      ensures View() == old(View()).Returned(g)
    {
      if generation == g {
        cmd := None;
      }
      stopping := !running || generation != g;
    }

    method Deferred(g: nat)
      modifies this
      ensures View() == old(View()).Departed(g)
    {
      if generation == g {
        running := false;
        cmd := None;
      }
    }

    // The command to signal, if any.
    method Stop() returns (toKill: Option<nat>)
      modifies this
      ensures toKill == old(cmd)
      ensures View() == old(View()).Stopped()
    {
      generation := generation + 1;
      running := false;
      return cmd;
    }
  }
}
