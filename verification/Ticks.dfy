/** The first locked section of a tick: the methods of the daemon in order, and the run they are. */
module Ticks {
  import opened Types
  import opened World
  import opened Theorems
  import C = Core
  import D = Daemon

  /** What one scan brings: the configuration read, the new events, whether retries may be reopened, and the controls.
      */
  datatype Scan = Scan(reload: Option<Config>, wall: Time, items: seq<Item>, reopen: bool, paused: bool,
      commands: seq<Command>)

  function AllApplied(c: C.Core, commands: seq<Command>, now: Time): C.Core {
    if commands == [] then c
    else C.ApplyCommand(AllApplied(c, commands[..|commands| - 1], now), commands[|commands| - 1], now)
  }

  function ScanReloaded(c: C.Core, s: Scan): C.Core {
    if s.reload.Some? then C.Reload(c, s.reload.value, s.wall) else c
  }

  function ScanOpened(c: C.Core, s: Scan, now: Time): C.Core {
    if s.reopen then C.Reopen(c, now) else c
  }

  /** The state when the mutex is released. */
  function ScanResult(c: C.Core, s: Scan, now: Time): C.Core {
    var opened' := ScanOpened(D.AllHandled(ScanReloaded(c, s), s.items, now), s, now);
    C.Expire(AllApplied(opened'.(paused := s.paused), s.commands, now), now)
  }

  /** `refreshControlsLocked`: the switch and the commands. */
  method RefreshControls(d: D.Daemon, paused: bool, commands: seq<Command>, now: Time)
    requires d.Valid()
    modifies d
    ensures d.Valid() && d.View() == AllApplied(old(d.View()).(paused := paused), commands, now)
  {
    d.paused := paused;
    ghost var before := d.View();
    var i := 0;
    assert commands[..0] == [];
    while i < |commands|
      invariant 0 <= i <= |commands| && d.Valid()
      invariant d.View() == AllApplied(before, commands[..i], now)
    {
      assert commands[..i + 1][..i] == commands[..i];
      d.ApplyControlCommand(commands[i], now);
      i := i + 1;
    }
    assert commands[..|commands|] == commands;
  }

  /** `tick` up to the release of the mutex: reload, events, reopening, controls, expiry, in this order. */
  method ScanSection(d: D.Daemon, s: Scan, now: Time)
    requires d.Valid() && (s.reload.Some? ==> ValidConfig(s.reload.value))
    modifies d
    ensures d.Valid() && d.View() == ScanResult(old(d.View()), s, now)
  {
    d.ReloadConfig(s.reload, s.wall);
    d.HandleEvents(s.items, now);
    if s.reopen {
      d.ReopenRestartRequired(now);
    }
    RefreshControls(d, s.paused, s.commands, now);
    d.ExpireUnacknowledged(now);
  }

  // ---- the same as a run ----

  function Observations(items: seq<Item>): (steps: seq<Step>)
    ensures |steps| == |items| && forall i :: 0 <= i < |items| ==> steps[i] == Observe(items[i])
  {
    seq(|items|, i requires 0 <= i < |items| => Observe(items[i]))
  }

  function Controls(commands: seq<Command>): (steps: seq<Step>)
    ensures |steps| == |commands| && forall i :: 0 <= i < |commands| ==> steps[i] == Control(commands[i])
  {
    seq(|commands|, i requires 0 <= i < |commands| => Control(commands[i]))
  }

  function ScanSteps(s: Scan, now: Time): seq<Step> {
    [TickStart(now, s.reload, s.wall)] + Observations(s.items) + [EndScan(s.reopen), SetPaused(s.paused)] +
    Controls(s.commands) + [ExpireStarts]
  }

  lemma Observation(w: World, item: Item)
    requires w.phase.Scanning?
    ensures var v := Apply(w, Observe(item));
      Enabled(w, Observe(item)) && v.phase.Scanning? && v.now == w.now && v.core == C.HandleEvent(w.core, item, w.now)
  {
  }

  lemma ObservationsGrow(items: seq<Item>)
    requires items != []
    ensures Observations(items) == Observations(items[..|items| - 1]) + [Observe(items[|items| - 1])]
  {
  }

  lemma ControlsGrow(commands: seq<Command>)
    requires commands != []
    ensures Controls(commands) == Controls(commands[..|commands| - 1]) + [Control(commands[|commands| - 1])]
  {
  }

  lemma {:induction false} ObservationsRun(w: World, items: seq<Item>)
    requires w.phase.Scanning?
    ensures ValidRun(w, Observations(items))
    ensures var v := Run(w, Observations(items));
      v.phase.Scanning? && v.now == w.now && v.core == D.AllHandled(w.core, items, w.now)
    decreases |items|
  {
    if items != [] {
      var first := items[..|items| - 1];
      var last := items[|items| - 1];
      ObservationsRun(w, first);
      var v := Run(w, Observations(first));
      Observation(v, last);
      OneMore(w, Observations(first), Observe(last));
      ObservationsGrow(items);
    }
  }

  lemma Controlled(w: World, command: Command)
    requires w.phase.Controlling?
    ensures var v := Apply(w, Control(command));
      Enabled(w, Control(command)) && v.phase.Controlling? && v.now == w.now
          && v.core == C.ApplyCommand(w.core, command, w.now)
  {
  }

  lemma {:induction false} ControlsRun(w: World, commands: seq<Command>)
    requires w.phase.Controlling?
    ensures ValidRun(w, Controls(commands))
    ensures var v := Run(w, Controls(commands));
      v.phase.Controlling? && v.now == w.now && v.core == AllApplied(w.core, commands, w.now)
    decreases |commands|
  {
    if commands != [] {
      var first := commands[..|commands| - 1];
      var last := commands[|commands| - 1];
      ControlsRun(w, first);
      var v := Run(w, Controls(first));
      Controlled(v, last);
      OneMore(w, Controls(first), Control(last));
      ControlsGrow(commands);
    }
  }

  /** The section is a run from an idle world to one that waits for the probes, with the very state the methods
      leave: what holds of runs holds of the daemon. */
  lemma ScanSectionIsARun(w: World, s: Scan, now: Time)
    requires Enabled(w, TickStart(now, s.reload, s.wall))
    ensures ValidRun(w, ScanSteps(s, now))
    ensures var v := Run(w, ScanSteps(s, now));
      v.phase.Waiting? && v.now == now && v.core == ScanResult(w.core, s, now)
  {
    var begin := [TickStart(now, s.reload, s.wall)];
    Single(w, begin[0]);
    var w1 := Run(w, begin);
    ObservationsRun(w1, s.items);
    Joined(w, begin, Observations(s.items));
    var w2 := Run(w1, Observations(s.items));
    EndsScan(w2, s);
    var middle := [EndScan(s.reopen), SetPaused(s.paused)];
    Joined(w, begin + Observations(s.items), middle);
    var w3 := Run(w2, middle);
    ControlsRun(w3, s.commands);
    Joined(w, begin + Observations(s.items) + middle, Controls(s.commands));
    var w4 := Run(w3, Controls(s.commands));
    Single(w4, ExpireStarts);
    Joined(w, begin + Observations(s.items) + middle + Controls(s.commands), [ExpireStarts]);
  }

  lemma EndsScan(w: World, s: Scan)
    requires w.phase.Scanning?
    ensures var steps := [EndScan(s.reopen), SetPaused(s.paused)];
      && ValidRun(w, steps) && Run(w, steps).phase.Controlling? && Run(w, steps).now == w.now
      && Run(w, steps).core == ScanOpened(w.core, s, w.now).(paused := s.paused)
  {
    Single(w, EndScan(s.reopen));
    Single(Apply(w, EndScan(s.reopen)), SetPaused(s.paused));
    Joined(w, [EndScan(s.reopen)], [SetPaused(s.paused)]);
    assert [EndScan(s.reopen)] + [SetPaused(s.paused)] == [EndScan(s.reopen), SetPaused(s.paused)];
  }
}
