/** Session control: the persisted control row, the in-memory core state it is copied into, and the
    user actions on both. What the outside says (stream freshness, health, preflight findings) comes
    in as parameters. */
module SessionControl {
  import opened Wrappers

  datatype SessionState = SessionStopped | SessionRunning | SessionPaused | SessionFlattening | SessionDegraded
  datatype AgentRuntime = AgentStopped | AgentRunning | AgentDegraded | AgentStale
  datatype TradingMode = ModeStopped | ModeDryRun | ModeManual | ModeAuto
  datatype RuntimeMode = RuntimeStopped | RuntimeDryRun | RuntimeManual | RuntimeAutoDemo
  datatype Connection = Connected | Stale | Disconnected
  datatype Environment = Demo | LiveTrading

  datatype ControlSnapshot = ControlSnapshot(
    environment: Environment, armed: bool, session: SessionState, runtime: AgentRuntime,
    mode: TradingMode, connection: Connection, kill: bool, auto: bool)

  const SAFE_SNAPSHOT := ControlSnapshot(Demo, false, SessionStopped, AgentStopped, ModeStopped, Disconnected, false, false)

  /** The core mode that `_sync_core_state` derives from the control row. */
  function CoreMode(c: ControlSnapshot): RuntimeMode {
    if c.runtime.AgentStopped? then RuntimeStopped
    else match c.mode
         case ModeStopped => RuntimeStopped
         case ModeDryRun => RuntimeDryRun
         case ModeManual => RuntimeManual
         case ModeAuto => RuntimeAutoDemo
  }

  /** A stopped agent is stopped in any mode; a running one is in the mode of the row. */
  lemma ModeMeans(c: ControlSnapshot)
    ensures CoreMode(c) == RuntimeStopped <==> c.runtime == AgentStopped || c.mode == ModeStopped
    ensures CoreMode(c) == RuntimeDryRun <==> c.runtime != AgentStopped && c.mode == ModeDryRun
    ensures CoreMode(c) == RuntimeManual <==> c.runtime != AgentStopped && c.mode == ModeManual
    ensures CoreMode(c) == RuntimeAutoDemo <==> c.runtime != AgentStopped && c.mode == ModeAuto
  {
  }

  /** The in-memory state that the order path consults. */
  class AgentState {
    var mode: RuntimeMode
    var auto: bool
    var armed: bool
    var kill: bool

    constructor ()
      ensures mode == RuntimeManual && !auto && armed && !kill
    {
      mode, auto, armed, kill := RuntimeManual, false, true, false;
    }

    /** Refused only for AUTO_DEMO while auto is not enabled. */
    method SetMode(m: RuntimeMode) returns (ok: bool)
      modifies this`mode
      ensures ok <==> !(m.RuntimeAutoDemo? && !auto)
      ensures mode == if ok then m else old(mode)
    {
      ok := !(m.RuntimeAutoDemo? && !auto);
      if ok {
        mode := m;
      }
    }

    predicate AllowsNewEntries()
      reads this
    {
      armed && !kill && (mode.RuntimeManual? || mode.RuntimeAutoDemo?)
    }

    lemma EntriesMean()
      ensures AllowsNewEntries() <==> armed && !kill && mode in {RuntimeManual, RuntimeAutoDemo}
    {
    }

    method Arm() returns (ok: bool)
      modifies this`armed
      ensures ok <==> !kill
      ensures armed == if ok then true else old(armed)
    {
      ok := !kill;
      if ok {
        armed := true;
      }
    }

    method Disarm()
      modifies this`armed
      ensures !armed
    {
      armed := false;
    }

    method ActivateKillSwitch()
      modifies this
      ensures kill && !armed && mode == RuntimeStopped && auto == old(auto)
    {
      kill, armed, mode := true, false, RuntimeStopped;
    }

    method ResetKillSwitch()
      modifies this`kill, this`armed
      ensures !kill && !armed
    {
      kill, armed := false, false;
    }
  }

  /** The last write of the session column. */
  datatype SessionWrite = NoSessionWrite | Started(blockers: seq<string>) | Wrote(state: SessionState)

  datatype Outcome = Done | Refused(reason: string)

  class TradingService {
    const core: AgentState
    var control: ControlSnapshot
    var lastPreflight: seq<string>
    ghost var lastSessionWrite: SessionWrite

    /** Control row and core state agree. Only the auto flag of the core may lag, and only while
        the kill switch is on. */
    ghost predicate Coupled()
      reads this, core
    {
      && control.kill == core.kill
      && control.armed == core.armed
      && core.mode == CoreMode(control)
      && (control.kill ==> !control.armed)
      && (control.mode.ModeAuto? ==> control.auto)
      && (control.auto == core.auto || control.kill)
      && control.environment.Demo?
    }

    ghost predicate Valid()
      reads this, core
    {
      && Coupled()
      && (control.session.SessionRunning? <==> lastSessionWrite == Started([]))
    }

    /** Startup: whatever was persisted, only the kill switch survives. */
    constructor (previous: Option<ControlSnapshot>)
      ensures Valid() && fresh(core)
      ensures control == SAFE_SNAPSHOT.(kill := previous.Some? && previous.value.kill)
      ensures !core.AllowsNewEntries() && lastPreflight == ["NOT_RUN"]
    {
      var state := new AgentState();
      core := state;
      control := SAFE_SNAPSHOT.(kill := previous.Some? && previous.value.kill);
      lastPreflight := ["NOT_RUN"];
      lastSessionWrite := NoSessionWrite;
      new;
      core.Disarm();
      core.auto := false;
      var ok := core.SetMode(RuntimeStopped);
      core.kill := control.kill;
    }

    /** `_sync_core_state`: copy the control row into the core; false when it raises. */
    method SyncCoreState() returns (ok: bool)
      modifies core
      ensures ok <==> !(CoreMode(control).RuntimeAutoDemo? && !control.auto) && !(control.armed && control.kill)
      ensures ok ==> core.mode == CoreMode(control) && core.armed == control.armed
      ensures core.kill == control.kill && core.auto == control.auto
    {
      core.auto := control.auto;
      core.kill := control.kill;
      ok := core.SetMode(CoreMode(control));
      if !ok {
        return;
      }
      if control.armed {
        ok := core.Arm();
      } else {
        core.Disarm();
      }
    }

    /** `_transition`: write the row, then sync; if the sync raises, fall back to the safe row. A row
        that respects the two rules is taken as it is. */
    method Transition(next: ControlSnapshot, ghost write: SessionWrite) returns (ok: bool)
      requires next.environment.Demo?
      modifies this`control, this`lastSessionWrite, core
      ensures ok <==> !(CoreMode(next).RuntimeAutoDemo? && !next.auto) && !(next.armed && next.kill)
      ensures ok ==> control == next
      ensures !ok ==> control == next.(armed := false, runtime := AgentStopped, mode := ModeStopped, auto := false, connection := Stale)
      ensures lastSessionWrite == if write.NoSessionWrite? then old(lastSessionWrite) else write
      ensures !ok ==> core.mode == RuntimeStopped && !core.auto && !core.armed
      ensures (next.mode.ModeAuto? ==> next.auto) ==> Coupled()
    {
      control := next;
      if !write.NoSessionWrite? {
        lastSessionWrite := write;
      }
      ok := SyncCoreState();
      if !ok {
        control := control.(armed := false, runtime := AgentStopped, mode := ModeStopped, auto := false, connection := Stale);
        core.Disarm();
        core.auto := false;
        core.mode := RuntimeStopped;
      }
    }

    /** A health refresh changes the connection column only. */
    method RefreshHealth(connection: Connection)
      requires Valid()
      modifies this`control, this`lastSessionWrite, core
      ensures Valid() && control == old(control).(connection := connection)
      ensures lastSessionWrite == old(lastSessionWrite)
    {
      if control.connection != connection {
        var ok := Transition(control.(connection := connection), NoSessionWrite);
      }
    }

    // ----- session actions -----

    /** START arms the agent, and only when the preflight finds nothing. */
    method Start(connection: Connection, streamFresh: bool, findings: seq<string>) returns (r: Outcome)
      requires Valid()
      modifies this, core
      ensures Valid()
      ensures old(control).session.SessionRunning? ==> r.Done? && control == old(control)
      ensures !old(control).session.SessionRunning? ==>
        && (r.Done? <==> !old(control).kill && streamFresh && findings == [])
        && (r.Done? ==> control == old(control).(connection := connection, session := SessionRunning,
              runtime := AgentRunning, mode := ModeAuto, auto := true, armed := true))
        && (r.Refused? ==> control == old(control).(connection := connection))
      ensures old(control).session.SessionRunning? ==> lastPreflight == old(lastPreflight)
      ensures !old(control).session.SessionRunning? ==>
        && lastPreflight ==
             (if old(control).kill then ["KILL_SWITCH_ACTIVE"] else []) +
             (if streamFresh then [] else ["CONTROL_STREAM_NOT_FRESH"]) + findings
        && (r.Refused? ==> lastPreflight != [] && r == Refused(lastPreflight[0]))
    {
      if control.session.SessionRunning? {
        return Done;
      }
      var blockers: seq<string> := [];
      if !control.environment.Demo? {
        blockers := blockers + ["DEMO_ENVIRONMENT_REQUIRED"];
      }
      if control.kill {
        blockers := blockers + ["KILL_SWITCH_ACTIVE"];
      }
      if !streamFresh {
        blockers := blockers + ["CONTROL_STREAM_NOT_FRESH"];
      }
      RefreshHealth(connection);
      blockers := blockers + findings;
      lastPreflight := blockers;
      if blockers != [] {
        return Refused(blockers[0]);
      }
      var ok := Transition(control.(session := SessionRunning, runtime := AgentRunning, mode := ModeAuto,
                                    auto := true, armed := true), Started([]));
      r := Done;
    }

    /** Every way out of a session disarms and disables auto. */
    method Leave(session: SessionState, runtime: AgentRuntime, mode: TradingMode)
      requires Valid()
      requires !session.SessionRunning? && !mode.ModeAuto?
      modifies this`control, this`lastSessionWrite, core
      ensures Valid()
      ensures control == old(control).(session := session, runtime := runtime, mode := mode, auto := false, armed := false)
    {
      var ok := Transition(control.(session := session, runtime := runtime, mode := mode, auto := false, armed := false),
                           Wrote(session));
    }

    method Pause()
      requires Valid()
      modifies this`control, this`lastSessionWrite, core
      ensures Valid()
      ensures control == if old(control).session.SessionPaused? then old(control) else
        old(control).(session := SessionPaused, runtime := AgentRunning, mode := ModeManual, auto := false, armed := false)
    {
      if !control.session.SessionPaused? {
        Leave(SessionPaused, AgentRunning, ModeManual);
      }
    }

    method Stop()
      requires Valid()
      modifies this`control, this`lastSessionWrite, core
      ensures Valid()
      ensures control == if old(control).session.SessionStopped? then old(control) else
        old(control).(session := SessionStopped, runtime := AgentStopped, mode := ModeStopped, auto := false, armed := false)
    {
      if !control.session.SessionStopped? {
        Leave(SessionStopped, AgentStopped, ModeStopped);
      }
    }

    /** The first write of a flatten: entries are blocked before anything is sold. */
    method BeginFlatten()
      requires Valid()
      modifies this`control, this`lastSessionWrite, core
      ensures Valid()
      ensures control == if old(control).session.SessionFlattening? then old(control) else
        old(control).(session := SessionFlattening, runtime := AgentRunning, mode := ModeManual, auto := false, armed := false)
      ensures !old(control).session.SessionFlattening? ==> !core.AllowsNewEntries()
    {
      if !control.session.SessionFlattening? {
        Leave(SessionFlattening, AgentRunning, ModeManual);
      }
    }

    method ConfirmFlat()
      requires Valid()
      modifies this`control, this`lastSessionWrite, core
      ensures Valid() && !core.AllowsNewEntries()
      ensures control == old(control).(session := SessionStopped, runtime := AgentStopped, mode := ModeStopped,
                                       auto := false, armed := false)
    {
      Leave(SessionStopped, AgentStopped, ModeStopped);
    }

    /** Only a running session degrades, and it fails closed. */
    method Degrade()
      requires Valid()
      modifies this`control, this`lastSessionWrite, core
      ensures Valid()
      ensures control == if !old(control).session.SessionRunning? then old(control) else
        old(control).(session := SessionDegraded, runtime := AgentDegraded, mode := ModeManual, auto := false, armed := false)
      ensures old(control).session.SessionRunning? ==> !core.AllowsNewEntries()
    {
      if control.session.SessionRunning? {
        Leave(SessionDegraded, AgentDegraded, ModeManual);
      }
    }

    // ----- manual actions -----

    method SetMode(mode: TradingMode, streamFresh: bool) returns (r: Outcome)
      requires Valid()
      modifies this`control, this`lastSessionWrite, core
      ensures Valid()
      ensures r.Refused? <==> mode.ModeAuto? && (!old(control).auto || !streamFresh)
      ensures r.Refused? ==>
        && control == old(control)
        && r == Refused(if old(control).auto then "CONTROL_STREAM_NOT_FRESH" else "AUTO_DEMO_DISABLED")
      ensures r.Done? ==>
        control == (if mode.ModeStopped? then old(control).(mode := mode, armed := false, runtime := AgentStopped)
                    else old(control).(mode := mode))
      ensures lastSessionWrite == old(lastSessionWrite)
    {
      if mode.ModeAuto? && !control.auto {
        return Refused("AUTO_DEMO_DISABLED");
      }
      if mode.ModeAuto? && !streamFresh {
        return Refused("CONTROL_STREAM_NOT_FRESH");
      }
      var next := control.(mode := mode);
      if mode.ModeStopped? {
        next := next.(armed := false, runtime := AgentStopped);
      }
      var ok := Transition(next, NoSessionWrite);
      r := Done;
    }

    method StartAgent() returns (r: Outcome)
      requires Valid()
      modifies this`control, this`lastSessionWrite, core
      ensures Valid()
      ensures r.Done? <==> !old(control).kill && !old(control).mode.ModeStopped?
      ensures r.Refused? ==> r == Refused(if old(control).kill then "KILL_SWITCH_ACTIVE" else "SELECT_RUNTIME_MODE_FIRST")
      ensures control == if r.Done? then old(control).(runtime := AgentRunning) else old(control)
    {
      if control.kill {
        return Refused("KILL_SWITCH_ACTIVE");
      }
      if control.mode.ModeStopped? {
        return Refused("SELECT_RUNTIME_MODE_FIRST");
      }
      var ok := Transition(control.(runtime := AgentRunning), NoSessionWrite);
      r := Done;
    }

    method StopAgent()
      requires Valid()
      modifies this`control, this`lastSessionWrite, core
      ensures Valid() && !core.AllowsNewEntries()
      ensures control == old(control).(session := SessionStopped, runtime := AgentStopped, mode := ModeStopped,
                                       auto := false, armed := false)
    {
      Leave(SessionStopped, AgentStopped, ModeStopped);
    }

    /** Arming needs a fresh stream, no kill switch, a running agent, an executable mode and a
        healthy system. */
    method Arm(connection: Connection, streamFresh: bool, systemReady: bool,
               healthBlockers: set<string>) returns (r: Outcome)
      requires Valid()
      modifies this`control, this`lastSessionWrite, core
      ensures Valid()
      ensures r.Done? <==>
        && streamFresh && !old(control).kill && old(control).runtime.AgentRunning?
        && (old(control).mode.ModeManual? || old(control).mode.ModeAuto?)
        && systemReady && healthBlockers - {"EXECUTION_DISARMED"} == {}
      ensures r.Done? ==> control == old(control).(connection := connection, armed := true) && core.AllowsNewEntries()
      ensures r.Refused? ==>
        && (r.reason == "CONTROL_STREAM_NOT_FRESH" <==> !streamFresh)
        && (r.reason == "KILL_SWITCH_ACTIVE" <==> streamFresh && old(control).kill)
        && (r.reason == "AGENT_NOT_RUNNING" <==> streamFresh && !old(control).kill && !old(control).runtime.AgentRunning?)
        && (r.reason == "SYSTEM_CAPABILITY_NOT_READY" ==> control == old(control).(connection := connection))
        && (r.reason != "SYSTEM_CAPABILITY_NOT_READY" ==> control == old(control))
    {
      if !streamFresh {
        return Refused("CONTROL_STREAM_NOT_FRESH");
      }
      if !control.environment.Demo? {
        return Refused("LIVE_NOT_CONFIGURED");
      }
      if control.kill {
        return Refused("KILL_SWITCH_ACTIVE");
      }
      if !control.runtime.AgentRunning? {
        return Refused("AGENT_NOT_RUNNING");
      }
      if !(control.mode.ModeManual? || control.mode.ModeAuto?) {
        return Refused("MODE_NOT_EXECUTABLE");
      }
      RefreshHealth(connection);
      var blockers := healthBlockers - {"EXECUTION_DISARMED"};
      if !systemReady || blockers != {} {
        return Refused("SYSTEM_CAPABILITY_NOT_READY");
      }
      var ok := Transition(control.(armed := true), NoSessionWrite);
      r := Done;
    }

    method Disarm()
      requires Valid()
      modifies this`control, this`lastSessionWrite, core
      ensures Valid() && control == old(control).(armed := false) && !core.AllowsNewEntries()
    {
      var ok := Transition(control.(armed := false), NoSessionWrite);
    }

    method EnableAutoDemo(confirmed: bool, streamFresh: bool) returns (r: Outcome)
      requires Valid()
      modifies this`control, this`lastSessionWrite, core
      ensures Valid()
      ensures r.Done? <==> confirmed && streamFresh && !old(control).kill
      ensures r.Refused? ==>
        && (r.reason == "EXACT_AUTO_DEMO_CONFIRMATION_REQUIRED" <==> !confirmed)
        && (r.reason == "CONTROL_STREAM_NOT_FRESH" <==> confirmed && !streamFresh)
      ensures control == if r.Done? then old(control).(auto := true) else old(control)
    {
      if !confirmed {
        return Refused("EXACT_AUTO_DEMO_CONFIRMATION_REQUIRED");
      }
      if !streamFresh {
        return Refused("CONTROL_STREAM_NOT_FRESH");
      }
      if !control.environment.Demo? || control.kill {
        return Refused("AUTO_DEMO_NOT_ALLOWED");
      }
      var ok := Transition(control.(auto := true), NoSessionWrite);
      r := Done;
    }

    /** Disabling auto while in AUTO also leaves AUTO and disarms. */
    method DisableAutoDemo()
      requires Valid()
      modifies this`control, this`lastSessionWrite, core
      ensures Valid()
      ensures control == if old(control).mode.ModeAuto?
                         then old(control).(auto := false, mode := ModeManual, armed := false)
                         else old(control).(auto := false)
    {
      var next := control.(auto := false);
      if control.mode.ModeAuto? {
        next := next.(mode := ModeManual, armed := false);
      }
      var ok := Transition(next, NoSessionWrite);
    }

    /** The kill switch writes the row and the core directly, not through the sync step. */
    method ActivateKillSwitch()
      requires Valid()
      modifies this`control, this`lastSessionWrite, core
      ensures Valid() && control.kill && !core.AllowsNewEntries()
      ensures control == old(control).(kill := true, auto := false, armed := false, runtime := AgentStopped,
                                       mode := ModeStopped, session := SessionStopped)
    {
      control := control.(kill := true, auto := false, armed := false, runtime := AgentStopped,
                          mode := ModeStopped, session := SessionStopped);
      lastSessionWrite := Wrote(SessionStopped);
      core.ActivateKillSwitch();
    }

    method ResetKillSwitch(confirmed: bool) returns (r: Outcome)
      requires Valid()
      modifies this`control, this`lastSessionWrite, core
      ensures Valid()
      ensures r.Done? <==> confirmed
      ensures control == if r.Done?
                         then old(control).(kill := false, armed := false, runtime := AgentStopped,
                                            mode := ModeStopped, session := SessionStopped)
                         else old(control)
    {
      if !confirmed {
        return Refused("EXACT_KILL_SWITCH_RESET_CONFIRMATION_REQUIRED");
      }
      core.ResetKillSwitch();
      var ok := Transition(control.(kill := false, armed := false, runtime := AgentStopped, mode := ModeStopped,
                                    session := SessionStopped), Wrote(SessionStopped));
      r := Done;
    }

    /** `_final_entry_guard`. Given the coupling, the core adds only one thing to what the control
        row already says: the mode must be executable. A pass means a running session. */
    method FinalEntryGuard(marketReady: bool) returns (pass: bool)
      requires Valid()
      ensures pass <==>
        && control.connection.Connected? && control.runtime.AgentRunning? && control.armed
        && control.session.SessionRunning? && marketReady
        && (control.mode.ModeManual? || control.mode.ModeAuto?)
      ensures pass ==> !control.kill && lastSessionWrite == Started([])
    {
      pass :=
        && !control.kill && control.environment.Demo? && control.connection.Connected?
        && control.runtime.AgentRunning? && control.armed && control.session.SessionRunning?
        && marketReady && core.AllowsNewEntries();
    }
  }

  // ----- any order of actions -----

  datatype Action =
    | Refreshes(connection: Connection)
    | Starts(connection: Connection, streamFresh: bool, findings: seq<string>)
    | Pauses
    | Stops
    | BeginsFlatten
    | ConfirmsFlat
    | Degrades
    | SetsMode(mode: TradingMode, streamFresh: bool)
    | StartsAgent
    | StopsAgent
    | Arms(connection: Connection, streamFresh: bool, systemReady: bool, blockers: set<string>)
    | Disarms
    | EnablesAuto(confirmed: bool, streamFresh: bool)
    | DisablesAuto
    | Kills
    | ResetsKill(confirmed: bool)

  method Act(service: TradingService, a: Action)
    requires service.Valid()
    modifies service, service.core
    ensures service.Valid()
    ensures old(service.control).kill && !a.ResetsKill? ==> service.control.kill
    ensures a.Kills? ==> service.control.kill
    ensures service.control.session.SessionRunning? && !old(service.control).session.SessionRunning? ==>
      a.Starts? && a.findings == [] && a.streamFresh && !old(service.control).kill
  {
    hide *;
    match a {
      case Refreshes(connection) => service.RefreshHealth(connection);
      case Starts(connection, isFresh, findings) => var r := service.Start(connection, isFresh, findings);
      case Pauses => service.Pause();
      case Stops => service.Stop();
      case BeginsFlatten => service.BeginFlatten();
      case ConfirmsFlat => service.ConfirmFlat();
      case Degrades => service.Degrade();
      case SetsMode(mode, isFresh) => var r := service.SetMode(mode, isFresh);
      case StartsAgent => var r := service.StartAgent();
      case StopsAgent => service.StopAgent();
      case Arms(connection, isFresh, ready, blockers) => var r := service.Arm(connection, isFresh, ready, blockers);
      case Disarms => service.Disarm();
      case EnablesAuto(confirmed, isFresh) => var r := service.EnableAutoDemo(confirmed, isFresh);
      case DisablesAuto => service.DisableAutoDemo();
      case Kills => service.ActivateKillSwitch();
      case ResetsKill(confirmed) => var r := service.ResetKillSwitch(confirmed);
    }
  }

  /** After any actions in any order since startup: the row and the core agree, a kill switch that was
      never reset is still on, and while it is on no new entry is allowed. */
  method AnyActions(previous: Option<ControlSnapshot>, actions: seq<Action>) returns (service: TradingService)
    ensures service.Valid()
    ensures service.control.kill ==> !service.core.AllowsNewEntries()
    ensures (forall i :: 0 <= i < |actions| ==> !actions[i].ResetsKill?) &&
            ((previous.Some? && previous.value.kill) || exists i :: 0 <= i < |actions| && actions[i].Kills?) ==>
      service.control.kill
  {
    service := new TradingService(previous);
    ghost var killed := previous.Some? && previous.value.kill;
    for i := 0 to |actions|
      invariant service.Valid() && fresh(service) && fresh(service.core)
      invariant killed <==> (previous.Some? && previous.value.kill) || exists j :: 0 <= j < i && actions[j].Kills?
      invariant killed && (forall j :: 0 <= j < i ==> !actions[j].ResetsKill?) ==> service.control.kill
    {
      Act(service, actions[i]);
      killed := killed || actions[i].Kills?;
    }
  }
}
