/** The event and state handlers as the daemon runs them: sequential code over
    the process-wide settings, the event id counter and the host record, each
    method proved equal to its reference definition in Semantics. */
module SeHandlers {
  import opened Objects
  import opened Effects
  import opened Semantics

  /** The process-wide variables the handlers use. `trace` records, in order,
      every call the handlers make into the rest of the daemon. */
  class Globals {
    var enableEventHandlers: bool
    var obsessOverServices: bool
    var obsessOverHosts: bool
    var logEventHandlers: bool
    var logHostRetries: bool
    var hasGlobalHostEventHandler: bool
    var hasGlobalServiceEventHandler: bool
    var hasOcspCommand: bool
    var hasOchpCommand: bool
    var nextEventId: ULong
    ghost var trace: seq<Effect>

    function Config(): Semantics.Config
      reads this`enableEventHandlers, this`obsessOverServices, this`obsessOverHosts,
            this`logEventHandlers, this`logHostRetries,
            this`hasGlobalHostEventHandler, this`hasGlobalServiceEventHandler,
            this`hasOcspCommand, this`hasOchpCommand
    {
      Semantics.Config(enableEventHandlers, obsessOverServices, obsessOverHosts, logEventHandlers, logHostRetries,
             hasGlobalHostEventHandler, hasGlobalServiceEventHandler, hasOcspCommand, hasOchpCommand)
    }
  }

  /** Hands `line` to the command runner and writes the timeout warning if the
      runner reports one. */
  method RunCommand(g: Globals, kind: CommandKind, line: CommandLine, timedOut: bool)
    modifies g`trace
    ensures g.trace == old(g.trace) + [Run(kind, line)] + Warning(kind, timedOut)
  {
    g.trace := g.trace + [Run(kind, line)];
    if timedOut {
      g.trace := g.trace + [TimeoutWarning(kind)];
    }
  }

  /** The event-handler run protocol shared by the four runners: the command
      line is built, optionally logged, and run. */
  method ExecuteHandler(g: Globals, kind: CommandKind, o: CommandResult) returns (r: Status)
    modifies g`trace
    ensures r == Execute(kind, o, g.logEventHandlers).code
    ensures g.trace == old(g.trace) + Execute(kind, o, g.logEventHandlers).effects
  {
    if o.expansion == NoRawLine {
      return Error;
    }
    if o.expansion == NoProcessedLine {
      return Error;
    }
    if g.logEventHandlers {
      g.trace := g.trace + [LogHandler(kind)];
    }
    RunCommand(g, kind, ExpandedLine, o.timedOut);
    r := Ok;
  }

  method ObsessiveCompulsiveServiceCheckProcessor(g: Globals, svc: Service?, o: CommandResult) returns (r: Status)
    modifies g`trace
    ensures svc == null ==> r == Error && g.trace == old(g.trace)
    ensures svc != null ==> r == OcspReply(g.Config(), svc.View(), o).code
    ensures svc != null ==> g.trace == old(g.trace) + OcspReply(g.Config(), svc.View(), o).effects
  {
    if svc == null {
      return Error;
    }
    if !g.obsessOverServices {
      return Ok;
    }
    if !svc.obsessOverService {
      return Ok;
    }
    if !g.hasOcspCommand {
      return Error;
    }
    if svc.host == null {
      return Error;
    }
    if o.expansion == NoRawLine {
      return Error;
    }
    if o.expansion == NoProcessedLine {
      return Error;
    }
    RunCommand(g, Ocsp, ExpandedLine, o.timedOut);
    r := Ok;
  }

  method ObsessiveCompulsiveHostCheckProcessor(g: Globals, hst: Host?, o: CommandResult) returns (r: Status)
    modifies g`trace
    ensures hst == null ==> r == Error && g.trace == old(g.trace)
    ensures hst != null ==> r == OchpReply(g.Config(), hst.View(), o).code
    ensures hst != null ==> g.trace == old(g.trace) + OchpReply(g.Config(), hst.View(), o).effects
  {
    if hst == null {
      return Error;
    }
    if !g.obsessOverHosts {
      return Ok;
    }
    if !hst.obsessOverHost {
      return Ok;
    }
    if !g.hasOchpCommand {
      return Error;
    }
    g.trace := g.trace + [GrabHostMacros(hst.View())];
    if o.expansion == NoRawLine {
      return Error;
    }
    // The test of the processed line assigns NULL to it, so it never fails
    // and the runner receives a null command line.
    RunCommand(g, Ochp, NullLine, o.timedOut);
    r := Ok;
  }

  method HandleServiceEvent(g: Globals, svc: Service?, og: CommandResult, os: CommandResult) returns (r: Status)
    modifies g`trace
    ensures svc == null ==> r == Error && g.trace == old(g.trace)
    ensures svc != null ==> r == ServiceEventReply(g.Config(), svc.View(), og, os).code
    ensures svc != null ==> g.trace == old(g.trace) + ServiceEventReply(g.Config(), svc.View(), og, os).effects
  {
    if svc == null {
      return Error;
    }
    if !g.enableEventHandlers {
      return Ok;
    }
    if !svc.eventHandlerEnabled {
      return Ok;
    }
    if svc.host == null {
      return Error;
    }
    var _ := RunGlobalServiceEventHandler(g, svc, og);
    if svc.hasEventHandler {
      var _ := RunServiceEventHandler(g, svc, os);
    }
    g.trace := g.trace + [CheckExternalCommands];
    r := Ok;
  }

  method RunGlobalServiceEventHandler(g: Globals, svc: Service?, o: CommandResult) returns (r: Status)
    modifies g`trace
    ensures svc == null ==> r == Error && g.trace == old(g.trace)
    ensures svc != null ==> r == GlobalServiceHandlerReply(g.Config(), o).code
    ensures svc != null ==> g.trace == old(g.trace) + GlobalServiceHandlerReply(g.Config(), o).effects
  {
    if svc == null {
      return Error;
    }
    if !g.enableEventHandlers {
      return Ok;
    }
    if !g.hasGlobalServiceEventHandler {
      return Error;
    }
    r := ExecuteHandler(g, GlobalServiceHandler, o);
  }

  method RunServiceEventHandler(g: Globals, svc: Service?, o: CommandResult) returns (r: Status)
    modifies g`trace
    ensures svc == null ==> r == Error && g.trace == old(g.trace)
    ensures svc != null ==> r == ServiceHandlerReply(g.Config(), svc.View(), o).code
    ensures svc != null ==> g.trace == old(g.trace) + ServiceHandlerReply(g.Config(), svc.View(), o).effects
  {
    if svc == null {
      return Error;
    }
    if !svc.hasEventHandler {
      return Error;
    }
    r := ExecuteHandler(g, ServiceHandler, o);
  }

  method HandleHostEvent(g: Globals, hst: Host?, og: CommandResult, oh: CommandResult) returns (r: Status)
    modifies g`trace
    ensures hst == null ==> r == Error && g.trace == old(g.trace)
    ensures hst != null ==> r == HostEventReply(g.Config(), hst.View(), og, oh).code
    ensures hst != null ==> g.trace == old(g.trace) + HostEventReply(g.Config(), hst.View(), og, oh).effects
  {
    if hst == null {
      return Error;
    }
    if !g.enableEventHandlers {
      return Ok;
    }
    if !hst.eventHandlerEnabled {
      return Ok;
    }
    ghost var t0 := g.trace;
    ghost var grab := [GrabHostMacros(hst.View())];
    g.trace := g.trace + grab;
    var _ := RunGlobalHostEventHandler(g, hst, og);
    ghost var global := GlobalHostHandlerReply(g.Config(), og).effects;
    ghost var own: seq<Effect> := [];
    if hst.hasEventHandler {
      own := HostHandlerReply(g.Config(), hst.View(), oh).effects;
      var _ := RunHostEventHandler(g, hst, oh);
    }
    assert g.trace == t0 + grab + global + own;
    g.trace := g.trace + [CheckExternalCommands];
    r := Ok;
    // Speed hint: regroup the appends the way the reply builds them.
    AppendAssoc(t0, grab, global);
    AppendAssoc(t0, grab + global, own);
    AppendAssoc(t0, grab + global + own, [CheckExternalCommands]);
  }

  method RunGlobalHostEventHandler(g: Globals, hst: Host?, o: CommandResult) returns (r: Status)
    modifies g`trace
    ensures hst == null ==> r == Error && g.trace == old(g.trace)
    ensures hst != null ==> r == GlobalHostHandlerReply(g.Config(), o).code
    ensures hst != null ==> g.trace == old(g.trace) + GlobalHostHandlerReply(g.Config(), o).effects
  {
    if hst == null {
      return Error;
    }
    if !g.enableEventHandlers {
      return Ok;
    }
    if !g.hasGlobalHostEventHandler {
      return Error;
    }
    r := ExecuteHandler(g, GlobalHostHandler, o);
  }

  method RunHostEventHandler(g: Globals, hst: Host?, o: CommandResult) returns (r: Status)
    modifies g`trace
    ensures hst == null ==> r == Error && g.trace == old(g.trace)
    ensures hst != null ==> r == HostHandlerReply(g.Config(), hst.View(), o).code
    ensures hst != null ==> g.trace == old(g.trace) + HostHandlerReply(g.Config(), hst.View(), o).effects
  {
    if hst == null {
      return Error;
    }
    if !hst.hasEventHandler {
      return Error;
    }
    r := ExecuteHandler(g, HostHandler, o);
  }

  /** Records `now` as the last time the host was in its current state. */
  method StampLastTimeOf(hst: Host, now: Time)
    modifies hst`lastTimeUp, hst`lastTimeDown, hst`lastTimeUnreachable
    ensures hst.View() == StampLastTime(old(hst.View()), now)
  {
    match hst.currentState {
      case HostUp => hst.lastTimeUp := now;
      case HostDown => hst.lastTimeDown := now;
      case HostUnreachable => hst.lastTimeUnreachable := now;
    }
  }

  method StampChangeOf(hst: Host, now: Time)
    modifies hst`lastStateChange, hst`lastHardStateChange
    ensures hst.View() == StampChange(old(hst.View()), now)
  {
    hst.lastStateChange := now;
    if hst.stateType == HardState {
      hst.lastHardStateChange := now;
    }
  }

  method ShiftEventIdOf(g: Globals, hst: Host)
    modifies g`nextEventId, hst`lastEventId, hst`currentEventId
    ensures hst.View() == ShiftEventId(old(hst.View()), old(g.nextEventId))
    ensures g.nextEventId == Succ(old(g.nextEventId))
  {
    hst.lastEventId := hst.currentEventId;
    hst.currentEventId := g.nextEventId;
    g.nextEventId := Succ(g.nextEventId);
  }

  /** The acknowledgement reset, with the deletion of the acknowledgement's comments. */
  method ResetAckOf(g: Globals, hst: Host)
    modifies g`trace, hst`problemAcknowledged, hst`ackType
    ensures hst.View() == ResetAck(old(hst.View()))
    ensures g.trace == old(g.trace) + if ClearsAck(old(hst.View())) then [DeleteAckComments] else []
  {
    if hst.ackType == AckNormal {
      hst.problemAcknowledged := false;
      hst.ackType := AckNone;
      g.trace := g.trace + [DeleteAckComments];
    } else if hst.ackType == AckSticky && hst.currentState == HostUp {
      hst.problemAcknowledged := false;
      hst.ackType := AckNone;
      g.trace := g.trace + [DeleteAckComments];
    }
  }

  method ResetNotificationTimesOf(hst: Host)
    modifies hst`lastNotification, hst`nextNotification, hst`noMoreNotifications
    ensures hst.View() == ResetNotificationTimes(old(hst.View()))
  {
    hst.lastNotification := 0;
    hst.nextNotification := 0;
    hst.noMoreNotifications := false;
  }

  /** The bookkeeping of a state change, in the order the source performs it. */
  method RecordStateChange(g: Globals, hst: Host, now: Time)
    modifies g`nextEventId, g`trace, hst
    ensures hst.View() == RecordChange(old(hst.View()), now, old(g.nextEventId))
    ensures g.nextEventId == Succ(old(g.nextEventId))
    ensures g.trace == old(g.trace) + if ClearsAck(old(hst.View())) then [DeleteAckComments] else []
  {
    StampChangeOf(hst, now);
    ShiftEventIdOf(g, hst);
    ResetAckOf(g, hst);
    ResetNotificationTimesOf(hst);
  }

  /** After a recovery the attempt count starts again at 1. */
  method ResetAttemptOf(hst: Host)
    modifies hst`currentAttempt
    ensures hst.View() == ResetAttempt(old(hst.View()))
  {
    if hst.currentState == HostUp {
      hst.currentAttempt := 1;
    }
  }

  /** After a recovery the notification number and the notified flags are reset. */
  method ResetNotificationStateOf(hst: Host)
    modifies hst`currentNotificationNumber, hst`notifiedOnDown, hst`notifiedOnUnreachable
    ensures hst.View() == ResetNotificationState(old(hst.View()))
  {
    if hst.currentState == HostUp {
      hst.currentNotificationNumber := 0;
      hst.notifiedOnDown := false;
      hst.notifiedOnUnreachable := false;
    }
  }

  /** What handle_host_state does once it has found a state change. */
  method HandleStateChange(g: Globals, hst: Host, now: Time, runs: HostCheckRuns)
    modifies g`nextEventId, g`trace, hst
    ensures hst.View() == RecoveryReset(RecordChange(old(hst.View()), now, old(g.nextEventId)))
    ensures g.nextEventId == Succ(old(g.nextEventId))
    ensures g.trace == old(g.trace)
                       + ChangeEffects(g.Config(), old(hst.View()), RecordChange(old(hst.View()), now, old(g.nextEventId)), runs)
  {
    ghost var v := hst.View();
    ghost var start := g.trace;
    RecordStateChange(g, hst, now);
    ghost var changed := hst.View();
    ghost var hard := v.stateType == HardState;
    ghost var deleted := if ClearsAck(v) then [DeleteAckComments] else [];
    ghost var logged := if hard || (v.stateType == SoftState && g.logHostRetries) then [LogHostEvent] else [];
    ghost var flex := if hard then [CheckFlexDowntime] else [];
    ghost var notified := if hard then [HostNotification(changed)] else [];
    assert g.trace == start + deleted;

    if hst.stateType == HardState || (hst.stateType == SoftState && g.logHostRetries) {
      g.trace := g.trace + [LogHostEvent];
    }
    assert g.trace == start + deleted + logged;
    if hst.stateType == HardState {
      g.trace := g.trace + [CheckFlexDowntime];
    }
    assert g.trace == start + deleted + logged + flex;
    if hst.stateType == HardState {
      g.trace := g.trace + [HostNotification(hst.View())];
    }
    assert g.trace == start + deleted + logged + flex + notified;
    ghost var handled := g.trace;

    var _ := HandleHostEvent(g, hst, runs.globalHandler, runs.hostHandler);
    ghost var dispatched := HostEventReply(g.Config(), changed, runs.globalHandler, runs.hostHandler).effects;
    assert g.trace == handled + dispatched;
    assert ChangeEffects(g.Config(), v, changed, runs) == deleted + logged + flex + notified + dispatched;
    // Speed hint: regroup the appends step by step; the verifier finds the
    // same equality unaided only at several times the cost.
    calc {
      g.trace;
      start + deleted + logged + flex + notified + dispatched;
      { AppendAssoc(start, deleted, logged); }
      start + (deleted + logged) + flex + notified + dispatched;
      { AppendAssoc(start, deleted + logged, flex); }
      start + (deleted + logged + flex) + notified + dispatched;
      { AppendAssoc(start, deleted + logged + flex, notified); }
      start + (deleted + logged + flex + notified) + dispatched;
      { AppendAssoc(start, deleted + logged + flex + notified, dispatched); }
      start + (deleted + logged + flex + notified + dispatched);
    }

    ResetAttemptOf(hst);
    ResetNotificationStateOf(hst);
  }

  /** What handle_host_state does when the state has not changed. */
  method HandleSteadyState(g: Globals, hst: Host)
    modifies g`trace
    ensures g.trace == old(g.trace) + SteadyEffects(g.Config(), hst.View())
  {
    if hst.currentState != HostUp && hst.stateType == HardState {
      g.trace := g.trace + [HostNotification(hst.View())];
    }
    if hst.stateType == SoftState && g.logHostRetries {
      g.trace := g.trace + [LogHostEvent];
    }
  }

  /** The host state handler, run after every host check with the check's
      result already written into `hst`; `now` is the wall-clock time. */
  method HandleHostState(g: Globals, hst: Host, now: Time, runs: HostCheckRuns) returns (r: Status)
    modifies g`nextEventId, g`trace, hst
    ensures r == Ok
    ensures hst.View() == HostAfter(old(hst.View()), now, old(g.nextEventId))
    ensures g.nextEventId == NextEventIdAfter(old(hst.View()), old(g.nextEventId))
    ensures g.trace == old(g.trace) + HostStateEffects(g.Config(), old(hst.View()), now, old(g.nextEventId), runs)
  {
    ghost var v := hst.View();
    ghost var id := g.nextEventId;
    ghost var start := g.trace;

    var _ := ObsessiveCompulsiveHostCheckProcessor(g, hst, runs.ochp);
    g.trace := g.trace + [UpdatePerfData];
    ghost var head := OchpReply(g.Config(), v, runs.ochp).effects + [UpdatePerfData];
    AppendAssoc(start, OchpReply(g.Config(), v, runs.ochp).effects, [UpdatePerfData]);
    assert g.trace == start + head;

    StampLastTimeOf(hst, now);
    ghost var stamped := hst.View();

    var stateChange := hst.lastState != hst.currentState || hst.lastHardState != hst.currentState
                       || (hst.currentState == HostUp && hst.stateType == SoftState);
    assert stateChange == IsStateChange(v);

    ghost var tail: seq<Effect>;
    if stateChange {
      HandleStateChange(g, hst, now, runs);
      tail := ChangeEffects(g.Config(), stamped, RecordChange(stamped, now, id), runs);
    } else {
      HandleSteadyState(g, hst);
      tail := SteadyEffects(g.Config(), stamped);
    }
    assert g.trace == start + head + tail;
    AppendAssoc(start, head, tail);
    assert HostStateEffects(g.Config(), v, now, id, runs) == head + tail;
    r := Ok;
  }
}
