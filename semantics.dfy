/** Reference definitions, as values: for each handler, the code it returns and
    the calls it makes, and for the host state handler the host record, the
    event id counter and the calls after one check. The methods of SeHandlers
    are proved equal to these. */
module Semantics {
  import opened Objects
  import opened Effects

  /** The process-wide settings the handlers read; `has...` stands for the
      corresponding command variable being non-NULL. */
  datatype Config = Config(
    enableEventHandlers: bool,
    obsessOverServices: bool,
    obsessOverHosts: bool,
    logEventHandlers: bool,
    logHostRetries: bool,
    hasGlobalHostEventHandler: bool,
    hasGlobalServiceEventHandler: bool,
    hasOcspCommand: bool,
    hasOchpCommand: bool)

  /** The outcomes of the three commands one call of the host state handler may run. */
  datatype HostCheckRuns = HostCheckRuns(ochp: CommandResult, globalHandler: CommandResult, hostHandler: CommandResult)

  /** The warning written after a run that timed out. */
  function Warning(kind: CommandKind, timedOut: bool): seq<Effect>
  {
    if timedOut then [TimeoutWarning(kind)] else []
  }

  /** The common tail of the four event handler runners and of the service
      obsessive processor: ERROR if no command line could be built, else an
      optional log line, the run, and a warning if it timed out; OK. */
  function Execute(kind: CommandKind, o: CommandResult, logLine: bool): Reply
  {
    if o.expansion != Expanded then Reply(Error, [])
    else Reply(Ok, (if logLine then [LogHandler(kind)] else []) + [Run(kind, ExpandedLine)] + Warning(kind, o.timedOut))
  }

  // ---------------------------------------------------------------------
  // Obsessive compulsive processors

  /** obsessive_compulsive_service_check_processor on a non-null service. */
  function OcspReply(cfg: Config, s: ServiceView, o: CommandResult): Reply
  {
    if !cfg.obsessOverServices || !s.obsessOverService then Reply(Ok, [])
    else if !cfg.hasOcspCommand then Reply(Error, [])
    else if !s.hasHost then Reply(Error, [])
    else Execute(Ocsp, o, false)
  }

  /** obsessive_compulsive_host_check_processor on a non-null host. The host
      macros are refreshed from `h` once a command is configured. The test of
      the processed command line is an assignment of NULL, so only a missing
      raw line fails, and the runner is always handed a null line. */
  function OchpReply(cfg: Config, h: HostView, o: CommandResult): Reply
  {
    if !cfg.obsessOverHosts || !h.obsessOverHost then Reply(Ok, [])
    else if !cfg.hasOchpCommand then Reply(Error, [])
    else if o.expansion == NoRawLine then Reply(Error, [GrabHostMacros(h)])
    else Reply(Ok, [GrabHostMacros(h), Run(Ochp, NullLine)] + Warning(Ochp, o.timedOut))
  }

  // ---------------------------------------------------------------------
  // Event handlers

  /** run_global_service_event_handler on a non-null service. */
  function GlobalServiceHandlerReply(cfg: Config, o: CommandResult): Reply
  {
    if !cfg.enableEventHandlers then Reply(Ok, [])
    else if !cfg.hasGlobalServiceEventHandler then Reply(Error, [])
    else Execute(GlobalServiceHandler, o, cfg.logEventHandlers)
  }

  /** run_service_event_handler on a non-null service. */
  function ServiceHandlerReply(cfg: Config, s: ServiceView, o: CommandResult): Reply
  {
    if !s.hasEventHandler then Reply(Error, [])
    else Execute(ServiceHandler, o, cfg.logEventHandlers)
  }

  /** handle_service_event on a non-null service. */
  function ServiceEventReply(cfg: Config, s: ServiceView, og: CommandResult, os: CommandResult): Reply
  {
    if !cfg.enableEventHandlers || !s.eventHandlerEnabled then Reply(Ok, [])
    else if !s.hasHost then Reply(Error, [])
    else Reply(Ok, GlobalServiceHandlerReply(cfg, og).effects
                   + (if s.hasEventHandler then ServiceHandlerReply(cfg, s, os).effects else [])
                   + [CheckExternalCommands])
  }

  /** run_global_host_event_handler on a non-null host. */
  function GlobalHostHandlerReply(cfg: Config, o: CommandResult): Reply
  {
    if !cfg.enableEventHandlers then Reply(Ok, [])
    else if !cfg.hasGlobalHostEventHandler then Reply(Error, [])
    else Execute(GlobalHostHandler, o, cfg.logEventHandlers)
  }

  /** run_host_event_handler on a non-null host. */
  function HostHandlerReply(cfg: Config, h: HostView, o: CommandResult): Reply
  {
    if !h.hasEventHandler then Reply(Error, [])
    else Execute(HostHandler, o, cfg.logEventHandlers)
  }

  /** handle_host_event on a non-null host: the macros both handlers' command
      lines are built from are refreshed from `h` first. */
  function HostEventReply(cfg: Config, h: HostView, og: CommandResult, oh: CommandResult): Reply
  {
    if !cfg.enableEventHandlers || !h.eventHandlerEnabled then Reply(Ok, [])
    else Reply(Ok, [GrabHostMacros(h)] + GlobalHostHandlerReply(cfg, og).effects
                   + (if h.hasEventHandler then HostHandlerReply(cfg, h, oh).effects else [])
                   + [CheckExternalCommands])
  }

  // ---------------------------------------------------------------------
  // Host state handler

  /** The state change test of handle_host_state. */
  predicate IsStateChange(v: HostView)
  {
    v.lastState != v.currentState || v.lastHardState != v.currentState
    || (v.currentState == HostUp && v.stateType == SoftState)
  }

  /** Why a check counts as a state change, the first applicable reason winning. */
  datatype ChangeReason = ChangedByState | ChangedByHardState | ChangedBySoftRecovery | Unchanged

  function Reason(v: HostView): (r: ChangeReason)
    ensures r == ChangedByState <==> v.lastState != v.currentState
    ensures r == ChangedByHardState <==> v.lastState == v.currentState && v.lastHardState != v.currentState
    ensures r == ChangedBySoftRecovery <==>
              v.lastState == v.currentState == v.lastHardState == HostUp && v.stateType == SoftState
  {
    if v.lastState != v.currentState then ChangedByState
    else if v.lastHardState != v.currentState then ChangedByHardState
    else if v.currentState == HostUp && v.stateType == SoftState then ChangedBySoftRecovery
    else Unchanged
  }

  /** The "last time up / down / unreachable" field of the current state is set to `now`. */
  function StampLastTime(v: HostView, now: Time): HostView
  {
    match v.currentState
    case HostUp => v.(lastTimeUp := now)
    case HostDown => v.(lastTimeDown := now)
    case HostUnreachable => v.(lastTimeUnreachable := now)
  }

  /** A state change stamps the change time, and the hard change time for a hard state. */
  function StampChange(v: HostView, now: Time): HostView
  {
    v.(lastStateChange := now,
       lastHardStateChange := if v.stateType == HardState then now else v.lastHardStateChange)
  }

  /** A state change moves the current event id to the last one and takes the counter's value. */
  function ShiftEventId(v: HostView, nextId: ULong): HostView
  {
    v.(lastEventId := v.currentEventId, currentEventId := nextId)
  }

  /** Whether a state change clears the acknowledgement. */
  predicate ClearsAck(v: HostView)
  {
    v.ackType == AckNormal || (v.ackType == AckSticky && v.currentState == HostUp)
  }

  /** A state change clears a normal acknowledgement, and a sticky one on recovery. */
  function ResetAck(v: HostView): HostView
  {
    if ClearsAck(v) then v.(problemAcknowledged := false, ackType := AckNone) else v
  }

  /** A state change clears the notification times and the suppression flag. */
  function ResetNotificationTimes(v: HostView): HostView
  {
    v.(lastNotification := 0, nextNotification := 0, noMoreNotifications := false)
  }

  /** The bookkeeping of a state change before the calls that follow it.
      `nextId` is the value of the event id counter. */
  function RecordChange(v: HostView, now: Time, nextId: ULong): HostView
  {
    ResetNotificationTimes(ResetAck(ShiftEventId(StampChange(v, now), nextId)))
  }

  /** After a change to UP the attempt count starts again at 1. */
  function ResetAttempt(v: HostView): HostView
  {
    if v.currentState == HostUp then v.(currentAttempt := 1) else v
  }

  /** After a change to UP the notification number and the notified flags are
      cleared, which re-arms notification for the next problem. */
  function ResetNotificationState(v: HostView): HostView
  {
    if v.currentState == HostUp then
      v.(currentNotificationNumber := 0, notifiedOnDown := false, notifiedOnUnreachable := false)
    else v
  }

  /** The recovery reset that ends the handling of a state change. */
  function RecoveryReset(v: HostView): HostView
  {
    ResetNotificationState(ResetAttempt(v))
  }

  /** The host record after handle_host_state. */
  function HostAfter(v: HostView, now: Time, nextId: ULong): HostView
  {
    var stamped := StampLastTime(v, now);
    if IsStateChange(v) then RecoveryReset(RecordChange(stamped, now, nextId)) else stamped
  }

  /** The event id counter after handle_host_state. */
  function NextEventIdAfter(v: HostView, nextId: ULong): ULong
  {
    if IsStateChange(v) then Succ(nextId) else nextId
  }

  /** The calls handle_host_state makes after a state change, from the
      acknowledgement reset to the event handlers; `changed` is the record as
      RecordChange leaves it. */
  function ChangeEffects(cfg: Config, v: HostView, changed: HostView, runs: HostCheckRuns): seq<Effect>
  {
    var hard := v.stateType == HardState;
    (if ClearsAck(v) then [DeleteAckComments] else [])
    + (if hard || (v.stateType == SoftState && cfg.logHostRetries) then [LogHostEvent] else [])
    + (if hard then [CheckFlexDowntime] else [])
    + (if hard then [HostNotification(changed)] else [])
    + HostEventReply(cfg, changed, runs.globalHandler, runs.hostHandler).effects
  }

  /** The calls handle_host_state makes when the state did not change;
      `stamped` is the record after StampLastTime. */
  function SteadyEffects(cfg: Config, stamped: HostView): seq<Effect>
  {
    (if stamped.currentState != HostUp && stamped.stateType == HardState then [HostNotification(stamped)] else [])
    + (if stamped.stateType == SoftState && cfg.logHostRetries then [LogHostEvent] else [])
  }

  /** The calls handle_host_state makes, in order. */
  function HostStateEffects(cfg: Config, v: HostView, now: Time, nextId: ULong, runs: HostCheckRuns): seq<Effect>
  {
    var stamped := StampLastTime(v, now);
    OchpReply(cfg, v, runs.ochp).effects + [UpdatePerfData]
    + if IsStateChange(v) then ChangeEffects(cfg, stamped, RecordChange(stamped, now, nextId), runs)
      else SteadyEffects(cfg, stamped)
  }
}
