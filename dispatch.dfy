/** What the obsessive processors and the event handler dispatchers promise:
    when they run nothing, what they run and in which order, and that a
    failing or timing-out command is absorbed. */
module DispatchProperties {
  import opened Objects
  import opened Effects
  import opened Semantics

  /** A command whose line could be built runs exactly once and returns OK; a
      timeout only adds one warning, after the run. A line that could not be
      built returns ERROR and runs nothing. */
  lemma ExecuteOutcome(kind: CommandKind, o: CommandResult, logLine: bool)
    ensures var r := Execute(kind, o, logLine);
      && (r.code == Ok <==> o.expansion == Expanded)
      && (o.expansion != Expanded ==> r.effects == [])
      && Count(r.effects, Run(kind, ExpandedLine)) == (if o.expansion == Expanded then 1 else 0)
      && Count(r.effects, TimeoutWarning(kind)) == (if o.expansion == Expanded && o.timedOut then 1 else 0)
      && (o.expansion == Expanded && o.timedOut ==> r.effects[|r.effects| - 1] == TimeoutWarning(kind))
      && Count(r.effects, LogHandler(kind)) == (if o.expansion == Expanded && logLine then 1 else 0)
      && (o.expansion == Expanded && logLine ==> r.effects[0] == LogHandler(kind) && r.effects[1] == Run(kind, ExpandedLine))
      && (o.expansion == Expanded && !logLine ==> r.effects[0] == Run(kind, ExpandedLine))
      && (forall i :: 0 <= i < |r.effects| ==> OfCommand(r.effects[i], kind))
  {
    if o.expansion == Expanded {
      var logged: seq<Effect> := if logLine then [LogHandler(kind)] else [];
      var warned := Warning(kind, o.timedOut);
      assert Execute(kind, o, logLine).effects == logged + [Run(kind, ExpandedLine)] + warned;
      CountConcat(logged + [Run(kind, ExpandedLine)], warned, Run(kind, ExpandedLine));
      CountConcat(logged, [Run(kind, ExpandedLine)], Run(kind, ExpandedLine));
      CountConcat(logged + [Run(kind, ExpandedLine)], warned, TimeoutWarning(kind));
      CountConcat(logged, [Run(kind, ExpandedLine)], TimeoutWarning(kind));
      CountConcat(logged + [Run(kind, ExpandedLine)], warned, LogHandler(kind));
      CountConcat(logged, [Run(kind, ExpandedLine)], LogHandler(kind));
    }
  }

  /** The counts in an enabled dispatch: the global handler's calls (for a
      host preceded by the macro refresh), then the object's own handler's
      calls, then one drain of external commands. */
  lemma DispatchCounts(global: seq<Effect>, own: seq<Effect>, gk: CommandKind, ok: CommandKind)
    requires gk != ok
    requires forall i :: 0 <= i < |global| ==> OfCommand(global[i], gk) || global[i].GrabHostMacros?
    requires forall i :: 0 <= i < |own| ==> OfCommand(own[i], ok)
    ensures var effs := global + own + [CheckExternalCommands];
      && Count(effs, CheckExternalCommands) == 1
      && Count(effs, Run(gk, ExpandedLine)) == Count(global, Run(gk, ExpandedLine))
      && Count(effs, Run(ok, ExpandedLine)) == Count(own, Run(ok, ExpandedLine))
  {
    var effs := global + own + [CheckExternalCommands];
    var es := [CheckExternalCommands, Run(gk, ExpandedLine), Run(ok, ExpandedLine)];
    forall e | e in es
      ensures Count(effs, e) == Count(global, e) + Count(own, e) + Count([CheckExternalCommands], e)
    {
      CountConcat(global + own, [CheckExternalCommands], e);
      CountConcat(global, own, e);
    }
    CountAbsent(global, CheckExternalCommands);
    CountAbsent(own, CheckExternalCommands);
    CountAbsent(own, Run(gk, ExpandedLine));
    CountAbsent(global, Run(ok, ExpandedLine));
  }

  /** The order in the same dispatch: it ends with the drain, no call of the
      own handler comes before a call of the global one, and nothing but
      command preparation, command calls and the drain happens. */
  lemma DispatchPositions(global: seq<Effect>, own: seq<Effect>, gk: CommandKind, ok: CommandKind)
    requires gk != ok
    requires forall i :: 0 <= i < |global| ==> OfCommand(global[i], gk) || global[i].GrabHostMacros?
    requires forall i :: 0 <= i < |own| ==> OfCommand(own[i], ok)
    ensures var effs := global + own + [CheckExternalCommands];
      && effs[|effs| - 1] == CheckExternalCommands
      && (forall i, j :: 0 <= i < j < |effs| && OfCommand(effs[i], ok) ==> !OfCommand(effs[j], gk))
      && (forall i :: 0 <= i < |effs| ==> IsDispatchEffect(effs[i]))
  {
    var effs := global + own + [CheckExternalCommands];
    assert forall k :: 0 <= k < |global| ==> effs[k] == global[k];
    assert forall k :: |global| <= k < |global| + |own| ==> effs[k] == own[k - |global|];
  }

  /** The macro refresh in front of the global host handler's calls. */
  lemma GrabThenGlobal(h: HostView, global: seq<Effect>, gk: CommandKind)
    requires forall i :: 0 <= i < |global| ==> OfCommand(global[i], gk)
    ensures var lead := [GrabHostMacros(h)] + global;
      forall i :: 0 <= i < |lead| ==> OfCommand(lead[i], gk) || lead[i].GrabHostMacros?
  {
    var lead := [GrabHostMacros(h)] + global;
    assert forall k :: 1 <= k < |lead| ==> lead[k] == global[k - 1];
  }

  /** With event handlers disabled globally or for the host, handle_host_event
      runs nothing, does not drain external commands, and returns OK. */
  lemma HostDispatchDisabled(cfg: Config, h: HostView, og: CommandResult, oh: CommandResult)
    requires !cfg.enableEventHandlers || !h.eventHandlerEnabled
    ensures HostEventReply(cfg, h, og, oh) == Reply(Ok, [])
  {
  }

  /** An enabled handle_host_event returns OK; it first refreshes the host
      macros from the record it is handed; it runs the global handler when
      one is configured and its line can be built, and the host's own handler
      when the host has one and its line can be built, whatever happened to the
      global one; no call of the own handler comes before a call of the global
      one; and it ends with exactly one drain of external commands. */
  lemma HostDispatchOrder(cfg: Config, h: HostView, og: CommandResult, oh: CommandResult)
    requires cfg.enableEventHandlers && h.eventHandlerEnabled
    ensures var effs := HostEventReply(cfg, h, og, oh).effects;
      && HostEventReply(cfg, h, og, oh).code == Ok
      && effs[0] == GrabHostMacros(h)
      && effs[|effs| - 1] == CheckExternalCommands
      && Count(effs, CheckExternalCommands) == 1
      && Count(effs, Run(GlobalHostHandler, ExpandedLine))
         == (if cfg.hasGlobalHostEventHandler && og.expansion == Expanded then 1 else 0)
      && Count(effs, Run(HostHandler, ExpandedLine))
         == (if h.hasEventHandler && oh.expansion == Expanded then 1 else 0)
      && (forall i, j :: 0 <= i < j < |effs| && OfCommand(effs[i], HostHandler) ==> !OfCommand(effs[j], GlobalHostHandler))
  {
    var global := GlobalHostHandlerReply(cfg, og).effects;
    var own := if h.hasEventHandler then HostHandlerReply(cfg, h, oh).effects else [];
    ExecuteOutcome(GlobalHostHandler, og, cfg.logEventHandlers);
    ExecuteOutcome(HostHandler, oh, cfg.logEventHandlers);
    GrabThenGlobal(h, global, GlobalHostHandler);
    DispatchCounts([GrabHostMacros(h)] + global, own, GlobalHostHandler, HostHandler);
    DispatchPositions([GrabHostMacros(h)] + global, own, GlobalHostHandler, HostHandler);
    CountConcat([GrabHostMacros(h)], global, Run(GlobalHostHandler, ExpandedLine));
  }

  /** Everything handle_host_event does is running a handler command or
      draining external commands: it never touches the host record's own
      bookkeeping calls (notification, logging, downtime, comments). */
  lemma HostEventCallsAreDispatch(cfg: Config, h: HostView, og: CommandResult, oh: CommandResult)
    ensures var effs := HostEventReply(cfg, h, og, oh).effects;
      forall i :: 0 <= i < |effs| ==> IsDispatchEffect(effs[i])
  {
    if cfg.enableEventHandlers && h.eventHandlerEnabled {
      var global := GlobalHostHandlerReply(cfg, og).effects;
      var own := if h.hasEventHandler then HostHandlerReply(cfg, h, oh).effects else [];
      ExecuteOutcome(GlobalHostHandler, og, cfg.logEventHandlers);
      ExecuteOutcome(HostHandler, oh, cfg.logEventHandlers);
      GrabThenGlobal(h, global, GlobalHostHandler);
      DispatchPositions([GrabHostMacros(h)] + global, own, GlobalHostHandler, HostHandler);
    }
  }

  /** The host records the handlers' command lines are built from: exactly
      the record handle_host_event is handed, once, when it is enabled; and
      handle_host_event sends no notification. */
  lemma HostEventSnapshots(cfg: Config, h: HostView, og: CommandResult, oh: CommandResult)
    ensures MacroSnapshots(HostEventReply(cfg, h, og, oh).effects) ==
              if cfg.enableEventHandlers && h.eventHandlerEnabled then [h] else []
    ensures Notifications(HostEventReply(cfg, h, og, oh).effects) == []
  {
    if cfg.enableEventHandlers && h.eventHandlerEnabled {
      var global := GlobalHostHandlerReply(cfg, og).effects;
      var own := if h.hasEventHandler then HostHandlerReply(cfg, h, oh).effects else [];
      ExecuteOutcome(GlobalHostHandler, og, cfg.logEventHandlers);
      ExecuteOutcome(HostHandler, oh, cfg.logEventHandlers);
      PrefixedCommandsRecordOnce(h, global, own, GlobalHostHandler, HostHandler);
      GrabThenGlobal(h, global, GlobalHostHandler);
      CommandsNotifyNothing([GrabHostMacros(h)] + global, own, GlobalHostHandler, HostHandler);
    }
  }

  /** Command preparation, command calls and the drain notify nobody. */
  lemma CommandsNotifyNothing(global: seq<Effect>, own: seq<Effect>, gk: CommandKind, ok: CommandKind)
    requires forall i :: 0 <= i < |global| ==> OfCommand(global[i], gk) || global[i].GrabHostMacros?
    requires forall i :: 0 <= i < |own| ==> OfCommand(own[i], ok)
    ensures Notifications(global + own + [CheckExternalCommands]) == []
  {
    RecordsAbsent(global, Notifier);
    RecordsAbsent(own, Notifier);
    RecordsAbsent([CheckExternalCommands], Notifier);
    RecordsConcat(global, own, Notifier);
    RecordsConcat(global + own, [CheckExternalCommands], Notifier);
  }

  /** A macro refresh, then handler calls and the drain, record one snapshot. */
  lemma PrefixedCommandsRecordOnce(h: HostView, global: seq<Effect>, own: seq<Effect>, gk: CommandKind, ok: CommandKind)
    requires forall i :: 0 <= i < |global| ==> OfCommand(global[i], gk)
    requires forall i :: 0 <= i < |own| ==> OfCommand(own[i], ok)
    ensures MacroSnapshots([GrabHostMacros(h)] + global + own + [CheckExternalCommands]) == [h]
  {
    var grab := [GrabHostMacros(h)];
    RecordsAbsent(global, MacroGrab);
    RecordsAbsent(own, MacroGrab);
    RecordsAbsent([CheckExternalCommands], MacroGrab);
    RecordsAbsent([], MacroGrab);
    RecordsConcat(grab, [], MacroGrab);
    assert grab + [] == grab;
    RecordsConcat(grab, global, MacroGrab);
    RecordsConcat(grab + global, own, MacroGrab);
    RecordsConcat(grab + global + own, [CheckExternalCommands], MacroGrab);
  }

  /** With event handlers disabled, run_global_host_event_handler returns OK and does nothing. */
  lemma GlobalHostHandlerDisabled(cfg: Config, o: CommandResult)
    requires !cfg.enableEventHandlers
    ensures GlobalHostHandlerReply(cfg, o) == Reply(Ok, [])
  {
  }

  /** An unconfigured global host handler is an ERROR that runs nothing. */
  lemma GlobalHostHandlerUnconfigured(cfg: Config, o: CommandResult)
    requires cfg.enableEventHandlers && !cfg.hasGlobalHostEventHandler
    ensures GlobalHostHandlerReply(cfg, o) == Reply(Error, [])
  {
  }

  /** A host without its own event handler command makes run_host_event_handler an ERROR that runs nothing. */
  lemma HostHandlerUnconfigured(cfg: Config, h: HostView, o: CommandResult)
    requires !h.hasEventHandler
    ensures HostHandlerReply(cfg, h, o) == Reply(Error, [])
  {
  }

  /** With event handlers disabled globally or for the service,
      handle_service_event returns OK and does nothing, even for a service
      whose host is missing. */
  lemma ServiceDispatchDisabled(cfg: Config, s: ServiceView, og: CommandResult, os: CommandResult)
    requires !cfg.enableEventHandlers || !s.eventHandlerEnabled
    ensures ServiceEventReply(cfg, s, og, os) == Reply(Ok, [])
  {
  }

  /** An enabled handle_service_event on a service without a host is an ERROR that runs nothing. */
  lemma ServiceDispatchNeedsHost(cfg: Config, s: ServiceView, og: CommandResult, os: CommandResult)
    requires cfg.enableEventHandlers && s.eventHandlerEnabled && !s.hasHost
    ensures ServiceEventReply(cfg, s, og, os) == Reply(Error, [])
  {
  }

  /** The service counterpart of HostDispatchOrder. */
  lemma ServiceDispatchOrder(cfg: Config, s: ServiceView, og: CommandResult, os: CommandResult)
    requires cfg.enableEventHandlers && s.eventHandlerEnabled && s.hasHost
    ensures var effs := ServiceEventReply(cfg, s, og, os).effects;
      && ServiceEventReply(cfg, s, og, os).code == Ok
      && effs[|effs| - 1] == CheckExternalCommands
      && Count(effs, CheckExternalCommands) == 1
      && Count(effs, Run(GlobalServiceHandler, ExpandedLine))
         == (if cfg.hasGlobalServiceEventHandler && og.expansion == Expanded then 1 else 0)
      && Count(effs, Run(ServiceHandler, ExpandedLine))
         == (if s.hasEventHandler && os.expansion == Expanded then 1 else 0)
      && (forall i, j :: 0 <= i < j < |effs| && OfCommand(effs[i], ServiceHandler) ==> !OfCommand(effs[j], GlobalServiceHandler))
  {
    var global := GlobalServiceHandlerReply(cfg, og).effects;
    var own := if s.hasEventHandler then ServiceHandlerReply(cfg, s, os).effects else [];
    ExecuteOutcome(GlobalServiceHandler, og, cfg.logEventHandlers);
    ExecuteOutcome(ServiceHandler, os, cfg.logEventHandlers);
    DispatchCounts(global, own, GlobalServiceHandler, ServiceHandler);
    DispatchPositions(global, own, GlobalServiceHandler, ServiceHandler);
  }

  /** With event handlers disabled, run_global_service_event_handler returns OK and does nothing. */
  lemma GlobalServiceHandlerDisabled(cfg: Config, o: CommandResult)
    requires !cfg.enableEventHandlers
    ensures GlobalServiceHandlerReply(cfg, o) == Reply(Ok, [])
  {
  }

  /** A service without its own event handler command makes run_service_event_handler an ERROR that runs nothing. */
  lemma ServiceHandlerUnconfigured(cfg: Config, s: ServiceView, o: CommandResult)
    requires !s.hasEventHandler
    ensures ServiceHandlerReply(cfg, s, o) == Reply(Error, [])
  {
  }

  /** An unconfigured global service handler is an ERROR that runs nothing. */
  lemma GlobalServiceHandlerUnconfigured(cfg: Config, o: CommandResult)
    requires cfg.enableEventHandlers && !cfg.hasGlobalServiceEventHandler
    ensures GlobalServiceHandlerReply(cfg, o) == Reply(Error, [])
  {
  }

  /** The host obsessive processor runs its command once exactly when host
      obsession is on globally and for the host, a command is configured and a
      raw line can be built, and otherwise never; with obsession off it does
      nothing and returns OK; it returns ERROR, without a run, exactly when
      obsession is on but the command or the raw line is missing; the runner
      never receives an expanded line; a timeout only adds a warning. */
  lemma OchpGating(cfg: Config, h: HostView, o: CommandResult)
    ensures var r := OchpReply(cfg, h, o);
      && Count(r.effects, Run(Ochp, NullLine)) ==
           (if cfg.obsessOverHosts && h.obsessOverHost && cfg.hasOchpCommand && o.expansion != NoRawLine then 1 else 0)
      && (!(cfg.obsessOverHosts && h.obsessOverHost) ==> r == Reply(Ok, []))
      && (r.code == Error ==> Count(r.effects, Run(Ochp, NullLine)) == 0)
      && (r.effects == [] <==> !(cfg.obsessOverHosts && h.obsessOverHost && cfg.hasOchpCommand))
      && (r.effects != [] ==> r.effects[0] == GrabHostMacros(h))
      && MacroSnapshots(r.effects) == (if r.effects == [] then [] else [h])
      && (r.code == Error <==>
            cfg.obsessOverHosts && h.obsessOverHost && (!cfg.hasOchpCommand || o.expansion == NoRawLine))
      && Count(r.effects, Run(Ochp, ExpandedLine)) == 0
      && Count(r.effects, TimeoutWarning(Ochp)) == (if Count(r.effects, Run(Ochp, NullLine)) == 1 && o.timedOut then 1 else 0)
      && (forall i :: 1 <= i < |r.effects| ==> OfCommand(r.effects[i], Ochp))
  {
    var r := OchpReply(cfg, h, o);
    if !(cfg.obsessOverHosts && h.obsessOverHost) {
      assert r == Reply(Ok, []);
    } else if !cfg.hasOchpCommand {
      assert r == Reply(Error, []);
    } else {
      var grab := [GrabHostMacros(h)];
      CountAbsent(grab, Run(Ochp, NullLine));
      CountAbsent(grab, Run(Ochp, ExpandedLine));
      CountAbsent(grab, TimeoutWarning(Ochp));
      if o.expansion == NoRawLine {
        assert r.effects == grab + [];
        RecordsAbsent([], MacroGrab);
        RecordsConcat(grab, [], MacroGrab);
      } else {
        var warned := Warning(Ochp, o.timedOut);
        var ran := [Run(Ochp, NullLine)] + warned;
        assert r.effects == [GrabHostMacros(h)] + ran;
        CountConcat([Run(Ochp, NullLine)], warned, Run(Ochp, NullLine));
        CountConcat([Run(Ochp, NullLine)], warned, Run(Ochp, ExpandedLine));
        CountConcat([Run(Ochp, NullLine)], warned, TimeoutWarning(Ochp));
        CountConcat([GrabHostMacros(h)], ran, Run(Ochp, NullLine));
        CountConcat([GrabHostMacros(h)], ran, Run(Ochp, ExpandedLine));
        CountConcat([GrabHostMacros(h)], ran, TimeoutWarning(Ochp));
        RecordsAbsent(ran, MacroGrab);
        RecordsConcat([GrabHostMacros(h)], ran, MacroGrab);
      }
    }
  }

  /** The kinds of call the host obsessive processor makes: a macro refresh
      from the host first, exactly when a command is configured, and after
      it only the OCHP command's own calls. */
  lemma OchpCalls(cfg: Config, h: HostView, o: CommandResult)
    ensures var effs := OchpReply(cfg, h, o).effects;
      && (effs != [] <==> cfg.obsessOverHosts && h.obsessOverHost && cfg.hasOchpCommand)
      && (effs != [] ==> effs[0] == GrabHostMacros(h))
      && (forall i :: 0 <= i < |effs| ==> effs[i].GrabHostMacros? || OfCommand(effs[i], Ochp))
  {
  }

  /** The service obsessive processor runs its command once exactly when
      service obsession is on globally and for the service, a command is
      configured, the service has a host and the line can be built, and
      otherwise does nothing at all; with obsession off it returns OK; it
      returns ERROR, doing nothing, exactly when obsession is on and one of
      the others is missing. */
  lemma OcspGating(cfg: Config, s: ServiceView, o: CommandResult)
    ensures var r := OcspReply(cfg, s, o);
      && Count(r.effects, Run(Ocsp, ExpandedLine)) ==
           (if cfg.obsessOverServices && s.obsessOverService && cfg.hasOcspCommand && s.hasHost && o.expansion == Expanded then 1 else 0)
      && (Count(r.effects, Run(Ocsp, ExpandedLine)) == 0 ==> r.effects == [])
      && (!(cfg.obsessOverServices && s.obsessOverService) ==> r == Reply(Ok, []))
      && (r.code == Error ==> r.effects == [])
      && (r.code == Error <==>
            cfg.obsessOverServices && s.obsessOverService
            && (!cfg.hasOcspCommand || !s.hasHost || o.expansion != Expanded))
      && Count(r.effects, TimeoutWarning(Ocsp)) == (if Count(r.effects, Run(Ocsp, ExpandedLine)) == 1 && o.timedOut then 1 else 0)
      && (forall i :: 0 <= i < |r.effects| ==> OfCommand(r.effects[i], Ocsp))
  {
    ExecuteOutcome(Ocsp, o, false);
  }
}
