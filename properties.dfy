/** What one call of the host state handler promises: when it declares a state
    change, what it writes into the host record, and which calls it makes how
    many times and in which order. */
module HostStateProperties {
  import opened Objects
  import opened Effects
  import opened Semantics
  import opened DispatchProperties

  // ---------------------------------------------------------------------
  // The host record

  /** Each step of the record update, as one update of the fields it writes. */
  lemma StampLastTimeFlat(v: HostView, now: Time)
    ensures StampLastTime(v, now) == v.(
      lastTimeUp := if v.currentState == HostUp then now else v.lastTimeUp,
      lastTimeDown := if v.currentState == HostDown then now else v.lastTimeDown,
      lastTimeUnreachable := if v.currentState == HostUnreachable then now else v.lastTimeUnreachable)
  {
  }

  lemma RecordChangeFlat(v: HostView, now: Time, nextId: ULong)
    ensures RecordChange(v, now, nextId) == v.(
      lastStateChange := now,
      lastHardStateChange := if v.stateType == HardState then now else v.lastHardStateChange,
      lastEventId := v.currentEventId,
      currentEventId := nextId,
      ackType := if ClearsAck(v) then AckNone else v.ackType,
      problemAcknowledged := if ClearsAck(v) then false else v.problemAcknowledged,
      lastNotification := 0,
      nextNotification := 0,
      noMoreNotifications := false)
  {
  }

  lemma RecoveryResetFlat(v: HostView)
    ensures RecoveryReset(v) == v.(
      currentAttempt := if v.currentState == HostUp then 1 else v.currentAttempt,
      currentNotificationNumber := if v.currentState == HostUp then 0 else v.currentNotificationNumber,
      notifiedOnDown := if v.currentState == HostUp then false else v.notifiedOnDown,
      notifiedOnUnreachable := if v.currentState == HostUp then false else v.notifiedOnUnreachable)
  {
  }

  /** The three steps of HostAfter, flattened for the host `v`. */
  lemma Flatten(v: HostView, now: Time, nextId: ULong)
    ensures var s := StampLastTime(v, now);
      && s == v.(
           lastTimeUp := if v.currentState == HostUp then now else v.lastTimeUp,
           lastTimeDown := if v.currentState == HostDown then now else v.lastTimeDown,
           lastTimeUnreachable := if v.currentState == HostUnreachable then now else v.lastTimeUnreachable)
      && RecordChange(s, now, nextId) == s.(
           lastStateChange := now,
           lastHardStateChange := if v.stateType == HardState then now else v.lastHardStateChange,
           lastEventId := v.currentEventId,
           currentEventId := nextId,
           ackType := if ClearsAck(v) then AckNone else v.ackType,
           problemAcknowledged := if ClearsAck(v) then false else v.problemAcknowledged,
           lastNotification := 0,
           nextNotification := 0,
           noMoreNotifications := false)
      && var c := RecordChange(s, now, nextId);
         RecoveryReset(c) == c.(
           currentAttempt := if v.currentState == HostUp then 1 else v.currentAttempt,
           currentNotificationNumber := if v.currentState == HostUp then 0 else v.currentNotificationNumber,
           notifiedOnDown := if v.currentState == HostUp then false else v.notifiedOnDown,
           notifiedOnUnreachable := if v.currentState == HostUp then false else v.notifiedOnUnreachable)
  {
    var s := StampLastTime(v, now);
    StampLastTimeFlat(v, now);
    RecordChangeFlat(s, now, nextId);
    RecoveryResetFlat(RecordChange(s, now, nextId));
  }

  /** The event id counter advances exactly on a state change, and a state
      change is exactly a different last state, a different last hard state,
      or a soft UP. */
  lemma ChangeDetectedExactly(v: HostView, nextId: ULong)
    ensures NextEventIdAfter(v, nextId) != nextId <==>
              v.lastState != v.currentState || v.lastHardState != v.currentState
              || (v.currentState == HostUp && v.stateType == SoftState)
    ensures Reason(v) != Unchanged <==> IsStateChange(v)
  {
  }

  /** The handler reads the current, last and last hard states but writes none
      of them, nor the state type or the host's settings. So a host that was
      found changed is found changed again by a second call on the same record:
      updating the last states is left to the caller. */
  lemma RepeatedCallRedetectsChange(v: HostView, now: Time, nextId: ULong)
    ensures var w := HostAfter(v, now, nextId);
      && w.currentState == v.currentState && w.lastState == v.lastState
      && w.lastHardState == v.lastHardState && w.stateType == v.stateType
      && w.eventHandlerEnabled == v.eventHandlerEnabled && w.hasEventHandler == v.hasEventHandler
      && w.obsessOverHost == v.obsessOverHost
      && (IsStateChange(v) ==> IsStateChange(w) && Reason(w) == Reason(v))
  {
    Flatten(v, now, nextId);
  }

  /** The "last time" field of the current state is stamped with the check
      time, the other two are kept. */
  lemma LastTimeStamped(v: HostView, now: Time, nextId: ULong)
    ensures var w := HostAfter(v, now, nextId);
      && w.lastTimeUp == (if v.currentState == HostUp then now else v.lastTimeUp)
      && w.lastTimeDown == (if v.currentState == HostDown then now else v.lastTimeDown)
      && w.lastTimeUnreachable == (if v.currentState == HostUnreachable then now else v.lastTimeUnreachable)
  {
    Flatten(v, now, nextId);
  }

  /** Without a state change nothing but that "last time" field changes, and the counter is kept. */
  lemma SteadyStateTouchesOnlyLastTime(v: HostView, now: Time, nextId: ULong)
    requires !IsStateChange(v)
    ensures var w := HostAfter(v, now, nextId);
      w.(lastTimeUp := v.lastTimeUp, lastTimeDown := v.lastTimeDown, lastTimeUnreachable := v.lastTimeUnreachable) == v
    ensures NextEventIdAfter(v, nextId) == nextId
  {
    Flatten(v, now, nextId);
  }

  /** A state change stamps the change time, and the hard change time only
      when the state is hard. */
  lemma StateChangeTimes(v: HostView, now: Time, nextId: ULong)
    ensures var w := HostAfter(v, now, nextId);
      && w.lastStateChange == (if IsStateChange(v) then now else v.lastStateChange)
      && w.lastHardStateChange ==
           (if IsStateChange(v) && v.stateType == HardState then now else v.lastHardStateChange)
  {
    Flatten(v, now, nextId);
  }

  /** A state change moves the current event id to the last one, gives the
      host the counter's value and advances the counter (with unsigned
      wrap-around); otherwise the ids and the counter are kept. */
  lemma EventIdShift(v: HostView, now: Time, nextId: ULong)
    ensures var w := HostAfter(v, now, nextId);
      && (IsStateChange(v) ==>
            w.lastEventId == v.currentEventId && w.currentEventId == nextId
            && NextEventIdAfter(v, nextId) == Succ(nextId))
      && (!IsStateChange(v) ==>
            w.lastEventId == v.lastEventId && w.currentEventId == v.currentEventId
            && NextEventIdAfter(v, nextId) == nextId)
  {
    Flatten(v, now, nextId);
  }

  /** While the counter does not wrap, every id a host holds stays below the
      counter, and the host's last id stays at most its current one. */
  lemma EventIdsStayBelowCounter(v: HostView, now: Time, nextId: ULong)
    requires v.lastEventId <= v.currentEventId < nextId
    requires IsStateChange(v) ==> nextId + 1 < ULONG_LIMIT
    ensures var w := HostAfter(v, now, nextId);
      && w.lastEventId <= w.currentEventId < NextEventIdAfter(v, nextId)
      && (IsStateChange(v) ==> w.currentEventId > v.currentEventId)
  {
    Flatten(v, now, nextId);
  }

  /** A state change clears a normal acknowledgement, and a sticky one only
      when the host is UP; a sticky acknowledgement of a problem survives. */
  lemma AckReset(v: HostView, now: Time, nextId: ULong)
    ensures var w := HostAfter(v, now, nextId);
      && (IsStateChange(v) && ClearsAck(v) ==> !w.problemAcknowledged && w.ackType == AckNone)
      && (!IsStateChange(v) || !ClearsAck(v) ==>
            w.problemAcknowledged == v.problemAcknowledged && w.ackType == v.ackType)
      && (v.ackType == AckSticky && v.currentState != HostUp ==> w.ackType == AckSticky)
  {
    Flatten(v, now, nextId);
  }

  /** A state change clears both notification times and the no-more-notifications flag. */
  lemma NotificationTimesReset(v: HostView, now: Time, nextId: ULong)
    ensures var w := HostAfter(v, now, nextId);
      && (IsStateChange(v) ==> w.lastNotification == 0 && w.nextNotification == 0 && !w.noMoreNotifications)
      && (!IsStateChange(v) ==>
            w.lastNotification == v.lastNotification && w.nextNotification == v.nextNotification
            && w.noMoreNotifications == v.noMoreNotifications)
  {
    Flatten(v, now, nextId);
  }

  /** A change to UP restarts the attempt count at 1 and clears the
      notification number and the notified flags; a change to DOWN or
      UNREACHABLE, or no change, keeps them. */
  lemma RecoveryResetsCounters(v: HostView, now: Time, nextId: ULong)
    ensures var w := HostAfter(v, now, nextId);
      && (IsStateChange(v) && v.currentState == HostUp ==>
            w.currentAttempt == 1 && w.currentNotificationNumber == 0
            && !w.notifiedOnDown && !w.notifiedOnUnreachable)
      && (!IsStateChange(v) || v.currentState != HostUp ==>
            w.currentAttempt == v.currentAttempt
            && w.currentNotificationNumber == v.currentNotificationNumber
            && w.notifiedOnDown == v.notifiedOnDown && w.notifiedOnUnreachable == v.notifiedOnUnreachable)
  {
    Flatten(v, now, nextId);
  }

  // ---------------------------------------------------------------------
  // The calls

  /** The bookkeeping calls after a state change, counted (notifications aside). */
  lemma BookkeepingCensus(deleted: seq<Effect>, logged: seq<Effect>, flex: seq<Effect>, notified: seq<Effect>, e: Effect)
    requires deleted == [] || deleted == [DeleteAckComments]
    requires logged == [] || logged == [LogHostEvent]
    requires flex == [] || flex == [CheckFlexDowntime]
    requires forall i :: 0 <= i < |notified| ==> notified[i].HostNotification?
    requires !e.HostNotification?
    ensures Count(deleted + logged + flex + notified, e) ==
        (if e == DeleteAckComments && deleted != [] then 1 else 0)
        + (if e == LogHostEvent && logged != [] then 1 else 0)
        + (if e == CheckFlexDowntime && flex != [] then 1 else 0)
  {
    CountConcat(deleted + logged + flex, notified, e);
    CountConcat(deleted + logged, flex, e);
    CountConcat(deleted, logged, e);
    CountAbsent(notified, e);
  }

  /** The calls after a state change, counted (notifications aside); `s` is the stamped record. */
  lemma ChangeCensus(cfg: Config, s: HostView, changed: HostView, runs: HostCheckRuns, e: Effect)
    requires !e.HostNotification?
    ensures Count(ChangeEffects(cfg, s, changed, runs), e) ==
        (if e == DeleteAckComments && ClearsAck(s) then 1 else 0)
        + (if e == LogHostEvent && (s.stateType == HardState || cfg.logHostRetries) then 1 else 0)
        + (if e == CheckFlexDowntime && s.stateType == HardState then 1 else 0)
        + Count(HostEventReply(cfg, changed, runs.globalHandler, runs.hostHandler).effects, e)
  {
    var hard := s.stateType == HardState;
    var deleted: seq<Effect> := if ClearsAck(s) then [DeleteAckComments] else [];
    var logged: seq<Effect> := if hard || (s.stateType == SoftState && cfg.logHostRetries) then [LogHostEvent] else [];
    var flex: seq<Effect> := if hard then [CheckFlexDowntime] else [];
    var notified: seq<Effect> := if hard then [HostNotification(changed)] else [];
    var handlers := HostEventReply(cfg, changed, runs.globalHandler, runs.hostHandler).effects;
    assert ChangeEffects(cfg, s, changed, runs) == deleted + logged + flex + notified + handlers;
    CountConcat(deleted + logged + flex + notified, handlers, e);
    BookkeepingCensus(deleted, logged, flex, notified, e);
  }

  /** The notifications after a state change: the changed record, when the state is hard. */
  lemma ChangeNotifications(cfg: Config, s: HostView, changed: HostView, runs: HostCheckRuns)
    ensures Notifications(ChangeEffects(cfg, s, changed, runs)) ==
              if s.stateType == HardState then [changed] else []
  {
    var hard := s.stateType == HardState;
    var deleted: seq<Effect> := if ClearsAck(s) then [DeleteAckComments] else [];
    var logged: seq<Effect> := if hard || (s.stateType == SoftState && cfg.logHostRetries) then [LogHostEvent] else [];
    var flex: seq<Effect> := if hard then [CheckFlexDowntime] else [];
    var notified: seq<Effect> := if hard then [HostNotification(changed)] else [];
    var handlers := HostEventReply(cfg, changed, runs.globalHandler, runs.hostHandler).effects;
    HostEventSnapshots(cfg, changed, runs.globalHandler, runs.hostHandler);
    RecordsAbsent(deleted + logged + flex, Notifier);
    assert ChangeEffects(cfg, s, changed, runs) == deleted + logged + flex + notified + handlers;
    RecordsConcat(deleted + logged + flex + notified, handlers, Notifier);
    RecordsConcat(deleted + logged + flex, notified, Notifier);
  }

  /** The calls without a state change, counted (notifications aside). */
  lemma SteadyCensus(cfg: Config, s: HostView, e: Effect)
    requires !e.HostNotification?
    ensures Count(SteadyEffects(cfg, s), e) ==
              (if e == LogHostEvent && s.stateType == SoftState && cfg.logHostRetries then 1 else 0)
  {
    var notified: seq<Effect> := if s.currentState != HostUp && s.stateType == HardState then [HostNotification(s)] else [];
    var logged: seq<Effect> := if s.stateType == SoftState && cfg.logHostRetries then [LogHostEvent] else [];
    assert SteadyEffects(cfg, s) == notified + logged;
    CountConcat(notified, logged, e);
  }

  /** The notifications without a state change: the record, when the host is in a hard problem state. */
  lemma SteadyNotifications(cfg: Config, s: HostView)
    ensures Notifications(SteadyEffects(cfg, s)) ==
              if s.currentState != HostUp && s.stateType == HardState then [s] else []
  {
    var notified: seq<Effect> := if s.currentState != HostUp && s.stateType == HardState then [HostNotification(s)] else [];
    var logged: seq<Effect> := if s.stateType == SoftState && cfg.logHostRetries then [LogHostEvent] else [];
    assert SteadyEffects(cfg, s) == notified + logged;
    RecordsAbsent(logged, Notifier);
    RecordsConcat(notified, logged, Notifier);
  }

  /** The macro snapshots after a state change: the changed record, when
      handle_host_event is enabled for it. */
  lemma ChangeSnapshots(cfg: Config, s: HostView, changed: HostView, runs: HostCheckRuns)
    ensures MacroSnapshots(ChangeEffects(cfg, s, changed, runs)) ==
              if cfg.enableEventHandlers && changed.eventHandlerEnabled then [changed] else []
  {
    var hard := s.stateType == HardState;
    var deleted: seq<Effect> := if ClearsAck(s) then [DeleteAckComments] else [];
    var logged: seq<Effect> := if hard || (s.stateType == SoftState && cfg.logHostRetries) then [LogHostEvent] else [];
    var flex: seq<Effect> := if hard then [CheckFlexDowntime] else [];
    var notified: seq<Effect> := if hard then [HostNotification(changed)] else [];
    var handlers := HostEventReply(cfg, changed, runs.globalHandler, runs.hostHandler).effects;
    HostEventSnapshots(cfg, changed, runs.globalHandler, runs.hostHandler);
    RecordsAbsent(deleted + logged + flex + notified, MacroGrab);
    assert ChangeEffects(cfg, s, changed, runs) == deleted + logged + flex + notified + handlers;
    RecordsConcat(deleted + logged + flex + notified, handlers, MacroGrab);
  }

  /** Without a state change no macros are refreshed after the obsessive processor. */
  lemma SteadySnapshots(cfg: Config, s: HostView)
    ensures MacroSnapshots(SteadyEffects(cfg, s)) == []
  {
    var notified: seq<Effect> := if s.currentState != HostUp && s.stateType == HardState then [HostNotification(s)] else [];
    var logged: seq<Effect> := if s.stateType == SoftState && cfg.logHostRetries then [LogHostEvent] else [];
    assert SteadyEffects(cfg, s) == notified + logged;
    RecordsAbsent(notified + logged, MacroGrab);
  }

  /** How often a call other than the host obsessive processor's, a macro
      refresh or a notification occurs among the calls of handle_host_state: the
      performance data update once, the bookkeeping calls of a state change as
      their conditions say, and whatever handle_host_event does on a change. */
  lemma HostStateCensus(cfg: Config, v: HostView, now: Time, nextId: ULong, runs: HostCheckRuns, e: Effect)
    requires !OfCommand(e, Ochp) && !e.GrabHostMacros? && !e.HostNotification?
    ensures var changed := RecordChange(StampLastTime(v, now), now, nextId);
      Count(HostStateEffects(cfg, v, now, nextId, runs), e) ==
        (if e == UpdatePerfData then 1 else 0)
        + (if e == DeleteAckComments && IsStateChange(v) && ClearsAck(v) then 1 else 0)
        + (if e == LogHostEvent && (if v.stateType == HardState then IsStateChange(v) else cfg.logHostRetries) then 1 else 0)
        + (if e == CheckFlexDowntime && IsStateChange(v) && v.stateType == HardState then 1 else 0)
        + (if IsStateChange(v) then Count(HostEventReply(cfg, changed, runs.globalHandler, runs.hostHandler).effects, e) else 0)
  {
    var stamped := StampLastTime(v, now);
    StampLastTimeFlat(v, now);
    var changed := RecordChange(stamped, now, nextId);
    var rest := if IsStateChange(v) then ChangeEffects(cfg, stamped, changed, runs)
      else SteadyEffects(cfg, stamped);
    OchpCalls(cfg, v, runs.ochp);
    PerfDataCount(OchpReply(cfg, v, runs.ochp).effects, rest, e);
    if IsStateChange(v) {
      ChangeCensus(cfg, stamped, changed, runs, e);
    } else {
      SteadyCensus(cfg, stamped, e);
    }
  }

  /** Counting a call that is neither a macro refresh nor one of the OCHP
      command's own in `ochp + [UpdatePerfData] + rest`. */
  lemma PerfDataCount(ochp: seq<Effect>, rest: seq<Effect>, e: Effect)
    requires forall i :: 0 <= i < |ochp| ==> ochp[i].GrabHostMacros? || OfCommand(ochp[i], Ochp)
    requires !OfCommand(e, Ochp) && !e.GrabHostMacros?
    ensures Count(ochp + [UpdatePerfData] + rest, e) == (if e == UpdatePerfData then 1 else 0) + Count(rest, e)
  {
    CountAbsent(ochp, e);
    CountConcat(ochp, [UpdatePerfData], e);
    CountConcat(ochp + [UpdatePerfData], rest, e);
  }

  /** The host records handed to host_notification: after a hard state change
      the record as the change bookkeeping leaves it, before the recovery
      reset; without a change, the stamped record when the host is in a hard
      problem state; otherwise none. */
  lemma HostStateNotifications(cfg: Config, v: HostView, now: Time, nextId: ULong, runs: HostCheckRuns)
    ensures var stamped := StampLastTime(v, now);
      Notifications(HostStateEffects(cfg, v, now, nextId, runs)) ==
        if IsStateChange(v) then
          (if v.stateType == HardState then [RecordChange(stamped, now, nextId)] else [])
        else
          (if v.currentState != HostUp && v.stateType == HardState then [stamped] else [])
  {
    var stamped := StampLastTime(v, now);
    StampLastTimeFlat(v, now);
    var changed := RecordChange(stamped, now, nextId);
    var ochp := OchpReply(cfg, v, runs.ochp).effects;
    OchpCalls(cfg, v, runs.ochp);
    RecordsAbsent(ochp, Notifier);
    RecordsConcat(ochp, [UpdatePerfData], Notifier);
    if IsStateChange(v) {
      var rest := ChangeEffects(cfg, stamped, changed, runs);
      assert HostStateEffects(cfg, v, now, nextId, runs) == ochp + [UpdatePerfData] + rest;
      RecordsConcat(ochp + [UpdatePerfData], rest, Notifier);
      ChangeNotifications(cfg, stamped, changed, runs);
    } else {
      var rest := SteadyEffects(cfg, stamped);
      assert HostStateEffects(cfg, v, now, nextId, runs) == ochp + [UpdatePerfData] + rest;
      RecordsConcat(ochp + [UpdatePerfData], rest, Notifier);
      SteadyNotifications(cfg, stamped);
    }
  }

  /** The host records the command lines are built from, in order: the
      obsessive processor's, which is `v` as it came in, when it builds a
      command; then, on a state change with handlers enabled, the handlers',
      which is the record as the change bookkeeping leaves it. */
  lemma HostStateSnapshots(cfg: Config, v: HostView, now: Time, nextId: ULong, runs: HostCheckRuns)
    ensures var stamped := StampLastTime(v, now);
      MacroSnapshots(HostStateEffects(cfg, v, now, nextId, runs)) ==
        (if cfg.obsessOverHosts && v.obsessOverHost && cfg.hasOchpCommand then [v] else [])
        + (if IsStateChange(v) && cfg.enableEventHandlers && v.eventHandlerEnabled
           then [RecordChange(stamped, now, nextId)] else [])
  {
    var stamped := StampLastTime(v, now);
    Flatten(v, now, nextId);
    var changed := RecordChange(stamped, now, nextId);
    assert changed.eventHandlerEnabled == v.eventHandlerEnabled;
    var ochp := OchpReply(cfg, v, runs.ochp).effects;
    OchpGating(cfg, v, runs.ochp);
    RecordsAbsent([UpdatePerfData], MacroGrab);
    RecordsConcat(ochp, [UpdatePerfData], MacroGrab);
    if IsStateChange(v) {
      var rest := ChangeEffects(cfg, stamped, changed, runs);
      assert HostStateEffects(cfg, v, now, nextId, runs) == ochp + [UpdatePerfData] + rest;
      RecordsConcat(ochp + [UpdatePerfData], rest, MacroGrab);
      ChangeSnapshots(cfg, stamped, changed, runs);
    } else {
      var rest := SteadyEffects(cfg, stamped);
      assert HostStateEffects(cfg, v, now, nextId, runs) == ochp + [UpdatePerfData] + rest;
      RecordsConcat(ochp + [UpdatePerfData], rest, MacroGrab);
      SteadySnapshots(cfg, stamped);
    }
  }

  /** On a state change with handlers enabled the handlers are built from a
      record with the attempt count, the notification number and the
      notified flags of before the call (the recovery reset comes after
      handle_host_event), but already with the new event id, the cleared
      notification times and the reset acknowledgement. */
  lemma HandlerSeesPreResetRecord(cfg: Config, v: HostView, now: Time, nextId: ULong, runs: HostCheckRuns)
    requires IsStateChange(v) && cfg.enableEventHandlers && v.eventHandlerEnabled
    ensures var ms := MacroSnapshots(HostStateEffects(cfg, v, now, nextId, runs));
      var w := HostAfter(v, now, nextId);
      && |ms| >= 1
      && var hs := ms[|ms| - 1];
      && hs.currentAttempt == v.currentAttempt
      && hs.currentNotificationNumber == v.currentNotificationNumber
      && hs.notifiedOnDown == v.notifiedOnDown && hs.notifiedOnUnreachable == v.notifiedOnUnreachable
      && hs.currentEventId == w.currentEventId && hs.lastEventId == w.lastEventId
      && hs.lastNotification == 0 && hs.nextNotification == 0 && !hs.noMoreNotifications
      && hs.ackType == w.ackType && hs.problemAcknowledged == w.problemAcknowledged
      && RecoveryReset(hs) == w
  {
    HostStateSnapshots(cfg, v, now, nextId, runs);
    Flatten(v, now, nextId);
  }

  /** host_notification is called once exactly when the state is hard and
      either it changed or the host is DOWN or UNREACHABLE. */
  lemma NotificationRequestedOnce(cfg: Config, v: HostView, now: Time, nextId: ULong, runs: HostCheckRuns)
    ensures |Notifications(HostStateEffects(cfg, v, now, nextId, runs))| ==
              (if v.stateType == HardState && (IsStateChange(v) || v.currentState != HostUp) then 1 else 0)
  {
    HostStateNotifications(cfg, v, now, nextId, runs);
  }

  /** On a hard state change the notification sees the attempt count, the
      notification number and the notified flags of before the call (the
      recovery reset comes after it), but already the new event id, the
      cleared notification times and the reset acknowledgement. */
  lemma NotificationSeesPreResetCounters(cfg: Config, v: HostView, now: Time, nextId: ULong, runs: HostCheckRuns)
    requires IsStateChange(v) && v.stateType == HardState
    ensures var ns := Notifications(HostStateEffects(cfg, v, now, nextId, runs));
      var w := HostAfter(v, now, nextId);
      && |ns| == 1
      && ns[0].currentAttempt == v.currentAttempt
      && ns[0].currentNotificationNumber == v.currentNotificationNumber
      && ns[0].notifiedOnDown == v.notifiedOnDown && ns[0].notifiedOnUnreachable == v.notifiedOnUnreachable
      && ns[0].currentEventId == w.currentEventId && ns[0].lastEventId == w.lastEventId
      && ns[0].lastNotification == 0 && ns[0].nextNotification == 0 && !ns[0].noMoreNotifications
      && ns[0].ackType == w.ackType && ns[0].problemAcknowledged == w.problemAcknowledged
      && RecoveryReset(ns[0]) == w
  {
    HostStateNotifications(cfg, v, now, nextId, runs);
    Flatten(v, now, nextId);
  }

  /** The host's performance data is updated exactly once per call. */
  lemma PerfDataUpdatedOnce(cfg: Config, v: HostView, now: Time, nextId: ULong, runs: HostCheckRuns)
    ensures Count(HostStateEffects(cfg, v, now, nextId, runs), UpdatePerfData) == 1
  {
    var changed := RecordChange(StampLastTime(v, now), now, nextId);
    HostStateCensus(cfg, v, now, nextId, runs, UpdatePerfData);
    HostEventCallsAreDispatch(cfg, changed, runs.globalHandler, runs.hostHandler);
    CountAbsent(HostEventReply(cfg, changed, runs.globalHandler, runs.hostHandler).effects, UpdatePerfData);
  }

  /** The host obsessive processor is consulted first, on the record as it
      came in: when it builds a command it refreshes the macros from `v`
      itself, before any field is touched; the performance data update
      follows it directly. */
  lemma ForwarderComesFirst(cfg: Config, v: HostView, now: Time, nextId: ULong, runs: HostCheckRuns)
    ensures var effs := HostStateEffects(cfg, v, now, nextId, runs);
      var ochp := OchpReply(cfg, v, runs.ochp).effects;
      && |ochp| < |effs| && effs[..|ochp|] == ochp && effs[|ochp|] == UpdatePerfData
      && (cfg.obsessOverHosts && v.obsessOverHost && cfg.hasOchpCommand ==> effs[0] == GrabHostMacros(v))
  {
    var stamped := StampLastTime(v, now);
    var rest := if IsStateChange(v) then ChangeEffects(cfg, stamped, RecordChange(stamped, now, nextId), runs)
      else SteadyEffects(cfg, stamped);
    OchpCalls(cfg, v, runs.ochp);
    PerfDataAfter(OchpReply(cfg, v, runs.ochp).effects, rest);
  }

  /** The layout of `ochp + [UpdatePerfData] + rest`. */
  lemma PerfDataAfter(ochp: seq<Effect>, rest: seq<Effect>)
    ensures var effs := ochp + [UpdatePerfData] + rest;
      && |ochp| < |effs| && effs[..|ochp|] == ochp && effs[|ochp|] == UpdatePerfData
      && (ochp != [] ==> effs[0] == ochp[0])
  {
    assert (ochp + [UpdatePerfData] + rest)[..|ochp|] == ochp;
  }

  /** The acknowledgement comments are deleted once exactly when a state
      change clears the acknowledgement. */
  lemma AckCommentsDeletedOnce(cfg: Config, v: HostView, now: Time, nextId: ULong, runs: HostCheckRuns)
    ensures Count(HostStateEffects(cfg, v, now, nextId, runs), DeleteAckComments) ==
              (if IsStateChange(v) && ClearsAck(v) then 1 else 0)
  {
    var changed := RecordChange(StampLastTime(v, now), now, nextId);
    HostStateCensus(cfg, v, now, nextId, runs, DeleteAckComments);
    HostEventCallsAreDispatch(cfg, changed, runs.globalHandler, runs.hostHandler);
    CountAbsent(HostEventReply(cfg, changed, runs.globalHandler, runs.hostHandler).effects, DeleteAckComments);
  }

  /** The host event is logged once for a hard state change, and for every
      soft state (changed or not) when retries are logged; never otherwise. */
  lemma HostEventLoggedOnce(cfg: Config, v: HostView, now: Time, nextId: ULong, runs: HostCheckRuns)
    ensures Count(HostStateEffects(cfg, v, now, nextId, runs), LogHostEvent) ==
              (if (IsStateChange(v) && v.stateType == HardState)
                  || (v.stateType == SoftState && cfg.logHostRetries) then 1 else 0)
  {
    var changed := RecordChange(StampLastTime(v, now), now, nextId);
    HostStateCensus(cfg, v, now, nextId, runs, LogHostEvent);
    HostEventCallsAreDispatch(cfg, changed, runs.globalHandler, runs.hostHandler);
    CountAbsent(HostEventReply(cfg, changed, runs.globalHandler, runs.hostHandler).effects, LogHostEvent);
  }

  /** Pending flexible downtime is checked once exactly on a hard state change. */
  lemma FlexDowntimeCheckedOnce(cfg: Config, v: HostView, now: Time, nextId: ULong, runs: HostCheckRuns)
    ensures Count(HostStateEffects(cfg, v, now, nextId, runs), CheckFlexDowntime) ==
              (if IsStateChange(v) && v.stateType == HardState then 1 else 0)
  {
    var changed := RecordChange(StampLastTime(v, now), now, nextId);
    HostStateCensus(cfg, v, now, nextId, runs, CheckFlexDowntime);
    HostEventCallsAreDispatch(cfg, changed, runs.globalHandler, runs.hostHandler);
    CountAbsent(HostEventReply(cfg, changed, runs.globalHandler, runs.hostHandler).effects, CheckFlexDowntime);
  }

  /** The event handlers run only on a state change, soft or hard: external
      commands are drained once exactly on a change with handlers enabled
      globally and for the host, and the host's own handler runs once exactly
      when in addition the host has one and its line can be built. */
  lemma HandlersRunOnChangeOnly(cfg: Config, v: HostView, now: Time, nextId: ULong, runs: HostCheckRuns)
    ensures var effs := HostStateEffects(cfg, v, now, nextId, runs);
      var enabled := IsStateChange(v) && cfg.enableEventHandlers && v.eventHandlerEnabled;
      && Count(effs, CheckExternalCommands) == (if enabled then 1 else 0)
      && Count(effs, Run(HostHandler, ExpandedLine)) ==
           (if enabled && v.hasEventHandler && runs.hostHandler.expansion == Expanded then 1 else 0)
      && Count(effs, Run(GlobalHostHandler, ExpandedLine)) ==
           (if enabled && cfg.hasGlobalHostEventHandler && runs.globalHandler.expansion == Expanded then 1 else 0)
  {
    var changed := RecordChange(StampLastTime(v, now), now, nextId);
    Flatten(v, now, nextId);
    assert changed.eventHandlerEnabled == v.eventHandlerEnabled && changed.hasEventHandler == v.hasEventHandler;
    HostStateCensus(cfg, v, now, nextId, runs, CheckExternalCommands);
    HostStateCensus(cfg, v, now, nextId, runs, Run(HostHandler, ExpandedLine));
    HostStateCensus(cfg, v, now, nextId, runs, Run(GlobalHostHandler, ExpandedLine));
    if cfg.enableEventHandlers && v.eventHandlerEnabled {
      HostDispatchOrder(cfg, changed, runs.globalHandler, runs.hostHandler);
    } else {
      HostDispatchDisabled(cfg, changed, runs.globalHandler, runs.hostHandler);
    }
  }
}
