# Nagios state and event handlers, modelled in Dafny

This project models `base/sehandlers.c` of Nagios Core: the code that runs after every check.

- The **host state handler** (`handle_host_state`) decides whether a host check is a state change. It then updates the host record in place: "last time" stamps, state change times, event ids, the process-wide event id counter, the acknowledgement, the notification times and the recovery reset. It also makes a fixed sequence of calls into the rest of the daemon.
- The **event handler dispatchers** (`handle_host_event`, `handle_service_event`) and the four **handler runners** (`run_global_host_event_handler`, `run_host_event_handler`, `run_global_service_event_handler`, `run_service_event_handler`) gate and order the event handler commands.
- The two **obsessive compulsive processors** forward check results to the OCHP and OCSP commands.

## Structure

- `objects.dfy` (`Objects`): the host record as a `Host` class whose fields the handler assigns, a `HostView` value of those fields, and services.
  - The event ids and the counter are C `unsigned long`. They are modelled as `ULong`, below 2^64, and `Succ` wraps explicitly.
- `effects.dfy` (`Effects`): everything the handlers call outside this file, as an `Effect`. This covers notifications, logging, performance data, downtime, comments, host macro refreshes, command runs, timeout warnings and the external command drain. The calls are recorded in a trace, so their order and number can be stated. `Count` reads the trace. `Notifications` lists the host records handed to `host_notification`, and `MacroSnapshots` lists the host records that `grab_host_macros` copies on the host paths (the host obsessive processor and `handle_host_event`). Command lines are built from those macros.
- `semantics.dfy` (`Semantics`): one reference function per C function. For the processors, dispatchers and runners it gives the return code and the calls made, as a `Reply`. The host state handler always returns OK and has no `Reply`. Its calls are `HostStateEffects`, its new host record is `HostAfter`, and its new counter is `NextEventIdAfter`.
- `sehandlers.dfy` (`SeHandlers`): the C functions as imperative methods.
  - Process-wide variables are fields of a `Globals` class. The call trace is a ghost field of it.
  - The host handler assigns fields of `Host` one at a time, in the source's order.
  - Every method is proved to return the reference function's code, leave the reference function's trace and, for the host state handler, leave the reference host record and counter.
- `dispatch.dfy` (`DispatchProperties`): what the processors, runners and dispatchers promise.
- `properties.dfy` (`HostStateProperties`): what one call of the host state handler promises about the host record and about its calls.
- `history.dfy` (`History`): a run of many host checks sharing the event id counter.

Inputs:
- `now` stands for `time(&current_time)`.
- A `CommandResult` stands for the macro engine's and the command runner's outcome: whether the raw and the processed command lines could be built, and whether the run timed out. It is a parameter.
- `HostCheckRuns` holds the three outcomes one host state call may see: OCHP, global host handler, host handler.

Where the documented behaviour of the handlers and the code differ, the model follows the code:

- `handle_host_state` never writes `last_state` or `last_hard_state`. A second call on the same record therefore finds the same state change again (`RepeatedCallRedetectsChange`). Updating those fields is the caller's job.
- The external command drain is part of `handle_host_event` and comes after its enable checks. With event handlers disabled globally or for the host, a state change drains nothing (`HandlersRunOnChangeOnly`).
- `handle_host_state` has no NULL check and returns OK on every path.

## Model

| member | source | states |
|---|---|---|
| Objects.Succ | base/sehandlers.c:690 | the post-increment of the unsigned counter: one more below 2^64, 0 at the top, never the old value |
| Semantics.Reason | base/sehandlers.c:676-677 | classifies the three alternatives of the change test; each `iff` names the exact field condition under which it is the reason |
| SeHandlers.RunCommand | base/sehandlers.c:313-320 | the runner is handed the line once, then a timeout warning is written exactly when it timed out; the same step at lines 120-127, 183-190, 396-403, 528-535 and 610-617 |
| SeHandlers.ExecuteHandler | base/sehandlers.c:292-335 | the shared run protocol of a runner: ERROR when the raw or processed line is missing; otherwise an optional log line, the run, a warning on timeout, OK |
| SeHandlers.ObsessiveCompulsiveServiceCheckProcessor | base/sehandlers.c:70-134 | ERROR on a null service; otherwise the code and calls of `OcspReply` on the service's fields and the settings |
| SeHandlers.ObsessiveCompulsiveHostCheckProcessor | base/sehandlers.c:139-197 | ERROR on a null host; otherwise the code and calls of `OchpReply`, whose macro refresh records the host's fields as they are at the call |
| SeHandlers.HandleServiceEvent | base/sehandlers.c:208-249 | ERROR on a null service; otherwise the code and calls of `ServiceEventReply` |
| SeHandlers.RunGlobalServiceEventHandler | base/sehandlers.c:254-336 | ERROR on a null service; otherwise the code and calls of `GlobalServiceHandlerReply` |
| SeHandlers.RunServiceEventHandler | base/sehandlers.c:341-419 | ERROR on a null service; otherwise the code and calls of `ServiceHandlerReply` |
| SeHandlers.HandleHostEvent | base/sehandlers.c:430-465 | ERROR on a null host; otherwise the code and calls of `HostEventReply`, whose macro refresh records the host's fields as they are at the call; the host record is not written |
| SeHandlers.RunGlobalHostEventHandler | base/sehandlers.c:469-551 | ERROR on a null host; otherwise the code and calls of `GlobalHostHandlerReply` |
| SeHandlers.RunHostEventHandler | base/sehandlers.c:555-633 | ERROR on a null host; otherwise the code and calls of `HostHandlerReply` |
| SeHandlers.StampLastTimeOf | base/sehandlers.c:661-673 | assigning `now` to the last-time field of the current state yields `StampLastTime` of the old record |
| SeHandlers.StampChangeOf | base/sehandlers.c:683-685 | the state change time, and the hard change time for a hard state, become `now` |
| SeHandlers.ShiftEventIdOf | base/sehandlers.c:688-690 | last id := current id, current id := counter, counter := `Succ(counter)` |
| SeHandlers.ResetAckOf | base/sehandlers.c:692-708 | the acknowledgement reset, with exactly one comment deletion appended when it clears |
| SeHandlers.ResetNotificationTimesOf | base/sehandlers.c:710-715 | both notification times become 0 and the suppression flag false |
| SeHandlers.RecordStateChange | base/sehandlers.c:682-715 | the record becomes `RecordChange` of the old one, the counter advances once, and the only call is the comment deletion |
| SeHandlers.ResetAttemptOf | base/sehandlers.c:732-734 | a host that is UP gets attempt 1 |
| SeHandlers.ResetNotificationStateOf | base/sehandlers.c:736-741 | a host that is UP gets notification number 0 and cleared notified flags |
| SeHandlers.HandleStateChange | base/sehandlers.c:680-742 | the state change branch: record, counter and calls as `RecoveryReset`, `Succ` and `ChangeEffects` say; the notification and the handlers' macro refresh both record the host before the recovery reset, because `ChangeEffects` is taken of the record before it and the reset is assigned after `handle_host_event` returns |
| SeHandlers.HandleSteadyState | base/sehandlers.c:744-754 | the no-change branch: a notification for a hard non-UP host, then the retry log line for a soft state when retries are logged |
| SeHandlers.HandleHostState | base/sehandlers.c:644-757 | always OK; leaves the host record `HostAfter`, the counter `NextEventIdAfter` and the trace extended by `HostStateEffects`, which starts with the OCHP processor's calls on the record as it came in: the forwarder runs before any field is assigned |
| DispatchProperties.ExecuteOutcome | base/sehandlers.c:292-335 | OK iff both lines were built; then exactly one run, preceded directly by exactly one log line when handler logging is on and by none otherwise, and one warning iff it timed out, as the last call; ERROR runs nothing; all calls belong to that command |
| DispatchProperties.OchpGating | base/sehandlers.c:149-197 | the OCHP command runs once iff obsession is on globally and for the host, a command is configured and a raw line is built, and never otherwise; with obsession off: OK and nothing; ERROR, with no run, iff obsession is on but the command or raw line is missing; once a command is configured the first call is the macro refresh from the host, which is the only snapshot; the runner never gets an expanded line |
| DispatchProperties.OcspGating | base/sehandlers.c:81-134 | the OCSP command runs once iff obsession is on globally and for the service, a command is configured, the service has a host and both lines are built, and never otherwise; with obsession off: OK and nothing; ERROR iff obsession is on and one of those is missing, and then nothing is done |
| DispatchProperties.HostDispatchDisabled | base/sehandlers.c:443-446 | with handlers disabled globally or for the host: OK, no run, no drain |
| DispatchProperties.HostDispatchOrder | base/sehandlers.c:448-464 | enabled: OK; first the macro refresh from the record handed in; the global handler runs iff configured and built; the own handler runs iff the host has one and it is built, independently of the global result; no own-handler call precedes a global-handler call; one drain, last |
| DispatchProperties.HostEventCallsAreDispatch | base/sehandlers.c:430-465 | every call `handle_host_event` makes is a macro refresh, command run, log, warning or the drain |
| DispatchProperties.HostEventSnapshots | base/sehandlers.c:443-452 | enabled: exactly one macro snapshot, the record handed in; disabled: none; never a notification |
| DispatchProperties.GlobalHostHandlerDisabled | base/sehandlers.c:487-489 | with event handlers disabled: OK, nothing run |
| DispatchProperties.GlobalHostHandlerUnconfigured | base/sehandlers.c:491-493 | enabled without a global host handler: ERROR, nothing run |
| DispatchProperties.HostHandlerUnconfigured | base/sehandlers.c:573-575 | a host without an event handler: ERROR, nothing run |
| DispatchProperties.ServiceDispatchDisabled | base/sehandlers.c:221-225 | with handlers disabled globally or for the service: OK and nothing, even with no host |
| DispatchProperties.ServiceDispatchNeedsHost | base/sehandlers.c:227-229 | enabled but no host: ERROR, nothing run, no drain |
| DispatchProperties.ServiceDispatchOrder | base/sehandlers.c:231-248 | the service counterpart of the host dispatch order |
| DispatchProperties.GlobalServiceHandlerDisabled | base/sehandlers.c:272-274 | with event handlers disabled: OK, nothing run |
| DispatchProperties.ServiceHandlerUnconfigured | base/sehandlers.c:359-361 | a service without an event handler: ERROR, nothing run |
| DispatchProperties.GlobalServiceHandlerUnconfigured | base/sehandlers.c:276-278 | enabled without a global service handler: ERROR, nothing run |
| HostStateProperties.ChangeDetectedExactly | base/sehandlers.c:675-690 | the counter advances iff last state differs, or last hard state differs, or the host is soft UP; `Reason` is not `Unchanged` iff there is a change |
| HostStateProperties.RepeatedCallRedetectsChange | base/sehandlers.c:644-757 | current, last and last hard state, state type and host settings are never written, so a changed host is found changed again, for the same reason |
| HostStateProperties.LastTimeStamped | base/sehandlers.c:660-673 | exactly the last-time field of the current state becomes `now`; the other two are kept |
| HostStateProperties.SteadyStateTouchesOnlyLastTime | base/sehandlers.c:744-754 | without a change the record differs from the old one only in the last-time fields, and the counter is kept |
| HostStateProperties.StateChangeTimes | base/sehandlers.c:682-685 | the change time is `now` iff there is a change; the hard change time is `now` iff there is a hard change; both are otherwise kept |
| HostStateProperties.EventIdShift | base/sehandlers.c:687-690 | on a change: last id is the old current id, current id is the old counter, counter is `Succ` of it; otherwise all three kept |
| HostStateProperties.EventIdsStayBelowCounter | base/sehandlers.c:687-690 | the invariant last id <= current id < counter is preserved while the counter does not wrap, and a change gives the host a strictly larger current id |
| HostStateProperties.AckReset | base/sehandlers.c:692-708 | a change clears a normal acknowledgement, and a sticky one only for an UP host; otherwise both acknowledgement fields are kept |
| HostStateProperties.NotificationTimesReset | base/sehandlers.c:710-715 | on a change both notification times are 0 and the suppression flag false; otherwise kept |
| HostStateProperties.RecoveryResetsCounters | base/sehandlers.c:732-741 | on a change to UP: attempt 1, notification number 0, notified flags false; on any other call they are kept |
| HostStateProperties.HostStateCensus | base/sehandlers.c:654-754 | how often each call occurs that is not a notification, a macro refresh or one of the OCHP command's own: the performance data update and the bookkeeping calls in closed form, plus the calls of `handle_host_event` on a change, left as that call's count. `HostStateSnapshots` lists the macro refreshes and `HandlersRunOnChangeOnly` gives the handler counts |
| HostStateProperties.HostStateNotifications | base/sehandlers.c:725-749 | the exact list of records handed to host_notification in each case |
| HostStateProperties.NotificationRequestedOnce | base/sehandlers.c:725-749 | one notification iff the state is hard and it changed or the host is not UP; none otherwise |
| HostStateProperties.NotificationSeesPreResetCounters | base/sehandlers.c:725-741 | on a hard change the notified record has the old attempt, notification number and notified flags, but the new event ids, cleared times and reset acknowledgement; the final record is its recovery reset |
| HostStateProperties.PerfDataUpdatedOnce | base/sehandlers.c:657-658 | the performance data is updated exactly once per call |
| HostStateProperties.ForwarderComesFirst | base/sehandlers.c:654-661 | the calls start with the OCHP processor's calls, directly followed by the performance data update; once a command is configured the very first call is the macro refresh from the incoming record itself, so the forwarder sees no field update |
| HostStateProperties.HostStateSnapshots | base/sehandlers.c:654-730 | the exact list of records command lines are built from: the incoming record for OCHP when it has a command, then, on a change with handlers enabled, the record as the change bookkeeping leaves it |
| HostStateProperties.HandlerSeesPreResetRecord | base/sehandlers.c:729-741 | on a change with handlers enabled the handlers' record has the old attempt, notification number and notified flags, but the new event ids, cleared times and reset acknowledgement; the final record is its recovery reset |
| HostStateProperties.AckCommentsDeletedOnce | base/sehandlers.c:692-708 | acknowledgement comments are deleted once iff a change clears the acknowledgement, else never |
| HostStateProperties.HostEventLoggedOnce | base/sehandlers.c:717-719 | the host event is logged once iff (change and hard) or (soft and retries are logged) |
| HostStateProperties.FlexDowntimeCheckedOnce | base/sehandlers.c:721-723 | flexible downtime is checked once iff there is a hard change |
| HostStateProperties.HandlersRunOnChangeOnly | base/sehandlers.c:729-730 | the drain happens once iff there is a change with handlers enabled; the host's and the global handler run once iff, in addition, they are configured and their lines are built |
| History.CounterCountsTransitions | base/sehandlers.c:687-690 | over a run of checks without wrap-around, the counter advances by exactly the number of state changes |
| History.EventIdsAreConsecutive | base/sehandlers.c:687-690 | the state changes of a run receive the ids `nextId`, `nextId + 1`, ... in order, one each |
| History.EventIdsIncrease | base/sehandlers.c:687-690 | hence no two state changes of a run share an id, and later changes have larger ids |

## Left out

- The command runner `my_system` is replaced by its abstract outcome, the `timedOut` flag. The subprocess, its exit status, captured output and `exectime` (a `double`) are not modelled.
- The macro machinery (`clear_volatile_macros`, `grab_*_macros`, `get_raw_command_line`, `process_macros`, `macro_x`) is foreign string processing. It is modelled only as whether the raw and processed lines could be built, and, for `grab_host_macros` on the host paths (lines 164 and 450), as the host record it copies.
- Not recorded: `grab_service_macros`, `grab_datetime_macros` and `grab_summary_macros`, and `grab_host_macros` of the service's host on the service paths (lines 100 and 233). Nothing on those paths writes the service or its host, so those macros cannot differ from the records passed in.
- Log and warning text (`asprintf`, `write_to_logs_and_console`, `write_to_all_logs`, `log_debug_info`) is not modelled; the trace records only that a log line or warning was written.
- The event broker calls under `USE_EVENT_BROKER` and the `gettimeofday` start and end times are not modelled. They are observational and do not affect control flow.
- The callees `update_host_performance_data`, `host_notification`, `log_host_event`, `check_pending_flex_host_downtime`, `delete_host_acknowledgement_comments` and `check_for_external_commands` are trace events. Any changes they make to the host record or to the settings are not modelled. The external command drain in particular can run arbitrary commands.
- Wall-clock time: `time(&current_time)` is the parameter `now`.
- The `default:` branch of the last-time switch (line 671) is not modelled, because `HostState` has only the three states the switch names.
- ULong: the width of `unsigned long` is taken to be 64 bits, as on LP64 platforms.
- EventIdsStayBelowCounter, CounterCountsTransitions, EventIdsAreConsecutive, EventIdsIncrease: these hold only while the counter does not wrap; past 2^64 the wrap in `Succ` breaks the ordering.
- OchpGating: it states no ERROR for a missing processed line. The test there (line 177) assigns NULL instead of comparing, so the host processor never fails on it. It also always hands the runner a null command line. Both are modelled as written.
- The memory handling (`my_free`, the leaks on early returns) is not modelled.
- handle_host_state takes a non-null `Host`, because the C function does not test for NULL.
- The C `int` flags that the code compares with `TRUE` or `FALSE` are `bool`, and `current_state`, `state_type` and `acknowledgement_type` are closed enumerations. Values outside those sets are not modelled. For example, a flag holding 2 passes neither `==TRUE` nor `==FALSE`.
