/** The calls the handlers make into the rest of the daemon, recorded as a
    trace so that their order and number can be stated. */
module Effects {
  import opened Objects

  /** The commands the handlers may run. */
  datatype CommandKind =
    | Ochp                  // ochp_command, the host obsessive processor
    | Ocsp                  // ocsp_command, the service obsessive processor
    | GlobalHostHandler     // global_host_event_handler
    | HostHandler           // the host's own event_handler
    | GlobalServiceHandler  // global_service_event_handler
    | ServiceHandler        // the service's own event_handler

  /** What the command runner is handed: the macro-expanded command line, or a null pointer. */
  datatype CommandLine = ExpandedLine | NullLine

  /** What building a command line produced: no raw line, no processed line, or both. */
  datatype Expansion = NoRawLine | NoProcessedLine | Expanded

  /** The outcome of preparing and running one command, as the macro engine and
      the command runner report it: whether the line could be built, and
      whether the runner hit its timeout. */
  datatype CommandResult = CommandResult(expansion: Expansion, timedOut: bool)

  datatype Effect =
    | LogHandler(kind: CommandKind)           // the "... EVENT HANDLER: ..." log line
    | Run(kind: CommandKind, line: CommandLine) // the command runner is called
    | TimeoutWarning(kind: CommandKind)       // the "timed out" runtime warning
    | UpdatePerfData                          // update_host_performance_data
    | DeleteAckComments                       // delete_host_acknowledgement_comments
    | LogHostEvent                            // log_host_event
    | CheckFlexDowntime                       // check_pending_flex_host_downtime
    | HostNotification(seen: HostView)        // host_notification, with the record it is handed
    | GrabHostMacros(seen: HostView)          // the macro refresh before a host command, with the record it reads
    | CheckExternalCommands                   // check_for_external_commands

  /** What a handler returns, together with the calls it made. */
  datatype Reply = Reply(code: Status, effects: seq<Effect>)

  /** How many times `e` occurs in the trace `s`. */
  function Count(s: seq<Effect>, e: Effect): nat
  {
    if s == [] then 0 else (if s[0] == e then 1 else 0) + Count(s[1..], e)
  }

  /** The two calls that read the whole host record: host_notification, and
      the macro refresh a host command line is built from. */
  datatype Reader = Notifier | MacroGrab

  /** Whether `e` is a call of reader `r`. */
  predicate Reads(e: Effect, r: Reader)
  {
    match r
    case Notifier => e.HostNotification?
    case MacroGrab => e.GrabHostMacros?
  }

  /** The host records read by reader `r`, in call order. */
  function Records(s: seq<Effect>, r: Reader): seq<HostView>
  {
    if s == [] then []
    else (if Reads(s[0], r) then [s[0].seen] else []) + Records(s[1..], r)
  }

  /** The host records handed to host_notification, in call order. */
  function Notifications(s: seq<Effect>): seq<HostView>
  {
    Records(s, Notifier)
  }

  /** The host records the host command lines are built from, in call order. */
  function MacroSnapshots(s: seq<Effect>): seq<HostView>
  {
    Records(s, MacroGrab)
  }

  /** Sequence associativity, stated once so that the long trace appends of
      the host state handler can cite it: without these hints the verifier
      needs several times the resources for the same proofs. */
  lemma AppendAssoc(a: seq<Effect>, b: seq<Effect>, c: seq<Effect>)
    ensures a + b + c == a + (b + c)
  {
  }

  lemma {:induction false} CountConcat(s: seq<Effect>, t: seq<Effect>, e: Effect)
    ensures Count(s + t, e) == Count(s, e) + Count(t, e)
  {
    if s == [] {
      assert s + t == t;
    } else {
      assert (s + t)[1..] == s[1..] + t;
      CountConcat(s[1..], t, e);
    }
  }

  lemma {:induction false} RecordsConcat(s: seq<Effect>, t: seq<Effect>, r: Reader)
    ensures Records(s + t, r) == Records(s, r) + Records(t, r)
  {
    if s == [] {
      assert s + t == t;
    } else {
      var u := s + t;
      assert u[0] == s[0];
      assert u[1..] == s[1..] + t;
      var head := if Reads(s[0], r) then [s[0].seen] else [];
      assert Records(u, r) == head + Records(u[1..], r);
      assert Records(s, r) == head + Records(s[1..], r);
      RecordsConcat(s[1..], t, r);
      assert head + (Records(s[1..], r) + Records(t, r)) == (head + Records(s[1..], r)) + Records(t, r);
    }
  }

  /** Whether `e` is one of the calls made while running command `kind`. */
  predicate OfCommand(e: Effect, kind: CommandKind)
  {
    (e.LogHandler? || e.Run? || e.TimeoutWarning?) && e.kind == kind
  }

  /** The effects of preparing and running commands and of the external command drain. */
  predicate IsDispatchEffect(e: Effect)
  {
    e.LogHandler? || e.Run? || e.TimeoutWarning? || e.GrabHostMacros? || e.CheckExternalCommands?
  }

  lemma {:induction false} CountAbsent(s: seq<Effect>, e: Effect)
    requires forall i :: 0 <= i < |s| ==> s[i] != e
    ensures Count(s, e) == 0
  {
    if s != [] {
      assert forall i :: 0 <= i < |s[1..]| ==> s[1..][i] == s[i + 1];
      CountAbsent(s[1..], e);
    }
  }

  lemma {:induction false} RecordsAbsent(s: seq<Effect>, r: Reader)
    requires forall i :: 0 <= i < |s| ==> !Reads(s[i], r)
    ensures Records(s, r) == []
  {
    if s != [] {
      assert forall i :: 0 <= i < |s[1..]| ==> s[1..][i] == s[i + 1];
      RecordsAbsent(s[1..], r);
    }
  }
}
