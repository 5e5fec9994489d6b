/** The global event id counter across a run of host checks: every state
    change, of any host, takes the next id, so the ids handed out are
    consecutive and never repeat while the counter does not wrap. */
module History {
  import opened Objects
  import opened Semantics
  import opened HostStateProperties

  /** One call of the host state handler: the host record as it came in and the check time. */
  datatype Check = Check(host: HostView, now: Time)

  /** How many of the checks are state changes. */
  function Transitions(checks: seq<Check>): nat
  {
    if checks == [] then 0
    else (if IsStateChange(checks[0].host) then 1 else 0) + Transitions(checks[1..])
  }

  /** The counter after the checks, one after the other, starting from `nextId`. */
  function CounterAfter(checks: seq<Check>, nextId: ULong): ULong
  {
    if checks == [] then nextId
    else CounterAfter(checks[1..], NextEventIdAfter(checks[0].host, nextId))
  }

  /** The event ids the state changes among the checks give their hosts, in order. */
  function AssignedIds(checks: seq<Check>, nextId: ULong): seq<ULong>
  {
    if checks == [] then []
    else
      var c := checks[0];
      (if IsStateChange(c.host) then [HostAfter(c.host, c.now, nextId).currentEventId] else [])
      + AssignedIds(checks[1..], NextEventIdAfter(c.host, nextId))
  }

  /** While it does not wrap, the counter advances by the number of state changes. */
  lemma {:induction false} CounterCountsTransitions(checks: seq<Check>, nextId: ULong)
    requires nextId + Transitions(checks) < ULONG_LIMIT
    ensures CounterAfter(checks, nextId) == nextId + Transitions(checks)
  {
    if checks != [] {
      var c := checks[0];
      var next := NextEventIdAfter(c.host, nextId);
      assert next == nextId + (if IsStateChange(c.host) then 1 else 0);
      CounterCountsTransitions(checks[1..], next);
    }
  }

  /** While the counter does not wrap, the state changes receive exactly the
      ids `nextId`, `nextId + 1`, ... in order, one each. */
  lemma {:induction false} EventIdsAreConsecutive(checks: seq<Check>, nextId: ULong)
    requires nextId + Transitions(checks) < ULONG_LIMIT
    ensures var ids := AssignedIds(checks, nextId);
      && |ids| == Transitions(checks)
      && forall i :: 0 <= i < |ids| ==> ids[i] == nextId + i
  {
    if checks != [] {
      var c := checks[0];
      var next := NextEventIdAfter(c.host, nextId);
      EventIdShift(c.host, c.now, nextId);
      assert next == nextId + (if IsStateChange(c.host) then 1 else 0);
      EventIdsAreConsecutive(checks[1..], next);
      var head: seq<ULong> := if IsStateChange(c.host) then [HostAfter(c.host, c.now, nextId).currentEventId] else [];
      var rest := AssignedIds(checks[1..], next);
      assert AssignedIds(checks, nextId) == head + rest;
      assert forall i :: 0 <= i < |rest| ==> (head + rest)[|head| + i] == rest[i];
    }
  }

  /** Hence no two state changes share an event id, and later changes have larger ids. */
  lemma EventIdsIncrease(checks: seq<Check>, nextId: ULong)
    requires nextId + Transitions(checks) < ULONG_LIMIT
    ensures var ids := AssignedIds(checks, nextId);
      forall i, j :: 0 <= i < j < |ids| ==> ids[i] < ids[j]
  {
    EventIdsAreConsecutive(checks, nextId);
  }
}
