/** The monitored objects of the event and state handlers: hosts, which the
    host state handler updates in place, and services, which the service
    event handlers only read. */
module Objects {

  /** One more than the largest C `unsigned long` on the LP64 platforms the
      daemon is built for. */
  const ULONG_LIMIT: int := 0x1_0000_0000_0000_0000

  /** The C `unsigned long` of `next_event_id` and of the per-host event ids. */
  type ULong = x: int | 0 <= x < ULONG_LIMIT

  /** The post-increment `next_event_id++`: unsigned arithmetic wraps to 0. */
  function Succ(x: ULong): (r: ULong)
    ensures x + 1 < ULONG_LIMIT ==> r == x + 1
    ensures x + 1 == ULONG_LIMIT ==> r == 0
    ensures r != x
  {
    (x + 1) % ULONG_LIMIT
  }

  /** A `time_t` in seconds. */
  type Time = int

  datatype HostState = HostUp | HostDown | HostUnreachable

  datatype StateType = SoftState | HardState

  datatype AckType = AckNone | AckNormal | AckSticky

  /** The OK / ERROR return code of every handler. */
  datatype Status = Ok | Error

  /** The fields of a host record that the handlers read or write, as a value. */
  datatype HostView = HostView(
    currentState: HostState,
    lastState: HostState,
    lastHardState: HostState,
    stateType: StateType,
    currentAttempt: int,
    currentNotificationNumber: int,
    lastTimeUp: Time,
    lastTimeDown: Time,
    lastTimeUnreachable: Time,
    lastStateChange: Time,
    lastHardStateChange: Time,
    currentEventId: ULong,
    lastEventId: ULong,
    ackType: AckType,
    problemAcknowledged: bool,
    lastNotification: Time,
    nextNotification: Time,
    noMoreNotifications: bool,
    notifiedOnDown: bool,
    notifiedOnUnreachable: bool,
    eventHandlerEnabled: bool,
    hasEventHandler: bool,
    obsessOverHost: bool)

  /** A host record; `hasEventHandler` stands for `event_handler != NULL`. */
  class Host {
    var currentState: HostState
    var lastState: HostState
    var lastHardState: HostState
    var stateType: StateType
    var currentAttempt: int
    var currentNotificationNumber: int
    var lastTimeUp: Time
    var lastTimeDown: Time
    var lastTimeUnreachable: Time
    var lastStateChange: Time
    var lastHardStateChange: Time
    var currentEventId: ULong
    var lastEventId: ULong
    var ackType: AckType
    var problemAcknowledged: bool
    var lastNotification: Time
    var nextNotification: Time
    var noMoreNotifications: bool
    var notifiedOnDown: bool
    var notifiedOnUnreachable: bool
    var eventHandlerEnabled: bool
    var hasEventHandler: bool
    var obsessOverHost: bool

    function View(): HostView
      reads this
    {
      HostView(currentState, lastState, lastHardState, stateType,
               currentAttempt, currentNotificationNumber,
               lastTimeUp, lastTimeDown, lastTimeUnreachable,
               lastStateChange, lastHardStateChange,
               currentEventId, lastEventId,
               ackType, problemAcknowledged,
               lastNotification, nextNotification, noMoreNotifications,
               notifiedOnDown, notifiedOnUnreachable,
               eventHandlerEnabled, hasEventHandler, obsessOverHost)
    }
  }

  /** The fields of a service record that the service handlers read. */
  datatype ServiceView = ServiceView(
    eventHandlerEnabled: bool,
    hasEventHandler: bool,
    obsessOverService: bool,
    hasHost: bool)

  /** A service record; `host` is the back-reference `host_ptr`, which may be null. */
  class Service {
    var eventHandlerEnabled: bool
    var hasEventHandler: bool
    var obsessOverService: bool
    var host: Host?

    function View(): ServiceView
      reads this
    {
      ServiceView(eventHandlerEnabled, hasEventHandler, obsessOverService, host != null)
    }
  }
}
