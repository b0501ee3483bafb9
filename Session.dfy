/**
 * The session object of src/node-zk.cpp (class ZooKeeper): its lifecycle
 * (`realInit`, `Init`, `realClose`, `Close`), the main session watcher, the
 * I/O reconciliation (`yield`, `zk_io_cb`, `zk_timer_cb`) and the property
 * getters. Calls into the C library and into libuv are replaced by the
 * values they return, passed in as parameters.
 *
 * Each step is specified by a function on the abstract `State`; the class
 * methods update the object's fields one by one as the C++ does and
 * promise that the new state is that function of the old one.
 */
module Session {
  import opened Wrappers
  import opened Identity
  import opened Config
  import opened Scheduler

  /** An opaque, non-NULL `zhandle_t *`. */
  type Handle = nat

  // Session states and watcher event types, as zookeeper.h defines them.
  const ExpiredSessionState: int := -112
  const AuthFailedState: int := -113
  const ConnectingState: int := 1
  const AssociatingState: int := 2
  const ConnectedState: int := 3

  const CreatedEvent: int := 1
  const DeletedEvent: int := 2
  const ChangedEvent: int := 3
  const ChildEvent: int := 4
  const SessionEvent: int := -1
  const NotWatchingEvent: int := -2

  /** An active `uv_poll_t` registration. */
  datatype PollReg = PollReg(fd: int, events: Flags)

  /** An active `uv_timer_t` registration: first timeout and repeat interval, in ms. */
  datatype TimerReg = TimerReg(timeout: int, repeat: int)

  /** One `emit` call on the JavaScript object: the event name and its argument. */
  datatype Notification =
    | PathNotification(name: string, path: Option<string>)
    | CloseNotification(code: int)

  /**
   * The fields of a ZooKeeper object that the core reads and writes:
   * `is_closed`, `zhandle`, `myid`, `last_activity`, `fd`, `interest`, `tv`,
   * the `zk_io` and `zk_timer` registrations, the ObjectWrap reference
   * count, and the notifications emitted so far.
   */
  datatype State = State(
    closed: bool,
    handle: Option<Handle>,
    myid: ClientId,
    lastActivity: int,
    fd: int,
    interest: Flags,
    tv: TimeVal,
    poll: Option<PollReg>,
    timer: Option<TimerReg>,
    refs: nat,
    emitted: seq<Notification>)

  /** Unref balances the Ref taken while a handle is open, so it never underflows. */
  ghost predicate ValidState(s: State) {
    s.handle.Some? ==> s.refs > 0
  }

  /** A freshly constructed object; `interest`, `tv` and `last_activity` start at zero. */
  const Unopened: State :=
    State(false, None, ZeroClient, 0, NoSocket, 0, TimeVal(0, 0), None, None, 0, [])

  /** Whether `yield` arms poll and timer for an interest report. */
  predicate ArmsReactor(report: InterestReport) {
    report.rc == 0 && report.fd != NoSocket
  }

  // ---------------------------------------------------------------------
  // yield

  /**
   * yield: nothing once closed. Otherwise record the activity time and the
   * reported interest, stop the poll, and unless the query failed or there
   * is no socket, poll the socket for exactly the reported flags and set the
   * timer to the reported timeout, repeating.
   */
  function Reconciled(s: State, now: int, report: InterestReport): (t: State)
    ensures s.closed ==> t == s
    ensures !s.closed ==>
      t.lastActivity == now && t.fd == report.fd && t.interest == report.interest && t.tv == report.tv
    ensures !s.closed ==> (t.poll.Some? <==> ArmsReactor(report))
    ensures !s.closed && !ArmsReactor(report) ==> t.timer == s.timer
    ensures t.closed == s.closed && t.handle == s.handle && t.myid == s.myid
    ensures t.refs == s.refs && t.emitted == s.emitted
  {
    if s.closed then s
    else
      var recorded := s.(lastActivity := now, fd := report.fd, interest := report.interest,
                         tv := report.tv, poll := None);
      if !ArmsReactor(report) then recorded
      else
        var delay := DelayMs(report.tv);
        recorded.(poll := Some(PollReg(report.fd, PollEventsOf(report.interest))),
                  timer := Some(TimerReg(delay, delay)))
  }

  /**
   * After a reconcile that arms, the reactor mirrors the report exactly:
   * the reported socket, READ/WRITE as READABLE/WRITABLE, and the reported
   * timeout as both first delay and repeat.
   */
  lemma ReconcileMirrorsInterest(s: State, now: int, report: InterestReport)
    requires !s.closed && ArmsReactor(report)
    ensures Reconciled(s, now, report).poll == Some(PollReg(report.fd, PollEventsOf(report.interest)))
    ensures Reconciled(s, now, report).timer == Some(TimerReg(DelayMs(report.tv), DelayMs(report.tv)))
  {
  }

  /** Reconciling again against the same report changes nothing. */
  lemma ReconcileIdempotent(s: State, now: int, report: InterestReport)
    ensures Reconciled(Reconciled(s, now, report), now, report) == Reconciled(s, now, report)
  {
  }

  // ---------------------------------------------------------------------
  // zk_timer_cb

  /**
   * zk_timer_cb: past the deadline it reconciles; otherwise it only rearms
   * the timer, to fire 1 ms after the deadline.
   */
  function TimerFired(s: State, now: int, report: InterestReport): (t: State)
    ensures TimerDecision(s.lastActivity, s.tv, now).Reconcile? ==> t == Reconciled(s, now, report)
    ensures TimerDecision(s.lastActivity, s.tv, now).Rearm? ==>
      t == s.(timer := Some(TimerReg(TimerDecision(s.lastActivity, s.tv, now).delay,
                                     TimerDecision(s.lastActivity, s.tv, now).delay)))
  {
    match TimerDecision(s.lastActivity, s.tv, now)
    case Reconcile => Reconciled(s, now, report)
    case Rearm(delay) => s.(timer := Some(TimerReg(delay, delay)))
  }

  /**
   * When the timer was armed with a positive delay and the library's new
   * timeout is at least 1 ms, a timer callback leaves the timer, if armed,
   * with a positive delay: a rearm always has one, a reconcile that arms
   * takes the new timeout, and a reconcile that arms nothing keeps the old
   * timer.
   */
  lemma TimerKeepsPositiveDelay(s: State, now: int, report: InterestReport)
    requires s.timer.Some? ==> s.timer.value.timeout >= 1
    requires report.tv.sec >= 0 && (report.tv.sec > 0 || report.tv.usec >= 1000)
    ensures var t := TimerFired(s, now, report);
      t.timer.Some? ==> t.timer.value.timeout >= 1
  {
  }

  // ---------------------------------------------------------------------
  // realClose

  /**
   * realClose: nothing once closed. Otherwise mark closed and stop the
   * timer; when a handle is open, close it, stop the poll, Unref, and emit
   * "close" with the code.
   */
  function Closed(s: State, code: int): (t: State)
    requires ValidState(s)
    ensures ValidState(t)
    ensures s.closed ==> t == s
    ensures t.closed && (!s.closed ==> t.timer.None?)
    ensures !s.closed && s.handle.Some? ==>
      t.handle.None? && t.poll.None? && t.refs == s.refs - 1 &&
      t.emitted == s.emitted + [CloseNotification(code)]
    ensures s.handle.None? ==> t.poll == s.poll && t.refs == s.refs && t.emitted == s.emitted
    ensures s.handle.None? ==> t.handle.None?
    ensures t.myid == s.myid && t.lastActivity == s.lastActivity && t.fd == s.fd &&
      t.interest == s.interest && t.tv == s.tv
  {
    if s.closed then s
    else
      var stopped := s.(closed := true, timer := None);
      if s.handle.None? then stopped
      else stopped.(handle := None, poll := None, refs := s.refs - 1,
                    emitted := s.emitted + [CloseNotification(code)])
  }

  /** The number of "close" notifications in a log. */
  function CloseCount(log: seq<Notification>): (n: nat)
    ensures n <= |log|
  {
    if log == [] then 0
    else CloseCount(log[..|log| - 1]) + (if log[|log| - 1].CloseNotification? then 1 else 0)
  }

  /** Closing twice is closing once, whatever the second code. */
  lemma CloseIdempotent(s: State, first: int, second: int)
    requires ValidState(s)
    ensures Closed(Closed(s, first), second) == Closed(s, first)
  {
  }

  /**
   * realClose emits "close" at most once: exactly once when the session was
   * open with a handle, and never again after.
   */
  lemma {:induction false} CloseEmitsAtMostOnce(s: State, code: int)
    requires ValidState(s)
    ensures CloseCount(Closed(s, code).emitted) ==
      CloseCount(s.emitted) + (if !s.closed && s.handle.Some? then 1 else 0)
  {
    var t := Closed(s, code);
    if !s.closed && s.handle.Some? {
      assert t.emitted[..|t.emitted| - 1] == s.emitted;
    }
  }

  /** Once closed, reconciling and closing again leave the object as it is. */
  lemma ClosedIsQuiet(s: State, code: int, now: int, report: InterestReport)
    requires ValidState(s)
    ensures Reconciled(Closed(s, code), now, report) == Closed(s, code)
  {
  }

  // ---------------------------------------------------------------------
  // realInit

  /**
   * realInit: copy the client id, take the handle `zookeeper_init`
   * returned; without one, fail. With one, Ref, initialise the timer and
   * reconcile.
   */
  function Initialized(s: State, client: ClientId, handle: Option<Handle>, now: int,
                       report: InterestReport): (r: (State, bool))
    requires ValidState(s)
    ensures ValidState(r.0)
    ensures r.1 <==> handle.Some?
    ensures r.0.handle == handle && r.0.myid == client
    ensures !r.1 ==> r.0 == s.(handle := None, myid := client)
    ensures r.1 ==> r.0.refs == s.refs + 1
    ensures r.1 ==> r.0 == Reconciled(s.(handle := handle, myid := client, refs := s.refs + 1, timer := None), now, report)
  {
    var chosen := s.(handle := handle, myid := client);
    if handle.None? then (chosen, false)
    else (Reconciled(chosen.(refs := s.refs + 1, timer := None), now, report), true)
  }

  /** The Unref in realClose balances the Ref taken by a successful realInit. */
  lemma InitThenCloseBalances(s: State, client: ClientId, h: Handle, now: int,
                              report: InterestReport, code: int)
    requires ValidState(s) && !s.closed
    ensures var started := Initialized(s, client, Some(h), now, report).0;
      Closed(started, code).refs == s.refs &&
      Closed(started, code).handle.None? &&
      Closed(started, code).emitted == s.emitted + [CloseNotification(code)]
  {
  }

  // ---------------------------------------------------------------------
  // main_watcher

  /** What the main watcher does for an event type and session state. */
  datatype WatcherReaction =
    | NotifyConnected
    | Notify(name: string)
    | ForceClose(code: int)
    | Unhandled
    | UnknownType

  /** The notification name for a node event type, if it is one. */
  function NodeEventName(eventType: int): (name: Option<string>)
  {
    if eventType == CreatedEvent then Some("created")
    else if eventType == DeletedEvent then Some("deleted")
    else if eventType == ChangedEvent then Some("changed")
    else if eventType == ChildEvent then Some("child")
    else if eventType == NotWatchingEvent then Some("notwatching")
    else None
  }

  /** The node event type a notification name stands for. */
  function EventTypeOfName(name: string): (eventType: Option<int>)
  {
    if name == "created" then Some(CreatedEvent)
    else if name == "deleted" then Some(DeletedEvent)
    else if name == "changed" then Some(ChangedEvent)
    else if name == "child" then Some(ChildEvent)
    else if name == "notwatching" then Some(NotWatchingEvent)
    else None
  }

  /**
   * main_watcher's dispatch: a session event either reports "connect" (and
   * refreshes the id), reports "connecting", or on auth-failed/expired forces
   * a close with the state as code; every other state is ignored. Each node
   * event type has its own notification; an unknown type is only logged.
   */
  function MainWatcherReaction(eventType: int, state: int): (r: WatcherReaction)
    ensures r.ForceClose? <==>
      eventType == SessionEvent && (state == AuthFailedState || state == ExpiredSessionState)
    ensures r.ForceClose? ==> r.code == state
    ensures r.NotifyConnected? <==> eventType == SessionEvent && state == ConnectedState
    ensures r.Unhandled? <==>
      eventType == SessionEvent &&
      state !in {ConnectedState, ConnectingState, AuthFailedState, ExpiredSessionState}
    ensures r.Notify? && eventType == SessionEvent ==> state == ConnectingState && r.name == "connecting"
    ensures eventType == SessionEvent && state == ConnectingState ==> r == Notify("connecting")
    ensures eventType != SessionEvent ==>
      (r.Notify? <==> NodeEventName(eventType).Some?) && (!r.Notify? ==> r.UnknownType?)
    ensures r.Notify? && eventType != SessionEvent ==> EventTypeOfName(r.name) == Some(eventType)
  {
    if eventType == SessionEvent then
      if state == ConnectedState then NotifyConnected
      else if state == ConnectingState then Notify("connecting")
      else if state == AuthFailedState then ForceClose(AuthFailedState)
      else if state == ExpiredSessionState then ForceClose(ExpiredSessionState)
      else Unhandled
    else
      match NodeEventName(eventType)
      case Some(name) => Notify(name)
      case None => UnknownType
  }

  /**
   * main_watcher on the state: `reported` is what `zoo_client_id` gives for
   * the handle, `path` the path the library passed (None for NULL).
   */
  function Watched(s: State, eventType: int, state: int, path: Option<string>,
                   reported: ClientId): (t: State)
    requires ValidState(s)
    ensures ValidState(t)
    ensures MainWatcherReaction(eventType, state).ForceClose? ==> t == Closed(s, state)
    ensures MainWatcherReaction(eventType, state).NotifyConnected? ==>
      t == s.(myid := reported, emitted := s.emitted + [PathNotification("connect", path)])
    ensures MainWatcherReaction(eventType, state).Notify? ==>
      t == s.(emitted := s.emitted + [PathNotification(MainWatcherReaction(eventType, state).name, path)])
    ensures MainWatcherReaction(eventType, state).Unhandled? || MainWatcherReaction(eventType, state).UnknownType? ==>
      t == s
  {
    match MainWatcherReaction(eventType, state)
    case NotifyConnected =>
      s.(myid := reported, emitted := s.emitted + [PathNotification("connect", path)])
    case Notify(name) => s.(emitted := s.emitted + [PathNotification(name, path)])
    case ForceClose(code) => Closed(s, code)
    case Unhandled => s
    case UnknownType => s
  }

  /**
   * An auth-failed or expired session event closes the session with that
   * state as the code, and a later Close() (code 0) changes nothing.
   */
  lemma UnrecoverableStateCloses(s: State, state: int, path: Option<string>, reported: ClientId)
    requires ValidState(s)
    requires state == AuthFailedState || state == ExpiredSessionState
    ensures Watched(s, SessionEvent, state, path, reported) == Closed(s, state)
    ensures Closed(Watched(s, SessionEvent, state, path, reported), 0) ==
            Watched(s, SessionEvent, state, path, reported)
  {
  }

  /** A node event adds one notification naming the event and carrying its path. */
  lemma NodeEventNotifies(s: State, eventType: int, path: Option<string>, reported: ClientId)
    requires ValidState(s) && NodeEventName(eventType).Some?
    ensures Watched(s, eventType, 0, path, reported) ==
      s.(emitted := s.emitted + [PathNotification(NodeEventName(eventType).value, path)])
  {
  }

  // ---------------------------------------------------------------------
  // Property getters

  /** The values the library reports for an open handle. */
  datatype LibraryView = LibraryView(state: int, client: ClientId, recvTimeout: int, unrecoverable: int)

  /** The id and password the getters show: the library's while a handle is open, else `myid`. */
  function ShownClient(s: State, lib: LibraryView): (c: ClientId)
    ensures s.handle.Some? ==> c == lib.client
    ensures s.handle.None? ==> c == s.myid
  {
    if s.handle.Some? then lib.client else s.myid
  }

  // ---------------------------------------------------------------------
  // The object

  /** The outcome of `Init`: a thrown error, a failed `zookeeper_init`, or success. */
  datatype InitOutcome = Thrown(error: InitError) | InitFailed | InitSucceeded

  class ZooKeeper {
    var isClosed: bool
    var zhandle: Option<Handle>
    var myid: ClientId
    var lastActivity: int
    var fd: int
    var interest: Flags
    var tv: TimeVal
    var zkIo: Option<PollReg>
    var zkTimer: Option<TimerReg>
    var refs: nat
    var emitted: seq<Notification>

    /** The event masks handed to `zookeeper_process`, oldest first. */
    var processed: seq<Flags>
    /** The `zookeeper_init` requests made, oldest first. */
    var initRequests: seq<InitPlan>
    /** The process-wide library settings `Init` applies. */
    var debugLevel: int
    var deterministicOrder: bool

    function Current(): State
      reads this
    {
      State(isClosed, zhandle, myid, lastActivity, fd, interest, tv, zkIo, zkTimer, refs, emitted)
    }

    ghost predicate Valid()
      reads this
    {
      ValidState(Current())
    }

    constructor ()
      ensures Valid() && Current() == Unopened
      ensures processed == [] && initRequests == []
    {
      isClosed := false;
      zhandle := None;
      myid := ZeroClient;
      lastActivity, fd, interest, tv := 0, NoSocket, 0, TimeVal(0, 0);
      zkIo, zkTimer := None, None;
      refs := 0;
      emitted := [];
      processed, initRequests := [], [];
      debugLevel, deterministicOrder := 0, false;
    }

    /** yield: `now` is `uv_now`, `report` what `zookeeper_interest` returned. */
    method Yield(now: int, report: InterestReport)
      modifies this`lastActivity, this`fd, this`interest, this`tv, this`zkIo, this`zkTimer
      ensures Current() == Reconciled(old(Current()), now, report)
    {
      if isClosed {
        return;
      }
      lastActivity := now;
      fd, interest, tv := report.fd, report.interest, report.tv;
      if zkIo.Some? {
        zkIo := None;
      }
      if report.rc != 0 {
        return;
      }
      if fd == NoSocket {
        return;
      }
      var delay := DelayMs(tv);
      var events := PollEventsOf(interest);
      zkIo := Some(PollReg(fd, events));
      zkTimer := Some(TimerReg(delay, delay));
    }

    /**
     * zk_io_cb: hand the mapped events to `zookeeper_process` (whose status
     * is only logged) and reconcile. Runs only while the poll is active.
     */
    method OnIoReady(status: int, revents: Flags, now: int, report: InterestReport)
      requires zkIo.Some?
      modifies this`lastActivity, this`fd, this`interest, this`tv, this`zkIo, this`zkTimer, this`processed
      ensures processed == old(processed) + [LibraryEventsOf(status, revents)]
      ensures Current() == Reconciled(old(Current()), now, report)
    {
      var events := LibraryEventsOf(status, revents);
      processed := processed + [events];
      Yield(now, report);
    }

    /** zk_timer_cb: runs only while the timer is active. */
    method OnTimer(now: int, report: InterestReport)
      requires zkTimer.Some?
      modifies this`lastActivity, this`fd, this`interest, this`tv, this`zkIo, this`zkTimer
      ensures Current() == TimerFired(old(Current()), now, report)
    {
      var timeout := lastActivity + DelayMs(tv);
      if timeout < now {
        Yield(now, report);
      } else {
        var delay := timeout - now + 1;
        zkTimer := Some(TimerReg(delay, delay));
      }
    }

    /** realInit: `handle` is what `zookeeper_init` returned (None for NULL). */
    method RealInit(plan: InitPlan, handle: Option<Handle>, now: int, report: InterestReport)
      returns (ok: bool)
      requires Valid()
      modifies this
      ensures Valid()
      ensures (Current(), ok) == Initialized(old(Current()), plan.client, handle, now, report)
      ensures initRequests == old(initRequests) + [plan]
      ensures processed == old(processed)
      ensures debugLevel == old(debugLevel) && deterministicOrder == old(deterministicOrder)
    {
      ghost var before := Current();
      myid := plan.client;
      initRequests := initRequests + [plan];
      zhandle := handle;
      if zhandle.None? {
        return false;
      }
      refs := refs + 1;
      zkTimer := None;
      ghost var prepared := Current();
      assert prepared == before.(handle := handle, myid := plan.client, refs := before.refs + 1, timer := None);
      Yield(now, report);
      ok := true;
    }

    /**
     * Init: apply the debug level and host order, validate the options,
     * then realInit. A thrown error reaches neither the library's
     * `zookeeper_init` nor the object's state.
     */
    method Init(o: InitOptions, handle: Option<Handle>, now: int, report: InterestReport)
      returns (outcome: InitOutcome)
      requires Valid()
      modifies this
      ensures Valid()
      ensures debugLevel == o.debugLevel && deterministicOrder == o.hostOrderDeterministic
      ensures processed == old(processed)
      ensures ValidateInit(o).Failure? ==>
        outcome == Thrown(ValidateInit(o).error) &&
        Current() == old(Current()) && initRequests == old(initRequests)
      ensures ValidateInit(o).Success? ==>
        initRequests == old(initRequests) + [ValidateInit(o).value] &&
        (outcome == InitSucceeded <==> handle.Some?) && (outcome.InitFailed? <==> handle.None?) &&
        Current() == Initialized(old(Current()), ValidateInit(o).value.client, handle, now, report).0
    {
      debugLevel := o.debugLevel;
      deterministicOrder := o.hostOrderDeterministic;
      var plan := ValidateInit(o);
      if plan.Failure? {
        return Thrown(plan.error);
      }
      var ok := RealInit(plan.value, handle, now, report);
      outcome := if ok then InitSucceeded else InitFailed;
    }

    /** realClose */
    method RealClose(code: int)
      requires Valid()
      modifies this`isClosed, this`zkTimer, this`zhandle, this`zkIo, this`refs, this`emitted
      ensures Valid()
      ensures Current() == Closed(old(Current()), code)
    {
      if isClosed {
        return;
      }
      isClosed := true;
      if zkTimer.Some? {
        zkTimer := None;
      }
      if zhandle.Some? {
        zhandle := None;
        if zkIo.Some? {
          zkIo := None;
        }
        refs := refs - 1;
        emitted := emitted + [CloseNotification(code)];
      }
    }

    /** Close: realClose with code 0. */
    method Close()
      requires Valid()
      modifies this`isClosed, this`zkTimer, this`zhandle, this`zkIo, this`refs, this`emitted
      ensures Valid()
      ensures Current() == Closed(old(Current()), 0)
    {
      RealClose(0);
    }

    /** main_watcher: `reported` is `zoo_client_id` of the handle. */
    method MainWatcher(eventType: int, state: int, path: Option<string>, reported: ClientId)
      requires Valid()
      modifies this`isClosed, this`zkTimer, this`zhandle, this`zkIo, this`refs, this`emitted, this`myid
      ensures Valid()
      ensures Current() == Watched(old(Current()), eventType, state, path, reported)
    {
      if eventType == SessionEvent {
        if state == ConnectedState {
          myid := reported;
          emitted := emitted + [PathNotification("connect", path)];
        } else if state == ConnectingState {
          emitted := emitted + [PathNotification("connecting", path)];
        } else if state == AuthFailedState {
          RealClose(AuthFailedState);
        } else if state == ExpiredSessionState {
          RealClose(ExpiredSessionState);
        }
      } else if eventType == CreatedEvent {
        emitted := emitted + [PathNotification("created", path)];
      } else if eventType == DeletedEvent {
        emitted := emitted + [PathNotification("deleted", path)];
      } else if eventType == ChangedEvent {
        emitted := emitted + [PathNotification("changed", path)];
      } else if eventType == ChildEvent {
        emitted := emitted + [PathNotification("child", path)];
      } else if eventType == NotWatchingEvent {
        emitted := emitted + [PathNotification("notwatching", path)];
      }
    }

    /** The `state` property: the library's state while a handle is open, else 0. */
    function StateProperty(lib: LibraryView): (state: int)
      reads this
      ensures zhandle.Some? ==> state == lib.state
      ensures zhandle.None? ==> state == 0
    {
      if zhandle.Some? then lib.state else 0
    }

    /**
     * The `client_id` property: the shown id as `%llx` text, which reads back
     * as that id and is the text a stat object shows for a node that id owns.
     */
    function ClientIdProperty(lib: LibraryView): (text: string)
      reads this
      ensures StringToId(text, 0) == ShownClient(Current(), lib).id
      ensures text == IdAsString(ShownClient(Current(), lib).id)
    {
      IdRoundTrip(ShownClient(Current(), lib).id, 0);
      IdAsString(ShownClient(Current(), lib).id)
    }

    /** The `client_password` property: 32 hex digits that decode to the shown password. */
    method ClientPasswordProperty(lib: LibraryView) returns (text: string)
      ensures |text| == 2 * PasswordByteCount
      ensures forall i :: 0 <= i < |text| ==> IsUpperHexDigit(text[i])
      ensures PasswordOfHex(text) == ShownClient(Current(), lib).passwd
    {
      var passwd := if zhandle.Some? then lib.client.passwd else myid.passwd;
      text := PasswordToHexString(passwd);
    }

    /** The `timeout` property: the negotiated timeout while a handle is open, else -1. */
    function SessionTimeoutProperty(lib: LibraryView): (ms: int)
      reads this
      ensures zhandle.Some? ==> ms == lib.recvTimeout
      ensures zhandle.None? ==> ms == -1
    {
      if zhandle.Some? then lib.recvTimeout else -1
    }

    /** The `is_unrecoverable` property: the library's flag while a handle is open, else 0. */
    function IsUnrecoverableProperty(lib: LibraryView): (flag: int)
      reads this
      ensures zhandle.Some? ==> flag == lib.unrecoverable
      ensures zhandle.None? ==> flag == 0
    {
      if zhandle.Some? then lib.unrecoverable else 0
    }
  }
}
