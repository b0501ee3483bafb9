/**
 * The pure rules of the I/O bridge in src/node-zk.cpp (`yield`,
 * `zk_io_cb`, `zk_timer_cb`): how the library's interest flags become
 * poll flags and back, how a `timeval` becomes a delay, and what the timer
 * callback decides.
 */
module Scheduler {

  type Flags = bv32

  /** zookeeper.h: `ZOOKEEPER_WRITE` is `1 << 1`, `ZOOKEEPER_READ` is `1 << 0`. */
  const ZookeeperRead: Flags := 1
  const ZookeeperWrite: Flags := 2

  /** libuv's `uv_poll_event`: `UV_READABLE` is 1, `UV_WRITABLE` is 2. */
  const UvReadable: Flags := 1
  const UvWritable: Flags := 2

  /** `struct timeval`; the microseconds are taken to be non-negative. */
  datatype TimeVal = TimeVal(sec: int, usec: nat)

  /** What `zookeeper_interest` returns and leaves in `fd`, `interest` and `tv`. */
  datatype InterestReport = InterestReport(rc: int, fd: int, interest: Flags, tv: TimeVal)

  /** The sentinel `fd` for "no socket yet". */
  const NoSocket: int := -1

  /** `tv_sec * 1000 + tv_usec / 1000`: a `timeval` in whole milliseconds. */
  function DelayMs(tv: TimeVal): (ms: int)
    ensures 1000 * ms <= 1000 * 1000 * tv.sec + tv.usec < 1000 * (ms + 1)
  {
    tv.sec * 1000 + tv.usec / 1000
  }

  /** The poll flags `yield` asks for: READ gives READABLE, WRITE gives WRITABLE, nothing else. */
  function PollEventsOf(interest: Flags): (events: Flags)
    ensures (events & UvReadable != 0) <==> (interest & ZookeeperRead != 0)
    ensures (events & UvWritable != 0) <==> (interest & ZookeeperWrite != 0)
    ensures events & !(UvReadable | UvWritable) == 0
  {
    (if interest & ZookeeperRead != 0 then UvReadable else 0)
    | (if interest & ZookeeperWrite != 0 then UvWritable else 0)
  }

  /**
   * The events `zk_io_cb` hands to `zookeeper_process`: on a poll error both
   * READ and WRITE (so the library notices the failure), otherwise READABLE
   * gives READ and WRITABLE gives WRITE.
   */
  function LibraryEventsOf(status: int, revents: Flags): (events: Flags)
    ensures status < 0 ==> events == ZookeeperRead | ZookeeperWrite
    ensures status >= 0 ==>
      ((events & ZookeeperRead != 0) <==> (revents & UvReadable != 0)) &&
      ((events & ZookeeperWrite != 0) <==> (revents & UvWritable != 0))
    ensures events & !(ZookeeperRead | ZookeeperWrite) == 0
  {
    if status < 0 then ZookeeperRead | ZookeeperWrite
    else
      (if revents & UvReadable != 0 then ZookeeperRead else 0)
      | (if revents & UvWritable != 0 then ZookeeperWrite else 0)
  }

  /**
   * Readiness on exactly the flags `yield` asked for hands the library back
   * its own READ/WRITE interest.
   */
  lemma InterestRoundTrip(interest: Flags)
    ensures LibraryEventsOf(0, PollEventsOf(interest)) == interest & (ZookeeperRead | ZookeeperWrite)
  {
  }

  /** What `zk_timer_cb` does: poll the library again, or rearm the timer. */
  datatype TimerAction = Reconcile | Rearm(delay: int)

  /**
   * The timer fires at `now`. The session's deadline is the last activity
   * plus the library's last timeout. Strictly past the deadline the
   * callback reconciles; otherwise it rearms to fire 1 ms after the
   * deadline, which is at least 1 ms away.
   */
  function TimerDecision(lastActivity: int, tv: TimeVal, now: int): (a: TimerAction)
    ensures a.Reconcile? <==> lastActivity + DelayMs(tv) < now
    ensures a.Rearm? ==> a.delay >= 1 && now + a.delay == lastActivity + DelayMs(tv) + 1
  {
    var timeout := lastActivity + DelayMs(tv);
    if timeout < now then Reconcile else Rearm(timeout - now + 1)
  }
}
