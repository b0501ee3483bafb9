# node-zookeeper binding core, modelled in Dafny

This project models the logic of `src/node-zk.cpp`, the C++ part of the
Node.js ZooKeeper binding, and proves properties of that model. The file
sits between JavaScript and the ZooKeeper C client. It does five things:

* It converts a session identity to text and back: the 16-byte password
  as 32 upper-case hex digits (`ucharToHex`, `hexToUchar`,
  `PasswordToHexString`, `HexStringToPassword`), and the 64-bit session
  id as `%llx` text (`idAsString`, `StringToId`).
* It validates the options object given to `Init`.
* It drives the C client from libuv (`yield`, `zk_io_cb`, `zk_timer_cb`).
  The socket poll and the timer are kept in step with what
  `zookeeper_interest` reports.
* It runs the session lifecycle (`realInit`, `main_watcher`, `realClose`,
  `Close`) and the property getters.
* It dispatches asynchronous operations. A JavaScript function is wrapped
  in a NanCallback, some operations also get a `completion_data` block,
  and a static trampoline is called back with the reply. The binding
  marshals stats, ACL lists and child lists into JavaScript values.

Modules:

* `Wrappers`: `Option` and `Result`.
* `Identity`: the password and session-id codecs.
* `Config`: `Init`'s validation.
* `Scheduler`: the pure flag, delay and timer rules.
* `Session`: the session state and its step functions, and the
  `ZooKeeper` class. Its methods update the object's fields as the C++
  does. Each method ensures that the new state equals a step function
  applied to the old state.
* `Marshal`: the stat and ACL conversions, and the `ToUint32`-into-`int`
  reading of numeric arguments.
* `Dispatch`: the callback tables and the `Registry` class, which holds
  the submissions and the trampolines.

Calls into the C client and into libuv are not modelled. What they return
becomes a parameter of the operation that calls them:

* what `zookeeper_interest` reports;
* the handle `zookeeper_init` returns;
* `zoo_state`, `zoo_client_id`, `zoo_recv_timeout` and `is_unrecoverable`
  (the `LibraryView` of the getters);
* the return code of each `zoo_a*` call;
* `uv_now`;
* the text of `zerror`, which is an uninterpreted function value.

JavaScript `emit` calls become a log of notifications. Callback
invocations become a log of invocations. Library calls become a log of
requests.

Constants that come from `zookeeper.h` and libuv rather than from this
file:

* session states: expired -112, auth-failed -113, connecting 1,
  associating 2, connected 3;
* event types: created 1, deleted 2, changed 3, child 4, session -1,
  not-watching -2;
* flags: `ZOOKEEPER_READ` 1, `ZOOKEEPER_WRITE` 2, `UV_READABLE` 1,
  `UV_WRITABLE` 2;
* `completion_data` tags: `ZOO_DELETE_OP` 2, `ZOO_SETACL_OP` 7,
  `ZOO_SETAUTH_OP` 100;
* `ZOO_PERM_ALL` 31, and `ZOO_OPEN_ACL_UNSAFE` = world:anyone with all
  permissions.

Where the code does something other than what one would read into its
comments or its design, the model follows the code:

* The timer callback reconciles only when the deadline is strictly in
  the past (`timeout < now`).
* A session event in the associating state, or in any state other than
  connected, connecting, auth-failed and expired, emits nothing.
* `Init` checks only the length of the password. Characters other than
  `0-9A-F` are decoded arithmetically. Lower-case digits are misread
  (`Config.LowerCaseDigitsMisread`).
* `void_completion` frees the SETACL buffer before it calls the callback.
* Watcher callbacks are never deleted.
* A submission that the library rejects still leaves its NanCallback,
  and its `completion_data` and ACL buffer, in place. Nothing ever
  deletes them.
* No handback is ever attached to a watcher callback, because the code
  that would do so is commented out. So watchers always receive an
  undefined fourth argument.

## Model

| member | source | states |
|---|---|---|
| Identity.FourBitsToHex | src/node-zk.cpp:18-22 | a nibble becomes an upper-case hex digit, a decimal digit exactly when the nibble is at most 9 |
| Identity.HexToFourBits | src/node-zk.cpp:24-28 | '0'..'9' decode to 0..9 and 'A'..'F' to 10..15; in general the low byte of the character as a signed char, minus '0', minus 7 more above '9', wrapped to a byte |
| Identity.HexToFourBitsOutOfRange | src/node-zk.cpp:24-28 | no digit check is made: 'a'..'f' decode to 42..47 and a character below '0' wraps round to 208..255 |
| Identity.NibbleRoundTrip | src/node-zk.cpp:18-28 | `hexToFourBits(fourBitsToHex(c)) == c` for every c in 0..15 |
| Identity.UpperDigitDecodes | src/node-zk.cpp:24-28 | every digit in '0'..'9','A'..'F' decodes to a nibble that encodes back to that digit |
| Identity.OnlyUpperDigitsDecode | src/node-zk.cpp:18-28 | conversely, only '0'..'9','A'..'F' decode to a nibble that encodes back to the same character |
| Identity.UcharToHex | src/node-zk.cpp:30-35 | two upper-case digits, high nibble first, that decode to the byte's high and low nibble |
| Identity.HexToUchar | src/node-zk.cpp:37-41 | the two nibbles combined high first: the low nibble of the result is the second digit's, the high nibble the first digit's low four bits (or'ed with the second digit's high bits), and two digits below 16 give `16 * hi + lo` |
| Identity.ByteRoundTrip | src/node-zk.cpp:30-41 | `hexToUchar(ucharToHex(c)) == c` for every byte |
| Identity.PasswordHex | src/node-zk.cpp:420-429 | the password text has two upper-case hex digits per byte |
| Identity.PasswordOfHex | src/node-zk.cpp:431-438 | an even-length text decodes to one byte per pair of characters |
| Identity.PasswordRoundTrip | src/node-zk.cpp:420-438 | decoding the password text gives back the bytes |
| Identity.PasswordToHexString | src/node-zk.cpp:420-429 | the buffer filled byte by byte is exactly 32 characters, equals the password text, and decodes back to the password |
| Identity.HexStringToPassword | src/node-zk.cpp:431-438 | the 16 bytes filled from a 32-character text are the decoding of that text, byte k from characters 2k and 2k+1 |
| Identity.LowerHex | src/node-zk.cpp:408-413 | `%llx` digits: non-empty, lower-case hex, no leading zero except for 0 itself |
| Identity.HexValueOfLowerHex | src/node-zk.cpp:408-413 | the `%llx` digits of a number read back as that number |
| Identity.IdAsString | src/node-zk.cpp:408-413 | the id is printed as the hex digits of its unsigned 64-bit reading |
| Identity.StringToId | src/node-zk.cpp:415-418 | the scanned id is a 64-bit value; a text with no hex digit leaves the id unchanged |
| Identity.IdRoundTrip | src/node-zk.cpp:408-418 | scanning the printed id gives back the id, bit for bit, negative ids included |
| Identity.IdTextInjective | src/node-zk.cpp:408-413 | two ids print as the same text exactly when they are the same id |
| Config.SessionTimeout | src/node-zk.cpp:344-347 | a timeout of 0 becomes 20000; every other value passes through |
| Config.ValidateInit | src/node-zk.cpp:349-363 | throws exactly when only one of id and password is defined, or when a defined password is not 32 characters; otherwise yields the host list, the defaulted timeout, and either the zeroed client id or the decoded password with the scanned id |
| Config.DecodeClient | src/node-zk.cpp:361-362 | the password is decoded and the id scanned into a zeroed client id; `DecodeClientInverse` shows it undoes the printing of a client |
| Config.DecodeClientInverse | src/node-zk.cpp:361-362 | decoding the printed id and password of any client gives that client back |
| Config.ResumeSession | src/node-zk.cpp:349-363 | passing back the printed id and password of a session validates to exactly that session |
| Config.LowerCaseDigitsMisread | src/node-zk.cpp:24-28 | lower-case text gets past the length check and decodes to another byte ("0a" gives 0x2A, "0A" gives 0x0A) |
| Scheduler.DelayMs | src/node-zk.cpp:257 | the delay is the `timeval` in whole milliseconds, rounded down |
| Scheduler.PollEventsOf | src/node-zk.cpp:259 | READABLE exactly when READ is set, WRITABLE exactly when WRITE is set, no other bits |
| Scheduler.LibraryEventsOf | src/node-zk.cpp:276-282 | a negative status gives READ and WRITE; otherwise READ exactly on READABLE and WRITE exactly on WRITABLE, no other bits |
| Scheduler.InterestRoundTrip | src/node-zk.cpp:259-282 | readiness on exactly the polled flags hands the library back its READ/WRITE interest |
| Scheduler.TimerDecision | src/node-zk.cpp:291-312 | reconcile exactly when last activity plus timeout is before now; otherwise rearm with a delay of at least 1 that fires 1 ms after the deadline |
| Session.Reconciled | src/node-zk.cpp:235-270 | closed: nothing changes; otherwise activity time and report recorded, poll active exactly when the query succeeded and a socket exists, timer untouched when nothing is armed; the lifecycle fields never change |
| Session.ReconcileMirrorsInterest | src/node-zk.cpp:257-269 | when armed, the poll watches the reported socket for the mapped flags and the timer runs with the reported delay, repeating |
| Session.ReconcileIdempotent | src/node-zk.cpp:235-270 | reconciling twice against the same report is reconciling once |
| Session.TimerFired | src/node-zk.cpp:291-312 | past the deadline the timer callback reconciles; otherwise only the timer changes, rearmed with the decided delay |
| Session.TimerKeepsPositiveDelay | src/node-zk.cpp:296-308 | when a timer that was armed had a delay of at least 1 and the library's new timeout is at least 1 ms, a timer callback leaves the timer, if armed, with a delay of at least 1 |
| Session.Closed | src/node-zk.cpp:936-961 | closed afterwards; closing a closed object changes nothing; the first close stops the timer, and with a handle also drops it, stops the poll, unrefs once and emits "close" with the code; without a handle the handle stays absent; the id, activity time, socket, interest and timeout are never touched |
| Session.CloseIdempotent | src/node-zk.cpp:936-941 | closing twice is closing once, whatever the second code |
| Session.CloseEmitsAtMostOnce | src/node-zk.cpp:947-960 | a close adds exactly one "close" notification when the object was open with a handle, and none otherwise |
| Session.ClosedIsQuiet | src/node-zk.cpp:235-238 | after a close, reconciling changes nothing |
| Session.Initialized | src/node-zk.cpp:314-328 | the client id is copied and the handle stored; the init succeeds exactly when a handle was returned, and then it refs once, resets the timer and reconciles |
| Session.InitThenCloseBalances | src/node-zk.cpp:314-328 | the unref of the close balances the ref of a successful init, and exactly one "close" is emitted |
| Session.MainWatcherReaction | src/node-zk.cpp:380-405 | forces a close exactly on session auth-failed or expired, with the state as code; "connect" exactly on session connected; "connecting" exactly on session connecting, in both directions; each node event type has its own name, which maps back to the type; unknown types do nothing |
| Session.Watched | src/node-zk.cpp:375-406 | a forced close is `Closed` with the state as code; "connect" also takes the library's client id; every other notification only appends its name and path; ignored events change nothing; the reference count stays consistent |
| Session.UnrecoverableStateCloses | src/node-zk.cpp:386-391 | an auth-failed or expired session event is a close with that state as code, after which Close() changes nothing |
| Session.NodeEventNotifies | src/node-zk.cpp:393-402 | a node event appends one notification with its name and path and changes nothing else |
| Session.ShownClient | src/node-zk.cpp:908-920 | the getters show the library's client id while a handle is open, and the stored one otherwise |
| Session.ZooKeeper.constructor | src/node-zk.cpp:977-982 | no handle, zero client id, no socket, not closed, nothing armed |
| Session.ZooKeeper.Yield | src/node-zk.cpp:235-270 | the object's new state is `Reconciled` of its old state |
| Session.ZooKeeper.OnIoReady | src/node-zk.cpp:272-289 | the mapped events go to the library, and then the object always reconciles, whatever the library returned |
| Session.ZooKeeper.OnTimer | src/node-zk.cpp:291-312 | the new state is `TimerFired` of the old state |
| Session.ZooKeeper.RealInit | src/node-zk.cpp:314-328 | the init request is logged and the new state is `Initialized` of the old state |
| Session.ZooKeeper.Init | src/node-zk.cpp:330-373 | the debug level and host order are always applied; a validation error is thrown with no library call and no change to the object; otherwise the plan goes to `realInit`, which fails exactly when no handle is returned |
| Session.ZooKeeper.RealClose | src/node-zk.cpp:936-961 | the new state is `Closed` of the old state |
| Session.ZooKeeper.Close | src/node-zk.cpp:963-969 | a close with code 0 |
| Session.ZooKeeper.MainWatcher | src/node-zk.cpp:375-406 | the new state is `Watched` of the old state |
| Session.ZooKeeper.StateProperty | src/node-zk.cpp:898-906 | the library's state while a handle is open, else 0 |
| Session.ZooKeeper.ClientIdProperty | src/node-zk.cpp:908-913 | the `%llx` text of the shown session id, the same text a stat object shows as the owner of a node that session owns, and it scans back to that id |
| Session.ZooKeeper.ClientPasswordProperty | src/node-zk.cpp:915-920 | 32 upper-case hex digits that decode to the shown password |
| Session.ZooKeeper.SessionTimeoutProperty | src/node-zk.cpp:922-927 | the negotiated timeout while a handle is open, else -1 |
| Session.ZooKeeper.IsUnrecoverableProperty | src/node-zk.cpp:929-934 | the library's flag while a handle is open, else 0 |
| Marshal.ToUint32 | src/node-zk.cpp:611 | a 32-bit unsigned value congruent to the number modulo 2^32 |
| Marshal.AsInt32 | src/node-zk.cpp:870 | a stored `uint32_t` reads as the 32-bit signed value that differs from it by 0 or 2^32 |
| Marshal.LibraryInt | src/node-zk.cpp:611 | a version, flag or perms value reaches the library as a 32-bit int congruent to it, unchanged when it already fits (so -1 passes through) |
| Marshal.LibraryIntIdempotent | src/node-zk.cpp:611 | converting an already converted value changes nothing |
| Marshal.CreateStatObject | src/node-zk.cpp:621-637 | the counters are copied; the owner text scans back to the owner; `createdInThisSession` exactly when the owner is this session's id |
| Marshal.OwnerTextNamesOwner | src/node-zk.cpp:634 | the owner text equals the printed text of a session id exactly when that session owns the node, so comparing `ephemeralOwner` with `client_id` compares ids |
| Marshal.PersistentNodeOwner | src/node-zk.cpp:634-635 | owner 0 shows as "0", and counts as this session's only while the session id is 0 |
| Marshal.CreateAclObject | src/node-zk.cpp:839-856 | one object per entry, in order, with the same perms, scheme and id |
| Marshal.AclVector | src/node-zk.cpp:858-884 | one entry per object, in order, perms read into a 32-bit int |
| Marshal.CreateAclVector | src/node-zk.cpp:858-884 | the buffer filled index by index is `AclVector` of the array |
| Marshal.AclRoundTrip | src/node-zk.cpp:839-884 | writing back an ACL list as it was read gives the same vector |
| Marshal.AclObjectRoundTrip | src/node-zk.cpp:839-884 | reading back an ACL vector written from objects gives the same objects, when the perms fit in 32 bits |
| Dispatch.Status | src/node-zk.cpp:483-495 | every completion starts with the status and its text |
| Dispatch.StatValue | src/node-zk.cpp:668 | a stat object exactly when a stat was passed, else null |
| Dispatch.StringsValue | src/node-zk.cpp:728-744 | the child list has the library's names, same length and order, or is null |
| Dispatch.StringCompletionArgs | src/node-zk.cpp:565-575 | status, text, and the value, with a NULL value shown as "null" |
| Dispatch.StatCompletionArgs | src/node-zk.cpp:639-646 | status, text, and a stat exactly when the status is ZOK, else null |
| Dispatch.DataCompletionArgs | src/node-zk.cpp:663-677 | status, text, stat or null, and a buffer of the value's bytes exactly when there is a value, else null |
| Dispatch.StringsCompletionArgs | src/node-zk.cpp:728-744 | status, text and the child list |
| Dispatch.StringsStatCompletionArgs | src/node-zk.cpp:763-781 | status, text, the child list and the stat |
| Dispatch.AclCompletionArgs | src/node-zk.cpp:886-896 | status, text, the marshaled ACL list exactly when there is one, and the stat |
| Dispatch.WatcherArgs | src/node-zk.cpp:525-544 | type, state, path and an undefined handback |
| Dispatch.DirectRequest | src/node-zk.cpp:577-806 | each direct operation reaches the library with its callback as data, a completion matching its reply, the session watcher exactly when asked, ZOO_OPEN_ACL_UNSAFE on create, and versions and flags read as 32-bit ints |
| Dispatch.WatchedRequest | src/node-zk.cpp:657-798 | each watched operation names its own watcher and the completion of its reply |
| Dispatch.WatchedMatchesDirect | src/node-zk.cpp:648-661 | a watched operation asks the library for what its unwatched twin asks for |
| Dispatch.ContextTag | src/node-zk.cpp:608-837 | delete, add-auth and set-ACL each store their operation tag, and only set-ACL stores SETACL |
| Dispatch.SubmittedDirect | src/node-zk.cpp:512-523 | one new completion callback at a fresh address, one request naming it, the tables kept consistent, the next address one further |
| Dispatch.SubmittedWatched | src/node-zk.cpp:546-557 | a fresh completion callback and a fresh watcher callback, one request naming both, the next address two further |
| Dispatch.Registered | src/node-zk.cpp:512-519 | a new callback at a fresh address, the tables kept consistent |
| Dispatch.WithContext | src/node-zk.cpp:613-616 | a new `completion_data` at a fresh address, naming its callback and owned buffer |
| Dispatch.WithBuffer | src/node-zk.cpp:858-863 | a new ACL buffer at a fresh address that no context owns yet |
| Dispatch.SubmittedWithContext | src/node-zk.cpp:608-837 | a fresh callback, for set-ACL a fresh buffer holding the converted ACL, and a fresh context naming both with the operation's tag, the next address just past the context |
| Dispatch.ContextRequest | src/node-zk.cpp:608-837 | context operations go to void_completion with the context as data, with versions read as 32-bit ints and the converted ACL |
| Dispatch.Completed | src/node-zk.cpp:497-503 | the callback is called once with the arguments and deleted; every other callback stays as it was |
| Dispatch.CompletedKeepsValid | src/node-zk.cpp:497-503 | delivering a directly handed-out completion keeps the tables consistent |
| Dispatch.VoidCompleted | src/node-zk.cpp:592-606 | the buffer is freed exactly for SETACL, the callback is called with the status and deleted, the context is freed; requests and the next address are unchanged |
| Dispatch.WatchFired | src/node-zk.cpp:505-544 | nothing happens when the library reports the session expired; otherwise the watcher is called; it is never deleted; requests and the next address are unchanged, and the tables stay consistent |
| Dispatch.SetAclReleasesEverything | src/node-zk.cpp:592-606 | a set-ACL whose completion arrives leaves no callback, context or buffer behind, and makes one call |
| Dispatch.WatcherOutlivesCompletion | src/node-zk.cpp:497-510 | after its completion is delivered, a watched operation's completion is gone but its watcher fires on every event |
| Dispatch.Registry.SubmitDirect | src/node-zk.cpp:512-523 | returns the library's code; the new tables are `SubmittedDirect` of the old ones |
| Dispatch.Registry.SubmitWatched | src/node-zk.cpp:546-557 | returns the library's code; the new tables are `SubmittedWatched` of the old ones |
| Dispatch.Registry.SubmitWithContext | src/node-zk.cpp:608-619 | returns the library's code; the new tables are `SubmittedWithContext` of the old ones |
| Dispatch.Registry.SyncDelete | src/node-zk.cpp:679-689 | one synchronous delete request with the version read as a 32-bit int; returns the library's code |
| Dispatch.Registry.StringCompletion | src/node-zk.cpp:565-575 | the callback is called with `StringCompletionArgs` and deleted |
| Dispatch.Registry.StatCompletion | src/node-zk.cpp:639-646 | the callback is called with `StatCompletionArgs` for its owner's session id and deleted |
| Dispatch.Registry.DataCompletion | src/node-zk.cpp:663-677 | the callback is called with `DataCompletionArgs` and deleted |
| Dispatch.Registry.StringsCompletion | src/node-zk.cpp:728-744 | the callback is called with `StringsCompletionArgs` and deleted |
| Dispatch.Registry.StringsStatCompletion | src/node-zk.cpp:763-781 | the callback is called with `StringsStatCompletionArgs` and deleted |
| Dispatch.Registry.AclCompletion | src/node-zk.cpp:886-896 | the callback is called with `AclCompletionArgs` and deleted |
| Dispatch.Registry.VoidCompletion | src/node-zk.cpp:592-606 | the new tables are `VoidCompleted` of the old ones |
| Dispatch.Registry.WatcherFn | src/node-zk.cpp:700-703 | the new tables are `WatchFired` of the old ones with `WatcherArgs`, and stay consistent |
| Dispatch.Registry.AddCallback | src/node-zk.cpp:517-519 | `Registered` |
| Dispatch.Registry.AddBuffer | src/node-zk.cpp:861-863 | `WithBuffer` |
| Dispatch.Registry.AddContext | src/node-zk.cpp:613-616 | `WithContext` |
| Dispatch.Registry.Deliver | src/node-zk.cpp:497-503 | `Completed`, with the tables kept consistent |

## Left out

- V8 and Nan glue is not modelled: the constant export in `Initialize`, `New`, the argument-count checks and argument unpacking of the method prologs, the hidden-property plumbing (replaced by the owner field of a registration), `DoEmit`'s JavaScript `emit` call (replaced by the notification log), and `TryCatch`/`FatalException`.
- The ZooKeeper C client and libuv are not modelled. Their results are parameters, and what is kept of the poll and the timer is whether each is active, with the poll's socket and event flags (`PollReg(fd, events)`) and the timer's timeout and repeat (`TimerReg(timeout, repeat)`). Re-initialising an already active timer in a second `realInit` is modelled as resetting it to stopped.
- Callbacks that the library makes from inside `zookeeper_process` are separate calls in the model, not nested inside `OnIoReady`.
- Floating point: the `ctime`/`mtime` fields of the stat object are left out. The zxids are kept as integers, although JavaScript numbers lose precision above 2^53.
- Scheduler.DelayMs: the `double` expression `tv_sec * 1000 + tv_usec / 1000.` truncates toward zero; the model rounds down, which is the same for any non-negative total. `tv_usec` is taken to be non-negative, and a negative delay's conversion to a huge unsigned libuv timeout is not modelled.
- `StringToId` follows `%llx` scanning as glibc implements it (overflow is undefined in ISO C): leading white space, a sign, an optional `0x` prefix, saturation at 2^64-1, and an unchanged id when there are no digits. Text beyond ASCII is not modelled.
- Dispatch.Registry.AclCompletion: when the library reports a failed getACL (`rc != ZOK`), it passes a NULL ACL vector. `acl_completion` marshals that as null and then passes it to `deallocate_ACL_vector` with no NULL check (src/node-zk.cpp:893). The C client is not part of this model, so whether that call is safe on NULL is not known here. The model delivers the error callback with a null ACL, as line 890 intends; it does not capture a crash in `deallocate_ACL_vector` before the callback runs.
- Raw memory is not modelled (`malloc`, `calloc`, `strdup`, `free`), apart from the live or freed state of NanCallbacks, `completion_data` blocks and set-ACL buffers. The library's own ACL vector freed by `acl_completion` is not tracked.
- Text encoding: strings are sequences of characters, and node data is a byte sequence. How a non-buffer value is turned into UTF-8 bytes is not modelled.
- The destructor does not close the session, and the model has no destructor.
- Logging macros and the text of `zerror` (an uninterpreted function) are not modelled.
- Session.ZooKeeper.constructor: `interest`, `tv` and `last_activity` are left uninitialised by the C++ constructor; the model starts them at zero.
- `ToUint32`, `ToInt32` and the other number readings (versions, flags, perms, the session timeout, the debug level) take integers: JavaScript numbers that are fractional, NaN or ±Infinity are not modelled.
- C strings end at their first NUL: the `strdup` of an ACL's scheme and id, and the paths and texts handed to the library, would cut text with an embedded NUL. The model keeps whole strings, so `Marshal.AclObjectRoundTrip` does not capture that such text would come back shortened.
- Dispatch.WatchFired: the `assert(zk->zhandle == zh)` of the watcher prolog, which aborts the process when a watcher fires for a handle that is no longer the object's (after a second `init`, say), is not modelled; the watcher is called regardless.
- Session.Reconciled: a zero-delay timer (`TimerReg(0, 0)`), which libuv runs once and then deactivates, is treated as staying armed.
- Session.Closed: it does not say that the timer is stopped when an already closed object is closed again. That close changes nothing, and the timer is stopped by the first close.
