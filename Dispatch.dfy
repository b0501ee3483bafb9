/**
 * The completion and watcher plumbing of src/node-zk.cpp: the `A_METHOD` /
 * `AW_METHOD` submissions that wrap a JavaScript function in a NanCallback
 * and hand it to an asynchronous `zoo_a*` call, the `completion_data`
 * contexts of delete, set-ACL and add-auth, and the static trampolines the
 * C client calls back. NanCallback objects, `completion_data` blocks and
 * ACL buffers are records in tables keyed by address; the JavaScript
 * calls made are an invocation log, and the library calls a request log.
 */
module Dispatch {
  import opened Wrappers
  import opened Identity
  import opened Config
  import opened Marshal
  import opened Session

  /** ZOK */
  const Ok: int := 0

  // The operation tags of `completion_data`, as zookeeper.h defines them.
  const DeleteOp: int := 2
  const SetAclOp: int := 7
  const SetAuthOp: int := 100

  /** A JavaScript value passed to a callback. */
  datatype Arg =
    | IntArg(n: int)
    | TextArg(text: string)
    | NullArg
    | UndefinedArg
    | StatArg(stat: StatObject)
    | ListArg(items: seq<string>)
    | AclListArg(entries: seq<AclObject>)
    | BufferArg(bytes: seq<Byte>)

  // ---------------------------------------------------------------------
  // Argument lists of the trampolines

  /** `argv[0]`, `argv[1]` of every completion: the status and its text. */
  function Status(rc: int, errorText: string): (head: seq<Arg>)
    ensures |head| == 2 && head[0] == IntArg(rc) && head[1] == TextArg(errorText)
  {
    [IntArg(rc), TextArg(errorText)]
  }

  /** A stat argument: the stat object, or null. */
  function StatValue(stat: Option<Stat>, myid: SessionId): (v: Arg)
    ensures v.StatArg? <==> stat.Some?
    ensures !v.StatArg? ==> v == NullArg
    ensures v.StatArg? ==> v.stat == CreateStatObject(stat.value, myid)
  {
    match stat
    case Some(s) => StatArg(CreateStatObject(s, myid))
    case None => NullArg
  }

  /** A children argument: the names in the library's order, or null. */
  function StringsValue(strings: Option<seq<string>>): (v: Arg)
    ensures v.ListArg? <==> strings.Some?
    ensures !v.ListArg? ==> v == NullArg
    ensures v.ListArg? ==>
      |v.items| == |strings.value| && forall i :: 0 <= i < |v.items| ==> v.items[i] == strings.value[i]
  {
    match strings
    case Some(names) => ListArg(names)
    case None => NullArg
  }

  /** string_completion: a NULL value is shown as the text "null". */
  function StringCompletionArgs(rc: int, errorText: string, value: Option<string>): (args: seq<Arg>)
    ensures |args| == 3 && args[..2] == Status(rc, errorText)
    ensures value.Some? ==> args[2] == TextArg(value.value)
    ensures value.None? ==> args[2] == TextArg("null")
  {
    Status(rc, errorText) + [TextArg(if value.Some? then value.value else "null")]
  }

  /** stat_completion: the stat only when the status is ZOK, else null. */
  function StatCompletionArgs(rc: int, errorText: string, stat: Option<Stat>, myid: SessionId): (args: seq<Arg>)
    requires rc == Ok ==> stat.Some?
    ensures |args| == 3 && args[..2] == Status(rc, errorText)
    ensures args[2].StatArg? <==> rc == Ok
    ensures rc == Ok ==> args[2] == StatValue(stat, myid)
    ensures rc != Ok ==> args[2] == NullArg
  {
    Status(rc, errorText) + [if rc == Ok then StatValue(stat, myid) else NullArg]
  }

  /** data_completion: the stat or null, then a buffer holding the value or null. */
  function DataCompletionArgs(rc: int, errorText: string, value: Option<seq<Byte>>,
                              stat: Option<Stat>, myid: SessionId): (args: seq<Arg>)
    ensures |args| == 4 && args[..2] == Status(rc, errorText)
    ensures args[2] == StatValue(stat, myid)
    ensures args[3].BufferArg? <==> value.Some?
    ensures value.Some? ==> args[3].bytes == value.value
    ensures value.None? ==> args[3] == NullArg
  {
    Status(rc, errorText) + [StatValue(stat, myid), if value.Some? then BufferArg(value.value) else NullArg]
  }

  /** strings_completion */
  function StringsCompletionArgs(rc: int, errorText: string, strings: Option<seq<string>>): (args: seq<Arg>)
    ensures |args| == 3 && args[..2] == Status(rc, errorText)
    ensures args[2] == StringsValue(strings)
  {
    Status(rc, errorText) + [StringsValue(strings)]
  }

  /** strings_stat_completion */
  function StringsStatCompletionArgs(rc: int, errorText: string, strings: Option<seq<string>>,
                                     stat: Option<Stat>, myid: SessionId): (args: seq<Arg>)
    ensures |args| == 4 && args[..2] == Status(rc, errorText)
    ensures args[2] == StringsValue(strings) && args[3] == StatValue(stat, myid)
  {
    Status(rc, errorText) + [StringsValue(strings), StatValue(stat, myid)]
  }

  /** acl_completion: the ACL list and the stat, each or null. */
  function AclCompletionArgs(rc: int, errorText: string, acl: Option<seq<Acl>>,
                             stat: Option<Stat>, myid: SessionId): (args: seq<Arg>)
    ensures |args| == 4 && args[..2] == Status(rc, errorText)
    ensures args[2].AclListArg? <==> acl.Some?
    ensures acl.Some? ==> args[2].entries == CreateAclObject(acl.value)
    ensures acl.None? ==> args[2] == NullArg
    ensures args[3] == StatValue(stat, myid)
  {
    Status(rc, errorText) + [if acl.Some? then AclListArg(CreateAclObject(acl.value)) else NullArg,
                             StatValue(stat, myid)]
  }

  /**
   * watcher_fn: type, state, path, and an undefined handback (no handback
   * is ever attached to a watcher callback).
   */
  function WatcherArgs(eventType: int, state: int, path: string): (args: seq<Arg>)
    ensures |args| == 4 && args[0] == IntArg(eventType) && args[1] == IntArg(state)
    ensures args[2] == TextArg(path) && args[3] == UndefinedArg
  {
    [IntArg(eventType), IntArg(state), TextArg(path), UndefinedArg]
  }

  // ---------------------------------------------------------------------
  // Requests to the library

  /** The operation a JavaScript caller starts, with its arguments. */
  datatype DirectOp =
    | ACreate(path: string, data: seq<Byte>, flags: int)
    | AExists(path: string, watch: bool)
    | AGet(path: string, watch: bool)
    | ASet(path: string, data: seq<Byte>, version: int)
    | AGetChildren(path: string, watch: bool)
    | AGetChildren2(path: string, watch: bool)
    | AGetAcl(path: string)

  /** The operations that take their own watcher function. */
  datatype WatchedOp =
    | AWExists(path: string)
    | AWGet(path: string)
    | AWGetChildren(path: string)
    | AWGetChildren2(path: string)

  /** The operations whose completion goes through a `completion_data` block. */
  datatype ContextOp =
    | ADelete(path: string, version: int)
    | AddAuth(scheme: string, auth: seq<Byte>)
    | ASetAcl(path: string, version: int, entries: seq<AclObject>)

  /** A call into the C client, with the arguments as the library sees them. */
  datatype LibraryCall =
    | ZooCreate(path: string, data: seq<Byte>, acl: seq<Acl>, flags: int)
    | ZooDelete(path: string, version: int)
    | ZooExists(path: string)
    | ZooGet(path: string)
    | ZooSet(path: string, data: seq<Byte>, version: int)
    | ZooGetChildren(path: string)
    | ZooGetChildren2(path: string)
    | ZooGetAcl(path: string)
    | ZooSetAcl(path: string, version: int, acl: seq<Acl>)
    | ZooAddAuth(scheme: string, auth: seq<Byte>)

  /** Who is told of a change: nobody, the session's own watcher, or a watcher callback. */
  datatype WatchMode = NoWatch | SessionWatch | OwnWatcher(watcher: nat)

  /** The static completion a request names. */
  datatype Trampoline =
    | ToString | ToVoid | ToStat | ToData | ToStrings | ToStringsStat | ToAcl

  /**
   * A library call: asynchronous with its completion and the address it is
   * handed back (a NanCallback or a `completion_data`), or synchronous.
   */
  datatype Request =
    | Async(handle: Option<Handle>, call: LibraryCall, watch: WatchMode, completion: Trampoline, data: nat)
    | Sync(handle: Option<Handle>, call: LibraryCall)

  function WatchFlag(watch: bool): WatchMode {
    if watch then SessionWatch else NoWatch
  }

  /**
   * The request of a directly dispatched operation: the callback's address
   * is the completion data, the completion matches the reply's shape, a
   * create carries ZOO_OPEN_ACL_UNSAFE, and numeric arguments are read as
   * `int`s.
   */
  function DirectRequest(handle: Option<Handle>, op: DirectOp, cb: nat): (r: Request)
    ensures r.Async? && r.handle == handle && r.data == cb && r.completion != ToVoid
    ensures !r.watch.OwnWatcher?
    ensures op.ACreate? ==> r.call == ZooCreate(op.path, op.data, OpenAclUnsafe, LibraryInt(op.flags)) &&
                            r.completion == ToString && r.watch == NoWatch
    ensures op.ASet? ==> r.call == ZooSet(op.path, op.data, LibraryInt(op.version)) &&
                         r.completion == ToStat && r.watch == NoWatch
    ensures op.AExists? ==> r.call == ZooExists(op.path) && r.completion == ToStat && r.watch == WatchFlag(op.watch)
    ensures op.AGet? ==> r.call == ZooGet(op.path) && r.completion == ToData && r.watch == WatchFlag(op.watch)
    ensures op.AGetChildren? ==>
      r.call == ZooGetChildren(op.path) && r.completion == ToStrings && r.watch == WatchFlag(op.watch)
    ensures op.AGetChildren2? ==>
      r.call == ZooGetChildren2(op.path) && r.completion == ToStringsStat && r.watch == WatchFlag(op.watch)
    ensures op.AGetAcl? ==> r.call == ZooGetAcl(op.path) && r.completion == ToAcl && r.watch == NoWatch
  {
    match op
    case ACreate(path, data, flags) =>
      Async(handle, ZooCreate(path, data, OpenAclUnsafe, LibraryInt(flags)), NoWatch, ToString, cb)
    case AExists(path, watch) => Async(handle, ZooExists(path), WatchFlag(watch), ToStat, cb)
    case AGet(path, watch) => Async(handle, ZooGet(path), WatchFlag(watch), ToData, cb)
    case ASet(path, data, version) =>
      Async(handle, ZooSet(path, data, LibraryInt(version)), NoWatch, ToStat, cb)
    case AGetChildren(path, watch) => Async(handle, ZooGetChildren(path), WatchFlag(watch), ToStrings, cb)
    case AGetChildren2(path, watch) =>
      Async(handle, ZooGetChildren2(path), WatchFlag(watch), ToStringsStat, cb)
    case AGetAcl(path) => Async(handle, ZooGetAcl(path), NoWatch, ToAcl, cb)
  }

  /** The request of an operation with its own watcher: same replies as its watch-flag variant. */
  function WatchedRequest(handle: Option<Handle>, op: WatchedOp, cbw: nat, cb: nat): (r: Request)
    ensures r.Async? && r.handle == handle && r.data == cb && r.watch == OwnWatcher(cbw)
    ensures op.AWExists? ==> r.call == ZooExists(op.path) && r.completion == ToStat
    ensures op.AWGet? ==> r.call == ZooGet(op.path) && r.completion == ToData
    ensures op.AWGetChildren? ==> r.call == ZooGetChildren(op.path) && r.completion == ToStrings
    ensures op.AWGetChildren2? ==> r.call == ZooGetChildren2(op.path) && r.completion == ToStringsStat
  {
    match op
    case AWExists(path) => Async(handle, ZooExists(path), OwnWatcher(cbw), ToStat, cb)
    case AWGet(path) => Async(handle, ZooGet(path), OwnWatcher(cbw), ToData, cb)
    case AWGetChildren(path) => Async(handle, ZooGetChildren(path), OwnWatcher(cbw), ToStrings, cb)
    case AWGetChildren2(path) => Async(handle, ZooGetChildren2(path), OwnWatcher(cbw), ToStringsStat, cb)
  }

  /** A request that differs from another at most in who is told of a change. */
  predicate SameQuery(a: Request, b: Request) {
    a.Async? && b.Async? && a.handle == b.handle && a.call == b.call &&
    a.completion == b.completion && a.data == b.data
  }

  /** A watcher registration and its direct-call twin ask the library for the same data. */
  lemma WatchedMatchesDirect(handle: Option<Handle>, path: string, cbw: nat, cb: nat)
    ensures SameQuery(WatchedRequest(handle, AWExists(path), cbw, cb), DirectRequest(handle, AExists(path, false), cb))
    ensures SameQuery(WatchedRequest(handle, AWGet(path), cbw, cb), DirectRequest(handle, AGet(path, false), cb))
    ensures SameQuery(WatchedRequest(handle, AWGetChildren(path), cbw, cb),
                      DirectRequest(handle, AGetChildren(path, false), cb))
    ensures SameQuery(WatchedRequest(handle, AWGetChildren2(path), cbw, cb),
                      DirectRequest(handle, AGetChildren2(path, false), cb))
  {
  }

  /** The tag a context operation stores in its `completion_data`. */
  function ContextTag(op: ContextOp): (tag: int)
    ensures tag == SetAclOp <==> op.ASetAcl?
    ensures op.ADelete? ==> tag == DeleteOp
    ensures op.AddAuth? ==> tag == SetAuthOp
  {
    match op
    case ADelete(_, _) => DeleteOp
    case AddAuth(_, _) => SetAuthOp
    case ASetAcl(_, _, _) => SetAclOp
  }

  // ---------------------------------------------------------------------
  // The tables

  /** A NanCallback watching for one reply (a completion) or for every change (a watcher). */
  datatype CallbackKind = Completion | Watcher

  /** A live NanCallback: its JavaScript function and its hidden owner. */
  datatype Registration = Registration(jsFunction: nat, owner: ZooKeeper, kind: CallbackKind)

  /** A live `completion_data`: its callback, operation tag and owned ACL buffer. */
  datatype CompletionData = CompletionData(cb: nat, op: int, buffer: Option<nat>)

  /** One JavaScript call of a callback function. */
  datatype Invocation = Invocation(jsFunction: nat, args: seq<Arg>)

  /**
   * Every live NanCallback, `completion_data` and ACL buffer by address,
   * the JavaScript calls made and the library requests issued, and the
   * next unused address.
   */
  datatype Table = Table(
    callbacks: map<nat, Registration>,
    contexts: map<nat, CompletionData>,
    buffers: map<nat, seq<Acl>>,
    invocations: seq<Invocation>,
    requests: seq<Request>,
    next: nat)

  /**
   * Addresses in use are below `next`; a context's callback is a live
   * completion; a context owns a live buffer exactly for SETACL; no two
   * contexts share a callback or a buffer.
   */
  ghost predicate ValidTable(t: Table) {
    (forall a :: a in t.callbacks ==> a < t.next) &&
    (forall a :: a in t.contexts ==> a < t.next) &&
    (forall a :: a in t.buffers ==> a < t.next) &&
    (forall c :: c in t.contexts ==>
      t.contexts[c].cb in t.callbacks && t.callbacks[t.contexts[c].cb].kind == Completion) &&
    (forall c :: c in t.contexts ==>
      (t.contexts[c].buffer.Some? <==> t.contexts[c].op == SetAclOp) &&
      (t.contexts[c].buffer.Some? ==> t.contexts[c].buffer.value in t.buffers)) &&
    (forall c, d :: c in t.contexts && d in t.contexts && c != d ==>
      t.contexts[c].cb != t.contexts[d].cb &&
      (t.contexts[c].buffer.Some? ==> t.contexts[c].buffer != t.contexts[d].buffer))
  }

  /** A completion callback handed to the library directly, not through a context. */
  ghost predicate DirectCallback(t: Table, cb: nat) {
    cb in t.callbacks && t.callbacks[cb].kind == Completion &&
    forall c :: c in t.contexts ==> t.contexts[c].cb != cb
  }

  const EmptyTable: Table := Table(map[], map[], map[], [], [], 0)

  /** A_METHOD_PROLOG, then the library call naming the new callback. */
  function SubmittedDirect(t: Table, jsFunction: nat, owner: ZooKeeper, handle: Option<Handle>,
                           op: DirectOp): (r: Table)
    requires ValidTable(t)
    ensures ValidTable(r) && DirectCallback(r, t.next)
    ensures t.next !in t.callbacks && r.callbacks == t.callbacks[t.next := Registration(jsFunction, owner, Completion)]
    ensures r.requests == t.requests + [DirectRequest(handle, op, t.next)]
    ensures r.contexts == t.contexts && r.buffers == t.buffers && r.invocations == t.invocations
    ensures r.next == t.next + 1
  {
    var cb := t.next;
    t.(callbacks := t.callbacks[cb := Registration(jsFunction, owner, Completion)],
       requests := t.requests + [DirectRequest(handle, op, cb)],
       next := t.next + 1)
  }

  /** AW_METHOD_PROLOG: a completion callback, then a watcher callback, then the call. */
  function SubmittedWatched(t: Table, watcher: nat, jsFunction: nat, owner: ZooKeeper,
                            handle: Option<Handle>, op: WatchedOp): (r: Table)
    requires ValidTable(t)
    ensures ValidTable(r) && DirectCallback(r, t.next)
    ensures t.next !in t.callbacks && t.next + 1 !in t.callbacks
    ensures r.callbacks == t.callbacks[t.next := Registration(jsFunction, owner, Completion)]
                                      [t.next + 1 := Registration(watcher, owner, Watcher)]
    ensures r.requests == t.requests + [WatchedRequest(handle, op, t.next + 1, t.next)]
    ensures r.contexts == t.contexts && r.buffers == t.buffers && r.invocations == t.invocations
    ensures r.next == t.next + 2
  {
    var cb := t.next;
    var cbw := t.next + 1;
    t.(callbacks := t.callbacks[cb := Registration(jsFunction, owner, Completion)]
                               [cbw := Registration(watcher, owner, Watcher)],
       requests := t.requests + [WatchedRequest(handle, op, cbw, cb)],
       next := t.next + 2)
  }

  /** The address of the `completion_data` a context submission allocates. */
  function ContextAddress(t: Table, op: ContextOp): nat {
    if op.ASetAcl? then t.next + 2 else t.next + 1
  }

  /** A new NanCallback at the next address. */
  function Registered(t: Table, reg: Registration): (r: Table)
    requires ValidTable(t)
    ensures ValidTable(r)
    ensures t.next !in t.callbacks && r.callbacks == t.callbacks[t.next := reg] && r.next == t.next + 1
    ensures r.contexts == t.contexts && r.buffers == t.buffers
    ensures r.invocations == t.invocations && r.requests == t.requests
  {
    t.(callbacks := t.callbacks[t.next := reg], next := t.next + 1)
  }

  /** A new `completion_data` at the next address, owning `buffer` if given. */
  function WithContext(t: Table, cb: nat, tag: int, buffer: Option<nat>): (r: Table)
    requires ValidTable(t)
    requires cb in t.callbacks && t.callbacks[cb].kind == Completion
    requires forall c :: c in t.contexts ==> t.contexts[c].cb != cb
    requires buffer.Some? <==> tag == SetAclOp
    requires buffer.Some? ==>
      buffer.value in t.buffers && forall c :: c in t.contexts ==> t.contexts[c].buffer != buffer
    ensures ValidTable(r)
    ensures t.next !in t.contexts && r.contexts == t.contexts[t.next := CompletionData(cb, tag, buffer)]
    ensures r.next == t.next + 1 && r.callbacks == t.callbacks && r.buffers == t.buffers
    ensures r.invocations == t.invocations && r.requests == t.requests
  {
    t.(contexts := t.contexts[t.next := CompletionData(cb, tag, buffer)], next := t.next + 1)
  }

  /** A new ACL buffer at the next address. */
  function WithBuffer(t: Table, acl: seq<Acl>): (r: Table)
    requires ValidTable(t)
    ensures ValidTable(r)
    ensures t.next !in t.buffers && r.buffers == t.buffers[t.next := acl] && r.next == t.next + 1
    ensures forall c :: c in t.contexts ==> t.contexts[c].buffer != Some(t.next)
    ensures r.callbacks == t.callbacks && r.contexts == t.contexts
    ensures r.invocations == t.invocations && r.requests == t.requests
  {
    t.(buffers := t.buffers[t.next := acl], next := t.next + 1)
  }

  /**
   * ADelete, AddAuth, ASetAcl: a callback, for ASetAcl the ACL vector built
   * from the array, then a `completion_data` naming both, handed to the
   * library with void_completion.
   */
  function SubmittedWithContext(t: Table, jsFunction: nat, owner: ZooKeeper, handle: Option<Handle>,
                                op: ContextOp): (r: Table)
    requires ValidTable(t)
    ensures ValidTable(r)
    ensures t.next !in t.callbacks && r.callbacks == t.callbacks[t.next := Registration(jsFunction, owner, Completion)]
    ensures ContextAddress(t, op) !in t.contexts && ContextAddress(t, op) in r.contexts
    ensures r.contexts == t.contexts[ContextAddress(t, op) :=
      CompletionData(t.next, ContextTag(op), if op.ASetAcl? then Some(t.next + 1) else None)]
    ensures op.ASetAcl? ==> t.next + 1 !in t.buffers && r.buffers == t.buffers[t.next + 1 := AclVector(op.entries)]
    ensures !op.ASetAcl? ==> r.buffers == t.buffers
    ensures r.requests == t.requests + [ContextRequest(handle, op, ContextAddress(t, op))]
    ensures r.invocations == t.invocations
    ensures r.next == ContextAddress(t, op) + 1
  {
    var registered := Registered(t, Registration(jsFunction, owner, Completion));
    var withContext :=
      if op.ASetAcl? then
        var buffered := WithBuffer(registered, AclVector(op.entries));
        WithContext(buffered, t.next, SetAclOp, Some(t.next + 1))
      else WithContext(registered, t.next, ContextTag(op), None);
    withContext.(requests := t.requests + [ContextRequest(handle, op, ContextAddress(t, op))])
  }

  /** The request of a context operation: void_completion with the context's address. */
  function ContextRequest(handle: Option<Handle>, op: ContextOp, ctx: nat): (r: Request)
    ensures r.Async? && r.handle == handle && r.completion == ToVoid && r.data == ctx && r.watch == NoWatch
    ensures op.ADelete? ==> r.call == ZooDelete(op.path, LibraryInt(op.version))
    ensures op.AddAuth? ==> r.call == ZooAddAuth(op.scheme, op.auth)
    ensures op.ASetAcl? ==> r.call == ZooSetAcl(op.path, LibraryInt(op.version), AclVector(op.entries))
  {
    match op
    case ADelete(path, version) => Async(handle, ZooDelete(path, LibraryInt(version)), NoWatch, ToVoid, ctx)
    case AddAuth(scheme, auth) => Async(handle, ZooAddAuth(scheme, auth), NoWatch, ToVoid, ctx)
    case ASetAcl(path, version, entries) =>
      Async(handle, ZooSetAcl(path, LibraryInt(version), AclVector(entries)), NoWatch, ToVoid, ctx)
  }

  /**
   * CALLBACK_EPILOG: the callback's function is called once with the
   * arguments, and the callback is deleted; every other callback stays.
   */
  function Completed(t: Table, cb: nat, args: seq<Arg>): (r: Table)
    requires cb in t.callbacks && t.callbacks[cb].kind == Completion
    ensures cb !in r.callbacks
    ensures forall a :: a in r.callbacks <==> a in t.callbacks && a != cb
    ensures forall a :: a in r.callbacks ==> r.callbacks[a] == t.callbacks[a]
    ensures r.invocations == t.invocations + [Invocation(t.callbacks[cb].jsFunction, args)]
    ensures r.contexts == t.contexts && r.buffers == t.buffers
    ensures r.requests == t.requests && r.next == t.next
  {
    t.(callbacks := t.callbacks - {cb},
       invocations := t.invocations + [Invocation(t.callbacks[cb].jsFunction, args)])
  }

  /** Delivering a directly handed-out completion keeps the tables consistent. */
  lemma CompletedKeepsValid(t: Table, cb: nat, args: seq<Arg>)
    requires ValidTable(t) && DirectCallback(t, cb)
    ensures ValidTable(Completed(t, cb, args))
  {
  }

  /**
   * void_completion: free the ACL buffer when the tag is SETACL (and only
   * then), call the callback with the status and delete it, free the
   * context.
   */
  function VoidCompleted(t: Table, ctx: nat, rc: int, errorText: string): (r: Table)
    requires ValidTable(t) && ctx in t.contexts
    ensures ValidTable(r)
    ensures ctx !in r.contexts && t.contexts[ctx].cb !in r.callbacks
    ensures r.contexts == t.contexts - {ctx}
    ensures r.invocations == t.invocations +
      [Invocation(t.callbacks[t.contexts[ctx].cb].jsFunction, Status(rc, errorText))]
    ensures t.contexts[ctx].op == SetAclOp ==> r.buffers == t.buffers - {t.contexts[ctx].buffer.value}
    ensures t.contexts[ctx].op != SetAclOp ==> r.buffers == t.buffers
    ensures r.callbacks == t.callbacks - {t.contexts[ctx].cb}
    ensures r.requests == t.requests && r.next == t.next
  {
    var d := t.contexts[ctx];
    var freed := if d.op == SetAclOp then t.buffers - {d.buffer.value} else t.buffers;
    Completed(t.(buffers := freed), d.cb, Status(rc, errorText)).(contexts := t.contexts - {ctx})
  }

  /**
   * WATCHER_PROLOG / WATCHER_CALLBACK_EPILOG: nothing once the library
   * reports the session expired; otherwise the watcher's function is
   * called. The watcher callback is never deleted.
   */
  function WatchFired(t: Table, cbw: nat, libraryState: int, args: seq<Arg>): (r: Table)
    requires cbw in t.callbacks && t.callbacks[cbw].kind == Watcher
    ensures r.callbacks == t.callbacks && r.contexts == t.contexts && r.buffers == t.buffers
    ensures r.requests == t.requests && r.next == t.next
    ensures ValidTable(t) ==> ValidTable(r)
    ensures libraryState == ExpiredSessionState ==> r == t
    ensures libraryState != ExpiredSessionState ==>
      r.invocations == t.invocations + [Invocation(t.callbacks[cbw].jsFunction, args)]
  {
    if libraryState == ExpiredSessionState then t
    else t.(invocations := t.invocations + [Invocation(t.callbacks[cbw].jsFunction, args)])
  }

  /**
   * A set-ACL whose completion arrives leaves no callback, context or
   * buffer behind: the tables are as before, plus one request and one call.
   */
  lemma SetAclReleasesEverything(t: Table, jsFunction: nat, owner: ZooKeeper, handle: Option<Handle>,
                                 path: string, version: int, entries: seq<AclObject>,
                                 rc: int, errorText: string)
    requires ValidTable(t)
    ensures var op := ASetAcl(path, version, entries);
      var submitted := SubmittedWithContext(t, jsFunction, owner, handle, op);
      var done := VoidCompleted(submitted, ContextAddress(t, op), rc, errorText);
      done.callbacks == t.callbacks && done.contexts == t.contexts && done.buffers == t.buffers &&
      done.invocations == t.invocations + [Invocation(jsFunction, Status(rc, errorText))]
  {
    var op := ASetAcl(path, version, entries);
    var submitted := SubmittedWithContext(t, jsFunction, owner, handle, op);
    var ctx := ContextAddress(t, op);
    assert submitted.contexts[ctx] == CompletionData(t.next, SetAclOp, Some(t.next + 1));
    var done := VoidCompleted(submitted, ctx, rc, errorText);
    UpdateThenRemove(t.callbacks, t.next, Registration(jsFunction, owner, Completion));
    UpdateThenRemove(t.contexts, ctx, submitted.contexts[ctx]);
    UpdateThenRemove(t.buffers, t.next + 1, AclVector(entries));
  }

  /** Adding a fresh key and then removing it gives back the map. */
  lemma UpdateThenRemove<K, V>(m: map<K, V>, k: K, v: V)
    requires k !in m
    ensures m[k := v] - {k} == m
  {
  }

  /** A completion delivered once cannot be delivered again; a watcher fires each time. */
  lemma WatcherOutlivesCompletion(t: Table, watcher: nat, jsFunction: nat, owner: ZooKeeper,
                                  handle: Option<Handle>, op: WatchedOp,
                                  completionArgs: seq<Arg>, first: seq<Arg>, second: seq<Arg>)
    requires ValidTable(t)
    ensures var s := SubmittedWatched(t, watcher, jsFunction, owner, handle, op);
      var c := Completed(s, t.next, completionArgs);
      t.next !in c.callbacks && t.next + 1 in c.callbacks && c.callbacks[t.next + 1].kind == Watcher &&
      WatchFired(WatchFired(c, t.next + 1, ConnectedState, first), t.next + 1, ConnectedState, second).invocations
        == c.invocations + [Invocation(watcher, first), Invocation(watcher, second)]
  {
  }

  // ---------------------------------------------------------------------
  // The registry object

  /** The binding's callback bookkeeping; `errorText` is the library's `zerror`. */
  class Registry {
    const errorText: int -> string
    var callbacks: map<nat, Registration>
    var contexts: map<nat, CompletionData>
    var buffers: map<nat, seq<Acl>>
    var invocations: seq<Invocation>
    var requests: seq<Request>
    var next: nat

    function Current(): Table
      reads this
    {
      Table(callbacks, contexts, buffers, invocations, requests, next)
    }

    ghost predicate Valid()
      reads this
    {
      ValidTable(Current())
    }

    constructor (errorText: int -> string)
      ensures Valid() && Current() == EmptyTable && this.errorText == errorText
    {
      this.errorText := errorText;
      callbacks, contexts, buffers := map[], map[], map[];
      invocations, requests := [], [];
      next := 0;
    }

    /** An A_METHOD operation; `libraryRc` is what the `zoo_a*` call returned. */
    method SubmitDirect(jsFunction: nat, owner: ZooKeeper, op: DirectOp, libraryRc: int) returns (rc: int)
      requires Valid()
      modifies this
      ensures Valid() && rc == libraryRc
      ensures Current() == SubmittedDirect(old(Current()), jsFunction, owner, old(owner.zhandle), op)
    {
      var cb := next;
      callbacks := callbacks[cb := Registration(jsFunction, owner, Completion)];
      next := next + 1;
      requests := requests + [DirectRequest(owner.zhandle, op, cb)];
      rc := libraryRc;
    }

    /** An AW_METHOD operation. */
    method SubmitWatched(watcher: nat, jsFunction: nat, owner: ZooKeeper, op: WatchedOp, libraryRc: int)
      returns (rc: int)
      requires Valid()
      modifies this
      ensures Valid() && rc == libraryRc
      ensures Current() == SubmittedWatched(old(Current()), watcher, jsFunction, owner, old(owner.zhandle), op)
    {
      var cb := next;
      callbacks := callbacks[cb := Registration(jsFunction, owner, Completion)];
      var cbw := next + 1;
      callbacks := callbacks[cbw := Registration(watcher, owner, Watcher)];
      next := next + 2;
      requests := requests + [WatchedRequest(owner.zhandle, op, cbw, cb)];
      rc := libraryRc;
    }

    /** ADelete, AddAuth and ASetAcl. */
    method SubmitWithContext(jsFunction: nat, owner: ZooKeeper, op: ContextOp, libraryRc: int)
      returns (rc: int)
      requires Valid()
      modifies this
      ensures Valid() && rc == libraryRc
      ensures Current() == SubmittedWithContext(old(Current()), jsFunction, owner, old(owner.zhandle), op)
    {
      ghost var t0 := Current();
      var cb := AddCallback(Registration(jsFunction, owner, Completion));
      var ctx;
      ghost var t1 := Current();
      ghost var t3;
      if op.ASetAcl? {
        var aclv := CreateAclVector(op.entries);
        var buffer := AddBuffer(aclv);
        ctx := AddContext(cb, SetAclOp, Some(buffer));
        t3 := Current();
        assert t3 == WithContext(WithBuffer(t1, AclVector(op.entries)), t0.next, SetAclOp, Some(t0.next + 1));
      } else {
        ctx := AddContext(cb, ContextTag(op), None);
        t3 := Current();
        assert t3 == WithContext(t1, t0.next, ContextTag(op), None);
      }
      assert ctx == ContextAddress(t0, op);
      requests := requests + [ContextRequest(owner.zhandle, op, ctx)];
      assert Current() == t3.(requests := t0.requests + [ContextRequest(old(owner.zhandle), op, ContextAddress(t0, op))]);
      rc := libraryRc;
    }

    /** Delete: the synchronous `zoo_delete`; no callback is involved. */
    method SyncDelete(owner: ZooKeeper, path: string, version: int, libraryRc: int) returns (rc: int)
      modifies this`requests
      ensures rc == libraryRc
      ensures requests == old(requests) + [Sync(owner.zhandle, ZooDelete(path, LibraryInt(version)))]
    {
      requests := requests + [Sync(owner.zhandle, ZooDelete(path, LibraryInt(version)))];
      rc := libraryRc;
    }

    /** string_completion */
    method StringCompletion(rc: int, value: Option<string>, cb: nat)
      requires Valid() && DirectCallback(Current(), cb)
      modifies this`callbacks, this`invocations
      ensures Valid()
      ensures Current() == Completed(old(Current()), cb, StringCompletionArgs(rc, errorText(rc), value))
    {
      var args := StringCompletionArgs(rc, errorText(rc), value);
      Deliver(cb, args);
    }

    /** stat_completion: the stat is read only when the status is ZOK. */
    method StatCompletion(rc: int, stat: Option<Stat>, cb: nat)
      requires Valid() && DirectCallback(Current(), cb)
      requires rc == Ok ==> stat.Some?
      modifies this`callbacks, this`invocations
      ensures Valid()
      ensures Current() == Completed(old(Current()), cb,
        StatCompletionArgs(rc, errorText(rc), stat, old(callbacks[cb].owner.myid.id)))
    {
      var myid := callbacks[cb].owner.myid.id;
      var args := StatCompletionArgs(rc, errorText(rc), stat, myid);
      Deliver(cb, args);
    }

    /** data_completion */
    method DataCompletion(rc: int, value: Option<seq<Byte>>, stat: Option<Stat>, cb: nat)
      requires Valid() && DirectCallback(Current(), cb)
      modifies this`callbacks, this`invocations
      ensures Valid()
      ensures Current() == Completed(old(Current()), cb,
        DataCompletionArgs(rc, errorText(rc), value, stat, old(callbacks[cb].owner.myid.id)))
    {
      var myid := callbacks[cb].owner.myid.id;
      var args := DataCompletionArgs(rc, errorText(rc), value, stat, myid);
      Deliver(cb, args);
    }

    /** strings_completion */
    method StringsCompletion(rc: int, strings: Option<seq<string>>, cb: nat)
      requires Valid() && DirectCallback(Current(), cb)
      modifies this`callbacks, this`invocations
      ensures Valid()
      ensures Current() == Completed(old(Current()), cb, StringsCompletionArgs(rc, errorText(rc), strings))
    {
      var args := StringsCompletionArgs(rc, errorText(rc), strings);
      Deliver(cb, args);
    }

    /** strings_stat_completion */
    method StringsStatCompletion(rc: int, strings: Option<seq<string>>, stat: Option<Stat>, cb: nat)
      requires Valid() && DirectCallback(Current(), cb)
      modifies this`callbacks, this`invocations
      ensures Valid()
      ensures Current() == Completed(old(Current()), cb,
        StringsStatCompletionArgs(rc, errorText(rc), strings, stat, old(callbacks[cb].owner.myid.id)))
    {
      var myid := callbacks[cb].owner.myid.id;
      var args := StringsStatCompletionArgs(rc, errorText(rc), strings, stat, myid);
      Deliver(cb, args);
    }

    /** acl_completion; the library's ACL vector is released after marshaling. */
    method AclCompletion(rc: int, acl: Option<seq<Acl>>, stat: Option<Stat>, cb: nat)
      requires Valid() && DirectCallback(Current(), cb)
      modifies this`callbacks, this`invocations
      ensures Valid()
      ensures Current() == Completed(old(Current()), cb,
        AclCompletionArgs(rc, errorText(rc), acl, stat, old(callbacks[cb].owner.myid.id)))
    {
      var myid := callbacks[cb].owner.myid.id;
      var args := AclCompletionArgs(rc, errorText(rc), acl, stat, myid);
      Deliver(cb, args);
    }

    /** void_completion, handed the address of its `completion_data`. */
    method VoidCompletion(rc: int, ctx: nat)
      requires Valid() && ctx in contexts
      modifies this`callbacks, this`invocations, this`contexts, this`buffers
      ensures Valid()
      ensures Current() == VoidCompleted(old(Current()), ctx, rc, errorText(rc))
    {
      var d := contexts[ctx];
      if d.op == SetAclOp {
        buffers := buffers - {d.buffer.value};
      }
      var args := Status(rc, errorText(rc));
      invocations := invocations + [Invocation(callbacks[d.cb].jsFunction, args)];
      callbacks := callbacks - {d.cb};
      contexts := contexts - {ctx};
    }

    /** watcher_fn: `libraryState` is `zoo_state` of the handle. */
    method WatcherFn(libraryState: int, eventType: int, state: int, path: string, cbw: nat)
      requires Valid() && cbw in callbacks && callbacks[cbw].kind == Watcher
      modifies this`invocations
      ensures Valid()
      ensures Current() == WatchFired(old(Current()), cbw, libraryState, WatcherArgs(eventType, state, path))
    {
      if libraryState == ExpiredSessionState {
        return;
      }
      var args := WatcherArgs(eventType, state, path);
      invocations := invocations + [Invocation(callbacks[cbw].jsFunction, args)];
    }

    /** A new NanCallback, at the next address. */
    method AddCallback(reg: Registration) returns (cb: nat)
      requires Valid()
      modifies this`callbacks, this`next
      ensures Valid() && cb == old(next)
      ensures Current() == Registered(old(Current()), reg)
    {
      cb := next;
      callbacks := callbacks[cb := reg];
      next := next + 1;
    }

    /** A `malloc`ed ACL buffer holding `acl`, at the next address. */
    method AddBuffer(acl: seq<Acl>) returns (buffer: nat)
      requires Valid()
      modifies this`buffers, this`next
      ensures Valid() && buffer == old(next)
      ensures Current() == WithBuffer(old(Current()), acl)
    {
      buffer := next;
      buffers := buffers[buffer := acl];
      next := next + 1;
    }

    /** A `malloc`ed `completion_data`, at the next address. */
    method AddContext(cb: nat, tag: int, buffer: Option<nat>) returns (ctx: nat)
      requires Valid()
      requires cb in callbacks && callbacks[cb].kind == Completion
      requires forall c :: c in contexts ==> contexts[c].cb != cb
      requires buffer.Some? <==> tag == SetAclOp
      requires buffer.Some? ==>
        buffer.value in buffers && forall c :: c in contexts ==> contexts[c].buffer != buffer
      modifies this`contexts, this`next
      ensures Valid() && ctx == old(next)
      ensures Current() == WithContext(old(Current()), cb, tag, buffer)
    {
      ctx := next;
      contexts := contexts[ctx := CompletionData(cb, tag, buffer)];
      next := next + 1;
    }

    /** CALLBACK_EPILOG */
    method Deliver(cb: nat, args: seq<Arg>)
      requires Valid() && DirectCallback(Current(), cb)
      modifies this`callbacks, this`invocations
      ensures Valid()
      ensures Current() == Completed(old(Current()), cb, args)
    {
      CompletedKeepsValid(Current(), cb, args);
      invocations := invocations + [Invocation(callbacks[cb].jsFunction, args)];
      callbacks := callbacks - {cb};
    }
  }
}
