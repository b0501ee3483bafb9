/**
 * The conversions between the C client's records and the JavaScript values
 * the binding hands out or reads back (src/node-zk.cpp): `createStatObject`,
 * `createAclObject`, `createAclVector`, and the `ToUint32` reading of
 * numeric arguments that are then stored in C `int` fields.
 */
module Marshal {
  import opened Identity
  import opened Config

  const Two31: int := 0x8000_0000
  const Two32: int := 0x1_0000_0000

  predicate IsInt32(x: int) {
    -Two31 <= x < Two31
  }

  /** ECMAScript ToUint32 of an integral number: the residue modulo 2^32. */
  function ToUint32(n: int): (u: nat)
    ensures u < Two32
    ensures (u - n) % Two32 == 0
  {
    n % Two32
  }

  /** Storing a `uint32_t` in an `int`: two's complement reinterpretation. */
  function AsInt32(u: nat): (x: int)
    requires u < Two32
    ensures IsInt32(x)
    ensures x == u || x == u - Two32
  {
    if u < Two31 then u else u - Two32
  }

  /**
   * A JavaScript number read with `ToUint32` and stored in an `int`
   * (versions, create flags, ACL perms): congruent to the number modulo
   * 2^32, and the number itself when it already fits in 32 signed bits,
   * so the "any version" value -1 passes through.
   */
  function LibraryInt(n: int): (v: int)
    ensures IsInt32(v)
    ensures (v - n) % Two32 == 0
    ensures IsInt32(n) ==> v == n
  {
    AsInt32(ToUint32(n))
  }

  /** A version read back into JavaScript reads again as the same `int`. */
  lemma LibraryIntIdempotent(n: int)
    ensures LibraryInt(LibraryInt(n)) == LibraryInt(n)
  {
  }

  // ---------------------------------------------------------------------
  // Stat

  /** `struct Stat`, without the `ctime`/`mtime` timestamps. */
  datatype Stat = Stat(
    czxid: int, mzxid: int, pzxid: int,
    dataLength: int, numChildren: int,
    version: int, cversion: int, aversion: int,
    ephemeralOwner: SessionId)

  /** The read-only JavaScript stat object. */
  datatype StatObject = StatObject(
    czxid: int, mzxid: int, pzxid: int,
    dataLength: int, numChildren: int,
    version: int, cversion: int, aversion: int,
    ephemeralOwner: string, createdInThisSession: bool)

  /**
   * createStatObject: the counters copied, the owner as `%llx` text that
   * reads back as the owner, and `createdInThisSession` exactly when the
   * owner is this session's id.
   */
  function CreateStatObject(stat: Stat, myid: SessionId): (o: StatObject)
    ensures o.createdInThisSession <==> stat.ephemeralOwner == myid
    ensures StringToId(o.ephemeralOwner, 0) == stat.ephemeralOwner
    ensures o.ephemeralOwner == IdAsString(stat.ephemeralOwner)
    ensures o.czxid == stat.czxid && o.mzxid == stat.mzxid && o.pzxid == stat.pzxid
    ensures o.dataLength == stat.dataLength && o.numChildren == stat.numChildren
    ensures o.version == stat.version && o.cversion == stat.cversion && o.aversion == stat.aversion
  {
    IdRoundTrip(stat.ephemeralOwner, 0);
    StatObject(stat.czxid, stat.mzxid, stat.pzxid, stat.dataLength, stat.numChildren,
               stat.version, stat.cversion, stat.aversion,
               IdAsString(stat.ephemeralOwner), myid == stat.ephemeralOwner)
  }

  /**
   * The owner text equals the `%llx` text of a session id exactly when the
   * node is owned by that session, so comparing the two strings compares ids.
   */
  lemma OwnerTextNamesOwner(stat: Stat, myid: SessionId, id: SessionId)
    ensures CreateStatObject(stat, myid).ephemeralOwner == IdAsString(id) <==> stat.ephemeralOwner == id
  {
    IdTextInjective(stat.ephemeralOwner, id);
  }

  /**
   * A persistent node (owner 0) shows owner "0" and counts as created in
   * this session only while the session id is still 0.
   */
  lemma PersistentNodeOwner(stat: Stat, myid: SessionId)
    requires stat.ephemeralOwner == 0
    ensures CreateStatObject(stat, myid).ephemeralOwner == "0"
    ensures CreateStatObject(stat, myid).createdInThisSession <==> myid == 0
  {
  }

  // ---------------------------------------------------------------------
  // ACL

  /** `struct ACL`: `int32` perms and the `struct Id` scheme and id. */
  datatype Acl = Acl(perms: int, scheme: string, id: string)

  /** The JavaScript ACL entry, both as handed out and as read back. */
  datatype AclObject = AclObject(perms: int, scheme: string, auth: string)

  const PermAll: int := 31

  /** ZOO_OPEN_ACL_UNSAFE: everyone may do everything. */
  const OpenAclUnsafe: seq<Acl> := [Acl(PermAll, "world", "anyone")]

  predicate PermsFitInt32(acl: seq<Acl>) {
    forall i :: 0 <= i < |acl| ==> IsInt32(acl[i].perms)
  }

  /** createAclObject: one object per entry, in order, with the same fields. */
  function CreateAclObject(acl: seq<Acl>): (arr: seq<AclObject>)
    ensures |arr| == |acl|
    ensures forall i :: 0 <= i < |acl| ==>
      arr[i].perms == acl[i].perms && arr[i].scheme == acl[i].scheme && arr[i].auth == acl[i].id
  {
    if acl == [] then []
    else CreateAclObject(acl[..|acl| - 1]) + [AclObject(acl[|acl| - 1].perms, acl[|acl| - 1].scheme, acl[|acl| - 1].id)]
  }

  /** The entry createAclVector builds from one JavaScript object. */
  function AclOf(obj: AclObject): Acl {
    Acl(LibraryInt(obj.perms), obj.scheme, obj.auth)
  }

  /**
   * The vector createAclVector builds: one entry per object, in order,
   * perms read through ToUint32 into an `int`.
   */
  function AclVector(arr: seq<AclObject>): (acl: seq<Acl>)
    ensures |acl| == |arr|
    ensures PermsFitInt32(acl)
    ensures forall i :: 0 <= i < |arr| ==> acl[i] == AclOf(arr[i])
  {
    if arr == [] then []
    else AclVector(arr[..|arr| - 1]) + [AclOf(arr[|arr| - 1])]
  }

  /** createAclVector: fill a zeroed buffer of `count` entries, index by index. */
  method CreateAclVector(arr: seq<AclObject>) returns (acl: seq<Acl>)
    ensures acl == AclVector(arr)
  {
    var data := new Acl[|arr|](_ => Acl(0, "", ""));
    var i := 0;
    while i < |arr|
      invariant 0 <= i <= |arr|
      invariant forall k :: 0 <= k < i ==> data[k] == AclOf(arr[k])
    {
      var perms := ToUint32(arr[i].perms);
      data[i] := Acl(AsInt32(perms), arr[i].scheme, arr[i].auth);
      i := i + 1;
    }
    acl := data[..];
  }

  /** An ACL list handed out and written back unchanged yields the same vector. */
  lemma AclRoundTrip(acl: seq<Acl>)
    requires PermsFitInt32(acl)
    ensures AclVector(CreateAclObject(acl)) == acl
  {
  }

  /** An ACL list written and read back yields the same objects, when the perms fit. */
  lemma AclObjectRoundTrip(arr: seq<AclObject>)
    requires forall i :: 0 <= i < |arr| ==> IsInt32(arr[i].perms)
    ensures CreateAclObject(AclVector(arr)) == arr
  {
  }
}
