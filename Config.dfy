/**
 * The checks `Init` makes on its options object before it asks the C
 * library for a session handle (src/node-zk.cpp, `Init`).
 */
module Config {
  import opened Wrappers
  import opened Identity

  type SessionId = x: int | IsInt64(x)

  /** `clientid_t`: the session id and its password. */
  datatype ClientId = ClientId(id: SessionId, passwd: Password)

  /** The zeroed `clientid_t` that asks the library for a new session. */
  const ZeroClient := ClientId(0, ZeroPassword)

  const DefaultSessionTimeout: int := 20000

  /**
   * The options object, after the binding's conversions: `timeout` and
   * `debugLevel` are the `ToInt32` values, `connect` the ASCII text. An
   * identity field is `None` when the property is undefined and otherwise
   * holds the property converted to a string (so `null` becomes "null").
   */
  datatype InitOptions = InitOptions(
    connect: string,
    timeout: int,
    debugLevel: int,
    hostOrderDeterministic: bool,
    clientId: Option<string>,
    clientPassword: Option<string>)

  /** The two errors `Init` throws about the identity options. */
  datatype InitError = IdentityMismatch | BadPasswordLength

  /** What `Init` hands to `realInit`: host list, session timeout and client id. */
  datatype InitPlan = InitPlan(hostPort: string, sessionTimeout: int, client: ClientId)

  /** A session timeout of 0 stands for the default of 20000 ms. */
  function SessionTimeout(timeout: int): (ms: int)
    ensures timeout == 0 ==> ms == DefaultSessionTimeout
    ensures timeout != 0 ==> ms == timeout
  {
    if timeout == 0 then DefaultSessionTimeout else timeout
  }

  /**
   * Init's validation: id and password must be both defined or both
   * undefined, a defined password must be 32 characters long, and then the
   * password is decoded (without checking its characters) and the id read
   * with `%llx` into a zeroed `clientid_t`.
   */
  function ValidateInit(o: InitOptions): (r: Result<InitPlan, InitError>)
    ensures r == Failure(IdentityMismatch) <==> o.clientId.Some? != o.clientPassword.Some?
    ensures r == Failure(BadPasswordLength) <==>
      o.clientId.Some? && o.clientPassword.Some? && |o.clientPassword.value| != 2 * PasswordByteCount
    ensures r.Success? ==>
      r.value.hostPort == o.connect && r.value.sessionTimeout == SessionTimeout(o.timeout)
    ensures r.Success? && o.clientId.None? ==> r.value.client == ZeroClient
    ensures r.Success? && o.clientId.Some? ==>
      r.value.client.id == StringToId(o.clientId.value, 0) &&
      r.value.client.passwd == PasswordOfHex(o.clientPassword.value)
  {
    if o.clientId.Some? != o.clientPassword.Some? then Failure(IdentityMismatch)
    else if o.clientId.None? then Success(InitPlan(o.connect, SessionTimeout(o.timeout), ZeroClient))
    else if |o.clientPassword.value| != 2 * PasswordByteCount then Failure(BadPasswordLength)
    else Success(InitPlan(o.connect, SessionTimeout(o.timeout),
                          DecodeClient(o.clientId.value, o.clientPassword.value)))
  }

  /** HexStringToPassword and StringToId into a zeroed `clientid_t`. */
  function DecodeClient(id: string, password: string): (c: ClientId)
    requires |password| == 2 * PasswordByteCount
    ensures c.id == StringToId(id, 0) && c.passwd == PasswordOfHex(password)
  {
    ClientId(StringToId(id, 0), PasswordOfHex(password))
  }

  /** Decoding the printed id and password of a client gives that client back. */
  lemma {:induction false} DecodeClientInverse(c: ClientId)
    ensures DecodeClient(IdAsString(c.id), PasswordHex(c.passwd)) == c
  {
    IdRoundTrip(c.id, 0);
    PasswordRoundTrip(c.passwd);
  }

  /**
   * Handing back the `client_id` and `client_password` texts of a session
   * (as the property getters print them) resumes exactly that session.
   */
  lemma ResumeSession(connect: string, timeout: int, debugLevel: int, order: bool, c: ClientId)
    ensures ValidateInit(InitOptions(connect, timeout, debugLevel, order,
              Some(IdAsString(c.id)), Some(PasswordHex(c.passwd))))
            == Success(InitPlan(connect, SessionTimeout(timeout), c))
  {
    IdRoundTrip(c.id, 0);
    PasswordRoundTrip(c.passwd);
  }

  /**
   * The password check looks only at the length, so lower-case text is
   * accepted and can decode to another byte: "0a" reads as 0x2A, "0A" as 0x0A.
   */
  lemma LowerCaseDigitsMisread()
    ensures HexToUchar('0', 'a') == 0x2A && HexToUchar('0', 'A') == 0x0A
  {
  }
}
