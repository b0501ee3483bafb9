/**
 * The two textual encodings of a session's identity in src/node-zk.cpp:
 * the 16-byte password as 32 upper-case hex digits, and the 64-bit session
 * id as lower-case `%llx` text read back with `sscanf("%llx")`.
 *
 * Text handed over by the binding layer is a C string; each `char` of the
 * model stands for one byte of it, read as a signed `char` (as on x86).
 */
module Identity {

  type Byte = bv8

  /** ZOOKEEPER_PASSWORD_BYTE_COUNT */
  const PasswordByteCount: nat := 16

  /** A session password: exactly 16 bytes (`clientid_t.passwd`). */
  type Password = p: seq<Byte> | |p| == PasswordByteCount
    witness [0, 0, 0, 0, 0, 0, 0, 0, 0, 0, 0, 0, 0, 0, 0, 0]

  /** The password bytes of a zeroed `clientid_t`. */
  const ZeroPassword: Password := [0, 0, 0, 0, 0, 0, 0, 0, 0, 0, 0, 0, 0, 0, 0, 0]

  predicate IsUpperHexDigit(h: char) {
    '0' <= h <= '9' || 'A' <= h <= 'F'
  }

  predicate IsLowerHexDigit(h: char) {
    '0' <= h <= '9' || 'a' <= h <= 'f'
  }

  /** The value of a C `char` holding the low byte of `h`, signed. */
  function SignedChar(h: char): (v: int)
    ensures -128 <= v < 128
    ensures h as int < 128 ==> v == h as int
  {
    var b := h as int % 256;
    if b < 128 then b else b - 256
  }

  // ---------------------------------------------------------------------
  // Nibbles and bytes

  /** fourBitsToHex: a nibble as '0'..'9' or 'A'..'F' ('7' + 10 == 'A'). */
  function FourBitsToHex(c: Byte): (h: char)
    requires c < 16
    ensures IsUpperHexDigit(h)
    ensures h <= '9' <==> c <= 9
  {
    if c <= 9 then ('0' as int + c as int) as char else ('7' as int + c as int) as char
  }

  /**
   * hexToFourBits: `h - '0'` up to '9', `h - '7'` above it, truncated to an
   * `unsigned char`. No check is made that `h` is a hex digit: any other
   * character decodes to the low byte of its code, read as a signed `char`,
   * minus '0', or minus '7' above '9', wrapped to a byte; so a lower-case
   * digit 'a'..'f' decodes to 42..47 and a character below '0' wraps above
   * 207.
   */
  function HexToFourBits(h: char): (c: Byte)
    ensures '0' <= h <= '9' ==> c == (h as int - '0' as int) as Byte
    ensures 'A' <= h <= 'F' ==> c == (h as int - 'A' as int + 10) as Byte
  {
    var s := SignedChar(h);
    ((if s <= '9' as int then s - '0' as int else s - '7' as int) % 256) as Byte
  }

  /**
   * Nothing stops a lower-case digit or a character below '0': 'a'..'f'
   * decode to 42..47, and a character below '0' wraps round to 208..255.
   */
  lemma HexToFourBitsOutOfRange(h: char)
    ensures 'a' <= h <= 'f' ==> HexToFourBits(h) == (h as int - 'a' as int + 42) as Byte
    ensures h < '0' ==> HexToFourBits(h) == (h as int - '0' as int + 256) as Byte
  {
  }

  lemma NibbleRoundTrip(c: Byte)
    requires c < 16
    ensures HexToFourBits(FourBitsToHex(c)) == c
  {
  }

  /** Every digit '0'..'9', 'A'..'F' decodes to its place value, which encodes back to it. */
  lemma UpperDigitDecodes(h: char)
    requires IsUpperHexDigit(h)
    ensures HexToFourBits(h) < 16
    ensures FourBitsToHex(HexToFourBits(h)) == h
  {
  }

  /** Conversely, only '0'..'9', 'A'..'F' decode to a nibble that encodes back to them. */
  lemma OnlyUpperDigitsDecode(h: char)
    requires HexToFourBits(h) < 16 && FourBitsToHex(HexToFourBits(h)) == h
    ensures IsUpperHexDigit(h)
  {
  }

  /** ucharToHex: high nibble first, then low nibble. */
  function UcharToHex(c: Byte): (hex: string)
    ensures |hex| == 2 && IsUpperHexDigit(hex[0]) && IsUpperHexDigit(hex[1])
    ensures HexToFourBits(hex[0]) == c >> 4 && HexToFourBits(hex[1]) == c & 0x0F
  {
    var hi := (c & 0xF0) >> 4;
    var lo := c & 0x0F;
    NibbleRoundTrip(hi);
    NibbleRoundTrip(lo);
    [FourBitsToHex(hi), FourBitsToHex(lo)]
  }

  /** hexToUchar: `(hexToFourBits(hex[0]) << 4) | hexToFourBits(hex[1])`, kept to 8 bits. */
  function HexToUchar(h0: char, h1: char): (c: Byte)
    ensures HexToFourBits(h0) < 16 && HexToFourBits(h1) < 16 ==>
      c == 16 * HexToFourBits(h0) + HexToFourBits(h1)
    ensures c >> 4 == (HexToFourBits(h0) & 0x0F) | (HexToFourBits(h1) >> 4)
    ensures c & 0x0F == HexToFourBits(h1) & 0x0F
  {
    (HexToFourBits(h0) << 4) | HexToFourBits(h1)
  }

  lemma ByteRoundTrip(c: Byte)
    ensures HexToUchar(UcharToHex(c)[0], UcharToHex(c)[1]) == c
  {
    var hex := UcharToHex(c);
    assert HexToFourBits(hex[0]) == c >> 4;
    assert HexToFourBits(hex[1]) == c & 0x0F;
    assert ((c >> 4) << 4) | (c & 0x0F) == c;
  }

  // ---------------------------------------------------------------------
  // The session password as hex text

  /** The hex text of a byte sequence: two digits per byte, high nibble first. */
  function PasswordHex(p: seq<Byte>): (s: string)
    ensures |s| == 2 * |p|
    ensures forall i :: 0 <= i < |s| ==> IsUpperHexDigit(s[i])
  {
    if p == [] then [] else UcharToHex(p[0]) + PasswordHex(p[1..])
  }

  /** The bytes of hex text, two characters per byte; the characters are not checked. */
  function PasswordOfHex(h: string): (p: seq<Byte>)
    requires |h| % 2 == 0
    ensures |p| == |h| / 2
  {
    if h == [] then [] else [HexToUchar(h[0], h[1])] + PasswordOfHex(h[2..])
  }

  /** Characters 2k and 2k+1 of the text are the two digits of byte k. */
  lemma {:induction false} PasswordHexAt(p: seq<Byte>, k: nat)
    requires k < |p|
    ensures PasswordHex(p)[2 * k] == UcharToHex(p[k])[0]
    ensures PasswordHex(p)[2 * k + 1] == UcharToHex(p[k])[1]
  {
    if k > 0 {
      PasswordHexAt(p[1..], k - 1);
    }
  }

  /** Byte k is decoded from characters 2k and 2k+1. */
  lemma {:induction false} PasswordOfHexAt(h: string, k: nat)
    requires |h| % 2 == 0 && k < |h| / 2
    ensures PasswordOfHex(h)[k] == HexToUchar(h[2 * k], h[2 * k + 1])
  {
    if k > 0 {
      PasswordOfHexAt(h[2..], k - 1);
    }
  }

  /** Decoding the hex text of a password gives the password back. */
  lemma {:induction false} PasswordRoundTrip(p: seq<Byte>)
    ensures PasswordOfHex(PasswordHex(p)) == p
  {
    if p != [] {
      var s := PasswordHex(p);
      assert s[..2] == UcharToHex(p[0]) && s[2..] == PasswordHex(p[1..]);
      ByteRoundTrip(p[0]);
      PasswordRoundTrip(p[1..]);
    }
  }

  /**
   * PasswordToHexString: fills a 33-byte buffer two digits at a time and
   * NUL-terminates it; the string is the 32 characters before the NUL.
   */
  method PasswordToHexString(p: Password) returns (s: string)
    ensures s == PasswordHex(p)
    ensures |s| == 2 * PasswordByteCount
    ensures PasswordOfHex(s) == p
  {
    var buff := new char[PasswordByteCount * 2 + 1];
    var i := 0;
    while i < PasswordByteCount
      invariant 0 <= i <= PasswordByteCount
      invariant forall k :: 0 <= k < i ==>
        buff[2 * k] == UcharToHex(p[k])[0] && buff[2 * k + 1] == UcharToHex(p[k])[1]
    {
      var hex := UcharToHex(p[i]);
      buff[2 * i] := hex[0];
      buff[2 * i + 1] := hex[1];
      i := i + 1;
    }
    buff[PasswordByteCount * 2] := '\0';
    s := buff[..PasswordByteCount * 2];
    forall j | 0 <= j < |s|
      ensures s[j] == PasswordHex(p)[j]
    {
      PasswordHexAt(p, j / 2);
    }
    PasswordRoundTrip(p);
  }

  /**
   * HexStringToPassword: decodes the first 32 characters, two per byte,
   * into the 16-byte password buffer.
   */
  method HexStringToPassword(hex: string) returns (p: Password)
    requires |hex| == 2 * PasswordByteCount
    ensures p == PasswordOfHex(hex)
  {
    var buf := new Byte[PasswordByteCount];
    var i := 0;
    while i < PasswordByteCount
      invariant 0 <= i <= PasswordByteCount
      invariant forall k :: 0 <= k < i ==> buf[k] == HexToUchar(hex[2 * k], hex[2 * k + 1])
    {
      buf[i] := HexToUchar(hex[2 * i], hex[2 * i + 1]);
      i := i + 1;
    }
    p := buf[..];
    forall k | 0 <= k < PasswordByteCount
      ensures p[k] == PasswordOfHex(hex)[k]
    {
      PasswordOfHexAt(hex, k);
    }
  }

  // ---------------------------------------------------------------------
  // The session id as `%llx` text

  const Two63: int := 0x8000_0000_0000_0000
  const Two64: int := 0x1_0000_0000_0000_0000

  /** The range of `int64_t` (and `long long`). */
  predicate IsInt64(x: int) {
    -Two63 <= x < Two63
  }

  /** The `unsigned long long` with the same bits as a signed 64-bit value. */
  function Unsigned64(x: int): (u: nat)
    requires IsInt64(x)
    ensures u < Two64 && (u - x) % Two64 == 0
  {
    if x < 0 then x + Two64 else x
  }

  /** The `long long` that has the bits of an unsigned 64-bit value. */
  function Signed64(u: int): (x: int)
    requires 0 <= u < Two64
    ensures IsInt64(x) && (u - x) % Two64 == 0
  {
    if u < Two63 then u else u - Two64
  }

  predicate IsHexDigit(h: char) {
    '0' <= h <= '9' || 'a' <= h <= 'f' || 'A' <= h <= 'F'
  }

  /** The digit `%x` prints for a value below 16. */
  function LowerHexDigit(d: nat): (h: char)
    requires d < 16
    ensures IsLowerHexDigit(h) && IsHexDigit(h)
    ensures h == '0' <==> d == 0
  {
    if d < 10 then ('0' as int + d) as char else ('a' as int + d - 10) as char
  }

  /** The value `%x` reads for a digit of either case. */
  function HexDigitValue(h: char): (d: nat)
    requires IsHexDigit(h)
    ensures d < 16
  {
    if h <= '9' then h as int - '0' as int
    else if h <= 'F' then h as int - 'A' as int + 10
    else h as int - 'a' as int + 10
  }

  lemma DigitRoundTrip(d: nat)
    requires d < 16
    ensures HexDigitValue(LowerHexDigit(d)) == d
  {
  }

  /** `%llx` of an unsigned value: lower-case digits, no leading zero except for 0 itself. */
  function LowerHex(u: nat): (s: string)
    ensures |s| >= 1
    ensures forall i :: 0 <= i < |s| ==> IsLowerHexDigit(s[i]) && IsHexDigit(s[i])
    ensures s[0] == '0' ==> u == 0 && |s| == 1
    decreases u
  {
    if u < 16 then [LowerHexDigit(u)] else LowerHex(u / 16) + [LowerHexDigit(u % 16)]
  }

  /** The number a string of hex digits denotes, most significant digit first. */
  function HexValue(d: string): nat
    requires forall i :: 0 <= i < |d| ==> IsHexDigit(d[i])
  {
    if d == [] then 0 else HexValue(d[..|d| - 1]) * 16 + HexDigitValue(d[|d| - 1])
  }

  lemma {:induction false} HexValueOfLowerHex(u: nat)
    ensures HexValue(LowerHex(u)) == u
    decreases u
  {
    var s := LowerHex(u);
    if u < 16 {
      assert s[..0] == [];
      DigitRoundTrip(u);
    } else {
      assert s[..|s| - 1] == LowerHex(u / 16);
      HexValueOfLowerHex(u / 16);
      DigitRoundTrip(u % 16);
    }
  }

  /**
   * idAsString: the id cast to `long long` and printed with `%llx`, which
   * shows the 64 bits as an unsigned number.
   */
  function IdAsString(id: int): (s: string)
    requires IsInt64(id)
    ensures |s| >= 1 && forall i :: 0 <= i < |s| ==> IsLowerHexDigit(s[i]) && IsHexDigit(s[i])
    ensures HexValue(s) == Unsigned64(id)
  {
    HexValueOfLowerHex(Unsigned64(id));
    LowerHex(Unsigned64(id))
  }

  /** The characters `isspace` accepts in the C locale. */
  predicate IsSpace(c: char) {
    c == ' ' || '\t' <= c <= '\r'
  }

  function SkipSpace(s: string): (t: string)
    ensures |t| <= |s| && t == s[|s| - |t|..]
    ensures |t| > 0 ==> !IsSpace(t[0])
  {
    if s != [] && IsSpace(s[0]) then SkipSpace(s[1..]) else s
  }

  /** The longest prefix of hex digits, the digits `%llx` consumes. */
  function HexRun(s: string): (d: string)
    ensures |d| <= |s| && d == s[..|d|]
    ensures forall i :: 0 <= i < |d| ==> IsHexDigit(d[i])
    ensures |d| < |s| ==> !IsHexDigit(s[|d|])
  {
    if s == [] || !IsHexDigit(s[0]) then [] else [s[0]] + HexRun(s[1..])
  }

  lemma {:induction false} HexRunOfDigits(s: string)
    requires forall i :: 0 <= i < |s| ==> IsHexDigit(s[i])
    ensures HexRun(s) == s
  {
    if s != [] {
      HexRunOfDigits(s[1..]);
    }
  }

  /**
   * StringToId: `sscanf(s, "%llx", &id)` read as `strtoull` does: leading
   * white space, an optional sign, an optional `0x`/`0X` before a digit,
   * then the longest run of hex digits of either case. A value beyond 64
   * bits saturates to all ones; a minus sign negates modulo 2^64. With no
   * digit the conversion fails and `id` keeps its prior value.
   */
  function StringToId(s: string, prior: int): (id: int)
    requires IsInt64(prior)
    ensures IsInt64(id)
    ensures (forall i :: 0 <= i < |s| ==> !IsHexDigit(s[i])) ==> id == prior
  {
    var t := SkipSpace(s);
    var neg := |t| > 0 && t[0] == '-';
    var u := if |t| > 0 && (t[0] == '-' || t[0] == '+') then t[1..] else t;
    var body := if |u| >= 3 && u[0] == '0' && (u[1] == 'x' || u[1] == 'X') && IsHexDigit(u[2])
                then u[2..] else u;
    var digits := HexRun(body);
    if digits == [] then prior
    else
      var v := HexValue(digits);
      if v >= Two64 then Signed64(Two64 - 1)
      else Signed64(if neg then (Two64 - v) % Two64 else v)
  }

  /** Reading back the `%llx` text of an id gives the id, bit for bit. */
  lemma IdRoundTrip(id: int, prior: int)
    requires IsInt64(id) && IsInt64(prior)
    ensures StringToId(IdAsString(id), prior) == id
  {
    var s := IdAsString(id);
    assert SkipSpace(s) == s;
    HexRunOfDigits(s);
  }

  /** Two ids print as the same text exactly when they are the same id. */
  lemma IdTextInjective(a: int, b: int)
    requires IsInt64(a) && IsInt64(b)
    ensures IdAsString(a) == IdAsString(b) <==> a == b
  {
    if IdAsString(a) == IdAsString(b) {
      IdRoundTrip(a, 0);
      IdRoundTrip(b, 0);
    }
  }
}
