/** The web-platform values the farmer-registration code works with: files,
    multipart form data, the loosely typed values a schema is handed, the
    four document slots, and the two JavaScript number conversions the code
    relies on (`String(n)` for integers and `parseInt`). */
module Platform {

  datatype Option<T> = None | Some(value: T)

  datatype Result<T> = Ok(value: T) | Err(message: string)

  /** A browser `File`: only its name matters to the code; the bytes are carried along. */
  datatype File = File(name: string, bytes: seq<bv8>)

  /** One value of a multipart body: a string or a file. */
  datatype Part = TextPart(text: string) | FilePart(file: File)

  /** A `FormData` object: its entries in the order they were appended. */
  type FormData = seq<(string, Part)>

  /** `formData.get(key)`: the first entry with that key, or null (None). */
  function Get(fd: FormData, key: string): (r: Option<Part>)
    ensures r.Some? ==> (key, r.value) in fd
  {
    if fd == [] then None
    else if fd[0].0 == key then Some(fd[0].1)
    else Get(fd[1..], key)
  }

  lemma {:induction false} GetFirst(fd: FormData, key: string, i: nat)
    requires i < |fd| && fd[i].0 == key
    requires forall j :: 0 <= j < i ==> fd[j].0 != key
    ensures Get(fd, key) == Some(fd[i].1)
  {
    if i > 0 {
      GetFirst(fd[1..], key, i - 1);
    }
  }

  lemma {:induction false} GetAbsent(fd: FormData, key: string)
    requires forall j :: 0 <= j < |fd| ==> fd[j].0 != key
    ensures Get(fd, key) == None
  {
    if fd != [] {
      GetAbsent(fd[1..], key);
    }
  }

  /** Entries before the first one with the key do not matter. */
  lemma {:induction false} GetSkip(a: FormData, b: FormData, key: string)
    requires forall j :: 0 <= j < |a| ==> a[j].0 != key
    ensures Get(a + b, key) == Get(b, key)
  {
    if a != [] {
      assert (a + b)[1..] == a[1..] + b;
      GetSkip(a[1..], b, key);
    } else {
      assert a + b == b;
    }
  }

  /** The JavaScript values a schema may be handed. */
  datatype JsValue =
    | Undefined
    | Null
    | Str(s: string)
    | Number(x: real)
    | NaN
    | FileVal(file: File)

  /** A JavaScript `Date`: a time value, or the invalid date `new Date("junk")` gives. */
  datatype JsDate = ValidDate(time: int) | InvalidDate

  /** The four document slots of a registration. */
  datatype Slot = ProfilePic | Aadhar | Land | Bank

  /** The form key under which a slot's file travels. */
  function SlotKey(s: Slot): string
  {
    match s
    case ProfilePic => "profilePic"
    case Aadhar => "aadhar"
    case Land => "land"
    case Bank => "bank"
  }

  /** One value per slot, in the declaration order profilePic, aadhar, land, bank. */
  datatype Documents<T> = Documents(profilePic: T, aadhar: T, land: T, bank: T)
  {
    function At(s: Slot): T
    {
      match s
      case ProfilePic => profilePic
      case Aadhar => aadhar
      case Land => land
      case Bank => bank
    }

    function With(s: Slot, v: T): (d: Documents<T>)
      ensures d.At(s) == v
      ensures forall t :: t != s ==> d.At(t) == At(t)
    {
      match s
      case ProfilePic => this.(profilePic := v)
      case Aadhar => this.(aadhar := v)
      case Land => this.(land := v)
      case Bank => this.(bank := v)
    }
  }

  const AllSlots: seq<Slot> := [ProfilePic, Aadhar, Land, Bank]

  lemma AllSlotsComplete(s: Slot)
    ensures s in AllSlots
  {
  }

  // ---------------------------------------------------------------------------
  // JavaScript string length

  /** A character outside the Basic Multilingual Plane, which JavaScript
      stores as a surrogate pair. */
  predicate IsAstral(c: char) { c as int > 0xFFFF }

  /** `s.length`: UTF-16 code units, two for an astral character. */
  function JsLength(s: string): (n: nat)
    ensures |s| <= n <= 2 * |s|
    ensures n == 0 <==> s == []
  {
    if s == [] then 0 else (if IsAstral(s[0]) then 2 else 1) + JsLength(s[1..])
  }

  /** Without astral characters the JavaScript length is the character count. */
  lemma {:induction false} JsLengthNoAstral(s: string)
    requires forall i :: 0 <= i < |s| ==> !IsAstral(s[i])
    ensures JsLength(s) == |s|
  {
    if s != [] {
      JsLengthNoAstral(s[1..]);
    }
  }

  /** Each astral character counts twice. */
  lemma {:induction false} JsLengthAllAstral(s: string)
    requires forall i :: 0 <= i < |s| ==> IsAstral(s[i])
    ensures JsLength(s) == 2 * |s|
  {
    if s != [] {
      JsLengthAllAstral(s[1..]);
    }
  }

  // ---------------------------------------------------------------------------
  // Decimal rendering and parseInt

  predicate IsDigit(c: char) { '0' <= c <= '9' }

  function DigitChar(d: nat): (c: char)
    requires d < 10
    ensures IsDigit(c)
  {
    ['0','1','2','3','4','5','6','7','8','9'][d]
  }

  function DigitValue(c: char): (d: nat)
    requires IsDigit(c)
    ensures d < 10
  {
    (c as int - '0' as int)
  }

  lemma DigitRoundTrip(d: nat)
    requires d < 10
    ensures DigitValue(DigitChar(d)) == d
  {
  }

  /** `String(n)` for a non-negative integer: its decimal digits, no leading zeros. */
  function NatToString(n: nat): (s: string)
    ensures |s| > 0
    ensures forall i :: 0 <= i < |s| ==> IsDigit(s[i])
    ensures |s| > 1 ==> s[0] != '0'
  {
    if n < 10 then [DigitChar(n)] else NatToString(n / 10) + [DigitChar(n % 10)]
  }

  /** `String(i)` for any integer: a minus sign before a negative one's digits. */
  function IntToString(i: int): (s: string)
    ensures |s| > 0
  {
    if i < 0 then "-" + NatToString(-i) else NatToString(i)
  }

  /** The number a non-empty run of decimal digits denotes. */
  function DigitsValue(ds: string): nat
    requires forall i :: 0 <= i < |ds| ==> IsDigit(ds[i])
  {
    if ds == [] then 0 else DigitsValue(ds[..|ds| - 1]) * 10 + DigitValue(ds[|ds| - 1])
  }

  lemma {:induction false} DigitsOfNat(n: nat)
    ensures DigitsValue(NatToString(n)) == n
  {
    var s := NatToString(n);
    if n >= 10 {
      DigitsOfNat(n / 10);
      assert s[..|s| - 1] == NatToString(n / 10);
      DigitRoundTrip(n % 10);
    } else {
      DigitRoundTrip(n);
    }
  }

  /** The white space and line terminators `parseInt` skips: tab, vertical
      tab, form feed, the byte-order mark, every space separator, line feed,
      carriage return and the two Unicode line terminators. */
  predicate IsJsSpace(c: char)
  {
    || c == '\t' || c == '\U{000B}' || c == '\U{000C}' || c == '\U{FEFF}'
    || c == ' ' || c == '\U{00A0}' || c == '\U{1680}' || ('\U{2000}' <= c <= '\U{200A}')
    || c == '\U{202F}' || c == '\U{205F}' || c == '\U{3000}'
    || c == '\n' || c == '\r' || c == '\U{2028}' || c == '\U{2029}'
  }

  function TrimStart(s: string): (r: string)
    ensures |r| <= |s| && r == s[|s| - |r|..]
    ensures r != [] ==> !IsJsSpace(r[0])
    ensures forall i :: 0 <= i < |s| - |r| ==> IsJsSpace(s[i])
  {
    if s != [] && IsJsSpace(s[0]) then TrimStart(s[1..]) else s
  }

  /** The longest prefix of `s` made of decimal digits. */
  function DigitPrefix(s: string): (r: string)
    ensures |r| <= |s| && r == s[..|r|]
    ensures forall i :: 0 <= i < |r| ==> IsDigit(r[i])
    ensures |r| < |s| ==> !IsDigit(s[|r|])
  {
    if s != [] && IsDigit(s[0]) then [s[0]] + DigitPrefix(s[1..]) else []
  }

  predicate IsHexDigit(c: char) { IsDigit(c) || ('a' <= c <= 'f') || ('A' <= c <= 'F') }

  function HexDigitValue(c: char): (d: nat)
    requires IsHexDigit(c)
    ensures d < 16
  {
    if IsDigit(c) then DigitValue(c)
    else if 'a' <= c <= 'f' then c as int - 'a' as int + 10
    else c as int - 'A' as int + 10
  }

  /** The number a run of hexadecimal digits denotes. */
  function HexValue(ds: string): nat
    requires forall i :: 0 <= i < |ds| ==> IsHexDigit(ds[i])
  {
    if ds == [] then 0 else HexValue(ds[..|ds| - 1]) * 16 + HexDigitValue(ds[|ds| - 1])
  }

  /** The longest prefix of `s` made of hexadecimal digits. */
  function HexPrefix(s: string): (r: string)
    ensures |r| <= |s| && r == s[..|r|]
    ensures forall i :: 0 <= i < |r| ==> IsHexDigit(r[i])
    ensures |r| < |s| ==> !IsHexDigit(s[|r|])
  {
    if s != [] && IsHexDigit(s[0]) then [s[0]] + HexPrefix(s[1..]) else []
  }

  /** Text that starts with `0x` or `0X`, which switches `parseInt` to radix 16. */
  predicate HexPrefixed(u: string)
  {
    |u| >= 2 && u[0] == '0' && (u[1] == 'x' || u[1] == 'X')
  }

  /** `parseInt(s)` with no radix: leading white space is skipped, one sign
      is read, a `0x` prefix selects radix 16 (radix 10 otherwise), then the
      longest run of digits of that radix is read; NaN (None) when the run
      is empty. */
  function ParseInt(s: string): (r: Option<int>)
    ensures r.None? <==> !HasDigits(SignFree(TrimStart(s)))
  {
    ParseSigned(TrimStart(s))
  }

  /** Whether a digit of the selected radix follows the optional prefix. */
  predicate HasDigits(u: string)
  {
    if HexPrefixed(u) then HexPrefix(u[2..]) != [] else DigitPrefix(u) != []
  }

  /** The magnitude `parseInt` reads after the sign. */
  function Magnitude(u: string): (r: Option<nat>)
    ensures r.Some? <==> HasDigits(u)
  {
    if HexPrefixed(u) then
      var hs := HexPrefix(u[2..]);
      if hs == [] then None else Some(HexValue(hs))
    else
      var ds := DigitPrefix(u);
      if ds == [] then None else Some(DigitsValue(ds))
  }

  /** `parseInt` after the white space: an optional sign, then the magnitude. */
  function ParseSigned(t: string): (r: Option<int>)
    ensures r.None? <==> !HasDigits(SignFree(t))
  {
    match Magnitude(SignFree(t))
    case None => None
    case Some(m) => if t[0] == '-' then Some(-(m as int)) else Some(m as int)
  }

  /** The text after an optional leading `+` or `-`. */
  function SignFree(t: string): (r: string)
    ensures r == t || (t != [] && (t[0] == '-' || t[0] == '+') && r == t[1..])
  {
    if t != [] && (t[0] == '-' || t[0] == '+') then t[1..] else t
  }

  lemma AllDigitsPrefix(s: string)
    requires forall i :: 0 <= i < |s| ==> IsDigit(s[i])
    ensures DigitPrefix(s) == s
  {
  }

  lemma NoLeadingSpace(s: string)
    requires s != [] && !IsJsSpace(s[0])
    ensures TrimStart(s) == s
  {
  }

  /** An optional sign followed only by digits reads as their value, negated after `-`. */
  lemma ParseSignedDigits(t: string, ds: string)
    requires SignFree(t) == ds && ds != []
    requires forall i :: 0 <= i < |ds| ==> IsDigit(ds[i])
    ensures ParseSigned(t) == if t[0] == '-' then Some(-(DigitsValue(ds) as int)) else Some(DigitsValue(ds) as int)
  {
    AllDigitsPrefix(ds);
    assert !HexPrefixed(ds) by { if |ds| >= 2 { assert IsDigit(ds[1]); } }
    assert Magnitude(ds) == Some(DigitsValue(ds));
  }

  /** `parseInt` of text with no leading space, one optional sign and then
      only digits. */
  lemma ParseIntOfSigned(s: string, ds: string)
    requires TrimStart(s) == s && SignFree(s) == ds && ds != []
    requires forall i :: 0 <= i < |ds| ==> IsDigit(ds[i])
    ensures ParseInt(s) == if s[0] == '-' then Some(-(DigitsValue(ds) as int)) else Some(DigitsValue(ds) as int)
  {
    ParseSignedDigits(s, ds);
  }

  lemma AllHexPrefix(s: string)
    requires forall i :: 0 <= i < |s| ==> IsHexDigit(s[i])
    ensures HexPrefix(s) == s
  {
  }

  /** The hexadecimal magnitude: a `0x` or `0X` prefix followed only by
      hexadecimal digits reads as their value in radix 16. */
  lemma MagnitudeHex(u: string, hs: string)
    requires HexPrefixed(u) && u[2..] == hs
    requires hs != [] && forall i :: 0 <= i < |hs| ==> IsHexDigit(hs[i])
    ensures Magnitude(u) == Some(HexValue(hs))
  {
    AllHexPrefix(hs);
  }

  /** `parseInt` of one optional sign, a `0x` or `0X` prefix and then only
      hexadecimal digits: their value in radix 16, negated after `-`. */
  lemma ParseIntOfHex(s: string, hs: string)
    requires HexPrefixed(SignFree(s)) && SignFree(s)[2..] == hs
    requires hs != [] && forall i :: 0 <= i < |hs| ==> IsHexDigit(hs[i])
    ensures ParseInt(s) == if s[0] == '-' then Some(-(HexValue(hs) as int)) else Some(HexValue(hs) as int)
  {
    HexTextUntrimmed(s);
    ParseSignedHex(s, hs);
  }

  /** A sign or the `0` of the prefix is not white space. */
  lemma HexTextUntrimmed(s: string)
    requires HexPrefixed(SignFree(s))
    ensures TrimStart(s) == s
  {
    assert s[0] == '-' || s[0] == '+' || s[0] == '0';
    NoLeadingSpace(s);
  }

  lemma ParseSignedHex(t: string, hs: string)
    requires HexPrefixed(SignFree(t)) && SignFree(t)[2..] == hs
    requires hs != [] && forall i :: 0 <= i < |hs| ==> IsHexDigit(hs[i])
    ensures ParseSigned(t) == if t[0] == '-' then Some(-(HexValue(hs) as int)) else Some(HexValue(hs) as int)
  {
    MagnitudeHex(SignFree(t), hs);
    SignedMagnitude(t, HexValue(hs));
  }

  /** Once the magnitude after the sign is known, the sign decides the result. */
  lemma SignedMagnitude(t: string, m: nat)
    requires Magnitude(SignFree(t)) == Some(m)
    ensures t != []
    ensures ParseSigned(t) == if t[0] == '-' then Some(-(m as int)) else Some(m as int)
  {
  }

  /** `parseInt(String(i)) == i`: the server recovers the integer the client sent. */
  lemma ParseIntOfIntToString(i: int)
    ensures ParseInt(IntToString(i)) == Some(i)
  {
    var n: nat := if i < 0 then -i else i;
    var ds := NatToString(n);
    DigitsOfNat(n);
    var s := IntToString(i);
    if i < 0 {
      assert s == "-" + ds;
      NoLeadingSpace(s);
      assert SignFree(s) == ds;
      ParseIntOfSigned(s, ds);
    } else {
      assert s == ds && IsDigit(s[0]);
      NoLeadingSpace(s);
      ParseIntOfSigned(s, ds);
    }
  }

  /** A `0x` prefix reads in radix 16, as for `?page=0x2`; the prefix alone is NaN. */
  lemma ParseIntHex()
    ensures ParseInt("0x2") == Some(2)
    ensures ParseInt("0x") == None
  {
    var t := "0x2";
    assert t[0] == '0' && TrimStart(t) == t;
    assert SignFree(t) == t;
    assert HexPrefixed(t) && t[2..] == "2";
    assert HexPrefix("2") == "2";
    assert HexValue("2") == 2 by { assert "2"[..0] == []; }
    var z := "0x";
    assert z[0] == '0' && TrimStart(z) == z;
    assert SignFree(z) == z;
    assert HexPrefixed(z) && z[2..] == [];
  }

  /** A leading vertical tab is white space to `parseInt`. */
  lemma ParseIntVerticalTab()
    ensures ParseInt("\U{000B}12") == Some(12)
  {
    var s := "\U{000B}12";
    assert s[1..] == "12";
    assert '1' == "12"[0];
    assert !IsJsSpace('1');
    NoLeadingSpace("12");
    ParseIntOfSigned("12", "12");
    assert DigitsValue("12") == 12 by { assert "12"[..1] == "1"; assert "1"[..0] == []; }
  }
}
