/** The text the session manager keeps under the storage key `user`:
    `JSON.stringify` of the profile record, and `JSON.parse` reading it back.
    `Parse` accepts the layout `Serialize` writes (fields in that order, no
    white space); it is the part of `JSON.parse` the session manager relies on. */
module Json {
  import opened Wrappers
  import opened Records

  predicate IsDigit(c: char)
  {
    '0' <= c <= '9'
  }

  predicate AllDigits(s: string)
  {
    forall i :: 0 <= i < |s| ==> IsDigit(s[i])
  }

  function DigitChar(d: nat): (c: char)
    requires d < 10
    ensures IsDigit(c) && c as int - '0' as int == d
  {
    ('0' as int + d) as char
  }

  /** The decimal numeral of `n`, most significant digit first. */
  function Decimal(n: nat): (s: string)
    ensures |s| >= 1 && AllDigits(s)
  {
    if n < 10 then [DigitChar(n)] else Decimal(n / 10) + [DigitChar(n % 10)]
  }

  /** The number a run of decimal digits denotes. */
  function DigitsValue(s: string): nat
    requires AllDigits(s)
  {
    if s == [] then 0
    else 10 * DigitsValue(s[..|s| - 1]) + (s[|s| - 1] as int - '0' as int)
  }

  lemma {:induction false} DecimalValue(n: nat)
    ensures DigitsValue(Decimal(n)) == n
  {
    if n >= 10 {
      DecimalValue(n / 10);
      var s := Decimal(n);
      assert s[..|s| - 1] == Decimal(n / 10);
    }
  }

  /** Length of the run of digits at the start of `t`. */
  function DigitSpan(t: string): (k: nat)
    ensures k <= |t| && AllDigits(t[..k])
    ensures k < |t| ==> !IsDigit(t[k])
  {
    if t != [] && IsDigit(t[0]) then
      var k := 1 + DigitSpan(t[1..]);
      assert t[..k] == [t[0]] + t[1..][..k - 1];
      k
    else 0
  }

  lemma {:induction false} DigitSpanOf(p: string, rest: string)
    requires AllDigits(p)
    requires rest == [] || !IsDigit(rest[0])
    ensures DigitSpan(p + rest) == |p|
  {
    if p != [] {
      assert (p + rest)[1..] == p[1..] + rest;
      DigitSpanOf(p[1..], rest);
    }
  }

  /** Reads a JSON number (a non-empty run of digits) at the start of `t`. */
  function ParseNat(t: string): (r: Option<(nat, string)>)
    ensures r.Some? ==> |r.value.1| < |t|
  {
    var k := DigitSpan(t);
    if k == 0 then None else Some((DigitsValue(t[..k]), t[k..]))
  }

  lemma NatRoundTrip(n: nat, rest: string)
    requires rest == [] || !IsDigit(rest[0])
    ensures ParseNat(Decimal(n) + rest) == Some((n, rest))
  {
    var d := Decimal(n);
    DigitSpanOf(d, rest);
    DecimalValue(n);
    assert (d + rest)[..|d|] == d;
    assert (d + rest)[|d|..] == rest;
  }

  /** The characters of a JSON string body: `"` and `\` are preceded by `\`. */
  function Escape(s: string): string
  {
    if s == [] then []
    else (if s[0] == '"' || s[0] == '\\' then ['\\', s[0]] else [s[0]]) + Escape(s[1..])
  }

  /** A JSON string literal. */
  function Quote(s: string): string
  {
    "\"" + Escape(s) + "\""
  }

  /** Reads a string body up to its closing quote: the decoded text, and what
      follows the quote. Escapes other than `\"` and `\\` are refused. */
  function ScanString(t: string): Option<(string, string)>
  {
    if t == [] then None
    else if t[0] == '"' then Some(([], t[1..]))
    else if t[0] == '\\' then
      if |t| >= 2 && (t[1] == '"' || t[1] == '\\') then
        var r :- ScanString(t[2..]);
        Some(([t[1]] + r.0, r.1))
      else None
    else
      var r :- ScanString(t[1..]);
      Some(([t[0]] + r.0, r.1))
  }

  function ParseString(t: string): Option<(string, string)>
  {
    if t != [] && t[0] == '"' then ScanString(t[1..]) else None
  }

  lemma {:induction false} ScanEscaped(s: string, rest: string)
    ensures ScanString(Escape(s) + "\"" + rest) == Some((s, rest))
  {
    if s == [] {
      assert Escape(s) + "\"" + rest == "\"" + rest;
    } else {
      ScanEscaped(s[1..], rest);
      var t := Escape(s) + "\"" + rest;
      if s[0] == '"' || s[0] == '\\' {
        assert t == ['\\', s[0]] + (Escape(s[1..]) + "\"" + rest);
        assert t[2..] == Escape(s[1..]) + "\"" + rest;
      } else {
        assert t == [s[0]] + (Escape(s[1..]) + "\"" + rest);
        assert t[1..] == Escape(s[1..]) + "\"" + rest;
      }
      assert [s[0]] + s[1..] == s;
    }
  }

  lemma StringRoundTrip(s: string, rest: string)
    ensures ParseString(Quote(s) + rest) == Some((s, rest))
  {
    var t := Quote(s) + rest;
    assert t[0] == '"';
    assert t[1..] == Escape(s) + "\"" + rest;
    ScanEscaped(s, rest);
  }

  /** `t` starts with `lit`: what follows it. */
  function Expect(lit: string, t: string): (r: Option<string>)
    ensures r.Some? ==> t == lit + r.value
  {
    if |lit| <= |t| && t[..|lit|] == lit then Some(t[|lit|..]) else None
  }

  lemma ExpectLiteral(lit: string, rest: string)
    ensures Expect(lit, lit + rest) == Some(rest)
  {
    assert (lit + rest)[..|lit|] == lit;
    assert (lit + rest)[|lit|..] == rest;
  }

  function ParseBool(t: string): Option<(bool, string)>
  {
    match Expect("true", t)
    case Some(r) => Some((true, r))
    case None =>
      var r :- Expect("false", t);
      Some((false, r))
  }

  function BoolText(b: bool): string
  {
    if b then "true" else "false"
  }

  lemma BoolRoundTrip(b: bool, rest: string)
    ensures ParseBool(BoolText(b) + rest) == Some((b, rest))
  {
    ExpectLiteral(BoolText(b), rest);
    if !b {
      assert ("false" + rest)[0] == 'f';
    }
  }

  /** `JSON.stringify(u)`: an object, written between braces. */
  function Serialize(u: UserRecord): (t: string)
    ensures |t| >= 2 && t[0] == '{' && t[|t| - 1] == '}'
  {
    "{\"id\":" + (Decimal(u.id) +
    (",\"username\":" + (Quote(u.username) +
    (",\"email\":" + (Quote(u.email) +
    (",\"full_name\":" + (Quote(u.fullName) +
    (",\"is_active\":" + (BoolText(u.isActive) +
    (",\"role\":" + (Quote(u.role) + "}")))))))))))
  }

  /** `JSON.parse(t)` for the layout `Serialize` writes; None for anything else. */
  function Parse(t: string): (r: Option<UserRecord>)
    ensures r.Some? ==> |t| >= 6 && t[..6] == "{\"id\":"
  {
    var t0 :- Expect("{\"id\":", t);
    var id :- ParseNat(t0);
    var t1 :- Expect(",\"username\":", id.1);
    var username :- ParseString(t1);
    var t2 :- Expect(",\"email\":", username.1);
    var email :- ParseString(t2);
    var t3 :- Expect(",\"full_name\":", email.1);
    var fullName :- ParseString(t3);
    var t4 :- Expect(",\"is_active\":", fullName.1);
    var isActive :- ParseBool(t4);
    var t5 :- Expect(",\"role\":", isActive.1);
    var role :- ParseString(t5);
    if role.1 == "}" then
      Some(UserRecord(id.0, username.0, email.0, fullName.0, isActive.0, role.0))
    else None
  }

  /** What is stored can be read back: `JSON.parse(JSON.stringify(u))` is `u`. */
  lemma ParseSerialize(u: UserRecord)
    ensures Parse(Serialize(u)) == Some(u)
  {
    var r6 := ",\"role\":" + (Quote(u.role) + "}");
    var r5 := ",\"is_active\":" + (BoolText(u.isActive) + r6);
    var r4 := ",\"full_name\":" + (Quote(u.fullName) + r5);
    var r3 := ",\"email\":" + (Quote(u.email) + r4);
    var r2 := ",\"username\":" + (Quote(u.username) + r3);
    ExpectLiteral("{\"id\":", Decimal(u.id) + r2);
    NatRoundTrip(u.id, r2);
    ExpectLiteral(",\"username\":", Quote(u.username) + r3);
    StringRoundTrip(u.username, r3);
    ExpectLiteral(",\"email\":", Quote(u.email) + r4);
    StringRoundTrip(u.email, r4);
    ExpectLiteral(",\"full_name\":", Quote(u.fullName) + r5);
    StringRoundTrip(u.fullName, r5);
    ExpectLiteral(",\"is_active\":", BoolText(u.isActive) + r6);
    BoolRoundTrip(u.isActive, r6);
    ExpectLiteral(",\"role\":", Quote(u.role) + "}");
    StringRoundTrip(u.role, "}");
  }

  /** The stored text is never empty, so `localStorage.getItem('user')` is truthy
      after it is written. */
  lemma SerializeNonEmpty(u: UserRecord)
    ensures Serialize(u) != ""
  {
    assert Serialize(u)[0] == '{';
  }
}
