/**
 * Values shared by every component of the feedback front end: optional values,
 * the abstracted result of an HTTP request, the notification record the forms
 * display, and the few JavaScript string operations the components rely on
 * (`\s` and `trim()`, `parseInt`, decimal rendering, `a || b` on strings).
 */
module Common {

  datatype Option<T> = None | Some(value: T)

  /** What a request to the backend ends in, once the network is abstracted away:
      a 2xx response carrying `data`, a response with an error status carrying the
      message the component reads from it ("" when it carries none), or no response. */
  datatype Outcome<T> = Ok(data: T) | ServerError(message: string) | NetworkError

  /** The `type` of a `{type, message}` notification: '' , 'success' or 'error'. */
  datatype NoticeKind = Unset | Success | Error

  datatype Notice = Notice(kind: NoticeKind, message: string)

  /** The initial `{ type: '', message: '' }` notification. */
  const NoNotice := Notice(Unset, "")

  /** JavaScript's `s || fallback` for a string `s`: the empty string is falsy. */
  function OrElse(s: string, fallback: string): (r: string)
    ensures s != "" ==> r == s
    ensures s == "" ==> r == fallback
    ensures r == "" <==> s == "" && fallback == ""
  {
    if s != "" then s else fallback
  }

  /** `error.response?.data || fallback`: the server's text when there is a
      non-empty one, the fallback otherwise. */
  function FailureText<T>(outcome: Outcome<T>, fallback: string): (text: string)
    requires !outcome.Ok?
    ensures outcome.ServerError? && outcome.message != "" ==> text == outcome.message
    ensures outcome.NetworkError? || outcome.message == "" ==> text == fallback
  {
    if outcome.ServerError? then OrElse(outcome.message, fallback) else fallback
  }

  /** A toast notification of the react-toastify library. */
  datatype Toast = SuccessToast(text: string) | ErrorToast(text: string)

  /** The code points JavaScript's `\s` and `String.prototype.trim` treat as white
      space: the WhiteSpace and LineTerminator productions of ECMAScript. */
  predicate IsWhitespace(c: char)
  {
    c == ' ' || c == '\t' || c == '\n' || c == '\r' || c == '\U{000B}' || c == '\U{000C}'
    || c == '\U{00A0}' || c == '\U{1680}' || ('\U{2000}' <= c <= '\U{200A}')
    || c == '\U{2028}' || c == '\U{2029}' || c == '\U{202F}' || c == '\U{205F}'
    || c == '\U{3000}' || c == '\U{FEFF}'
  }

  predicate IsDigit(c: char)
  {
    '0' <= c <= '9'
  }

  predicate AllWhitespace(s: string)
  {
    forall i :: 0 <= i < |s| ==> IsWhitespace(s[i])
  }

  predicate AllDigits(s: string)
  {
    forall i :: 0 <= i < |s| ==> IsDigit(s[i])
  }

  /** Drops the leading white space of `s` (`trimStart`). */
  function TrimStart(s: string): (r: string)
    ensures |r| <= |s| && r == s[|s| - |r|..]
    ensures r == "" <==> AllWhitespace(s)
    ensures r != "" ==> !IsWhitespace(r[0])
  {
    if |s| > 0 && IsWhitespace(s[0]) then TrimStart(s[1..]) else s
  }

  /** Drops the trailing white space of `s` (`trimEnd`). */
  function TrimEnd(s: string): (r: string)
    ensures |r| <= |s| && r == s[..|r|]
    ensures r == "" <==> AllWhitespace(s)
    ensures r != "" ==> !IsWhitespace(r[|r| - 1])
  {
    if |s| > 0 && IsWhitespace(s[|s| - 1]) then TrimEnd(s[..|s| - 1]) else s
  }

  /** `s.trim()`: empty exactly when `s` holds nothing but white space. */
  function Trim(s: string): (r: string)
    ensures r == "" <==> AllWhitespace(s)
    ensures r != "" ==> !IsWhitespace(r[0]) && !IsWhitespace(r[|r| - 1])
  {
    var t := TrimStart(s);
    assert t == "" <==> AllWhitespace(s);
    TrimEnd(t)
  }

  function DigitValue(c: char): nat
    requires IsDigit(c)
  {
    c as int - '0' as int
  }

  function DigitChar(d: nat): (c: char)
    requires d < 10
    ensures IsDigit(c) && DigitValue(c) == d
  {
    ('0' as int + d) as char
  }

  /** The number a string of decimal digits denotes. */
  function DigitsValue(d: string): nat
    requires AllDigits(d)
  {
    if d == [] then 0 else DigitsValue(d[..|d| - 1]) * 10 + DigitValue(d[|d| - 1])
  }

  /** `String(n)` for a natural number: its decimal digits, without leading zeros. */
  function NatToString(n: nat): (s: string)
    ensures |s| > 0 && AllDigits(s)
    ensures s[0] == '0' ==> n == 0
  {
    if n < 10 then [DigitChar(n)] else NatToString(n / 10) + [DigitChar(n % 10)]
  }

  lemma {:induction false} NatToStringRoundTrip(n: nat)
    ensures DigitsValue(NatToString(n)) == n
  {
    if n >= 10 {
      var s := NatToString(n);
      NatToStringRoundTrip(n / 10);
      assert s[..|s| - 1] == NatToString(n / 10);
    }
  }

  /** The length of the longest prefix of `s` made of decimal digits. */
  function DigitPrefixLength(s: string): (n: nat)
    ensures n <= |s| && AllDigits(s[..n])
    ensures n < |s| ==> !IsDigit(s[n])
  {
    if |s| > 0 && IsDigit(s[0]) then
      var m := DigitPrefixLength(s[1..]);
      assert s[..m + 1] == [s[0]] + s[1..][..m];
      m + 1
    else 0
  }

  /** JavaScript's `parseInt(s)` in base 10: leading white space is skipped, one
      optional sign is read, then the longest run of digits; `None` stands for NaN,
      the result when that run is empty. */
  function ParseInt(s: string): Option<int>
  {
    ParseSigned(TrimStart(s))
  }

  /** `parseInt` once the leading white space is gone. */
  function ParseSigned(t: string): Option<int>
  {
    if |t| > 0 && t[0] == '-' then
      match ParseDigits(t[1..])
      case None => None
      case Some(v) => Some(0 - v)
    else if |t| > 0 && t[0] == '+' then ParseDigits(t[1..])
    else ParseDigits(t)
  }

  /** The value of the digits `body` starts with, or `None` when it starts with none. */
  function ParseDigits(body: string): (r: Option<int>)
    ensures r.Some? ==> r.value >= 0
    ensures r.None? <==> (body == [] || !IsDigit(body[0]))
  {
    var n := DigitPrefixLength(body);
    if n == 0 then None else Some(DigitsValue(body[..n]))
  }

  lemma DigitIsNotWhitespace(c: char)
    requires IsDigit(c)
    ensures !IsWhitespace(c)
  {
  }

  /** `parseInt` reads back exactly the number `String(n)` renders. */
  lemma ParseIntOfNatToString(n: nat)
    ensures ParseInt(NatToString(n)) == Some(n)
  {
    var s := NatToString(n);
    DigitIsNotWhitespace(s[0]);
    assert TrimStart(s) == s;
    assert ParseSigned(s) == ParseDigits(s);
    DigitPrefixOfDigits(s);
    assert s[..|s|] == s;
    NatToStringRoundTrip(n);
  }

  /** `parseInt` reads the number `String(n)` renders back from the front of a
      string, as long as what follows does not start with a digit. */
  lemma ParseIntOfNatToStringThen(n: nat, rest: string)
    requires rest == [] || !IsDigit(rest[0])
    ensures ParseInt(NatToString(n) + rest) == Some(n)
  {
    var d := NatToString(n);
    var s := d + rest;
    DigitIsNotWhitespace(s[0]);
    assert TrimStart(s) == s;
    assert ParseSigned(s) == ParseDigits(s);
    DigitPrefixOfDigitsThen(d, rest);
    assert s[..|d|] == d;
    NatToStringRoundTrip(n);
  }

  lemma {:induction false} DigitPrefixOfDigitsThen(d: string, rest: string)
    requires AllDigits(d)
    requires rest == [] || !IsDigit(rest[0])
    ensures DigitPrefixLength(d + rest) == |d|
  {
    if |d| > 0 {
      assert (d + rest)[1..] == d[1..] + rest;
      DigitPrefixOfDigitsThen(d[1..], rest);
    } else {
      assert d + rest == rest;
    }
  }

  lemma {:induction false} DigitPrefixOfDigits(s: string)
    requires AllDigits(s)
    ensures DigitPrefixLength(s) == |s|
  {
    if |s| > 0 {
      DigitPrefixOfDigits(s[1..]);
    }
  }

  /** `parseInt` of a single digit, as the dropdowns of the forms supply it. */
  lemma ParseIntOfDigit(c: char)
    requires IsDigit(c)
    ensures ParseInt([c]) == Some(DigitValue(c))
  {
    var d := DigitValue(c);
    assert DigitChar(d) == c;
    assert NatToString(d) == [c];
    ParseIntOfNatToString(d);
  }

  /** `parseInt` of a string holding no digit at all is NaN. */
  lemma ParseIntWithoutDigits(s: string)
    requires forall i :: 0 <= i < |s| ==> !IsDigit(s[i])
    ensures ParseInt(s) == None
  {
    var t := TrimStart(s);
    forall i | 0 <= i < |t| ensures !IsDigit(t[i]) {
      assert t[i] == s[|s| - |t| + i];
    }
    ParseSignedWithoutDigits(t);
  }

  /** Past the white space, a string without digits reads as NaN whatever its sign. */
  lemma ParseSignedWithoutDigits(t: string)
    requires forall i :: 0 <= i < |t| ==> !IsDigit(t[i])
    ensures ParseSigned(t) == None
  {
    if |t| > 0 && (t[0] == '-' || t[0] == '+') {
      var body := t[1..];
      if |body| > 0 {
        assert body[0] == t[1];
      }
      assert ParseDigits(body) == None;
    } else {
      assert t == [] || !IsDigit(t[0]);
      assert ParseDigits(t) == None;
    }
  }
}
