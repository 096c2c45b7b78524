/**
 * The JSON-like values found in configuration dictionaries and request bodies,
 * with Python's int() and str() on them.
 */
module Values {
  import opened Wrappers

  datatype Value =
    | Null
    | Bool(b: bool)
    | Int(i: int)
    | Float(x: real)
    | Str(s: string)
    | Obj(fields: map<string, Value>)

  /** The numeric value of a Python int, bool or float; None for anything else. */
  function NumOf(v: Value): Option<real> {
    match v
    case Bool(b) => Some(if b then 1.0 else 0.0)
    case Int(i) => Some(i as real)
    case Float(x) => Some(x)
    case _ => None
  }

  /** Truncation toward zero, as Python's int() on a float. */
  function Truncate(x: real): (n: int)
    ensures x >= 0.0 ==> n as real <= x < n as real + 1.0
    ensures x < 0.0 ==> n as real - 1.0 < x <= n as real
  {
    if x >= 0.0 then x.Floor else -((-x).Floor)
  }

  /** Python's int(v): ints and bools as they are, floats truncated, decimal strings parsed. */
  function IntOf(v: Value): (r: Result<int, PyError>)
    ensures v.Int? ==> r == Ok(v.i)
    ensures v.Null? || v.Obj? ==> r == Err(TypeError)
    ensures v.Bool? ==> r == Ok(if v.b then 1 else 0)
    ensures v.Float? ==> r == Ok(Truncate(v.x))
    ensures v.Str? ==> (r.Ok? <==> ParseInt(v.s).Some?)
    ensures v.Str? && r.Ok? ==> r.value == ParseInt(v.s).value
    ensures v.Str? && r.Err? ==> r == Err(ValueError)
  {
    match v
    case Null => Err(TypeError)
    case Bool(b) => Ok(if b then 1 else 0)
    case Int(i) => Ok(i)
    case Float(x) => Ok(Truncate(x))
    case Str(s) => if ParseInt(s).Some? then Ok(ParseInt(s).value) else Err(ValueError)
    case Obj(_) => Err(TypeError)
  }

  predicate IsDigit(c: char) { '0' <= c <= '9' }

  predicate AllDigits(s: string) {
    |s| > 0 && forall i :: 0 <= i < |s| ==> IsDigit(s[i])
  }

  function DigitChar(d: nat): (c: char)
    requires d < 10
    ensures IsDigit(c) && c as int - '0' as int == d
  {
    ('0' as int + d) as char
  }

  /** The value of a string of decimal digits, most significant first. */
  function DigitsValue(s: string): int
    requires forall i :: 0 <= i < |s| ==> IsDigit(s[i])
  {
    if s == [] then 0
    else DigitsValue(s[..|s| - 1]) * 10 + (s[|s| - 1] as int - '0' as int)
  }

  /** Decimal digits of a natural number, without leading zeros. */
  function NatDigits(n: nat): (s: string)
  {
    if n < 10 then [DigitChar(n)] else NatDigits(n / 10) + [DigitChar(n % 10)]
  }

  /** Python's str() on an int. */
  function DecimalString(n: int): string {
    if n < 0 then "-" + NatDigits(-n) else NatDigits(n)
  }

  /** The blanks Python's str.strip() removes: space, tab, newline, vertical tab, form feed, carriage return. */
  predicate IsBlank(c: char) {
    c == ' ' || 9 <= c as int <= 13
  }

  function TrimLeft(s: string): string {
    if |s| > 0 && IsBlank(s[0]) then TrimLeft(s[1..]) else s
  }

  function TrimRight(s: string): string {
    if |s| > 0 && IsBlank(s[|s| - 1]) then TrimRight(s[..|s| - 1]) else s
  }

  /** `str.strip()`: the blanks at both ends removed. */
  function Strip(s: string): string {
    TrimRight(TrimLeft(s))
  }

  /** The digits with an optional sign that int() accepts once the blanks are stripped. */
  function ParseSigned(s: string): Option<int> {
    if |s| > 0 && (s[0] == '-' || s[0] == '+') then
      if AllDigits(s[1..]) then
        Some(if s[0] == '-' then -DigitsValue(s[1..]) else DigitsValue(s[1..]))
      else None
    else if AllDigits(s) then Some(DigitsValue(s))
    else None
  }

  /** Python's int() on a string: surrounding blanks, then an optional sign and decimal digits. */
  function ParseInt(s: string): Option<int> {
    ParseSigned(Strip(s))
  }

  /** Blanks around a number do not change what int() reads. */
  lemma {:induction false} ParseIgnoresBlanks(pre: string, s: string, post: string)
    requires forall i :: 0 <= i < |pre| ==> IsBlank(pre[i])
    requires forall i :: 0 <= i < |post| ==> IsBlank(post[i])
    requires |s| > 0 && !IsBlank(s[0]) && !IsBlank(s[|s| - 1])
    ensures ParseInt(pre + s + post) == ParseInt(s)
  {
    TrimLeftBlanks(pre, s + post);
    assert pre + s + post == pre + (s + post);
    TrimRightBlanks(s, post);
    assert TrimLeft(s) == s;
    assert TrimRight(s) == s;
  }

  lemma {:induction false} TrimLeftBlanks(pre: string, s: string)
    requires forall i :: 0 <= i < |pre| ==> IsBlank(pre[i])
    requires |s| > 0 && !IsBlank(s[0])
    ensures TrimLeft(pre + s) == s
    decreases |pre|
  {
    if pre != [] {
      assert (pre + s)[1..] == pre[1..] + s;
      TrimLeftBlanks(pre[1..], s);
    }
  }

  lemma {:induction false} TrimRightBlanks(s: string, post: string)
    requires forall i :: 0 <= i < |post| ==> IsBlank(post[i])
    requires |s| > 0 && !IsBlank(s[|s| - 1])
    ensures TrimRight(s + post) == s
    decreases |post|
  {
    if post != [] {
      var init := post[..|post| - 1];
      assert (s + post)[..|s + post| - 1] == s + init;
      TrimRightBlanks(s, init);
    }
  }

  /** For instance `int(" 12\n")` is 12. */
  lemma PaddedTwelve()
    ensures ParseInt(" 12\n") == Some(12)
  {
    var twelve := "12";
    assert " 12\n" == " " + twelve + "\n";
    ParseIgnoresBlanks(" ", twelve, "\n");
    assert twelve[..1] == "1" && "1"[..0] == [];
    assert DigitsValue("1") == 1;
    assert DigitsValue(twelve) == 12;
    assert AllDigits(twelve);
  }

  lemma {:induction false} NatDigitsRoundTrip(n: nat)
    ensures AllDigits(NatDigits(n))
    ensures DigitsValue(NatDigits(n)) == n
    ensures NatDigits(n)[0] != '-' && NatDigits(n)[0] != '+'
  {
    if n >= 10 {
      NatDigitsRoundTrip(n / 10);
      var t := NatDigits(n / 10);
      var s := t + [DigitChar(n % 10)];
      assert NatDigits(n) == s;
      assert forall i :: 0 <= i < |s| ==> IsDigit(s[i]) by {
        forall i | 0 <= i < |s|
          ensures IsDigit(s[i])
        {
          if i < |t| {
            assert s[i] == t[i];
          }
        }
      }
      assert s[..|s| - 1] == t;
      assert DigitsValue(s) == DigitsValue(t) * 10 + n % 10;
      assert s[0] == t[0];
    }
  }

  /** Reading back str(n) with int() gives n. */
  lemma DecimalStringRoundTrip(n: int)
    ensures ParseInt(DecimalString(n)) == Some(n)
  {
    var d := NatDigits(if n < 0 then -n else n);
    NatDigitsRoundTrip(if n < 0 then -n else n);
    assert IsDigit(d[|d| - 1]);
    var s := DecimalString(n);
    if n < 0 {
      assert s == "-" + d;
      assert s[1..] == d;
      assert s[|s| - 1] == d[|d| - 1];
      StripUnpadded(s);
      assert ParseSigned(s) == Some(-DigitsValue(d));
    } else {
      assert s == d;
      StripUnpadded(s);
      assert ParseSigned(s) == Some(DigitsValue(d));
    }
  }

  lemma StripUnpadded(s: string)
    requires |s| > 0 && !IsBlank(s[0]) && !IsBlank(s[|s| - 1])
    ensures ParseInt(s) == ParseSigned(s)
  {
    assert TrimLeft(s) == s;
    assert TrimRight(s) == s;
  }

  /** Distinct integer ids give distinct string ids. */
  lemma DecimalStringInjective(a: int, b: int)
    requires DecimalString(a) == DecimalString(b)
    ensures a == b
  {
    DecimalStringRoundTrip(a);
    DecimalStringRoundTrip(b);
  }
}
