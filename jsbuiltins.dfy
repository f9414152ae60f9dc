/**
  Models of the JavaScript built-ins that the dashboard's arithmetic relies on:
  truthiness, `String(v)`, `String.prototype.toUpperCase`, `String.prototype.trim`,
  `parseInt` and `parseFloat`. Cells are the values a spreadsheet import hands over.
*/
module JsBuiltins {

  datatype Option<+T> = None | Some(value: T) {
    /** `x ?? d`, `x || d` for a value that is either absent or present. */
    function GetOr(default: T): T {
      match this
      case Some(v) => v
      case None => default
    }
  }

  /**
    A spreadsheet cell (`null`, a string, a number, a boolean or a `Date`). Number and date
    cells carry the text `String(v)` yields for them, and a date carries its
    `toISOString()` and its long month label as well: those renderings come from the
    JavaScript runtime and the locale, and are inputs here.
  */
  datatype Cell =
    | Null
    | Str(s: string)
    | Num(x: real, text: string)
    | Bool(b: bool)
    | DateCell(iso: string, text: string, monthLabel: string)

  /** JavaScript truthiness of a cell value (`!v` is its negation). */
  predicate Truthy(c: Cell) {
    match c
    case Null => false
    case Str(s) => s != ""
    case Num(x, _) => x != 0.0
    case Bool(b) => b
    case DateCell(_, _, _) => true
  }

  /** `String(v)`. */
  function ToStr(c: Cell): string {
    match c
    case Null => "null"
    case Str(s) => s
    case Num(_, t) => t
    case Bool(b) => if b then "true" else "false"
    case DateCell(_, t, _) => t
  }

  const Nbsp: char := '\U{A0}'

  /** The characters `trim` removes and `\s` matches: WhiteSpace and LineTerminator. */
  predicate IsSpace(c: char) {
    || c == '\t' || c == '\n' || c == '\U{B}' || c == '\U{C}' || c == '\r' || c == ' '
    || c == Nbsp || c == '\U{1680}' || ('\U{2000}' <= c <= '\U{200A}')
    || c == '\U{2028}' || c == '\U{2029}' || c == '\U{202F}' || c == '\U{205F}'
    || c == '\U{3000}' || c == '\U{FEFF}'
  }

  // ---------------------------------------------------------------------------
  // toUpperCase

  /**
    The upper-case mapping of one character, for Basic Latin and Latin-1: a-z, the
    Latin-1 small letters (not the division sign), ÿ to Ÿ, µ to Greek Mu, and ß to "SS".
    Every other character maps to itself.
  */
  function UpperOf(c: char): (u: string)
    ensures |u| >= 1
  {
    if 'a' <= c <= 'z' then [(c as int - 32) as char]
    else if c == '\U{DF}' then "SS"
    else if c == '\U{B5}' then ['\U{39C}']
    else if c == '\U{FF}' then ['\U{178}']
    else if '\U{E0}' <= c <= '\U{FE}' && c != '\U{F7}' then [(c as int - 32) as char]
    else [c]
  }

  /** `s.toUpperCase()`. */
  function Upper(s: string): string {
    if s == [] then [] else UpperOf(s[0]) + Upper(s[1..])
  }

  lemma {:induction false} UpperAppend(a: string, b: string)
    ensures Upper(a + b) == Upper(a) + Upper(b)
  {
    if a == [] {
      assert a + b == b;
    } else {
      assert (a + b)[1..] == a[1..] + b;
      UpperAppend(a[1..], b);
    }
  }

  /** Upper-casing a character that is already upper case leaves it alone. */
  lemma UpperOfUpperOf(c: char)
    ensures forall k :: 0 <= k < |UpperOf(c)| ==> UpperOf(UpperOf(c)[k]) == [UpperOf(c)[k]]
  {
  }

  /** Whitespace survives upper-casing and nothing else becomes whitespace. */
  lemma UpperOfSpace(c: char)
    ensures IsSpace(c) ==> UpperOf(c) == [c]
    ensures !IsSpace(c) ==> forall k :: 0 <= k < |UpperOf(c)| ==> !IsSpace(UpperOf(c)[k])
  {
  }

  /** Every character is its own upper case: `toUpperCase` has nothing left to change. */
  predicate UpperFixed(s: string) {
    forall k :: 0 <= k < |s| ==> UpperOf(s[k]) == [s[k]]
  }

  lemma {:induction false} UpperOfFixed(s: string)
    requires UpperFixed(s)
    ensures Upper(s) == s
  {
    if s != [] {
      UpperOfFixed(s[1..]);
    }
  }

  lemma {:induction false} UpperIsFixed(s: string)
    ensures UpperFixed(Upper(s))
  {
    if s != [] {
      UpperIsFixed(s[1..]);
      UpperOfUpperOf(s[0]);
      var u, w := UpperOf(s[0]), Upper(s[1..]);
      forall k | 0 <= k < |u + w| ensures UpperOf((u + w)[k]) == [(u + w)[k]] {
        if k < |u| { assert (u + w)[k] == u[k]; } else { assert (u + w)[k] == w[k - |u|]; }
      }
    }
  }

  /** `toUpperCase` is idempotent. */
  lemma UpperIdempotent(s: string)
    ensures Upper(Upper(s)) == Upper(s)
  {
    UpperIsFixed(s);
    UpperOfFixed(Upper(s));
  }

  predicate AllSpace(s: string) {
    forall k :: 0 <= k < |s| ==> IsSpace(s[k])
  }

  /** Upper-casing neither adds nor removes whitespace-only content. */
  lemma {:induction false} UpperAllSpace(s: string)
    ensures AllSpace(Upper(s)) <==> AllSpace(s)
    ensures AllSpace(s) ==> Upper(s) == s
  {
    if s != [] {
      UpperAllSpace(s[1..]);
      UpperOfSpace(s[0]);
      var u, w := UpperOf(s[0]), Upper(s[1..]);
      assert Upper(s) == u + w;
      if AllSpace(u + w) {
        assert forall k :: 0 <= k < |w| ==> w[k] == (u + w)[k + |u|];
        assert IsSpace(u[0]) by { assert (u + w)[0] == u[0]; }
        assert IsSpace(s[0]);
        assert AllSpace(s[1..]);
      }
    }
  }

  /** A character is whitespace in `toUpperCase(s)` exactly where `s` had that whitespace. */
  lemma {:induction false} UpperSpaces(s: string)
    ensures forall k :: 0 <= k < |Upper(s)| && IsSpace(Upper(s)[k]) ==> Upper(s)[k] in s
    ensures (s == [] || !IsSpace(s[0])) ==> (Upper(s) == [] || !IsSpace(Upper(s)[0]))
    ensures (s == []) <==> (Upper(s) == [])
  {
    if s != [] {
      UpperSpaces(s[1..]);
      UpperOfSpace(s[0]);
      var u := UpperOf(s[0]);
      forall k | 0 <= k < |Upper(s)| && IsSpace(Upper(s)[k])
        ensures Upper(s)[k] in s
      {
        if k < |u| {
          assert Upper(s)[k] == u[k];
        } else {
          assert Upper(s)[k] == Upper(s[1..])[k - |u|];
        }
      }
    }
  }

  /** The last character: `toUpperCase` keeps a non-space ending non-space. */
  lemma {:induction false} UpperLastNotSpace(s: string)
    requires s != [] && !IsSpace(s[|s| - 1])
    ensures Upper(s) != [] && !IsSpace(Upper(s)[|Upper(s)| - 1])
  {
    var init := s[..|s| - 1];
    assert s == init + [s[|s| - 1]];
    UpperAppend(init, [s[|s| - 1]]);
    UpperOfSpace(s[|s| - 1]);
    assert Upper([s[|s| - 1]]) == UpperOf(s[|s| - 1]) + Upper([]);
  }

  // ---------------------------------------------------------------------------
  // trim

  /** Drops leading whitespace (`trimStart`). */
  function TrimStart(s: string): string {
    if s != [] && IsSpace(s[0]) then TrimStart(s[1..]) else s
  }

  /** `trimStart` keeps a suffix that starts with a non-space and drops only whitespace. */
  lemma {:induction false} TrimStartShape(s: string)
    ensures var r := TrimStart(s);
      && |r| <= |s| && r == s[|s| - |r|..]
      && (r == [] || !IsSpace(r[0]))
      && (forall i :: 0 <= i < |s| - |r| ==> IsSpace(s[i]))
  {
    if s != [] && IsSpace(s[0]) {
      var t := s[1..];
      TrimStartShape(t);
      var r := TrimStart(t);
      assert TrimStart(s) == r;
      assert t[|t| - |r|..] == s[|s| - |r|..];
      forall i | 0 <= i < |s| - |r| ensures IsSpace(s[i]) {
        if i > 0 {
          assert s[i] == t[i - 1];
        }
      }
    }
  }

  /** Drops trailing whitespace (`trimEnd`). */
  function TrimEnd(s: string): string {
    if s != [] && IsSpace(s[|s| - 1]) then TrimEnd(s[..|s| - 1]) else s
  }

  /** `trimEnd` keeps a prefix that ends with a non-space and drops only whitespace. */
  lemma {:induction false} TrimEndShape(s: string)
    ensures var r := TrimEnd(s);
      && |r| <= |s| && r == s[..|r|]
      && (r == [] || !IsSpace(r[|r| - 1]))
      && (forall i :: |r| <= i < |s| ==> IsSpace(s[i]))
  {
    if s != [] && IsSpace(s[|s| - 1]) {
      var t := s[..|s| - 1];
      TrimEndShape(t);
      var r := TrimEnd(t);
      assert TrimEnd(s) == r;
      assert t[..|r|] == s[..|r|];
      forall i | |r| <= i < |s| ensures IsSpace(s[i]) {
        if i < |t| {
          assert s[i] == t[i];
        }
      }
    }
  }

  /** Neither end of the string is whitespace. */
  predicate Trimmed(s: string) {
    s == [] || (!IsSpace(s[0]) && !IsSpace(s[|s| - 1]))
  }

  /** `s.trim()`: the middle of `s` between its whitespace ends. */
  function Trim(s: string): string {
    TrimEnd(TrimStart(s))
  }

  /**
    The result of `trim` has no whitespace at either end, a trimmed string is left
    alone, and only a blank string trims to "".
  */
  lemma TrimShape(s: string)
    ensures Trimmed(Trim(s))
    ensures Trimmed(s) ==> Trim(s) == s
    ensures Trim(s) == [] <==> AllSpace(s)
  {
    var t := TrimStart(s);
    TrimStartShape(s);
    TrimEndShape(t);
    var r := TrimEnd(t);
    assert r == [] ==> t == [];
    if r != [] {
      assert r[0] == t[0];
    }
  }

  /** `trim` cuts whitespace-only ends off: `s` is those ends around `Trim(s)`. */
  lemma TrimParts(s: string) returns (a: string, b: string)
    ensures s == a + Trim(s) + b && AllSpace(a) && AllSpace(b)
  {
    var t := TrimStart(s);
    a := TrimStartPart(s);
    b := TrimEndPart(t);
    assert Trim(s) == TrimEnd(t);
  }

  lemma TrimStartPart(s: string) returns (a: string)
    ensures s == a + TrimStart(s) && AllSpace(a)
  {
    var t := TrimStart(s);
    TrimStartShape(s);
    a := s[..|s| - |t|];
    assert forall k :: 0 <= k < |a| ==> a[k] == s[k];
  }

  lemma TrimEndPart(t: string) returns (b: string)
    ensures t == TrimEnd(t) + b && AllSpace(b)
  {
    var r := TrimEnd(t);
    TrimEndShape(t);
    b := t[|r|..];
    assert forall k :: 0 <= k < |b| ==> b[k] == t[k + |r|];
  }

  /** Whitespace-only padding around a trimmed string is exactly what `trim` removes. */
  lemma {:induction false} TrimPadded(a: string, m: string, b: string)
    requires AllSpace(a) && AllSpace(b) && Trimmed(m)
    ensures Trim(a + m + b) == m
  {
    assert a + m + b == a + (m + b);
    TrimStartPadded(a, m + b);
    if m == [] {
      assert m + b == b;
      TrimStartShape(b);
    } else {
      assert TrimStart(m + b) == m + b;
      TrimEndPadded(m, b);
    }
  }

  lemma {:induction false} TrimStartPadded(a: string, t: string)
    requires AllSpace(a)
    ensures TrimStart(a + t) == TrimStart(t)
  {
    if a != [] {
      assert (a + t)[1..] == a[1..] + t;
      TrimStartPadded(a[1..], t);
    } else {
      assert a + t == t;
    }
  }

  lemma {:induction false} TrimEndPadded(t: string, b: string)
    requires AllSpace(b) && (t == [] || !IsSpace(t[|t| - 1]))
    ensures TrimEnd(t + b) == t
  {
    if b != [] {
      var b' := b[..|b| - 1];
      assert (t + b)[..|t + b| - 1] == t + b';
      TrimEndPadded(t, b');
    } else {
      assert t + b == t;
    }
  }

  // ---------------------------------------------------------------------------
  // Digits, parseInt and parseFloat

  predicate IsDigit(c: char) {
    '0' <= c <= '9'
  }

  /** A digit of base 10 or base 16 (either case for a-f). */
  predicate IsRadixDigit(c: char, radix: nat) {
    IsDigit(c) || (radix == 16 && (('a' <= c <= 'f') || ('A' <= c <= 'F')))
  }

  function DigitValue(c: char): (d: nat)
    ensures IsDigit(c) ==> d < 10
  {
    if IsDigit(c) then c as int - '0' as int
    else if 'a' <= c <= 'f' then c as int - 'a' as int + 10
    else if 'A' <= c <= 'F' then c as int - 'A' as int + 10
    else 0
  }

  predicate AllRadixDigits(ds: string, radix: nat) {
    forall i :: 0 <= i < |ds| ==> IsRadixDigit(ds[i], radix)
  }

  /** The number a string of digits denotes, most significant digit first. */
  function DigitsValue(ds: string, radix: nat): nat {
    if ds == [] then 0 else DigitsValue(ds[..|ds| - 1], radix) * radix + DigitValue(ds[|ds| - 1])
  }

  /** The longest prefix of `s` made of digits of the radix. */
  function LeadingDigits(s: string, radix: nat): (ds: string)
    ensures |ds| <= |s| && ds == s[..|ds|]
    ensures AllRadixDigits(ds, radix)
    ensures |ds| < |s| ==> !IsRadixDigit(s[|ds|], radix)
  {
    if s != [] && IsRadixDigit(s[0], radix) then [s[0]] + LeadingDigits(s[1..], radix) else []
  }

  lemma {:induction false} LeadingDigitsOfDigits(s: string, radix: nat)
    requires AllRadixDigits(s, radix)
    ensures LeadingDigits(s, radix) == s
  {
    if s != [] {
      LeadingDigitsOfDigits(s[1..], radix);
    }
  }

  /**
    `parseInt(s)` (radix unspecified): leading whitespace is skipped, one sign is read,
    a `0x`/`0X` prefix switches to base 16, and the longest run of digits is the value.
    `None` is `NaN`, when there is no digit.
  */
  function ParseInt(s: string): Option<int> {
    var t := TrimStart(s);
    var neg := t != [] && t[0] == '-';
    var u := if t != [] && (t[0] == '-' || t[0] == '+') then t[1..] else t;
    var hex := |u| >= 2 && u[0] == '0' && (u[1] == 'x' || u[1] == 'X');
    var radix := if hex then 16 else 10;
    var z := LeadingDigits(if hex then u[2..] else u, radix);
    if z == [] then None
    else Some(if neg then -(DigitsValue(z, radix) as int) else DigitsValue(z, radix))
  }

  function Pow10(n: nat): (p: nat)
    ensures p >= 1
  {
    if n == 0 then 1 else 10 * Pow10(n - 1)
  }

  /**
    The value of the decimal literal `a.b`, with `a` and `b` strings of digits:
    the integer part plus `b` read as a number over the matching power of ten.
  */
  function DecimalValue(a: string, b: string): (v: real)
    ensures v >= DigitsValue(a, 10) as real
  {
    DigitsValue(a, 10) as real + DigitsValue(b, 10) as real / Pow10(|b|) as real
  }

  /** Only digits and decimal points: what remains of a string after `replace(/[^0-9.]/g, '')`. */
  predicate DigitsAndDots(t: string) {
    forall i :: 0 <= i < |t| ==> IsDigit(t[i]) || t[i] == '.'
  }

  /**
    `parseFloat(t)` for a string of digits and points: the longest prefix that is a decimal
    literal (`12`, `12.`, `12.5`, `.5`). `None` is `NaN`, when no such prefix exists.
    Computed exactly, without binary rounding.
  */
  function ParseFloat(t: string): (r: Option<real>)
    requires DigitsAndDots(t)
    ensures r.Some? ==> r.value >= 0.0
  {
    var a := LeadingDigits(t, 10);
    var rest := t[|a|..];
    if rest != [] && rest[0] == '.' then
      var b := LeadingDigits(rest[1..], 10);
      if a == [] && b == [] then None
      else Some(DecimalValue(a, b))
    else if a == [] then None
    else Some(DigitsValue(a, 10) as real)
  }

  /** `parseFloat` is `NaN` exactly when the text neither starts with a digit nor with a point and a digit. */
  lemma ParseFloatNaN(t: string)
    requires DigitsAndDots(t)
    ensures ParseFloat(t).None? <==> (t == [] || t[0] == '.') && (|t| < 2 || !IsDigit(t[1]))
  {
    var a := LeadingDigits(t, 10);
    var rest := t[|a|..];
    assert a == [] ==> rest == t;
    assert |t| >= 2 && t[0] == '.' ==> rest[1..] != [] && rest[1..][0] == t[1];
  }

  /** `String(n)` for a natural number: its decimal digits. */
  function DecimalString(n: nat): (s: string)
    ensures s != [] && AllRadixDigits(s, 10)
    ensures DigitsValue(s, 10) == n
  {
    if n < 10 then ['0' + n as char]
    else
      var s := DecimalString(n / 10) + ['0' + (n % 10) as char];
      assert s[..|s| - 1] == DecimalString(n / 10);
      s
  }

  /** `parseInt(String(n)) == n` for every natural number. */
  lemma DecimalStringParsesBack(n: nat)
    ensures ParseInt(DecimalString(n)) == Some(n)
  {
    var s := DecimalString(n);
    assert IsRadixDigit(s[0], 10);
    assert TrimStart(s) == s;
    assert !(s[0] == '-' || s[0] == '+');
    assert !(|s| >= 2 && s[0] == '0' && (s[1] == 'x' || s[1] == 'X')) by {
      if |s| >= 2 { assert IsRadixDigit(s[1], 10); }
    }
    LeadingDigitsOfDigits(s, 10);
  }

  /** No value occurs twice, as in the key list of an object or the values of a `Set`. */
  predicate NoRepeats(s: seq<string>) {
    forall a, b :: 0 <= a < b < |s| ==> s[a] != s[b]
  }

  /** Appending a value not yet present keeps a list without repeats. */
  lemma NoRepeatsSnoc(s: seq<string>, x: string)
    requires NoRepeats(s) && x !in s
    ensures NoRepeats(s + [x])
  {
    var s' := s + [x];
    forall a, b | 0 <= a < b < |s'| ensures s'[a] != s'[b] {
      assert s'[a] == s[a];
      if b < |s| {
        assert s'[b] == s[b];
      }
    }
  }
}
