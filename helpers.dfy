/**
  The normalizer, the rate-table lookup and the manifest row selection of
  `src/helpers.js`.
*/
module Helpers {
  import opened JsBuiltins
  import opened Records

  // ---------------------------------------------------------------------------
  // norm

  /** Two spaces in a row at position `k`. */
  predicate DoubleSpaceAt(t: string, k: nat)
    requires k + 1 < |t|
  {
    t[k] == ' ' && t[k + 1] == ' '
  }

  predicate NoDoubleSpace(t: string) {
    forall k: nat :: k + 1 < |t| ==> !DoubleSpaceAt(t, k)
  }

  /** `replace(/\s+/g, ' ')`: every run of whitespace becomes one space. */
  function Collapse(s: string): string
    decreases |s|
  {
    if s == [] then []
    else if IsSpace(s[0]) then
      TrimStartShape(s[1..]);
      [' '] + Collapse(TrimStart(s[1..]))
    else [s[0]] + Collapse(s[1..])
  }

  /** Collapsing gains nothing, and keeps emptiness and whitespace at both ends. */
  lemma {:induction false} CollapseEnds(s: string)
    ensures var r := Collapse(s);
      && |r| <= |s|
      && (r == [] <==> s == [])
      && (r != [] ==> (r[0] == ' ' <==> IsSpace(s[0])))
      && (r != [] ==> (r[|r| - 1] == ' ' <==> IsSpace(s[|s| - 1])))
    decreases |s|
  {
    if s != [] {
      if IsSpace(s[0]) {
        var t := TrimStart(s[1..]);
        TrimStartShape(s[1..]);
        CollapseEnds(t);
        assert t != [] ==> t[|t| - 1] == s[|s| - 1];
        if t == [] && |s| > 1 {
          assert s[|s| - 1] == s[1..][|s| - 2];
        }
      } else {
        CollapseEnds(s[1..]);
      }
    }
  }

  /** After collapsing, the only whitespace left is the plain space. */
  lemma {:induction false} CollapseOnlySpaces(s: string)
    ensures forall k :: 0 <= k < |Collapse(s)| && IsSpace(Collapse(s)[k]) ==> Collapse(s)[k] == ' '
    decreases |s|
  {
    if s != [] {
      var head, rest := if IsSpace(s[0]) then ' ' else s[0], if IsSpace(s[0]) then TrimStart(s[1..]) else s[1..];
      TrimStartShape(s[1..]);
      CollapseOnlySpaces(rest);
      var c := Collapse(rest);
      var r := [head] + c;
      assert Collapse(s) == r;
      forall k | 0 <= k < |r| && IsSpace(r[k]) ensures r[k] == ' ' {
        if k > 0 { assert r[k] == c[k - 1]; }
      }
    }
  }

  /** After collapsing, no two spaces are adjacent. */
  lemma {:induction false} CollapseNoDouble(s: string)
    ensures NoDoubleSpace(Collapse(s))
    decreases |s|
  {
    if s != [] {
      var head, rest := if IsSpace(s[0]) then ' ' else s[0], if IsSpace(s[0]) then TrimStart(s[1..]) else s[1..];
      TrimStartShape(s[1..]);
      CollapseNoDouble(rest);
      CollapseEnds(rest);
      var c := Collapse(rest);
      var r := [head] + c;
      assert Collapse(s) == r;
      forall k: nat | k + 1 < |r| ensures !DoubleSpaceAt(r, k) {
        if k == 0 {
          assert r[1] == c[0];
        } else {
          assert r[k] == c[k - 1] && r[k + 1] == c[k];
          assert !DoubleSpaceAt(c, k - 1);
        }
      }
    }
  }

  /** Collapsing an upper-case text leaves it upper case. */
  lemma {:induction false} CollapseUpper(s: string)
    requires UpperFixed(s)
    ensures UpperFixed(Collapse(s))
    decreases |s|
  {
    if s != [] {
      var head, rest := if IsSpace(s[0]) then ' ' else s[0], if IsSpace(s[0]) then TrimStart(s[1..]) else s[1..];
      TrimStartShape(s[1..]);
      forall k | 0 <= k < |rest| ensures UpperOf(rest[k]) == [rest[k]] {
        assert rest[k] == s[|s| - |rest| + k];
      }
      CollapseUpper(rest);
      var c := Collapse(rest);
      var r := [head] + c;
      assert Collapse(s) == r;
      forall k | 0 <= k < |r| ensures UpperOf(r[k]) == [r[k]] {
        if k > 0 { assert r[k] == c[k - 1]; }
      }
    }
  }

  /**
    The shape of a matching key: upper case, whitespace only as single spaces between
    other characters, none at either end.
  */
  predicate Normalized(t: string) {
    && UpperFixed(t)
    && (forall k :: 0 <= k < |t| && IsSpace(t[k]) ==> t[k] == ' ')
    && NoDoubleSpace(t)
    && (t != [] ==> t[0] != ' ' && t[|t| - 1] != ' ')
  }

  lemma TrimKeepsUpperFixed(u: string)
    requires UpperFixed(u)
    ensures UpperFixed(Trim(u))
  {
    var a, b := TrimParts(u);
    var m := Trim(u);
    forall k | 0 <= k < |m| ensures UpperOf(m[k]) == [m[k]] {
      assert m[k] == u[|a| + k];
    }
  }

  /** `norm(v)`: the matching key of a text; absent text (`null`, "") gives "". */
  function Norm(v: string): string {
    Collapse(Trim(Upper(v)))
  }

  /** Every key has the normalised shape. */
  lemma NormNormalized(v: string)
    ensures Normalized(Norm(v))
  {
    var t := Trim(Upper(v));
    TrimShape(Upper(v));
    CollapseEnds(t);
    CollapseOnlySpaces(t);
    CollapseNoDouble(t);
    UpperIsFixed(v);
    TrimKeepsUpperFixed(Upper(v));
    CollapseUpper(t);
  }

  /** `norm(v)` of a spreadsheet cell: `String(v)` of a truthy value, "" otherwise. */
  function NormCell(v: Cell): string {
    if Truthy(v) then Norm(ToStr(v)) else ""
  }

  lemma {:induction false} CollapseFixed(t: string)
    requires forall k :: 0 <= k < |t| && IsSpace(t[k]) ==> t[k] == ' '
    requires NoDoubleSpace(t)
    ensures Collapse(t) == t
  {
    if t != [] {
      if IsSpace(t[0]) {
        if |t| > 1 {
          assert !DoubleSpaceAt(t, 0);
        }
        assert TrimStart(t[1..]) == t[1..];
      }
      forall k: nat | k + 1 < |t[1..]| ensures !DoubleSpaceAt(t[1..], k) {
        assert !DoubleSpaceAt(t, k + 1);
      }
      CollapseFixed(t[1..]);
    }
  }

  /** A matching key is its own key. */
  lemma NormOfNormalized(t: string)
    requires Normalized(t)
    ensures Norm(t) == t
  {
    UpperOfFixed(t);
    assert t != [] ==> !IsSpace(t[0]) && !IsSpace(t[|t| - 1]);
    CollapseFixed(t);
  }

  /** `norm` is idempotent. */
  lemma NormIdempotent(v: string)
    ensures Norm(Norm(v)) == Norm(v)
  {
    NormNormalized(v);
    NormOfNormalized(Norm(v));
  }

  /** Matching ignores letter case. */
  lemma NormIgnoresCase(v: string)
    ensures Norm(Upper(v)) == Norm(v)
  {
    UpperIdempotent(v);
  }

  /** The key is empty exactly when the text is blank. */
  lemma NormBlank(v: string)
    ensures Norm(v) == "" <==> AllSpace(v)
  {
    UpperAllSpace(v);
    TrimShape(Upper(v));
    CollapseEnds(Trim(Upper(v)));
  }

  /** Upper-casing and trimming commute. */
  lemma UpperTrimCommute(x: string)
    ensures Trim(Upper(x)) == Upper(Trim(x))
  {
    var a, b := TrimParts(x);
    var m := Trim(x);
    TrimShape(x);
    UpperAppend(a + m, b);
    UpperAppend(a, m);
    UpperAllSpace(a);
    UpperAllSpace(b);
    assert Upper(x) == a + Upper(m) + b;
    UpperSpaces(m);
    if m != [] {
      UpperLastNotSpace(m);
    }
    assert Trimmed(Upper(m));
    TrimPadded(a, Upper(m), b);
  }

  /** Whitespace at the ends of a text does not change its key. */
  lemma NormTrim(x: string)
    ensures Norm(Trim(x)) == Norm(x)
  {
    UpperTrimCommute(x);
    TrimShape(Upper(x));
    assert Trim(Upper(Trim(x))) == Trim(Upper(x));
  }

  // ---------------------------------------------------------------------------
  // clean, parseAmt, fmtMXN / fmtUSD, cap

  /** `clean(v)`: "" for a falsy value or a lone no-break space, else `String(v).trim()`. */
  function Clean(v: Cell): string {
    if !Truthy(v) || v == Str([Nbsp]) then "" else Trim(ToStr(v))
  }

  /** A cleaned value has no whitespace at its ends, and is "" exactly for a blank value. */
  lemma CleanShape(v: Cell)
    ensures Trimmed(Clean(v))
    ensures Clean(v) == "" <==> !Truthy(v) || AllSpace(ToStr(v))
  {
    TrimShape(ToStr(v));
  }

  /** A cleaned cell keeps the key `norm` gives the raw cell. */
  lemma CleanKeepsKey(v: Cell)
    ensures Norm(Clean(v)) == NormCell(v)
  {
    if Truthy(v) {
      if v == Str([Nbsp]) {
        NormBlank([Nbsp]);
      } else {
        NormTrim(ToStr(v));
      }
    }
  }

  /** `replace(/[^0-9.]/g, '')`. */
  function StripNonNumeric(s: string): (r: string)
    ensures DigitsAndDots(r)
  {
    if s == [] then []
    else (if IsDigit(s[0]) || s[0] == '.' then [s[0]] else []) + StripNonNumeric(s[1..])
  }

  predicate NoDigitOrDot(s: string) {
    forall k :: 0 <= k < |s| ==> !IsDigit(s[k]) && s[k] != '.'
  }

  lemma {:induction false} StripAppend(a: string, b: string)
    ensures StripNonNumeric(a + b) == StripNonNumeric(a) + StripNonNumeric(b)
  {
    if a == [] {
      assert a + b == b;
    } else {
      assert (a + b)[1..] == a[1..] + b;
      StripAppend(a[1..], b);
    }
  }

  lemma {:induction false} StripNoDigits(s: string)
    requires NoDigitOrDot(s)
    ensures StripNonNumeric(s) == []
  {
    if s != [] {
      StripNoDigits(s[1..]);
    }
  }

  lemma {:induction false} StripDigitsAndDots(s: string)
    requires DigitsAndDots(s)
    ensures StripNonNumeric(s) == s
  {
    if s != [] {
      StripDigitsAndDots(s[1..]);
    }
  }

  /**
    `parseAmt(v)`: 0 for a falsy value or a lone no-break space, the absolute value of a
    number, and otherwise `parseFloat` of the text with everything but digits and points
    removed, 0 when that is `NaN`.
  */
  function ParseAmt(v: Cell): (r: real)
    ensures r >= 0.0
    ensures !Truthy(v) ==> r == 0.0
    ensures v.Num? ==> r == (if v.x < 0.0 then -v.x else v.x)
  {
    if !Truthy(v) || v == Str([Nbsp]) then 0.0
    else if v.Num? then (if v.x < 0.0 then -v.x else v.x)
    else ParseFloat(StripNonNumeric(ToStr(v))).GetOr(0.0)
  }

  /** Removing the non-numeric characters around a number leaves the number. */
  lemma StripAround(pre: string, num: string, post: string)
    requires NoDigitOrDot(pre) && NoDigitOrDot(post) && DigitsAndDots(num)
    ensures StripNonNumeric(pre + num + post) == num
  {
    StripAppend(pre + num, post);
    StripAppend(pre, num);
    StripNoDigits(pre);
    StripNoDigits(post);
    StripDigitsAndDots(num);
  }

  /** A text holding a digit is neither falsy nor the lone no-break space. */
  lemma HasDigitIsText(s: string, k: nat)
    requires k < |s| && IsDigit(s[k])
    ensures Truthy(Str(s)) && Str(s) != Str([Nbsp])
  {
  }

  /** An integer amount written among non-numeric characters ("$1500 MXN") parses to itself. */
  lemma ParseAmtWhole(pre: string, n: nat, post: string)
    requires NoDigitOrDot(pre) && NoDigitOrDot(post)
    ensures ParseAmt(Str(pre + DecimalString(n) + post)) == n as real
  {
    var d := DecimalString(n);
    var s := pre + d + post;
    assert s[|pre|] == d[0];
    HasDigitIsText(s, |pre|);
    ParseFloatDigits(d);
    StripAround(pre, d, post);
  }

  /** A run of digits parses to its value. */
  lemma ParseFloatDigits(d: string)
    requires d != [] && AllRadixDigits(d, 10)
    ensures DigitsAndDots(d)
    ensures ParseFloat(d) == Some(DigitsValue(d, 10) as real)
  {
    LeadingDigitsOfDigits(d, 10);
    assert d[|d|..] == [];
  }

  lemma {:induction false} LeadingDigitsAppend(d: string, t: string)
    requires AllRadixDigits(d, 10) && (t == [] || !IsDigit(t[0]))
    ensures LeadingDigits(d + t, 10) == d
  {
    if d == [] {
      assert d + t == t;
    } else {
      assert (d + t)[1..] == d[1..] + t;
      LeadingDigitsAppend(d[1..], t);
    }
  }

  lemma DecimalLiteralChars(d: string, frac: string)
    requires AllRadixDigits(d, 10) && AllRadixDigits(frac, 10)
    ensures DigitsAndDots(d + "." + frac)
  {
    var num := d + "." + frac;
    forall i | 0 <= i < |num| ensures IsDigit(num[i]) || num[i] == '.' {
      if i < |d| {
        assert num[i] == d[i];
      } else if i > |d| {
        assert num[i] == frac[i - |d| - 1];
      }
    }
  }

  lemma ParseFloatSplit(d: string, frac: string)
    requires d != [] && AllRadixDigits(d, 10) && AllRadixDigits(frac, 10)
    ensures DigitsAndDots(d + "." + frac)
    ensures ParseFloat(d + "." + frac)
            == Some(DecimalValue(d, frac))
  {
    DecimalLiteralChars(d, frac);
    var t := "." + frac;
    var num := d + "." + frac;
    assert num == d + t;
    LeadingDigitsAppend(d, t);
    assert num[|d|..] == t;
    assert t[1..] == frac;
    LeadingDigitsOfDigits(frac, 10);
    ParseFloatOfParts(num, d, frac);
  }

  lemma ParseFloatOfParts(num: string, d: string, frac: string)
    requires DigitsAndDots(num) && d != []
    requires LeadingDigits(num, 10) == d && num[|d|..] == "." + frac && LeadingDigits(frac, 10) == frac
    ensures ParseFloat(num)
            == Some(DecimalValue(d, frac))
  {
    var rest := num[|LeadingDigits(num, 10)|..];
    assert rest == "." + frac;
    assert rest[1..] == frac;
    assert rest != [] && rest[0] == '.';
    assert LeadingDigits(rest[1..], 10) == frac;
  }

  /** An amount with a decimal part ("USD 120.50") parses to its exact value. */
  lemma ParseAmtDecimal(pre: string, n: nat, frac: string, post: string)
    requires NoDigitOrDot(pre) && NoDigitOrDot(post) && AllRadixDigits(frac, 10)
    ensures ParseAmt(Str(pre + DecimalString(n) + "." + frac + post))
            == DecimalValue(DecimalString(n), frac)
  {
    var d := DecimalString(n);
    var num := d + "." + frac;
    var s := pre + d + "." + frac + post;
    assert s == pre + num + post;
    assert s[|pre|] == d[0];
    HasDigitIsText(s, |pre|);
    ParseFloatSplit(d, frac);
    StripAround(pre, num, post);
  }

  /** What `fmtMXN` / `fmtUSD` render: the placeholder dash, or an amount in a currency. */
  datatype Shown = Dash | Money(currency: string, amount: real)

  /** `fmtMXN(v)`: a positive amount is formatted, anything else shows the dash. */
  function FmtMXN(v: real): (d: Shown)
    ensures d == Dash <==> !(v > 0.0)
    ensures d != Dash ==> d == Money("MXN", v)
  {
    if v > 0.0 then Money("MXN", v) else Dash
  }

  /** `fmtUSD(v)`: a positive amount is formatted, anything else shows the dash. */
  function FmtUSD(v: real): (d: Shown)
    ensures d == Dash <==> !(v > 0.0)
    ensures d != Dash ==> d == Money("USD", v)
  {
    if v > 0.0 then Money("USD", v) else Dash
  }

  /** `cap(s)`: the first character upper-cased, the rest as it was. */
  function Cap(s: string): (r: string)
    ensures s == [] ==> r == []
    ensures s != [] ==> |r| >= |s| && r[|r| - |s| + 1..] == s[1..]
    ensures s != [] ==> Upper(r[..|r| - |s| + 1]) == r[..|r| - |s| + 1]
    ensures Upper(r) == Upper(s)
  {
    if s == [] then s
    else
      var head := Upper([s[0]]);
      UpperAppend(head, s[1..]);
      UpperAppend([s[0]], s[1..]);
      UpperIdempotent([s[0]]);
      assert [s[0]] + s[1..] == s;
      assert |head| >= 1 by { assert head == UpperOf(s[0]) + Upper([]); }
      head + s[1..]
  }

  /** Capitalising a label does not change its matching key. */
  lemma NormCap(s: string)
    ensures Norm(Cap(s)) == Norm(s)
  {
  }

  // ---------------------------------------------------------------------------
  // The rate table: getImporte (without override), getDC

  /** Entry `i` is the one `tarifario.find((t) => norm(t.proveedor) === key)` returns. */
  predicate FirstMatch(tar: seq<RateEntry>, key: string, i: nat) {
    && i < |tar|
    && Norm(tar[i].proveedor) == key
    && forall j :: 0 <= j < i ==> Norm(tar[j].proveedor) != key
  }

  /** `tarifario.find(...)` by normalised supplier, as the position of the entry found. */
  function FindRate(tar: seq<RateEntry>, key: string): (r: Option<nat>)
    ensures r.Some? ==> FirstMatch(tar, key, r.value)
    ensures r.None? ==> forall j :: 0 <= j < |tar| ==> Norm(tar[j].proveedor) != key
  {
    if tar == [] then None
    else if Norm(tar[0].proveedor) == key then Some(0)
    else
      match FindRate(tar[1..], key)
      case Some(i) => Some(i + 1)
      case None => None
  }

  /** Only one position can be the first match. */
  lemma FirstMatchUnique(tar: seq<RateEntry>, key: string, i: nat)
    requires FirstMatch(tar, key, i)
    ensures FindRate(tar, key) == Some(i)
  {
    var r := FindRate(tar, key);
    assert r.Some?;
    assert !(r.value < i) && !(i < r.value);
  }

  /** `match.precio * unidades`: a `null` price multiplies as 0. */
  function PriceOf(e: RateEntry): real {
    e.precio.GetOr(0.0)
  }

  /** `parseInt(circInfo?.habs) || 1` for a lodging row, 1 for any other. */
  function Units(row: ServiceRow, info: CircInfo): (u: int)
    ensures u != 0
    ensures Norm(row.clasificacion) != "HOSPEDAJE" ==> u == 1
  {
    if Norm(row.clasificacion) == "HOSPEDAJE" then
      match ParseInt(ToStr(info.habs))
      case Some(n) => if n != 0 then n else 1
      case None => 1
    else 1
  }

  /** A lodging row is multiplied by the circuit's room count. */
  lemma LodgingUnits(row: ServiceRow, info: CircInfo, n: nat)
    requires Norm(row.clasificacion) == "HOSPEDAJE" && n >= 1
    requires info.habs == Num(n as real, DecimalString(n)) || info.habs == Str(DecimalString(n))
    ensures Units(row, info) == n
  {
    DecimalStringParsesBack(n);
  }

  /** An unusable room count (missing, zero, not a number) falls back to 1. */
  lemma LodgingUnitsFallback(row: ServiceRow, info: CircInfo)
    requires ParseInt(ToStr(info.habs)) == None || ParseInt(ToStr(info.habs)) == Some(0)
    ensures Units(row, info) == 1
  {
  }

  /** The unresolved result: no usable rate-table price. */
  const Unresolved := Importe(0.0, 0.0, false, false)

  /** `match.precio * unidades`. */
  function LineTotal(e: RateEntry, units: int): (t: real)
    ensures PriceOf(e) >= 0.0 && units >= 0 ==> t >= 0.0
  {
    PriceOf(e) * units as real
  }

  /** The cost a usable entry gives: `precio * unidades`, all in the entry's currency. */
  function RateCost(e: RateEntry, units: int): Importe {
    var total := LineTotal(e, units);
    if e.moneda == "USD" then Importe(0.0, total, true, false) else Importe(total, 0.0, true, false)
  }

  /**
    `getImporte(row, circInfo, tarifario)` of `src/helpers.js`: the rate-table price of the
    row's supplier, multiplied for lodging, in exactly one currency. (That record has no
    `custom` key; `custom` is false here.)
  */
  function GetImporte(row: ServiceRow, info: CircInfo, tar: seq<RateEntry>): (r: Importe)
    ensures !r.custom
    ensures r.mxn == 0.0 || r.usd == 0.0
    ensures !r.found ==> r == Unresolved
  {
    match FindRate(tar, Norm(row.provGeneral))
    case None => Unresolved
    case Some(i) =>
      FirstMatchUnique(tar, Norm(row.provGeneral), i);
      if tar[i].precio == Some(0.0) then Unresolved else RateCost(tar[i], Units(row, info))
  }

  /** The first matching entry decides the cost; later duplicates and other suppliers do not. */
  lemma FirstMatchDecides(row: ServiceRow, info: CircInfo, tar: seq<RateEntry>, i: nat)
    requires FirstMatch(tar, Norm(row.provGeneral), i)
    ensures GetImporte(row, info, tar)
            == if tar[i].precio == Some(0.0) then Unresolved else RateCost(tar[i], Units(row, info))
  {
    FirstMatchUnique(tar, Norm(row.provGeneral), i);
  }

  /** The row is resolved exactly when its first match exists and is not priced 0. */
  lemma ResolvedIff(row: ServiceRow, info: CircInfo, tar: seq<RateEntry>)
    ensures GetImporte(row, info, tar).found
            <==> exists i: nat :: FirstMatch(tar, Norm(row.provGeneral), i) && tar[i].precio != Some(0.0)
  {
    var key := Norm(row.provGeneral);
    match FindRate(tar, key)
    case None =>
    case Some(i) =>
      forall i': nat | FirstMatch(tar, key, i') ensures i' == i {
        FirstMatchUnique(tar, key, i');
      }
  }

  /** A supplier missing from the rate table is unresolved. */
  lemma UnmatchedIsUnresolved(row: ServiceRow, info: CircInfo, tar: seq<RateEntry>)
    requires forall j :: 0 <= j < |tar| ==> Norm(tar[j].proveedor) != Norm(row.provGeneral)
    ensures GetImporte(row, info, tar) == Unresolved
  {
  }

  /** Entries appended after a match change nothing (duplicates resolve to the first). */
  lemma FindRateAppend(tar: seq<RateEntry>, extra: seq<RateEntry>, key: string)
    requires FindRate(tar, key).Some?
    ensures FindRate(tar + extra, key) == FindRate(tar, key)
  {
    var i := FindRate(tar, key).value;
    assert forall j :: 0 <= j <= i ==> (tar + extra)[j] == tar[j];
    FirstMatchUnique(tar + extra, key, i);
  }

  lemma RateTableAppend(row: ServiceRow, info: CircInfo, tar: seq<RateEntry>, extra: seq<RateEntry>)
    requires FindRate(tar, Norm(row.provGeneral)).Some?
    ensures GetImporte(row, info, tar + extra) == GetImporte(row, info, tar)
  {
    var key := Norm(row.provGeneral);
    FindRateAppend(tar, extra, key);
    var i := FindRate(tar, key).value;
    assert (tar + extra)[i] == tar[i];
  }

  /** `getDC(row, tarifario)`: the credit days of the first matching entry, 0 if none or missing. */
  function GetDC(row: ServiceRow, tar: seq<RateEntry>): (d: int)
    ensures (forall j :: 0 <= j < |tar| ==> Norm(tar[j].proveedor) != Norm(row.provGeneral)) ==> d == 0
    ensures forall i: nat :: FirstMatch(tar, Norm(row.provGeneral), i) ==> d == tar[i].diasCredito.GetOr(0)
  {
    match FindRate(tar, Norm(row.provGeneral))
    case Some(i) =>
      assert forall i': nat :: FirstMatch(tar, Norm(row.provGeneral), i') ==> i' == i by {
        forall i': nat | FirstMatch(tar, Norm(row.provGeneral), i') ensures i' == i {
          FirstMatchUnique(tar, Norm(row.provGeneral), i');
        }
      }
      tar[i].diasCredito.GetOr(0)
    case None => 0
  }

  // ---------------------------------------------------------------------------
  // parseCircuito: the header cells and the selection of service rows

  /** The circuit read from a manifest: `{ id, info, rows, monthKey }`. */
  datatype Parsed = Parsed(id: string, info: CircInfo, rows: seq<ServiceRow>, monthKey: string)

  /** `r[j]`, `undefined` (here `Null`) past the end. */
  function At(r: seq<Cell>, j: nat): Cell {
    if j < |r| then r[j] else Null
  }

  /** `raw[i]`, an empty row past the end. */
  function RowAt(raw: seq<seq<Cell>>, i: nat): seq<Cell> {
    if i < |raw| then raw[i] else []
  }

  predicate BlankCell(v: Cell) {
    !Truthy(v) || v == Str([Nbsp])
  }

  /** `r.every((v) => !v || v === '\xa0')`. */
  predicate BlankRow(r: seq<Cell>) {
    forall j :: 0 <= j < |r| ==> BlankCell(r[j])
  }

  /** The three guards of the import loop: a service row that the circuit keeps. */
  predicate Selected(r: seq<Cell>) {
    && !BlankRow(r)
    && (Truthy(At(r, 3)) || Truthy(At(r, 5)) || Truthy(At(r, 6)))
    && (NormCell(At(r, 6)) == "LIBERO" || NormCell(At(r, 6)) == "OPCIONAL")
  }

  /** The row record pushed for a kept grid row. */
  function ImportRow(r: seq<Cell>, idx: nat): ServiceRow {
    ServiceRow(
      id := "", idx := idx,
      fecha := if At(r, 0).DateCell? then Some(At(r, 0).iso) else None,
      destino := Clean(At(r, 3)), clasificacion := Clean(At(r, 4)), servicio := Clean(At(r, 5)),
      tipo := Clean(At(r, 6)), provGeneral := Clean(At(r, 7)), tVenta := ParseAmt(At(r, 10)),
      paid := false, fechaPago := "", nota := "", precioCustom := None, monedaCustom := "")
  }

  /** The rows the import keeps from a run of grid rows, numbered in order. */
  function ImportRows(rs: seq<seq<Cell>>): seq<ServiceRow> {
    if rs == [] then []
    else
      var prev := ImportRows(rs[..|rs| - 1]);
      var r := rs[|rs| - 1];
      if Selected(r) then prev + [ImportRow(r, |prev|)] else prev
  }

  /** The service part of a manifest: grid rows 6 onwards. */
  function Manifest(raw: seq<seq<Cell>>): seq<seq<Cell>> {
    if |raw| <= 6 then [] else raw[6..]
  }

  /** The header cells of a manifest. */
  function InfoOf(raw: seq<seq<Cell>>): CircInfo {
    CircInfo(
      tl := At(RowAt(raw, 0), 1), rep := At(RowAt(raw, 1), 1), operador := At(RowAt(raw, 2), 1),
      id := Clean(At(RowAt(raw, 3), 1)), habs := At(RowAt(raw, 0), 5), pax := At(RowAt(raw, 1), 5),
      fechaInicio := At(RowAt(raw, 3), 7))
  }

  /**
    `parseCircuito` after `sheet_to_json`: the header block, the circuit id (`now` is the
    text of `Date.now()`, used when the manifest has none), the kept service rows and the
    month key (the start date's month label, "Sin mes" when there is no date).
  */
  method ParseCircuito(raw: seq<seq<Cell>>, now: string) returns (p: Parsed)
    ensures p.info == InfoOf(raw)
    ensures p.id == (if p.info.id != "" then p.info.id else "CIRC-" + now)
    ensures p.rows == ImportRows(Manifest(raw))
    ensures p.monthKey == (if p.info.fechaInicio.DateCell? then p.info.fechaInicio.monthLabel else "Sin mes")
  {
    var info := InfoOf(raw);
    var circId := if info.id != "" then info.id else "CIRC-" + now;
    var rows: seq<ServiceRow> := [];
    var idx := 0;
    ghost var m := Manifest(raw);
    var i := 6;
    while i < |raw|
      invariant 6 <= i <= 6 + |m|
      invariant rows == ImportRows(m[..i - 6])
      invariant idx == |rows|
    {
      var r := raw[i];
      assert r == m[i - 6];
      ImportRowsStep(m, i - 6);
      if !BlankRow(r) && (Truthy(At(r, 3)) || Truthy(At(r, 5)) || Truthy(At(r, 6))) {
        var tipo := NormCell(At(r, 6));
        if tipo == "LIBERO" || tipo == "OPCIONAL" {
          rows := rows + [ImportRow(r, idx)];
          idx := idx + 1;
        }
      }
      i := i + 1;
    }
    assert m[..i - 6] == m;
    var monthKey := "Sin mes";
    if info.fechaInicio.DateCell? {
      monthKey := info.fechaInicio.monthLabel;
    }
    p := Parsed(circId, info, rows, monthKey);
  }

  lemma ImportRowsStep(rs: seq<seq<Cell>>, j: nat)
    requires j < |rs|
    ensures ImportRows(rs[..j + 1])
            == if Selected(rs[j]) then ImportRows(rs[..j]) + [ImportRow(rs[j], |ImportRows(rs[..j])|)] else ImportRows(rs[..j])
  {
    assert rs[..j + 1][..j] == rs[..j];
  }

  /** The grid rows the import keeps, in order. */
  function SelectedRows(rs: seq<seq<Cell>>): (s: seq<seq<Cell>>)
    ensures |s| <= |rs|
  {
    if rs == [] then []
    else SelectedRows(rs[..|rs| - 1]) + (if Selected(rs[|rs| - 1]) then [rs[|rs| - 1]] else [])
  }

  /**
    The imported rows are exactly the selected grid rows, in order, numbered 0, 1, 2, ...,
    unpaid, with no note, no payment date and no override, each LIBERO or OPCIONAL.
  */
  lemma {:induction false} ImportRowsShape(rs: seq<seq<Cell>>)
    ensures |ImportRows(rs)| == |SelectedRows(rs)|
    ensures forall k :: 0 <= k < |ImportRows(rs)| ==> ImportRows(rs)[k] == ImportRow(SelectedRows(rs)[k], k)
    ensures forall k :: 0 <= k < |ImportRows(rs)| ==>
              var row := ImportRows(rs)[k];
              && row.idx == k && !row.paid && row.nota == "" && row.fechaPago == "" && row.precioCustom == None
              && (Norm(row.tipo) == "LIBERO" || Norm(row.tipo) == "OPCIONAL")
  {
    if rs != [] {
      var init := rs[..|rs| - 1];
      ImportRowsShape(init);
      forall k | 0 <= k < |SelectedRows(rs)|
        ensures Selected(SelectedRows(rs)[k])
      {
        SelectedRowsAreSelected(rs, k);
      }
      forall k | 0 <= k < |ImportRows(rs)|
        ensures var row := ImportRows(rs)[k]; Norm(row.tipo) == "LIBERO" || Norm(row.tipo) == "OPCIONAL"
      {
        CleanKeepsKey(At(SelectedRows(rs)[k], 6));
      }
    }
  }

  lemma {:induction false} SelectedRowsAreSelected(rs: seq<seq<Cell>>, k: nat)
    requires k < |SelectedRows(rs)|
    ensures Selected(SelectedRows(rs)[k])
  {
    var init := rs[..|rs| - 1];
    if k < |SelectedRows(init)| {
      SelectedRowsAreSelected(init, k);
    }
  }

  /**
    Of the three guards only the last one decides: a row whose column 6 normalises to
    LIBERO or OPCIONAL is never blank and always has column 6.
  */
  lemma SelectedIffTipo(r: seq<Cell>)
    ensures Selected(r) <==> (NormCell(At(r, 6)) == "LIBERO" || NormCell(At(r, 6)) == "OPCIONAL")
  {
    if NormCell(At(r, 6)) == "LIBERO" || NormCell(At(r, 6)) == "OPCIONAL" {
      var c := At(r, 6);
      assert Truthy(c);
      assert c != Str([Nbsp]) by {
        NormBlank([Nbsp]);
      }
      assert !BlankCell(r[6]);
    }
  }
}
