/**
  The supplier ranking of the results view of `src/App.js`: every row of the selected
  circuits is booked under its supplier's normalised name, the suppliers with a positive
  cost in pesos are kept, and they are listed from the most to the least expensive.
*/
module Proveedores {
  import opened JsBuiltins
  import opened Records
  import Helpers
  import Pricing

  // ---------------------------------------------------------------------------
  // The rows as charges

  /** What one row contributes: its raw supplier name and its key `norm(p)`, its resolved cost and whether it is paid. */
  datatype Charge = Charge(prov: string, key: string, mxn: real, usd: real, paid: bool)

  function ChargeOf(r: ServiceRow, info: CircInfo, tar: seq<RateEntry>): (ch: Charge)
    ensures ch.prov == r.provGeneral && ch.key == Helpers.Norm(ch.prov) && ch.paid == r.paid
    ensures ch.mxn == Pricing.GetImporte(r, info, tar).mxn && ch.usd == Pricing.GetImporte(r, info, tar).usd
  {
    var imp := Pricing.GetImporte(r, info, tar);
    Charge(r.provGeneral, Helpers.Norm(r.provGeneral), imp.mxn, imp.usd, r.paid)
  }

  /** The charges of one circuit's rows, in row order. */
  function RowCharges(rows: seq<ServiceRow>, info: CircInfo, tar: seq<RateEntry>): (r: seq<Charge>)
    ensures |r| == |rows|
    ensures forall k :: 0 <= k < |rows| ==> r[k] == ChargeOf(rows[k], info, tar)
  {
    if rows == [] then []
    else
      var init := rows[..|rows| - 1];
      assert forall k :: 0 <= k < |init| ==> init[k] == rows[k];
      RowCharges(init, info, tar) + [ChargeOf(rows[|rows| - 1], info, tar)]
  }

  /** The charges of all the circuits, circuit after circuit. */
  function ChargesOf(cs: seq<Circuit>, tar: seq<RateEntry>): seq<Charge> {
    if cs == [] then []
    else
      var last := cs[|cs| - 1];
      ChargesOf(cs[..|cs| - 1], tar) + RowCharges(last.rows, last.info, tar)
  }

  /** A row without a supplier (`if (!p) return`) is not booked; any other is booked under `norm(p)`. */
  predicate Booked(ch: Charge, k: string) {
    ch.prov != "" && ch.key == k
  }

  // ---------------------------------------------------------------------------
  // The table `pm`

  /** One supplier's entry `pm[k]`. */
  datatype ProvAcc = ProvAcc(
    nombre: string,
    totalMXN: real, totalUSD: real,
    paidMXN: real, paidUSD: real,
    pendMXN: real, pendUSD: real,
    servicios: nat)

  /** The object `pm` with its keys in insertion order. */
  datatype ProvTable = ProvTable(accs: map<string, ProvAcc>, keys: seq<string>)

  /** The keys are exactly the entries, each once, and every entry's paid and pending parts add up. */
  ghost predicate WellFormed(t: ProvTable) {
    && (forall k :: k in t.accs <==> k in t.keys)
    && NoRepeats(t.keys)
    && (forall k :: k in t.accs ==> t.accs[k].paidMXN + t.accs[k].pendMXN == t.accs[k].totalMXN)
    && (forall k :: k in t.accs ==> t.accs[k].paidUSD + t.accs[k].pendUSD == t.accs[k].totalUSD)
  }

  /** The entry `pm[k]` starts as: the raw name seen first, nothing booked. */
  function NewAcc(nombre: string): ProvAcc {
    ProvAcc(nombre, 0.0, 0.0, 0.0, 0.0, 0.0, 0.0, 0)
  }

  /** One row booked on an entry: the totals and the count, then paid or pending by `r.paid`. */
  function Book(a: ProvAcc, ch: Charge): ProvAcc {
    var a' := a.(totalMXN := a.totalMXN + ch.mxn, totalUSD := a.totalUSD + ch.usd, servicios := a.servicios + 1);
    if ch.paid then a'.(paidMXN := a'.paidMXN + ch.mxn, paidUSD := a'.paidUSD + ch.usd)
    else a'.(pendMXN := a'.pendMXN + ch.mxn, pendUSD := a'.pendUSD + ch.usd)
  }

  /** The body of the inner `forEach` for one row. */
  function ProvStep(t: ProvTable, ch: Charge): ProvTable {
    if ch.prov == "" then t
    else
      var k := ch.key;
      var isNew := k !in t.accs;
      var a := if isNew then NewAcc(ch.prov) else t.accs[k];
      ProvTable(t.accs[k := Book(a, ch)], if isNew then t.keys + [k] else t.keys)
  }

  /** The table after booking every charge in order. */
  function ProvFold(chs: seq<Charge>): ProvTable {
    if chs == [] then ProvTable(map[], [])
    else ProvStep(ProvFold(chs[..|chs| - 1]), chs[|chs| - 1])
  }

  /** One step keeps the table well formed. */
  lemma ProvStepWellFormed(t: ProvTable, ch: Charge)
    requires WellFormed(t)
    ensures WellFormed(ProvStep(t, ch))
  {
    if ch.prov != "" {
      StepAtKeyWellFormed(t, ch.key, ch);
    }
  }

  /** Booking a charge under any key `k`, created on first sight, keeps the table well formed. */
  lemma StepAtKeyWellFormed(t: ProvTable, k: string, ch: Charge)
    requires WellFormed(t)
    ensures var isNew := k !in t.accs;
      var a := if isNew then NewAcc(ch.prov) else t.accs[k];
      WellFormed(ProvTable(t.accs[k := Book(a, ch)], if isNew then t.keys + [k] else t.keys))
  {
    if k !in t.accs {
      NoRepeatsSnoc(t.keys, k);
    }
  }

  /** The table is always well formed: in particular paid + pending = total for every supplier. */
  lemma {:induction false} ProvFoldWellFormed(chs: seq<Charge>)
    ensures WellFormed(ProvFold(chs))
  {
    if chs != [] {
      ProvFoldWellFormed(chs[..|chs| - 1]);
      ProvStepWellFormed(ProvFold(chs[..|chs| - 1]), chs[|chs| - 1]);
    }
  }

  /** What one step does to the entry of `k`: books the charge there if it belongs to `k`. */
  lemma ProvStepAt(t: ProvTable, ch: Charge, k: string)
    ensures !Booked(ch, k) ==> (k in ProvStep(t, ch).accs <==> k in t.accs)
    ensures !Booked(ch, k) && k in t.accs ==> ProvStep(t, ch).accs[k] == t.accs[k]
    ensures Booked(ch, k) ==> k in ProvStep(t, ch).accs
    ensures Booked(ch, k) && k in t.accs ==> ProvStep(t, ch).accs[k] == Book(t.accs[k], ch)
    ensures Booked(ch, k) && k !in t.accs ==> ProvStep(t, ch).accs[k] == Book(NewAcc(ch.prov), ch)
  {
  }

  /** The number of charges booked under `k`. */
  function KeyCount(chs: seq<Charge>, k: string): nat {
    if chs == [] then 0
    else KeyCount(chs[..|chs| - 1], k) + (if Booked(chs[|chs| - 1], k) then 1 else 0)
  }

  /** Whether a charge's payment state is one `w` selects. */
  predicate Selects(w: Pricing.Which, paid: bool) {
    match w
    case AllRows => true
    case PaidRows => paid
    case UnpaidRows => !paid
  }

  /** A charge's amount in one currency. */
  function AmountOf(ch: Charge, cur: Pricing.Currency): real {
    if cur == Pricing.MXN then ch.mxn else ch.usd
  }

  /** The field of an entry that sums the rows `w` selects in currency `cur`. */
  function Field(a: ProvAcc, w: Pricing.Which, cur: Pricing.Currency): real {
    match (w, cur)
    case (AllRows, MXN) => a.totalMXN
    case (AllRows, USD) => a.totalUSD
    case (PaidRows, MXN) => a.paidMXN
    case (PaidRows, USD) => a.paidUSD
    case (UnpaidRows, MXN) => a.pendMXN
    case (UnpaidRows, USD) => a.pendUSD
  }

  /** Booking adds the amount to exactly the fields that select the charge, and counts it. */
  lemma BookField(a: ProvAcc, ch: Charge, w: Pricing.Which, cur: Pricing.Currency)
    ensures Field(Book(a, ch), w, cur) == Field(a, w, cur) + (if Selects(w, ch.paid) then AmountOf(ch, cur) else 0.0)
    ensures Book(a, ch).servicios == a.servicios + 1 && Book(a, ch).nombre == a.nombre
  {
  }

  /** The amounts in one currency booked under `k` whose payment state `w` selects. */
  function KeySum(chs: seq<Charge>, k: string, w: Pricing.Which, cur: Pricing.Currency): real {
    if chs == [] then 0.0
    else
      var ch := chs[|chs| - 1];
      KeySum(chs[..|chs| - 1], k, w, cur) + (if Booked(ch, k) && Selects(w, ch.paid) then AmountOf(ch, cur) else 0.0)
  }

  /** Nothing booked under `k` sums to nothing. */
  lemma {:induction false} KeySumZero(chs: seq<Charge>, k: string, w: Pricing.Which, cur: Pricing.Currency)
    requires KeyCount(chs, k) == 0
    ensures KeySum(chs, k, w, cur) == 0.0
  {
    if chs != [] {
      KeySumZero(chs[..|chs| - 1], k, w, cur);
    }
  }

  /** A supplier has an entry exactly when some row is booked under it, and counts those rows. */
  lemma {:induction false} ProvFoldKeys(chs: seq<Charge>, k: string)
    ensures k in ProvFold(chs).accs <==> KeyCount(chs, k) > 0
    ensures k in ProvFold(chs).accs ==> ProvFold(chs).accs[k].servicios == KeyCount(chs, k)
  {
    if chs != [] {
      var init, ch := chs[..|chs| - 1], chs[|chs| - 1];
      ProvFoldKeys(init, k);
      ProvStepAt(ProvFold(init), ch, k);
      if k !in ProvFold(init).accs && Booked(ch, k) {
        assert Book(NewAcc(ch.prov), ch).servicios == 1;
      }
    }
  }

  /** Each field of an entry is the sum of the rows booked under that supplier it selects. */
  lemma {:induction false} ProvFoldSums(chs: seq<Charge>, k: string, w: Pricing.Which, cur: Pricing.Currency)
    requires k in ProvFold(chs).accs
    ensures Field(ProvFold(chs).accs[k], w, cur) == KeySum(chs, k, w, cur)
  {
    var init, ch := chs[..|chs| - 1], chs[|chs| - 1];
    var t := ProvFold(init);
    ProvStepAt(t, ch, k);
    if k in t.accs {
      ProvFoldSums(init, k, w, cur);
      if Booked(ch, k) {
        BookField(t.accs[k], ch, w, cur);
      }
    } else {
      ProvFoldKeys(init, k);
      KeySumZero(init, k, w, cur);
      BookField(NewAcc(ch.prov), ch, w, cur);
    }
  }

  /** `chs[i]` is the first charge booked under `k`. */
  predicate FirstSeen(chs: seq<Charge>, k: string, i: nat) {
    i < |chs| && Booked(chs[i], k) && forall j :: 0 <= j < i ==> !Booked(chs[j], k)
  }

  /** A step keeps the names already shown, and a new entry takes the spelling of its row. */
  lemma ProvStepName(t: ProvTable, ch: Charge, k: string)
    ensures k in t.accs ==> k in ProvStep(t, ch).accs && ProvStep(t, ch).accs[k].nombre == t.accs[k].nombre
    ensures Booked(ch, k) && k !in t.accs ==> k in ProvStep(t, ch).accs && ProvStep(t, ch).accs[k].nombre == ch.prov
  {
  }

  /** The name shown for a supplier is the spelling of its first row. */
  lemma {:induction false} ProvFoldFirstName(chs: seq<Charge>, k: string, i: nat)
    requires FirstSeen(chs, k, i)
    ensures k in ProvFold(chs).accs && ProvFold(chs).accs[k].nombre == chs[i].prov
  {
    var n := |chs| - 1;
    ProvFoldName(chs, k);
    if i < n {
      FirstSeenPrefix(chs, k, i);
      ProvFoldFirstName(chs[..n], k, i);
      assert chs[..n][i] == chs[i];
    } else {
      UnseenBeforeFirst(chs, k);
      assert Booked(chs[n], k);
    }
  }

  /** `ProvStepName` for the last step of a fold. */
  lemma ProvFoldName(chs: seq<Charge>, k: string)
    requires chs != []
    ensures var t0 := ProvFold(chs[..|chs| - 1]);
      && (k in t0.accs ==> k in ProvFold(chs).accs && ProvFold(chs).accs[k].nombre == t0.accs[k].nombre)
      && (Booked(chs[|chs| - 1], k) && k !in t0.accs ==> k in ProvFold(chs).accs && ProvFold(chs).accs[k].nombre == chs[|chs| - 1].prov)
  {
    ProvStepName(ProvFold(chs[..|chs| - 1]), chs[|chs| - 1], k);
  }

  /** A first sighting before the last charge is a first sighting in the prefix. */
  lemma FirstSeenPrefix(chs: seq<Charge>, k: string, i: nat)
    requires FirstSeen(chs, k, i) && i < |chs| - 1
    ensures FirstSeen(chs[..|chs| - 1], k, i)
  {
    var init := chs[..|chs| - 1];
    assert init[i] == chs[i];
    forall j | 0 <= j < i ensures !Booked(init[j], k) {
      assert init[j] == chs[j];
    }
  }

  /** A supplier first seen on the last charge has no entry before it. */
  lemma UnseenBeforeFirst(chs: seq<Charge>, k: string)
    requires chs != [] && FirstSeen(chs, k, |chs| - 1)
    ensures k !in ProvFold(chs[..|chs| - 1]).accs
  {
    var init := chs[..|chs| - 1];
    forall j | 0 <= j < |init| ensures !Booked(init[j], k) {
      assert init[j] == chs[j];
    }
    NotBookedCount(init, k);
    ProvFoldKeys(init, k);
  }

  /** The keys after the last charge: the old ones, then its key when it is booked for the first time. */
  lemma ProvFoldKeysLast(chs: seq<Charge>)
    requires chs != []
    ensures var t0, ch := ProvFold(chs[..|chs| - 1]), chs[|chs| - 1];
      ProvFold(chs).keys == if ch.prov != "" && ch.key !in t0.accs then t0.keys + [ch.key] else t0.keys
  {
    assert ProvFold(chs) == ProvStep(ProvFold(chs[..|chs| - 1]), chs[|chs| - 1]);
  }

  /** A supplier already in the table before the last charge was first seen before it. */
  lemma SeenBeforeLast(chs: seq<Charge>, k: string, i: nat)
    requires FirstSeen(chs, k, i) && k in ProvFold(chs[..|chs| - 1]).accs
    ensures i < |chs| - 1
  {
    if i == |chs| - 1 {
      UnseenBeforeFirst(chs, k);
    }
  }

  /** A supplier that is new at the last charge is first seen there. */
  lemma NewAtLast(chs: seq<Charge>, k: string, j: nat)
    requires FirstSeen(chs, k, j) && k !in ProvFold(chs[..|chs| - 1]).accs
    ensures j == |chs| - 1
  {
    if j < |chs| - 1 {
      FirstSeenPrefix(chs, k, j);
      ProvFoldFirstName(chs[..|chs| - 1], k, j);
    }
  }

  /** `Object.values(pm)` lists the suppliers in the order of their first rows. */
  lemma {:induction false} ProvFoldKeyOrder(chs: seq<Charge>, a: nat, b: nat, i: nat, j: nat)
    requires a < b < |ProvFold(chs).keys|
    requires FirstSeen(chs, ProvFold(chs).keys[a], i) && FirstSeen(chs, ProvFold(chs).keys[b], j)
    ensures i < j
  {
    var n := |chs| - 1;
    var init := chs[..n];
    var t0 := ProvFold(init);
    ProvFoldKeysLast(chs);
    ProvFoldWellFormed(init);
    var keys := ProvFold(chs).keys;
    var ka, kb := keys[a], keys[b];
    assert ka == t0.keys[a] && ka in t0.accs;
    SeenBeforeLast(chs, ka, i);
    FirstSeenPrefix(chs, ka, i);
    if b < |t0.keys| {
      assert kb == t0.keys[b] && kb in t0.accs;
      SeenBeforeLast(chs, kb, j);
      FirstSeenPrefix(chs, kb, j);
      ProvFoldKeyOrder(init, a, b, i, j);
    } else {
      assert kb == chs[n].key && kb !in t0.accs;
      NewAtLast(chs, kb, j);
    }
  }

  /** No charge booked under `k` means a count of 0. */
  lemma {:induction false} NotBookedCount(chs: seq<Charge>, k: string)
    requires forall j :: 0 <= j < |chs| ==> !Booked(chs[j], k)
    ensures KeyCount(chs, k) == 0
  {
    if chs != [] {
      assert forall j :: 0 <= j < |chs| - 1 ==> chs[..|chs| - 1][j] == chs[j];
      NotBookedCount(chs[..|chs| - 1], k);
    }
  }

  // ---------------------------------------------------------------------------
  // Object.values(pm).map(...).filter(...).sort(...)

  /** An entry with its cost in pesos, `{ ...p, totalMXNEq }`. */
  datatype Ranked = Ranked(acc: ProvAcc, totalMXNEq: real)

  /** The entries in key order, each with `totalMXN + totalUSD * TC`. */
  function Values(t: ProvTable, tc: real): (r: seq<Ranked>)
    requires forall k :: k in t.keys ==> k in t.accs
    ensures |r| == |t.keys|
    ensures forall i :: 0 <= i < |r| ==> r[i].acc == t.accs[t.keys[i]]
    ensures forall i :: 0 <= i < |r| ==> r[i].totalMXNEq == Pricing.ToMXN(r[i].acc.totalMXN, r[i].acc.totalUSD, tc)
    decreases |t.keys|
  {
    if t.keys == [] then []
    else
      var k := t.keys[|t.keys| - 1];
      var a := t.accs[k];
      Values(t.(keys := t.keys[..|t.keys| - 1]), tc) + [Ranked(a, Pricing.ToMXN(a.totalMXN, a.totalUSD, tc))]
  }

  /** `.filter((p) => p.totalMXNEq > 0)`. */
  function Positive(s: seq<Ranked>): (r: seq<Ranked>)
    ensures forall x :: x in r <==> x in s && x.totalMXNEq > 0.0
    ensures multiset(r) <= multiset(s)
  {
    if s == [] then []
    else
      var last := s[|s| - 1];
      assert s == s[..|s| - 1] + [last];
      Positive(s[..|s| - 1]) + (if last.totalMXNEq > 0.0 then [last] else [])
  }

  /** The filter keeps the order of the entries: it distributes over concatenation. */
  lemma {:induction false} PositiveAppend(a: seq<Ranked>, b: seq<Ranked>)
    ensures Positive(a + b) == Positive(a) + Positive(b)
  {
    if b == [] {
      assert a + b == a;
    } else {
      assert (a + b)[..|a + b| - 1] == a + b[..|b| - 1];
      assert (a + b)[|a + b| - 1] == b[|b| - 1];
      PositiveAppend(a, b[..|b| - 1]);
    }
  }

  /** Non-increasing in `totalMXNEq`. */
  predicate SortedDesc(s: seq<Ranked>) {
    forall i, j :: 0 <= i < j < |s| ==> s[i].totalMXNEq >= s[j].totalMXNEq
  }

  /** Places `x` after every entry that costs at least as much. */
  function Insert(s: seq<Ranked>, x: Ranked): seq<Ranked> {
    if s == [] then [x]
    else if s[0].totalMXNEq >= x.totalMXNEq then [s[0]] + Insert(s[1..], x)
    else [x] + s
  }

  /** `.sort((a, b) => b.totalMXNEq - a.totalMXNEq)`, which is stable. */
  function SortDesc(s: seq<Ranked>): seq<Ranked> {
    if s == [] then [] else Insert(SortDesc(s[..|s| - 1]), s[|s| - 1])
  }

  /** The entries of `s` that cost exactly `v`, in order. */
  function WithEq(s: seq<Ranked>, v: real): seq<Ranked> {
    if s == [] then []
    else WithEq(s[..|s| - 1], v) + (if s[|s| - 1].totalMXNEq == v then [s[|s| - 1]] else [])
  }

  lemma {:induction false} WithEqAppend(a: seq<Ranked>, b: seq<Ranked>, v: real)
    ensures WithEq(a + b, v) == WithEq(a, v) + WithEq(b, v)
  {
    if b == [] {
      assert a + b == a;
    } else {
      assert (a + b)[..|a + b| - 1] == a + b[..|b| - 1];
      WithEqAppend(a, b[..|b| - 1], v);
    }
  }

  lemma {:induction false} WithEqNone(s: seq<Ranked>, v: real)
    requires forall i :: 0 <= i < |s| ==> s[i].totalMXNEq != v
    ensures WithEq(s, v) == []
  {
    if s != [] {
      WithEqNone(s[..|s| - 1], v);
    }
  }

  /** Inserting adds `x` and nothing else. */
  lemma {:induction false} InsertPerm(t: seq<Ranked>, x: Ranked)
    ensures multiset(Insert(t, x)) == multiset(t) + multiset{x}
  {
    if t != [] && t[0].totalMXNEq >= x.totalMXNEq {
      InsertPerm(t[1..], x);
      assert t == [t[0]] + t[1..];
    }
  }

  /** The entries after inserting are the old ones and `x`. */
  lemma {:induction false} InsertMembers(t: seq<Ranked>, x: Ranked)
    ensures forall y :: y in Insert(t, x) <==> y in t || y == x
  {
    if t != [] && t[0].totalMXNEq >= x.totalMXNEq {
      InsertMembers(t[1..], x);
      assert t == [t[0]] + t[1..];
    }
  }

  /** Inserting into a non-increasing list keeps it non-increasing. */
  lemma {:induction false} InsertSorted(t: seq<Ranked>, x: Ranked)
    requires SortedDesc(t)
    ensures SortedDesc(Insert(t, x))
  {
    if t != [] && t[0].totalMXNEq >= x.totalMXNEq {
      var rest := Insert(t[1..], x);
      InsertSorted(t[1..], x);
      InsertMembers(t[1..], x);
      var r := [t[0]] + rest;
      forall i, j | 0 <= i < j < |r| ensures r[i].totalMXNEq >= r[j].totalMXNEq {
        if i == 0 {
          var y := rest[j - 1];
          assert r[j] == y && y in rest;
          if y != x {
            var m :| 0 <= m < |t[1..]| && t[1..][m] == y;
            assert t[m + 1] == y;
          }
        } else {
          assert r[i] == rest[i - 1] && r[j] == rest[j - 1];
        }
      }
    }
  }

  /** The sort gives a non-increasing permutation of its input. */
  lemma {:induction false} SortDescSortedPerm(s: seq<Ranked>)
    ensures SortedDesc(SortDesc(s))
    ensures multiset(SortDesc(s)) == multiset(s)
  {
    if s != [] {
      var init, x := s[..|s| - 1], s[|s| - 1];
      assert SortDesc(s) == Insert(SortDesc(init), x);
      SortDescSortedPerm(init);
      InsertSorted(SortDesc(init), x);
      InsertPerm(SortDesc(init), x);
      assert s == init + [x];
    }
  }

  /** A one-entry list. */
  lemma WithEqSingle(x: Ranked, v: real)
    ensures WithEq([x], v) == (if x.totalMXNEq == v then [x] else [])
  {
    assert [x][..0] == [];
  }

  /** The tail of a non-increasing list is non-increasing. */
  lemma SortedTail(t: seq<Ranked>)
    requires t != [] && SortedDesc(t)
    ensures SortedDesc(t[1..])
  {
    var rest := t[1..];
    forall i, j | 0 <= i < j < |rest| ensures rest[i].totalMXNEq >= rest[j].totalMXNEq {
      assert rest[i] == t[i + 1] && rest[j] == t[j + 1];
    }
  }

  /** An entry that costs more than the head of a sorted list goes first, ahead of no entry of its cost. */
  lemma InsertFrontWithEq(t: seq<Ranked>, x: Ranked, v: real)
    requires SortedDesc(t) && t != [] && t[0].totalMXNEq < x.totalMXNEq
    ensures WithEq([x] + t, v) == WithEq(t, v) + (if x.totalMXNEq == v then [x] else [])
  {
    WithEqSingle(x, v);
    WithEqAppend([x], t, v);
    if x.totalMXNEq == v {
      forall i | 0 <= i < |t| ensures t[i].totalMXNEq != v {
        assert i == 0 || t[0].totalMXNEq >= t[i].totalMXNEq;
      }
      WithEqNone(t, v);
    }
  }

  /** Inserting into a sorted list puts `x` after every entry of the same cost. */
  lemma {:induction false} InsertWithEq(t: seq<Ranked>, x: Ranked, v: real)
    requires SortedDesc(t)
    ensures WithEq(Insert(t, x), v) == WithEq(t, v) + (if x.totalMXNEq == v then [x] else [])
  {
    if t == [] {
      WithEqSingle(x, v);
    } else if t[0].totalMXNEq >= x.totalMXNEq {
      var rest := t[1..];
      SortedTail(t);
      InsertWithEq(rest, x, v);
      assert Insert(t, x) == [t[0]] + Insert(rest, x);
      WithEqAppend([t[0]], Insert(rest, x), v);
      WithEqAppend([t[0]], rest, v);
      assert t == [t[0]] + rest;
    } else {
      assert Insert(t, x) == [x] + t;
      InsertFrontWithEq(t, x, v);
    }
  }

  /** Entries that cost the same keep their relative order (the sort is stable). */
  lemma {:induction false} SortDescStable(s: seq<Ranked>, v: real)
    ensures WithEq(SortDesc(s), v) == WithEq(s, v)
  {
    if s != [] {
      var init, x := s[..|s| - 1], s[|s| - 1];
      SortDescStable(init, v);
      SortDescSortedPerm(init);
      InsertWithEq(SortDesc(init), x, v);
    }
  }

  /** For a positive cost `v`, the filter keeps every entry of cost `v`, in order. */
  lemma {:induction false} PositiveWithEq(s: seq<Ranked>, v: real)
    requires v > 0.0
    ensures WithEq(Positive(s), v) == WithEq(s, v)
  {
    if s != [] {
      var init, last := s[..|s| - 1], s[|s| - 1];
      PositiveWithEq(init, v);
      var tail := if last.totalMXNEq > 0.0 then [last] else [];
      assert Positive(s) == Positive(init) + tail;
      WithEqAppend(Positive(init), tail, v);
      WithEqSingle(last, v);
      assert tail == [] ==> WithEq(tail, v) == [];
    }
  }

  // ---------------------------------------------------------------------------
  // The ranking

  /** The ranking of a selection of circuits, as the specification of the method below. */
  function Ranking(cs: seq<Circuit>, tar: seq<RateEntry>, tc: real): seq<Ranked> {
    var t := ProvFold(ChargesOf(cs, tar));
    ProvFoldWellFormed(ChargesOf(cs, tar));
    SortDesc(Positive(Values(t, tc)))
  }

  /** The ranking is a non-increasing permutation of the suppliers with a positive cost. */
  lemma RankingPerm(cs: seq<Circuit>, tar: seq<RateEntry>, tc: real)
    ensures var t := ProvFold(ChargesOf(cs, tar));
      WellFormed(t) && multiset(Ranking(cs, tar, tc)) == multiset(Positive(Values(t, tc)))
    ensures SortedDesc(Ranking(cs, tar, tc))
  {
    ProvFoldWellFormed(ChargesOf(cs, tar));
    SortDescSortedPerm(Positive(Values(ProvFold(ChargesOf(cs, tar)), tc)));
  }

  /**
    Suppliers of equal cost are ranked in the order of the table's keys, which is the order of
    their first rows (`ProvFoldKeyOrder`).
  */
  lemma RankingTies(cs: seq<Circuit>, tar: seq<RateEntry>, tc: real, v: real)
    requires v > 0.0
    ensures var t := ProvFold(ChargesOf(cs, tar));
      WellFormed(t) && WithEq(Ranking(cs, tar, tc), v) == WithEq(Values(t, tc), v)
  {
    var chs := ChargesOf(cs, tar);
    ProvFoldWellFormed(chs);
    var vs := Values(ProvFold(chs), tc);
    SortDescStable(Positive(vs), v);
    PositiveWithEq(vs, v);
  }

  /** Every supplier listed has a positive cost and paid + pending = total in each currency. */
  lemma RankingMembers(cs: seq<Circuit>, tar: seq<RateEntry>, tc: real, x: Ranked)
    requires x in Ranking(cs, tar, tc)
    ensures x.totalMXNEq > 0.0
    ensures x.acc.paidMXN + x.acc.pendMXN == x.acc.totalMXN
    ensures x.acc.paidUSD + x.acc.pendUSD == x.acc.totalUSD
  {
    RankingPerm(cs, tar, tc);
    var t := ProvFold(ChargesOf(cs, tar));
    assert x in multiset(Positive(Values(t, tc)));
    PositiveValues(t, tc, x);
  }

  /** An entry kept by the filter is positive and is one of the table's entries. */
  lemma PositiveValues(t: ProvTable, tc: real, x: Ranked)
    requires WellFormed(t) && x in Positive(Values(t, tc))
    ensures x.totalMXNEq > 0.0
    ensures x.acc.paidMXN + x.acc.pendMXN == x.acc.totalMXN
    ensures x.acc.paidUSD + x.acc.pendUSD == x.acc.totalUSD
  {
    var vs := Values(t, tc);
    assert x in vs;
    var i :| 0 <= i < |vs| && vs[i] == x;
    var k := t.keys[i];
    assert k in t.keys;
    assert x.acc == t.accs[k];
  }

  lemma ChargesOfStep(cs: seq<Circuit>, tar: seq<RateEntry>, i: nat)
    requires i < |cs|
    ensures ChargesOf(cs[..i + 1], tar) == ChargesOf(cs[..i], tar) + RowCharges(cs[i].rows, cs[i].info, tar)
  {
    assert cs[..i + 1][..i] == cs[..i];
  }

  lemma RowChargesStep(rows: seq<ServiceRow>, info: CircInfo, tar: seq<RateEntry>, j: nat)
    requires j < |rows|
    ensures RowCharges(rows[..j + 1], info, tar) == RowCharges(rows[..j], info, tar) + [ChargeOf(rows[j], info, tar)]
  {
    assert rows[..j + 1][..j] == rows[..j];
  }

  lemma ProvFoldSnoc(chs: seq<Charge>, ch: Charge)
    ensures ProvFold(chs + [ch]) == ProvStep(ProvFold(chs), ch)
  {
    assert (chs + [ch])[..|chs|] == chs;
  }

  /** The body of the inner `forEach`: books one row on `pm`, creating its entry when missing. */
  method BookRow(pm: map<string, ProvAcc>, keys: seq<string>, r: ServiceRow, info: CircInfo, tar: seq<RateEntry>)
    returns (pm': map<string, ProvAcc>, keys': seq<string>)
    ensures ProvTable(pm', keys') == ProvStep(ProvTable(pm, keys), ChargeOf(r, info, tar))
  {
    pm', keys' := pm, keys;
    var p := r.provGeneral;
    if p == "" {
      return;
    }
    var k := Helpers.Norm(p);
    if k !in pm' {
      pm' := pm'[k := NewAcc(p)];
      keys' := keys' + [k];
    }
    var imp := Pricing.GetImporte(r, info, tar);
    var ch := Charge(p, k, imp.mxn, imp.usd, r.paid);
    assert ch == ChargeOf(r, info, tar);
    pm' := pm'[k := Book(pm'[k], ch)];
  }

  /** The two nested `forEach` loops that fill `pm`, then the ranking built from it. */
  method RankProveedores(cs: seq<Circuit>, tar: seq<RateEntry>, tc: real) returns (provs: seq<Ranked>)
    ensures provs == Ranking(cs, tar, tc)
  {
    var pm: map<string, ProvAcc> := map[];
    var keys: seq<string> := [];
    var i := 0;
    while i < |cs|
      invariant i <= |cs|
      invariant ProvTable(pm, keys) == ProvFold(ChargesOf(cs[..i], tar))
    {
      pm, keys := BookCircuit(pm, keys, cs[i], tar, ChargesOf(cs[..i], tar));
      ChargesOfStep(cs, tar, i);
      i := i + 1;
    }
    assert cs[..i] == cs;
    ProvFoldWellFormed(ChargesOf(cs, tar));
    provs := SortDesc(Positive(Values(ProvTable(pm, keys), tc)));
  }

  /** The inner `forEach` over one circuit's rows. */
  method BookCircuit(pm: map<string, ProvAcc>, keys: seq<string>, c: Circuit, tar: seq<RateEntry>, ghost before: seq<Charge>)
    returns (pm': map<string, ProvAcc>, keys': seq<string>)
    requires ProvTable(pm, keys) == ProvFold(before)
    ensures ProvTable(pm', keys') == ProvFold(before + RowCharges(c.rows, c.info, tar))
  {
    pm', keys' := pm, keys;
    var j := 0;
    assert before + RowCharges(c.rows[..0], c.info, tar) == before by {
      assert c.rows[..0] == [];
    }
    while j < |c.rows|
      invariant j <= |c.rows|
      invariant ProvTable(pm', keys') == ProvFold(before + RowCharges(c.rows[..j], c.info, tar))
    {
      var r := c.rows[j];
      RowChargesStep(c.rows, c.info, tar, j);
      ProvFoldSnoc(before + RowCharges(c.rows[..j], c.info, tar), ChargeOf(r, c.info, tar));
      assert before + RowCharges(c.rows[..j + 1], c.info, tar)
             == (before + RowCharges(c.rows[..j], c.info, tar)) + [ChargeOf(r, c.info, tar)];
      pm', keys' := BookRow(pm', keys', r, c.info, tar);
      j := j + 1;
    }
    assert c.rows[..j] == c.rows;
  }

  // ---------------------------------------------------------------------------
  // pctPaid

  /** `Math.round(x)`: the nearest integer, halves rounded up. */
  function Round(x: real): int {
    (x + 0.5).Floor
  }

  /** `pctPaid`: the paid share of the cost in pesos, as a rounded percentage; 0 for no cost. */
  function PctPaid(p: Ranked, tc: real): int {
    if p.totalMXNEq > 0.0 then Round(Pricing.ToMXN(p.acc.paidMXN, p.acc.paidUSD, tc) / p.totalMXNEq * 100.0)
    else 0
  }

  /** A paid amount between nothing and the whole cost is a percentage from 0 to 100. */
  lemma PctPaidBounds(p: Ranked, tc: real)
    requires 0.0 <= Pricing.ToMXN(p.acc.paidMXN, p.acc.paidUSD, tc) <= p.totalMXNEq
    ensures 0 <= PctPaid(p, tc) <= 100
  {
    if p.totalMXNEq > 0.0 {
      var q := Pricing.ToMXN(p.acc.paidMXN, p.acc.paidUSD, tc) / p.totalMXNEq;
      assert 0.0 <= q <= 1.0 by {
        assert q * p.totalMXNEq == Pricing.ToMXN(p.acc.paidMXN, p.acc.paidUSD, tc);
      }
    }
  }

  /** A supplier whose whole cost is paid shows 100% (`allPaid`). */
  lemma PctPaidAllPaid(p: Ranked, tc: real)
    requires p.totalMXNEq > 0.0 && Pricing.ToMXN(p.acc.paidMXN, p.acc.paidUSD, tc) == p.totalMXNEq
    ensures PctPaid(p, tc) == 100
  {
    var e := p.totalMXNEq;
    assert Pricing.ToMXN(p.acc.paidMXN, p.acc.paidUSD, tc) / e == e / e == 1.0;
    assert Round(100.0) == 100;
  }
}
