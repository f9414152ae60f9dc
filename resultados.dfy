/**
  The computations of the results view (`EstadoResultados` in `src/App.js`): the choice of
  circuits to show, the totals rolled up over them, the per-category cost and paid/pending
  buckets, the list of categories to draw, the margin, and the supplier ranking.
*/
module Resultados {
  import opened JsBuiltins
  import opened Records
  import Helpers
  import Pricing
  import Dashboard
  import Proveedores

  // ---------------------------------------------------------------------------
  // circsMostrar

  /** The view mode: all circuits, one month, or one circuit. */
  datatype Modo = Todos | Mes | PorCircuito

  /** `circuits.filter((c) => c.id === circSel)`. */
  function WithId(cs: seq<Circuit>, id: string): (r: seq<Circuit>)
    ensures forall c :: c in r <==> c in cs && c.id == id
  {
    if cs == [] then []
    else
      var last := cs[|cs| - 1];
      assert cs == cs[..|cs| - 1] + [last];
      WithId(cs[..|cs| - 1], id) + (if last.id == id then [last] else [])
  }

  /** The circuits the view shows; a month is looked up as `monthMap[mesSel] || []`. */
  function CircsMostrar(modo: Modo, cs: seq<Circuit>, mesSel: string, circSel: string): seq<Circuit> {
    match modo
    case Todos => cs
    case Mes => Dashboard.CircuitsInMonth(cs, mesSel)
    case PorCircuito => WithId(cs, circSel)
  }

  /** Selecting by id keeps list order: it distributes over concatenation. */
  lemma {:induction false} WithIdAppend(a: seq<Circuit>, b: seq<Circuit>, id: string)
    ensures WithId(a + b, id) == WithId(a, id) + WithId(b, id)
  {
    if b == [] {
      assert a + b == a;
    } else {
      assert (a + b)[..|a + b| - 1] == a + b[..|b| - 1];
      assert (a + b)[|a + b| - 1] == b[|b| - 1];
      WithIdAppend(a, b[..|b| - 1], id);
    }
  }

  /** One circuit is selected, once, exactly when it has the id. */
  lemma WithIdSingle(c: Circuit, id: string)
    ensures WithId([c], id) == if c.id == id then [c] else []
  {
    assert [c][..0] == [];
  }

  /** Every mode keeps the order of the list: the selection distributes over concatenation. */
  lemma CircsMostrarAppend(modo: Modo, a: seq<Circuit>, b: seq<Circuit>, mesSel: string, circSel: string)
    ensures CircsMostrar(modo, a + b, mesSel, circSel) == CircsMostrar(modo, a, mesSel, circSel) + CircsMostrar(modo, b, mesSel, circSel)
  {
    match modo
    case Todos =>
    case Mes => Dashboard.InMonthAppend(a, b, mesSel);
    case PorCircuito => WithIdAppend(a, b, circSel);
  }

  /** Every mode shows circuits of the list, and exactly those that match it. */
  lemma CircsMostrarIff(modo: Modo, cs: seq<Circuit>, mesSel: string, circSel: string, c: Circuit)
    ensures c in CircsMostrar(modo, cs, mesSel, circSel)
            <==> c in cs && (modo == Mes ==> Dashboard.MonthKeyOf(c) == mesSel) && (modo == PorCircuito ==> c.id == circSel)
  {
    Dashboard.InMonthIff(cs, mesSel, c);
  }

  // ---------------------------------------------------------------------------
  // The totals over the selection

  /** `totalIngUSD, totalIngMXN, totalCosto, totalPaid*, totalPend*`. */
  datatype Rollup = Rollup(
    ingUSD: real, ingMXN: real, costo: real,
    paidMXN: real, paidUSD: real, pendMXN: real, pendUSD: real)

  const NoTotals := Rollup(0.0, 0.0, 0.0, 0.0, 0.0, 0.0, 0.0)

  /** One circuit added to the running totals, from its `calcCircTotals` record. */
  function AddCircuit(r: Rollup, c: Circuit, t: Pricing.CircTotals): Rollup {
    Rollup(
      r.ingUSD + Pricing.Ingreso(c), r.ingMXN + t.ingresoMXN, r.costo + t.costoTotal,
      r.paidMXN + t.paidMXN, r.paidUSD + t.paidUSD,
      r.pendMXN + (t.costoMXN - t.paidMXN), r.pendUSD + (t.costoUSD - t.paidUSD))
  }

  /** The field-wise sum of two sets of totals. */
  function Plus(a: Rollup, b: Rollup): Rollup {
    Rollup(
      a.ingUSD + b.ingUSD, a.ingMXN + b.ingMXN, a.costo + b.costo,
      a.paidMXN + b.paidMXN, a.paidUSD + b.paidUSD, a.pendMXN + b.pendMXN, a.pendUSD + b.pendUSD)
  }

  /** The totals of a selection, circuit by circuit. */
  function RollupOf(cs: seq<Circuit>, tar: seq<RateEntry>, tc: real): Rollup {
    if cs == [] then NoTotals
    else
      var last := cs[|cs| - 1];
      AddCircuit(RollupOf(cs[..|cs| - 1], tar, tc), last, Pricing.Totals(last, tar, tc))
  }

  /** The totals of two selections put together are the sum of their totals. */
  lemma {:induction false} RollupAppend(a: seq<Circuit>, b: seq<Circuit>, tar: seq<RateEntry>, tc: real)
    ensures RollupOf(a + b, tar, tc) == Plus(RollupOf(a, tar, tc), RollupOf(b, tar, tc))
  {
    if b == [] {
      assert a + b == a;
    } else {
      assert (a + b)[..|a + b| - 1] == a + b[..|b| - 1];
      RollupAppend(a, b[..|b| - 1], tar, tc);
    }
  }

  /** The pending amounts of the circuits: their unpaid rows, one currency at a time. */
  function UnpaidSum(cs: seq<Circuit>, tar: seq<RateEntry>, cur: Pricing.Currency): real {
    if cs == [] then 0.0
    else
      var last := cs[|cs| - 1];
      UnpaidSum(cs[..|cs| - 1], tar, cur) + Pricing.RowSum(last.rows, last.info, tar, Pricing.UnpaidRows, cur)
  }

  /** The profits `utilidad` of the circuits, summed. */
  function ProfitSum(cs: seq<Circuit>, tar: seq<RateEntry>, tc: real): real {
    if cs == [] then 0.0 else ProfitSum(cs[..|cs| - 1], tar, tc) + Pricing.Totals(cs[|cs| - 1], tar, tc).utilidad
  }

  /** The pending totals are the cost of the unpaid rows of the selection. */
  lemma {:induction false} RollupPending(cs: seq<Circuit>, tar: seq<RateEntry>, tc: real)
    ensures RollupOf(cs, tar, tc).pendMXN == UnpaidSum(cs, tar, Pricing.MXN)
    ensures RollupOf(cs, tar, tc).pendUSD == UnpaidSum(cs, tar, Pricing.USD)
  {
    if cs != [] {
      RollupPending(cs[..|cs| - 1], tar, tc);
      Pricing.TotalsPending(cs[|cs| - 1], tar, tc);
    }
  }

  /** The profit of the selection (`totalIngMXN - totalCosto`) is the sum of the circuits' profits. */
  lemma {:induction false} RollupProfit(cs: seq<Circuit>, tar: seq<RateEntry>, tc: real)
    ensures RollupOf(cs, tar, tc).ingMXN - RollupOf(cs, tar, tc).costo == ProfitSum(cs, tar, tc)
  {
    if cs != [] {
      RollupProfit(cs[..|cs| - 1], tar, tc);
    }
  }

  /**
    The margin shown (`(utilidad / totalIngMXN) * 100`): only when there is revenue and some
    cost; below 100, and not negative exactly when revenue covers the cost.
  */
  function Margen(r: Rollup): (m: Option<real>)
    ensures m.Some? <==> r.ingMXN > 0.0 && r.costo > 0.0
  {
    if r.ingMXN > 0.0 && r.costo > 0.0 then Some((r.ingMXN - r.costo) / r.ingMXN * 100.0) else None
  }

  lemma MargenBounds(r: Rollup)
    requires Margen(r).Some?
    ensures Margen(r).value < 100.0
    ensures Margen(r).value >= 0.0 <==> r.ingMXN >= r.costo
  {
    var i, c := r.ingMXN, r.costo;
    var q := (i - c) / i;
    assert q * i == i - c;
    assert q < 1.0;
    assert q >= 0.0 <==> i >= c;
  }

  // ---------------------------------------------------------------------------
  // Categories

  /** `norm(r.clasificacion) || 'OTROS'`. */
  function CatOf(r: ServiceRow): (cat: string)
    ensures cat != ""
  {
    var k := Helpers.Norm(r.clasificacion);
    if k == "" then "OTROS" else k
  }

  /** What one row contributes to the categories: its category, its cost and whether it is paid. */
  datatype Item = Item(cat: string, mxn: real, usd: real, paid: bool)

  function ItemOf(r: ServiceRow, info: CircInfo, tar: seq<RateEntry>): (it: Item)
    ensures it.cat == CatOf(r) && it.paid == r.paid
    ensures it.mxn == Pricing.GetImporte(r, info, tar).mxn && it.usd == Pricing.GetImporte(r, info, tar).usd
  {
    var imp := Pricing.GetImporte(r, info, tar);
    Item(CatOf(r), imp.mxn, imp.usd, r.paid)
  }

  /** A row whose category is blank is booked under `OTROS`. */
  lemma BlankIsOtros(r: ServiceRow)
    requires AllSpace(r.clasificacion)
    ensures CatOf(r) == "OTROS"
  {
    Helpers.NormBlank(r.clasificacion);
  }

  /** The items of one circuit's rows, one per row, in row order. */
  function RowItems(rows: seq<ServiceRow>, info: CircInfo, tar: seq<RateEntry>): (r: seq<Item>)
    ensures |r| == |rows|
    ensures forall k :: 0 <= k < |rows| ==> r[k] == ItemOf(rows[k], info, tar)
  {
    seq(|rows|, k requires 0 <= k < |rows| => ItemOf(rows[k], info, tar))
  }

  /** One more row adds its item at the end. */
  lemma RowItemsSnoc(rows: seq<ServiceRow>, info: CircInfo, tar: seq<RateEntry>, j: nat)
    requires j < |rows|
    ensures RowItems(rows[..j + 1], info, tar) == RowItems(rows[..j], info, tar) + [ItemOf(rows[j], info, tar)]
  {
    var a, b := RowItems(rows[..j + 1], info, tar), RowItems(rows[..j], info, tar) + [ItemOf(rows[j], info, tar)];
    forall k | 0 <= k < j + 1 ensures a[k] == b[k] {
      RowItemsSnocAt(rows, info, tar, j, k);
    }
  }

  lemma RowItemsSnocAt(rows: seq<ServiceRow>, info: CircInfo, tar: seq<RateEntry>, j: nat, k: nat)
    requires k <= j < |rows|
    ensures RowItems(rows[..j + 1], info, tar)[k] == (RowItems(rows[..j], info, tar) + [ItemOf(rows[j], info, tar)])[k]
  {
    assert rows[..j + 1][k] == rows[k];
    if k < j {
      assert rows[..j][k] == rows[k];
    }
  }

  /** The rows of all the circuits shown, circuit after circuit. */
  function ItemsOf(cs: seq<Circuit>, tar: seq<RateEntry>): seq<Item> {
    if cs == [] then []
    else
      var last := cs[|cs| - 1];
      ItemsOf(cs[..|cs| - 1], tar) + RowItems(last.rows, last.info, tar)
  }

  /** `catPaidMXN[cat], catPaidUSD[cat], catPendMXN[cat], catPendUSD[cat]`. */
  datatype Bucket = Bucket(paidMXN: real, paidUSD: real, pendMXN: real, pendUSD: real)

  const EmptyBucket := Bucket(0.0, 0.0, 0.0, 0.0)

  /** A row's amounts go to the paid or to the pending pair, as `r.paid` says. */
  function Deposit(b: Bucket, it: Item): Bucket {
    if it.paid then b.(paidMXN := b.paidMXN + it.mxn, paidUSD := b.paidUSD + it.usd)
    else b.(pendMXN := b.pendMXN + it.mxn, pendUSD := b.pendUSD + it.usd)
  }

  /**
    `catCosto` and the four bucket objects, each with its keys in insertion order. The four
    bucket objects always receive the same keys together, so they are one map here.
  */
  datatype CatTables = CatTables(
    costo: map<string, real>, costoKeys: seq<string>,
    buckets: map<string, Bucket>, bucketKeys: seq<string>)

  const NoCats := CatTables(map[], [], map[], [])

  /** The keys list the entries, each once. */
  ghost predicate KeysExact(t: CatTables) {
    && (forall c :: c in t.costo <==> c in t.costoKeys)
    && NoRepeats(t.costoKeys)
    && (forall c :: c in t.buckets <==> c in t.bucketKeys)
    && NoRepeats(t.bucketKeys)
  }

  /** `const v = mxn + usd * TC; if (v > 0) catCosto[cat] = (catCosto[cat] || 0) + v`. */
  function AddCost(t: CatTables, it: Item, tc: real): CatTables {
    var v := Pricing.ToMXN(it.mxn, it.usd, tc);
    if v > 0.0 then
      t.(costo := t.costo[it.cat := (if it.cat in t.costo then t.costo[it.cat] else 0.0) + v],
         costoKeys := if it.cat in t.costo then t.costoKeys else t.costoKeys + [it.cat])
    else t
  }

  /** One row booked: its cost, then (after resetting the buckets when `reset`) its amounts. */
  function Book(t: CatTables, it: Item, tc: real, reset: bool): CatTables
    requires reset || it.cat in t.buckets
  {
    var t1 := AddCost(t, it, tc);
    var t2 := if reset then
                t1.(buckets := t1.buckets[it.cat := EmptyBucket],
                    bucketKeys := if it.cat in t1.buckets then t1.bucketKeys else t1.bucketKeys + [it.cat])
              else t1;
    t2.(buckets := t2.buckets[it.cat := Deposit(t2.buckets[it.cat], it)])
  }

  /** The body of the inner `forEach`, with the buckets created only when the category is new. */
  function CatStep(t: CatTables, it: Item, tc: real): CatTables {
    Book(t, it, tc, it.cat !in t.buckets)
  }

  /**
    The body of the inner `forEach` as written: `if (!catPaidMXN[cat])` also resets the four
    buckets of a category that is present but whose paid pesos are still 0.
  */
  function CatStepAsWritten(t: CatTables, it: Item, tc: real): CatTables {
    Book(t, it, tc, it.cat !in t.buckets || t.buckets[it.cat].paidMXN == 0.0)
  }

  function CatFold(items: seq<Item>, tc: real): CatTables {
    if items == [] then NoCats else CatStep(CatFold(items[..|items| - 1], tc), items[|items| - 1], tc)
  }

  function CatFoldAsWritten(items: seq<Item>, tc: real): CatTables {
    if items == [] then NoCats else CatStepAsWritten(CatFoldAsWritten(items[..|items| - 1], tc), items[|items| - 1], tc)
  }

  /** Two unpaid rows of 100 pesos in one category: the code as written keeps 100 pending, not 200. */
  lemma PendingLostAsWritten(cat: string, tc: real)
    ensures var items := [Item(cat, 100.0, 0.0, false), Item(cat, 100.0, 0.0, false)];
      && CatFoldAsWritten(items, tc).buckets[cat].pendMXN == 100.0
      && CatFold(items, tc).buckets[cat].pendMXN == 200.0
  {
    var it := Item(cat, 100.0, 0.0, false);
    var items := [it, it];
    assert items[..1] == [it] && [it][..0] == [];
    assert Pricing.ToMXN(100.0, 0.0, tc) == 100.0;
    var once := CatStep(NoCats, it, tc);
    assert once.buckets[cat] == Bucket(0.0, 0.0, 100.0, 0.0);
    assert CatFold([it], tc) == once && CatFoldAsWritten([it], tc) == once;
    assert CatStep(once, it, tc).buckets[cat] == Bucket(0.0, 0.0, 200.0, 0.0);
    assert CatStepAsWritten(once, it, tc).buckets[cat] == Bucket(0.0, 0.0, 100.0, 0.0);
  }

  /** Such a row: an unpaid manual price of 100 with no currency chosen books 100 pesos. */
  lemma ManualMXNItem(r: ServiceRow, info: CircInfo, tar: seq<RateEntry>)
    requires r.precioCustom == Some(100.0) && r.monedaCustom == "" && !r.paid
    ensures ItemOf(r, info, tar) == Item(CatOf(r), 100.0, 0.0, false)
  {
  }

  /** One step keeps the keys exact. */
  lemma CatStepKeys(t: CatTables, it: Item, tc: real)
    requires KeysExact(t)
    ensures KeysExact(CatStep(t, it, tc))
  {
  }

  lemma {:induction false} CatFoldKeys(items: seq<Item>, tc: real)
    ensures KeysExact(CatFold(items, tc))
  {
    if items != [] {
      CatFoldKeys(items[..|items| - 1], tc);
      CatStepKeys(CatFold(items[..|items| - 1], tc), items[|items| - 1], tc);
    }
  }

  /** The number of rows of category `cat`. */
  function CatCount(items: seq<Item>, cat: string): nat {
    if items == [] then 0 else CatCount(items[..|items| - 1], cat) + (if items[|items| - 1].cat == cat then 1 else 0)
  }

  /** A row's amount in one currency. */
  function AmountOf(it: Item, cur: Pricing.Currency): real {
    if cur == Pricing.MXN then it.mxn else it.usd
  }

  /** The amounts in one currency of the rows of `cat` that are paid (`paid`) or not. */
  function CatSum(items: seq<Item>, cat: string, paid: bool, cur: Pricing.Currency): real {
    if items == [] then 0.0
    else
      var it := items[|items| - 1];
      CatSum(items[..|items| - 1], cat, paid, cur) + (if it.cat == cat && it.paid == paid then AmountOf(it, cur) else 0.0)
  }

  /** The part of a bucket holding the rows of one payment state in one currency. */
  function Pot(b: Bucket, paid: bool, cur: Pricing.Currency): real {
    match (paid, cur)
    case (true, MXN) => b.paidMXN
    case (true, USD) => b.paidUSD
    case (false, MXN) => b.pendMXN
    case (false, USD) => b.pendUSD
  }

  lemma DepositPot(b: Bucket, it: Item, paid: bool, cur: Pricing.Currency)
    ensures Pot(Deposit(b, it), paid, cur) == Pot(b, paid, cur) + (if it.paid == paid then AmountOf(it, cur) else 0.0)
  {
  }

  lemma {:induction false} CatSumZero(items: seq<Item>, cat: string, paid: bool, cur: Pricing.Currency)
    requires CatCount(items, cat) == 0
    ensures CatSum(items, cat, paid, cur) == 0.0
  {
    if items != [] {
      CatSumZero(items[..|items| - 1], cat, paid, cur);
    }
  }

  /** What one step does to the buckets of `cat`. */
  lemma CatStepAt(t: CatTables, it: Item, tc: real, cat: string)
    ensures cat in CatStep(t, it, tc).buckets <==> cat in t.buckets || it.cat == cat
    ensures it.cat != cat && cat in t.buckets ==> CatStep(t, it, tc).buckets[cat] == t.buckets[cat]
    ensures it.cat == cat ==> CatStep(t, it, tc).buckets[cat]
                              == Deposit(if cat in t.buckets then t.buckets[cat] else EmptyBucket, it)
  {
  }

  /** A category has buckets exactly when some row has it. */
  lemma {:induction false} CatFoldHasBuckets(items: seq<Item>, tc: real, cat: string)
    ensures cat in CatFold(items, tc).buckets <==> CatCount(items, cat) > 0
  {
    if items != [] {
      CatFoldHasBuckets(items[..|items| - 1], tc, cat);
      CatStepAt(CatFold(items[..|items| - 1], tc), items[|items| - 1], tc, cat);
    }
  }

  /**
    Every row's amounts are in exactly one of the paid or pending buckets of its category:
    each bucket holds the sum of that category's rows with that payment state.
  */
  lemma {:induction false} CatFoldBuckets(items: seq<Item>, tc: real, cat: string, paid: bool, cur: Pricing.Currency)
    requires cat in CatFold(items, tc).buckets
    ensures Pot(CatFold(items, tc).buckets[cat], paid, cur) == CatSum(items, cat, paid, cur)
  {
    var init, it := items[..|items| - 1], items[|items| - 1];
    var t := CatFold(init, tc);
    CatStepAt(t, it, tc, cat);
    if cat in t.buckets {
      CatFoldBuckets(init, tc, cat, paid, cur);
      if it.cat == cat {
        DepositPot(t.buckets[cat], it, paid, cur);
      }
    } else {
      CatFoldHasBuckets(init, tc, cat);
      CatSumZero(init, cat, paid, cur);
      DepositPot(EmptyBucket, it, paid, cur);
    }
  }

  /** The cost in pesos of the rows of `cat` whose cost is positive. */
  function CostSum(items: seq<Item>, cat: string, tc: real): real {
    if items == [] then 0.0
    else
      var it := items[|items| - 1];
      var v := Pricing.ToMXN(it.mxn, it.usd, tc);
      CostSum(items[..|items| - 1], cat, tc) + (if it.cat == cat && v > 0.0 then v else 0.0)
  }

  /** Some row of `cat` has a positive cost in pesos. */
  predicate HasCost(items: seq<Item>, cat: string, tc: real) {
    exists i :: 0 <= i < |items| && items[i].cat == cat && Pricing.ToMXN(items[i].mxn, items[i].usd, tc) > 0.0
  }

  /** `catCosto[cat]` exists exactly for categories with a positive cost, and sums those costs. */
  lemma {:induction false} CatFoldCosto(items: seq<Item>, tc: real, cat: string)
    ensures cat in CatFold(items, tc).costo <==> HasCost(items, cat, tc)
    ensures cat in CatFold(items, tc).costo ==> CatFold(items, tc).costo[cat] == CostSum(items, cat, tc)
  {
    if items != [] {
      var init, it := items[..|items| - 1], items[|items| - 1];
      CatFoldCosto(init, tc, cat);
      assert forall i :: 0 <= i < |init| ==> init[i] == items[i];
      if !HasCost(init, cat, tc) {
        NoCostSum(init, cat, tc);
      }
      if HasCost(items, cat, tc) && !HasCost(init, cat, tc) {
        var i :| 0 <= i < |items| && items[i].cat == cat && Pricing.ToMXN(items[i].mxn, items[i].usd, tc) > 0.0;
        assert i == |init|;
      }
    }
  }

  lemma {:induction false} NoCostSum(items: seq<Item>, cat: string, tc: real)
    requires !HasCost(items, cat, tc)
    ensures CostSum(items, cat, tc) == 0.0
  {
    if items != [] {
      var init := items[..|items| - 1];
      assert forall i :: 0 <= i < |init| ==> init[i] == items[i];
      NoCostSum(init, cat, tc);
    }
  }

  // ---------------------------------------------------------------------------
  // allCats

  /** The fixed categories, in display order. */
  const CATS := ["HOSPEDAJE", "TRANSPORTE", "ACTIVIDADES", "ALIMENTOS", "GUIA", "OTROS"]

  /** `catCosto[c] || catPaidMXN[c] || catPendMXN[c]`. */
  predicate HasData(t: CatTables, c: string) {
    || (c in t.costo && t.costo[c] != 0.0)
    || (c in t.buckets && (t.buckets[c].paidMXN != 0.0 || t.buckets[c].pendMXN != 0.0))
  }

  /** `CATS.filter(...)`. */
  function WithData(cats: seq<string>, t: CatTables): (r: seq<string>)
    ensures forall c :: c in r <==> c in cats && HasData(t, c)
  {
    if cats == [] then []
    else
      var last := cats[|cats| - 1];
      assert cats == cats[..|cats| - 1] + [last];
      WithData(cats[..|cats| - 1], t) + (if HasData(t, last) then [last] else [])
  }

  /** `[...new Set(s)]`: the first occurrence of each value, in order. */
  function Dedup(s: seq<string>): (r: seq<string>)
    ensures forall x :: x in r <==> x in s
    ensures NoRepeats(r)
  {
    if s == [] then []
    else
      var d := Dedup(s[..|s| - 1]);
      var last := s[|s| - 1];
      assert s == s[..|s| - 1] + [last];
      if last in d then d else d + [last]
  }

  /** A list without repeats is its own set. */
  lemma {:induction false} DedupDistinct(s: seq<string>)
    requires NoRepeats(s)
    ensures Dedup(s) == s
  {
    if s != [] {
      var init := s[..|s| - 1];
      assert NoRepeats(init) by {
        forall a, b | 0 <= a < b < |init| ensures init[a] != init[b] {
          assert init[a] == s[a] && init[b] == s[b];
        }
      }
      DedupDistinct(init);
      var last := s[|s| - 1];
      assert last !in init by {
        forall j | 0 <= j < |init| ensures init[j] != last {
          assert init[j] == s[j];
        }
      }
      assert s == init + [last];
    }
  }

  /** Appending never changes the values already collected, nor their order. */
  lemma {:induction false} DedupPrefix(a: seq<string>, b: seq<string>)
    ensures Dedup(a) <= Dedup(a + b)
  {
    if b != [] {
      assert (a + b)[..|a + b| - 1] == a + b[..|b| - 1];
      DedupPrefix(a, b[..|b| - 1]);
    } else {
      assert a + b == a;
    }
  }

  /** The categories drawn: the fixed ones with data first, then every other key seen. */
  function AllCats(t: CatTables): seq<string> {
    Dedup(WithData(CATS, t) + t.costoKeys + t.bucketKeys)
  }

  /** A category is drawn exactly when it has a cost or buckets; each is drawn once. */
  lemma AllCatsIff(t: CatTables, c: string)
    requires KeysExact(t)
    ensures c in AllCats(t) <==> c in t.costo || c in t.buckets
  {
  }

  lemma CatsDistinct()
    ensures NoRepeats(CATS)
  {
  }

  /** The fixed categories that have data lead the list, in their fixed order. */
  lemma AllCatsFixedFirst(t: CatTables)
    ensures WithData(CATS, t) <= AllCats(t)
  {
    var w := WithData(CATS, t);
    CatsDistinct();
    WithDataDistinct(CATS, t);
    DedupDistinct(w);
    DedupPrefix(w, t.costoKeys + t.bucketKeys);
    assert w + t.costoKeys + t.bucketKeys == w + (t.costoKeys + t.bucketKeys);
  }

  /** Filtering a list without repeats gives a list without repeats. */
  lemma {:induction false} WithDataDistinct(cats: seq<string>, t: CatTables)
    requires NoRepeats(cats)
    ensures NoRepeats(WithData(cats, t))
  {
    if cats != [] {
      var init := cats[..|cats| - 1];
      assert NoRepeats(init) by {
        forall a, b | 0 <= a < b < |init| ensures init[a] != init[b] {
          assert init[a] == cats[a] && init[b] == cats[b];
        }
      }
      WithDataDistinct(init, t);
      var last, w0 := cats[|cats| - 1], WithData(init, t);
      assert last !in init;
      assert last !in w0;
      var w := WithData(cats, t);
      if HasData(t, last) {
        assert w == w0 + [last];
        forall a, b | 0 <= a < b < |w| ensures w[a] != w[b] {
          if b == |w0| {
            assert w[a] == w0[a] && w[b] == last;
          } else {
            assert w[a] == w0[a] && w[b] == w0[b];
          }
        }
      } else {
        assert w == w0;
      }
    }
  }

  // ---------------------------------------------------------------------------
  // The reset as written against the corrected one

  /** Two tables with the same costs, the same key lists and the same categories with buckets. */
  ghost predicate SameShape(t: CatTables, u: CatTables) {
    && t.costo == u.costo && t.costoKeys == u.costoKeys
    && t.buckets.Keys == u.buckets.Keys && t.bucketKeys == u.bucketKeys
  }

  /** Whether the buckets are reset decides only their contents, never the shape. */
  lemma BookShape(t: CatTables, u: CatTables, it: Item, tc: real, r1: bool, r2: bool)
    requires r1 || it.cat in t.buckets
    requires r2 || it.cat in u.buckets
    requires SameShape(t, u)
    ensures SameShape(Book(t, it, tc, r1), Book(u, it, tc, r2))
  {
  }

  /** Both folds book the same costs, the same key lists and the same categories. */
  lemma {:induction false} CatFoldsShape(items: seq<Item>, tc: real)
    ensures SameShape(CatFoldAsWritten(items, tc), CatFold(items, tc))
  {
    if items != [] {
      var init, it := items[..|items| - 1], items[|items| - 1];
      CatFoldsShape(init, tc);
      var t, u := CatFoldAsWritten(init, tc), CatFold(init, tc);
      BookShape(t, u, it, tc, it.cat !in t.buckets || t.buckets[it.cat].paidMXN == 0.0, it.cat !in u.buckets);
    }
  }

  /** The keys of the fold as written list its entries, each once. */
  lemma CatFoldAsWrittenKeys(items: seq<Item>, tc: real)
    ensures KeysExact(CatFoldAsWritten(items, tc))
  {
    CatFoldsShape(items, tc);
    CatFoldKeys(items, tc);
  }

  /** The fold as written holds buckets exactly for the categories of its rows. */
  lemma CatFoldAsWrittenHasBuckets(items: seq<Item>, tc: real, cat: string)
    ensures cat in CatFoldAsWritten(items, tc).buckets <==> CatCount(items, cat) > 0
  {
    CatFoldsShape(items, tc);
    CatFoldHasBuckets(items, tc, cat);
  }

  /** The fold as written books every positive cost, as the corrected one does. */
  lemma CatFoldAsWrittenCosto(items: seq<Item>, tc: real, cat: string)
    ensures cat in CatFoldAsWritten(items, tc).costo <==> HasCost(items, cat, tc)
    ensures cat in CatFoldAsWritten(items, tc).costo ==> CatFoldAsWritten(items, tc).costo[cat] == CostSum(items, cat, tc)
  {
    CatFoldsShape(items, tc);
    CatFoldCosto(items, tc, cat);
  }

  /** Every cost booked is positive, and a category with pesos in its buckets has a cost. */
  ghost predicate Drawable(t: CatTables) {
    && (forall c :: c in t.costo ==> t.costo[c] > 0.0)
    && (forall c :: c in t.buckets && (t.buckets[c].paidMXN != 0.0 || t.buckets[c].pendMXN != 0.0) ==> c in t.costo)
  }

  /** A row without negative amounts keeps a table drawable, reset or not. */
  lemma BookDrawable(t: CatTables, it: Item, tc: real, reset: bool)
    requires reset || it.cat in t.buckets
    requires it.mxn >= 0.0 && it.usd >= 0.0 && tc >= 0.0
    requires Drawable(t)
    ensures Drawable(Book(t, it, tc, reset))
  {
    var v := Pricing.ToMXN(it.mxn, it.usd, tc);
    assert it.usd * tc >= 0.0;
    assert it.mxn > 0.0 ==> v > 0.0;
  }

  /** Items whose amounts are never negative. */
  predicate NonNegative(items: seq<Item>) {
    forall i :: 0 <= i < |items| ==> items[i].mxn >= 0.0 && items[i].usd >= 0.0
  }

  lemma {:induction false} CatFoldsDrawable(items: seq<Item>, tc: real)
    requires tc >= 0.0 && NonNegative(items)
    ensures Drawable(CatFold(items, tc)) && Drawable(CatFoldAsWritten(items, tc))
  {
    if items != [] {
      var init, it := items[..|items| - 1], items[|items| - 1];
      assert forall i :: 0 <= i < |init| ==> init[i] == items[i];
      CatFoldsDrawable(init, tc);
      var t, u := CatFoldAsWritten(init, tc), CatFold(init, tc);
      BookDrawable(t, it, tc, it.cat !in t.buckets || t.buckets[it.cat].paidMXN == 0.0);
      BookDrawable(u, it, tc, it.cat !in u.buckets);
    }
  }

  /** In a drawable table a category has data exactly when it has a cost. */
  lemma DrawableHasData(t: CatTables, c: string)
    requires Drawable(t)
    ensures HasData(t, c) <==> c in t.costo
  {
  }

  lemma {:induction false} WithDataAgree(cats: seq<string>, t: CatTables, u: CatTables)
    requires forall c :: HasData(t, c) <==> HasData(u, c)
    ensures WithData(cats, t) == WithData(cats, u)
  {
    if cats != [] {
      WithDataAgree(cats[..|cats| - 1], t, u);
    }
  }

  /**
    With no negative amounts and a non-negative exchange rate, the reset as written does not
    change the categories drawn, nor their order.
  */
  lemma AllCatsAgree(items: seq<Item>, tc: real)
    requires tc >= 0.0 && NonNegative(items)
    ensures AllCats(CatFoldAsWritten(items, tc)) == AllCats(CatFold(items, tc))
  {
    var t, u := CatFoldAsWritten(items, tc), CatFold(items, tc);
    CatFoldsShape(items, tc);
    CatFoldsDrawable(items, tc);
    forall c ensures HasData(t, c) <==> HasData(u, c) {
      DrawableHasData(t, c);
      DrawableHasData(u, c);
    }
    WithDataAgree(CATS, t, u);
  }

  // ---------------------------------------------------------------------------
  // The computation as the view runs it

  lemma ItemsOfStep(cs: seq<Circuit>, tar: seq<RateEntry>, i: nat)
    requires i < |cs|
    ensures ItemsOf(cs[..i + 1], tar) == ItemsOf(cs[..i], tar) + RowItems(cs[i].rows, cs[i].info, tar)
  {
    assert cs[..i + 1][..i] == cs[..i];
  }

  lemma RollupStep(cs: seq<Circuit>, tar: seq<RateEntry>, tc: real, i: nat)
    requires i < |cs|
    ensures RollupOf(cs[..i + 1], tar, tc) == AddCircuit(RollupOf(cs[..i], tar, tc), cs[i], Pricing.Totals(cs[i], tar, tc))
  {
    assert cs[..i + 1][..i] == cs[..i];
  }

  lemma CatFoldRowStep(before: seq<Item>, rows: seq<ServiceRow>, info: CircInfo, tar: seq<RateEntry>, tc: real, j: nat)
    requires j < |rows|
    ensures CatFoldAsWritten(before + RowItems(rows[..j + 1], info, tar), tc)
            == CatStepAsWritten(CatFoldAsWritten(before + RowItems(rows[..j], info, tar), tc), ItemOf(rows[j], info, tar), tc)
  {
    var items, it := before + RowItems(rows[..j], info, tar), ItemOf(rows[j], info, tar);
    RowItemsSnoc(rows, info, tar, j);
    assert before + RowItems(rows[..j + 1], info, tar) == items + [it];
    assert (items + [it])[..|items|] == items;
  }

  /** The body of the inner `forEach`: books one row's cost and amounts under its category. */
  method BookCategory(t: CatTables, r: ServiceRow, info: CircInfo, tar: seq<RateEntry>, tc: real) returns (t': CatTables)
    ensures t' == CatStepAsWritten(t, ItemOf(r, info, tar), tc)
  {
    var cat := CatOf(r);
    var imp := Pricing.GetImporte(r, info, tar);
    t' := BookItem(t, Item(cat, imp.mxn, imp.usd, r.paid), tc);
  }

  /** The updates of `catCosto` and of the four bucket objects for one row, with the reset as written. */
  method BookItem(t: CatTables, it: Item, tc: real) returns (t': CatTables)
    ensures t' == CatStepAsWritten(t, it, tc)
  {
    var cat := it.cat;
    var costo, costoKeys, buckets, bucketKeys := t.costo, t.costoKeys, t.buckets, t.bucketKeys;
    var v := Pricing.ToMXN(it.mxn, it.usd, tc);
    if v > 0.0 {
      if cat !in costo {
        costoKeys := costoKeys + [cat];
      }
      costo := costo[cat := (if cat in costo then costo[cat] else 0.0) + v];
    }
    if cat !in buckets || buckets[cat].paidMXN == 0.0 {
      if cat !in buckets {
        bucketKeys := bucketKeys + [cat];
      }
      buckets := buckets[cat := EmptyBucket];
    }
    buckets := buckets[cat := Deposit(buckets[cat], it)];
    t' := CatTables(costo, costoKeys, buckets, bucketKeys);
  }

  /** The inner `forEach` over one circuit's rows. */
  method BookCircuit(t: CatTables, c: Circuit, tar: seq<RateEntry>, tc: real, ghost before: seq<Item>) returns (t': CatTables)
    requires t == CatFoldAsWritten(before, tc)
    ensures t' == CatFoldAsWritten(before + RowItems(c.rows, c.info, tar), tc)
  {
    t' := t;
    var j := 0;
    assert before + RowItems(c.rows[..0], c.info, tar) == before by {
      assert c.rows[..0] == [];
    }
    while j < |c.rows|
      invariant j <= |c.rows|
      invariant t' == CatFoldAsWritten(before + RowItems(c.rows[..j], c.info, tar), tc)
    {
      CatFoldRowStep(before, c.rows, c.info, tar, tc, j);
      t' := BookCategory(t', c.rows[j], c.info, tar, tc);
      j := j + 1;
    }
    assert c.rows[..j] == c.rows;
  }

  /**
    The non-drawing part of `EstadoResultados`: the circuits shown, their totals, the
    category tables, the categories to draw and the supplier ranking.
  */
  method EstadoResultados(modo: Modo, cs: seq<Circuit>, mesSel: string, circSel: string, tar: seq<RateEntry>, tc: real)
    returns (sel: seq<Circuit>, totals: Rollup, cats: CatTables, allCats: seq<string>, provs: seq<Proveedores.Ranked>)
    ensures sel == CircsMostrar(modo, cs, mesSel, circSel)
    ensures totals == RollupOf(sel, tar, tc)
    ensures cats == CatFoldAsWritten(ItemsOf(sel, tar), tc)
    ensures allCats == AllCats(cats)
    ensures provs == Proveedores.Ranking(sel, tar, tc)
  {
    sel := CircsMostrar(modo, cs, mesSel, circSel);
    totals, cats := NoTotals, NoCats;
    var i := 0;
    while i < |sel|
      invariant i <= |sel|
      invariant totals == RollupOf(sel[..i], tar, tc)
      invariant cats == CatFoldAsWritten(ItemsOf(sel[..i], tar), tc)
    {
      var c := sel[i];
      var t := Pricing.CalcCircTotals(c, tar, tc);
      RollupStep(sel, tar, tc, i);
      totals := AddCircuit(totals, c, t);
      ItemsOfStep(sel, tar, i);
      cats := BookCircuit(cats, c, tar, tc, ItemsOf(sel[..i], tar));
      i := i + 1;
    }
    assert sel[..i] == sel;
    allCats := AllCats(cats);
    provs := Proveedores.RankProveedores(sel, tar, tc);
  }
}
