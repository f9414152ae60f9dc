/**
  The price resolver and the per-circuit aggregator of `src/App.js`: `getImporte`
  (manual override first, then the rate table) and `calcCircTotals`.
*/
module Pricing {
  import opened JsBuiltins
  import opened Records
  import Helpers

  // ---------------------------------------------------------------------------
  // getImporte

  /** `row.precio_custom != null && row.precio_custom > 0`. */
  predicate HasOverride(row: ServiceRow) {
    row.precioCustom.Some? && row.precioCustom.value > 0.0
  }

  /**
    `getImporte(row, circInfo, tarifario)` of `src/App.js`: a positive manual price wins,
    in its currency (`moneda_custom || 'MXN'`); otherwise the rate-table resolution of
    `src/helpers.js`, which that branch repeats word for word with `custom: false` added.
  */
  function GetImporte(row: ServiceRow, info: CircInfo, tar: seq<RateEntry>): (r: Importe)
    ensures r.custom <==> HasOverride(row)
    ensures HasOverride(row) ==> r.found
    ensures HasOverride(row) && row.monedaCustom == "USD" ==> r.mxn == 0.0 && r.usd == row.precioCustom.value
    ensures HasOverride(row) && row.monedaCustom != "USD" ==> r.mxn == row.precioCustom.value && r.usd == 0.0
    ensures r.mxn == 0.0 || r.usd == 0.0
  {
    if HasOverride(row) then
      var m := if row.monedaCustom != "" then row.monedaCustom else "MXN";
      if m == "USD" then Importe(0.0, row.precioCustom.value, true, true)
      else Importe(row.precioCustom.value, 0.0, true, true)
    else Helpers.GetImporte(row, info, tar)
  }

  /** An override makes the rate table irrelevant. */
  lemma OverrideIgnoresTable(row: ServiceRow, info: CircInfo, tar1: seq<RateEntry>, tar2: seq<RateEntry>)
    requires HasOverride(row)
    ensures GetImporte(row, info, tar1) == GetImporte(row, info, tar2)
  {
  }

  /** Without an override, a row is unresolved exactly when its first match is missing or priced 0. */
  lemma UnresolvedIff(row: ServiceRow, info: CircInfo, tar: seq<RateEntry>)
    requires !HasOverride(row)
    ensures !GetImporte(row, info, tar).found
            <==> (forall j :: 0 <= j < |tar| ==> Helpers.Norm(tar[j].proveedor) != Helpers.Norm(row.provGeneral))
                 || (exists i: nat :: Helpers.FirstMatch(tar, Helpers.Norm(row.provGeneral), i) && tar[i].precio == Some(0.0))
  {
    var key := Helpers.Norm(row.provGeneral);
    match Helpers.FindRate(tar, key)
    case None =>
    case Some(i) =>
      Helpers.FirstMatchUnique(tar, key, i);
      forall i': nat | Helpers.FirstMatch(tar, key, i') ensures i' == i {
        Helpers.FirstMatchUnique(tar, key, i');
      }
  }

  /** A resolved row without override costs `precio * unidades` of its first match. */
  lemma ResolvedCost(row: ServiceRow, info: CircInfo, tar: seq<RateEntry>, i: nat)
    requires !HasOverride(row) && Helpers.FirstMatch(tar, Helpers.Norm(row.provGeneral), i)
    requires tar[i].precio != Some(0.0)
    ensures var r := GetImporte(row, info, tar);
      && r.found && !r.custom
      && (tar[i].moneda == "USD" ==> r.mxn == 0.0 && r.usd == Helpers.LineTotal(tar[i], Helpers.Units(row, info)))
      && (tar[i].moneda != "USD" ==> r.usd == 0.0 && r.mxn == Helpers.LineTotal(tar[i], Helpers.Units(row, info)))
  {
    Helpers.FirstMatchDecides(row, info, tar, i);
  }

  /** Non-negative prices and units give non-negative costs. */
  lemma ImporteNonNegative(row: ServiceRow, info: CircInfo, tar: seq<RateEntry>)
    requires forall j :: 0 <= j < |tar| ==> Helpers.PriceOf(tar[j]) >= 0.0
    requires Helpers.Units(row, info) > 0
    ensures GetImporte(row, info, tar).mxn >= 0.0 && GetImporte(row, info, tar).usd >= 0.0
  {
  }

  // ---------------------------------------------------------------------------
  // calcCircTotals

  /** The two currencies an amount can be booked in. */
  datatype Currency = MXN | USD

  /** Which rows a sum runs over. */
  datatype Which = AllRows | PaidRows | UnpaidRows

  predicate Counts(w: Which, row: ServiceRow) {
    match w
    case AllRows => true
    case PaidRows => row.paid
    case UnpaidRows => !row.paid
  }

  function Amount(i: Importe, cur: Currency): real {
    if cur == MXN then i.mxn else i.usd
  }

  /** The resolved amounts in one currency of the rows `w` selects. */
  function RowSum(rows: seq<ServiceRow>, info: CircInfo, tar: seq<RateEntry>, w: Which, cur: Currency): real {
    if rows == [] then 0.0
    else
      var last := rows[|rows| - 1];
      RowSum(rows[..|rows| - 1], info, tar, w, cur)
        + (if Counts(w, last) then Amount(GetImporte(last, info, tar), cur) else 0.0)
  }

  lemma RowSumStep(rows: seq<ServiceRow>, info: CircInfo, tar: seq<RateEntry>, k: nat)
    requires k < |rows|
    ensures var imp := GetImporte(rows[k], info, tar);
      && RowSum(rows[..k + 1], info, tar, AllRows, MXN) == RowSum(rows[..k], info, tar, AllRows, MXN) + imp.mxn
      && RowSum(rows[..k + 1], info, tar, AllRows, USD) == RowSum(rows[..k], info, tar, AllRows, USD) + imp.usd
      && RowSum(rows[..k + 1], info, tar, PaidRows, MXN) == RowSum(rows[..k], info, tar, PaidRows, MXN) + (if rows[k].paid then imp.mxn else 0.0)
      && RowSum(rows[..k + 1], info, tar, PaidRows, USD) == RowSum(rows[..k], info, tar, PaidRows, USD) + (if rows[k].paid then imp.usd else 0.0)
  {
    assert rows[..k + 1][..k] == rows[..k];
  }

  /** What is still owed is what is owed in total minus what is paid. */
  lemma {:induction false} PendingIsCostMinusPaid(rows: seq<ServiceRow>, info: CircInfo, tar: seq<RateEntry>, cur: Currency)
    ensures RowSum(rows, info, tar, AllRows, cur) - RowSum(rows, info, tar, PaidRows, cur)
            == RowSum(rows, info, tar, UnpaidRows, cur)
  {
    if rows != [] {
      PendingIsCostMinusPaid(rows[..|rows| - 1], info, tar, cur);
    }
  }

  /** Row sums add over a split of the rows. */
  lemma {:induction false} RowSumAppend(a: seq<ServiceRow>, b: seq<ServiceRow>, info: CircInfo, tar: seq<RateEntry>, w: Which, cur: Currency)
    ensures RowSum(a + b, info, tar, w, cur) == RowSum(a, info, tar, w, cur) + RowSum(b, info, tar, w, cur)
  {
    if b == [] {
      assert a + b == a;
    } else {
      assert (a + b)[..|a + b| - 1] == a + b[..|b| - 1];
      assert (a + b)[|a + b| - 1] == b[|b| - 1];
      RowSumAppend(a, b[..|b| - 1], info, tar, w, cur);
    }
  }

  /** An amount split over the two currencies, in pesos at exchange rate `tc`: `mxn + usd * TC`. */
  function ToMXN(mxn: real, usd: real, tc: real): real {
    mxn + usd * tc
  }

  /** The record `calcCircTotals` returns. */
  datatype CircTotals = CircTotals(
    costoMXN: real, costoUSD: real, costoTotal: real,
    paidMXN: real, paidUSD: real,
    ingreso: real, ingresoMXN: real, utilidad: real)

  /** `circ.importe_cobrado || 0`. */
  function Ingreso(c: Circuit): real {
    c.importeCobrado.GetOr(0.0)
  }

  /** The charge in pesos: converted with `tc` only when it was charged in USD. */
  function IngresoMXN(c: Circuit, tc: real): real {
    if c.monedaCobrado == "USD" then Ingreso(c) * tc else Ingreso(c)
  }

  /** The totals of one circuit, field by field. */
  function Totals(c: Circuit, tar: seq<RateEntry>, tc: real): CircTotals {
    var cm := RowSum(c.rows, c.info, tar, AllRows, MXN);
    var cu := RowSum(c.rows, c.info, tar, AllRows, USD);
    var total := ToMXN(cm, cu, tc);
    CircTotals(
      cm, cu, total,
      RowSum(c.rows, c.info, tar, PaidRows, MXN), RowSum(c.rows, c.info, tar, PaidRows, USD),
      Ingreso(c), IngresoMXN(c, tc), IngresoMXN(c, tc) - total)
  }

  /** `calcCircTotals(circ, tarifario, TC)`: one pass over the rows, then the derived fields. */
  method CalcCircTotals(c: Circuit, tar: seq<RateEntry>, tc: real) returns (t: CircTotals)
    ensures t == Totals(c, tar, tc)
  {
    var costoMXN, costoUSD, paidMXN, paidUSD := 0.0, 0.0, 0.0, 0.0;
    var k := 0;
    while k < |c.rows|
      invariant k <= |c.rows|
      invariant costoMXN == RowSum(c.rows[..k], c.info, tar, AllRows, MXN)
      invariant costoUSD == RowSum(c.rows[..k], c.info, tar, AllRows, USD)
      invariant paidMXN == RowSum(c.rows[..k], c.info, tar, PaidRows, MXN)
      invariant paidUSD == RowSum(c.rows[..k], c.info, tar, PaidRows, USD)
    {
      var r := c.rows[k];
      var imp := GetImporte(r, c.info, tar);
      RowSumStep(c.rows, c.info, tar, k);
      costoMXN := costoMXN + imp.mxn;
      costoUSD := costoUSD + imp.usd;
      if r.paid {
        paidMXN := paidMXN + imp.mxn;
        paidUSD := paidUSD + imp.usd;
      }
      k := k + 1;
    }
    assert c.rows[..k] == c.rows;
    var costoTotal := ToMXN(costoMXN, costoUSD, tc);
    var ingreso := c.importeCobrado.GetOr(0.0);
    var ingresoMXN := if c.monedaCobrado == "USD" then ingreso * tc else ingreso;
    assert ingreso == Ingreso(c) && ingresoMXN == IngresoMXN(c, tc);
    t := CircTotals(costoMXN, costoUSD, costoTotal, paidMXN, paidUSD, ingreso, ingresoMXN, ingresoMXN - costoTotal);
    ghost var spec := Totals(c, tar, tc);
    assert spec.costoMXN == costoMXN && spec.costoUSD == costoUSD;
    assert spec.paidMXN == paidMXN && spec.paidUSD == paidUSD;
  }

  /** Cost minus paid is, in each currency, the cost of the unpaid rows. */
  lemma TotalsPending(c: Circuit, tar: seq<RateEntry>, tc: real)
    ensures var t := Totals(c, tar, tc);
      && t.costoMXN - t.paidMXN == RowSum(c.rows, c.info, tar, UnpaidRows, MXN)
      && t.costoUSD - t.paidUSD == RowSum(c.rows, c.info, tar, UnpaidRows, USD)
  {
    PendingIsCostMinusPaid(c.rows, c.info, tar, MXN);
    PendingIsCostMinusPaid(c.rows, c.info, tar, USD);
  }

  /** Marking rows paid moves amounts between paid and pending and never changes the cost. */
  lemma {:induction false} CostIgnoresPaid(rows1: seq<ServiceRow>, rows2: seq<ServiceRow>, info: CircInfo, tar: seq<RateEntry>, cur: Currency)
    requires |rows1| == |rows2|
    requires forall k :: 0 <= k < |rows1| ==> rows2[k] == rows1[k].(paid := rows2[k].paid)
    ensures RowSum(rows1, info, tar, AllRows, cur) == RowSum(rows2, info, tar, AllRows, cur)
  {
    if rows1 != [] {
      var n := |rows1| - 1;
      CostIgnoresPaid(rows1[..n], rows2[..n], info, tar, cur);
      var r1, r2 := rows1[n], rows2[n];
      assert GetImporte(r1, info, tar) == GetImporte(r2, info, tar) by {
        assert Helpers.GetImporte(r1, info, tar) == Helpers.GetImporte(r2, info, tar) by {
          assert Helpers.Units(r1, info) == Helpers.Units(r2, info);
        }
      }
    }
  }

  /** With no negative amounts, what is paid never exceeds the cost. */
  lemma {:induction false} PaidWithinCost(rows: seq<ServiceRow>, info: CircInfo, tar: seq<RateEntry>, cur: Currency)
    requires forall k :: 0 <= k < |rows| ==> Amount(GetImporte(rows[k], info, tar), cur) >= 0.0
    ensures 0.0 <= RowSum(rows, info, tar, PaidRows, cur) <= RowSum(rows, info, tar, AllRows, cur)
  {
    if rows != [] {
      var n := |rows| - 1;
      assert forall k :: 0 <= k < n ==> rows[..n][k] == rows[k];
      PaidWithinCost(rows[..n], info, tar, cur);
    }
  }

  // ---------------------------------------------------------------------------
  // The worked example: two rooms, a hotel in pesos and a bus company in dollars

  /** A lodging row for two rooms whose supplier first matches an 800 MXN rate costs 1600 MXN. */
  lemma ExampleLodgingRow(row: ServiceRow, info: CircInfo, tar: seq<RateEntry>, i: nat)
    requires !HasOverride(row) && Helpers.FirstMatch(tar, Helpers.Norm(row.provGeneral), i)
    requires Helpers.Norm(row.clasificacion) == "HOSPEDAJE" && ParseInt(ToStr(info.habs)) == Some(2)
    requires tar[i].precio == Some(800.0) && tar[i].moneda == "MXN"
    ensures GetImporte(row, info, tar) == Importe(1600.0, 0.0, true, false)
  {
    assert Helpers.Units(row, info) == 2;
    Helpers.FirstMatchDecides(row, info, tar, i);
  }

  /** A non-lodging row whose supplier first matches a 50 USD rate costs 50 USD. */
  lemma ExampleTransportRow(row: ServiceRow, info: CircInfo, tar: seq<RateEntry>, i: nat)
    requires !HasOverride(row) && Helpers.FirstMatch(tar, Helpers.Norm(row.provGeneral), i)
    requires Helpers.Norm(row.clasificacion) != "HOSPEDAJE"
    requires tar[i].precio == Some(50.0) && tar[i].moneda == "USD"
    ensures GetImporte(row, info, tar) == Importe(0.0, 50.0, true, false)
  {
    assert Helpers.Units(row, info) == 1;
    Helpers.FirstMatchDecides(row, info, tar, i);
  }

  /**
    A circuit made of those two rows, at exchange rate 18, charged 1000 USD: 1600 MXN and
    50 USD of cost, 2500 MXN in total, 18000 MXN of revenue and 15500 MXN of profit.
  */
  lemma ExampleTotals(c: Circuit, tar: seq<RateEntry>)
    requires |c.rows| == 2
    requires GetImporte(c.rows[0], c.info, tar) == Importe(1600.0, 0.0, true, false)
    requires GetImporte(c.rows[1], c.info, tar) == Importe(0.0, 50.0, true, false)
    requires c.importeCobrado == Some(1000.0) && c.monedaCobrado == "USD"
    ensures var t := Totals(c, tar, 18.0);
      && t.costoMXN == 1600.0 && t.costoUSD == 50.0 && t.costoTotal == 2500.0
      && t.ingresoMXN == 18000.0 && t.utilidad == 15500.0
  {
    var t := Totals(c, tar, 18.0);
    RowSumOfTwo(c.rows, c.info, tar, AllRows, MXN);
    RowSumOfTwo(c.rows, c.info, tar, AllRows, USD);
    assert t.costoMXN == 1600.0 && t.costoUSD == 50.0;
  }

  /** The whole example from the rate table up: the two rows priced by their first matches, then totalled. */
  lemma ExampleCircuit(c: Circuit, tar: seq<RateEntry>, i: nat, j: nat)
    requires |c.rows| == 2 && ParseInt(ToStr(c.info.habs)) == Some(2)
    requires !HasOverride(c.rows[0]) && Helpers.FirstMatch(tar, Helpers.Norm(c.rows[0].provGeneral), i)
    requires Helpers.Norm(c.rows[0].clasificacion) == "HOSPEDAJE"
    requires tar[i].precio == Some(800.0) && tar[i].moneda == "MXN"
    requires !HasOverride(c.rows[1]) && Helpers.FirstMatch(tar, Helpers.Norm(c.rows[1].provGeneral), j)
    requires Helpers.Norm(c.rows[1].clasificacion) != "HOSPEDAJE"
    requires tar[j].precio == Some(50.0) && tar[j].moneda == "USD"
    requires c.importeCobrado == Some(1000.0) && c.monedaCobrado == "USD"
    ensures var t := Totals(c, tar, 18.0);
      && t.costoMXN == 1600.0 && t.costoUSD == 50.0 && t.costoTotal == 2500.0
      && t.ingresoMXN == 18000.0 && t.utilidad == 15500.0
  {
    ExampleLodgingRow(c.rows[0], c.info, tar, i);
    ExampleTransportRow(c.rows[1], c.info, tar, j);
    ExampleTotals(c, tar);
  }

  /** The sum over two rows, written out. */
  lemma RowSumOfTwo(rows: seq<ServiceRow>, info: CircInfo, tar: seq<RateEntry>, w: Which, cur: Currency)
    requires |rows| == 2
    ensures RowSum(rows, info, tar, w, cur)
            == (if Counts(w, rows[0]) then Amount(GetImporte(rows[0], info, tar), cur) else 0.0)
               + (if Counts(w, rows[1]) then Amount(GetImporte(rows[1], info, tar), cur) else 0.0)
  {
    var one := rows[..1];
    assert one[..|one| - 1] == [] && one[|one| - 1] == rows[0];
    assert RowSum([], info, tar, w, cur) == 0.0;
    assert rows[..|rows| - 1] == one;
  }
}
