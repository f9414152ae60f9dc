/**
  The in-memory state of the dashboard of `src/App.js` and the operations on it:
  the row filter of the circuit view, the one-row updates behind the payment, note,
  supplier and price controls, the charge of a circuit, deleting a circuit, the
  exchange-rate setting and the grouping of circuits by month. The database writes that
  accompany each update are not part of this model; only the state change is.
*/
module Dashboard {
  import opened JsBuiltins
  import opened Records
  import Helpers
  import Pricing

  // ---------------------------------------------------------------------------
  // filteredRows

  /** The filter bar `F`: every field is "ALL" (or "" for the date) when it is off. */
  datatype Filters = Filters(tipo: string, cat: string, pago: string, fecha: string, proveedor: string)

  /** The initial filter state: everything off. */
  const DefaultFilters := Filters("ALL", "ALL", "ALL", "", "ALL")

  /** A row passes when no active filter rejects it. */
  predicate Passes(f: Filters, r: ServiceRow) {
    && (f.tipo == "ALL" || Helpers.Norm(r.tipo) == f.tipo)
    && (f.cat == "ALL" || Helpers.Norm(r.clasificacion) == f.cat)
    && (f.pago == "PAID" ==> r.paid)
    && (f.pago == "UNPAID" ==> !r.paid)
    && (f.fecha == "" || r.fechaPago == f.fecha)
    && (f.proveedor == "ALL" || Helpers.Norm(r.provGeneral) == f.proveedor)
  }

  /** `filteredRows(rows)`: the rows that pass, in their original order. */
  function FilteredRows(f: Filters, rows: seq<ServiceRow>): (r: seq<ServiceRow>)
    ensures |r| <= |rows|
    ensures forall x :: x in r <==> x in rows && Passes(f, x)
  {
    if rows == [] then []
    else
      var init := FilteredRows(f, rows[..|rows| - 1]);
      var last := rows[|rows| - 1];
      assert rows == rows[..|rows| - 1] + [last];
      if Passes(f, last) then init + [last] else init
  }

  /** Filtering distributes over concatenation, so the order of the rows is kept. */
  lemma {:induction false} FilteredRowsAppend(f: Filters, a: seq<ServiceRow>, b: seq<ServiceRow>)
    ensures FilteredRows(f, a + b) == FilteredRows(f, a) + FilteredRows(f, b)
  {
    if b == [] {
      assert a + b == a;
    } else {
      assert (a + b)[..|a + b| - 1] == a + b[..|b| - 1];
      FilteredRowsAppend(f, a, b[..|b| - 1]);
    }
  }

  /** With every filter off the rows are shown unchanged. */
  lemma {:induction false} DefaultShowsAll(rows: seq<ServiceRow>)
    ensures FilteredRows(DefaultFilters, rows) == rows
  {
    if rows != [] {
      DefaultShowsAll(rows[..|rows| - 1]);
      assert rows == rows[..|rows| - 1] + [rows[|rows| - 1]];
    }
  }

  /** Filtering twice is filtering once. */
  lemma {:induction false} FilteredRowsIdempotent(f: Filters, rows: seq<ServiceRow>)
    ensures FilteredRows(f, FilteredRows(f, rows)) == FilteredRows(f, rows)
  {
    if rows != [] {
      var init := rows[..|rows| - 1];
      var last := rows[|rows| - 1];
      FilteredRowsIdempotent(f, init);
      if Passes(f, last) {
        FilteredRowsAppend(f, FilteredRows(f, init), [last]);
        assert FilteredRows(f, [last]) == [last] by {
          assert [last][..0] == [];
        }
      }
    }
  }

  /** The paid and the unpaid views split the unfiltered-by-payment view. */
  lemma {:induction false} PaidUnpaidSplit(f: Filters, rows: seq<ServiceRow>)
    requires f.pago == "ALL"
    ensures |FilteredRows(f.(pago := "PAID"), rows)| + |FilteredRows(f.(pago := "UNPAID"), rows)|
            == |FilteredRows(f, rows)|
  {
    if rows != [] {
      PaidUnpaidSplit(f, rows[..|rows| - 1]);
    }
  }

  // ---------------------------------------------------------------------------
  // updateRow and the controls that call it

  /**
    The `changes` object of `updateRow`: a field is overwritten when it is present. A
    `null` written to a nullable text field is the empty string.
  */
  datatype Patch = Patch(
    paid: Option<bool>,
    fechaPago: Option<string>,
    nota: Option<string>,
    provGeneral: Option<string>,
    precioCustom: Option<Option<real>>,
    monedaCustom: Option<string>)

  const NoChanges := Patch(None, None, None, None, None, None)

  /** `{ ...r, ...changes }`. */
  function Apply(r: ServiceRow, p: Patch): (r': ServiceRow)
    ensures r'.id == r.id && r'.idx == r.idx && r'.fecha == r.fecha && r'.destino == r.destino
    ensures r'.clasificacion == r.clasificacion && r'.servicio == r.servicio && r'.tipo == r.tipo
    ensures r'.tVenta == r.tVenta
    ensures p.paid.Some? ==> r'.paid == p.paid.value
    ensures p.paid.None? ==> r'.paid == r.paid
    ensures p.fechaPago.Some? ==> r'.fechaPago == p.fechaPago.value
    ensures p.fechaPago.None? ==> r'.fechaPago == r.fechaPago
    ensures p.nota.Some? ==> r'.nota == p.nota.value
    ensures p.nota.None? ==> r'.nota == r.nota
    ensures p.provGeneral.Some? ==> r'.provGeneral == p.provGeneral.value
    ensures p.provGeneral.None? ==> r'.provGeneral == r.provGeneral
    ensures p.precioCustom.Some? ==> r'.precioCustom == p.precioCustom.value
    ensures p.precioCustom.None? ==> r'.precioCustom == r.precioCustom
    ensures p.monedaCustom.Some? ==> r'.monedaCustom == p.monedaCustom.value
    ensures p.monedaCustom.None? ==> r'.monedaCustom == r.monedaCustom
  {
    r.(paid := p.paid.GetOr(r.paid),
       fechaPago := p.fechaPago.GetOr(r.fechaPago),
       nota := p.nota.GetOr(r.nota),
       provGeneral := p.provGeneral.GetOr(r.provGeneral),
       precioCustom := p.precioCustom.GetOr(r.precioCustom),
       monedaCustom := p.monedaCustom.GetOr(r.monedaCustom))
  }

  /** The field-wise merge of two change sets: a field of the later one wins. */
  function Then(p: Patch, q: Patch): Patch {
    Patch(
      if q.paid.Some? then q.paid else p.paid,
      if q.fechaPago.Some? then q.fechaPago else p.fechaPago,
      if q.nota.Some? then q.nota else p.nota,
      if q.provGeneral.Some? then q.provGeneral else p.provGeneral,
      if q.precioCustom.Some? then q.precioCustom else p.precioCustom,
      if q.monedaCustom.Some? then q.monedaCustom else p.monedaCustom)
  }

  /** Two successive spreads are one spread of the merged changes. */
  lemma ApplyThen(r: ServiceRow, p: Patch, q: Patch)
    ensures Apply(Apply(r, p), q) == Apply(r, Then(p, q))
  {
  }

  /** Applying the same changes again changes nothing more. */
  lemma ApplyIdempotent(r: ServiceRow, p: Patch)
    ensures Apply(Apply(r, p), p) == Apply(r, p)
  {
  }

  /** The changes of `togglePaid(cid, rowId, current)`. */
  function TogglePaidPatch(current: bool): Patch { NoChanges.(paid := Some(!current)) }

  /** The changes of `setFechaPago(cid, rowId, val)`. */
  function FechaPagoPatch(val: string): Patch { NoChanges.(fechaPago := Some(val)) }

  /** The changes of `setNota(cid, rowId, val)`. */
  function NotaPatch(val: string): Patch { NoChanges.(nota := Some(val)) }

  /** The changes of `saveProv(cid, rowId, val)`: a new supplier drops the manual price. */
  function SaveProvPatch(val: string): Patch {
    NoChanges.(provGeneral := Some(val), precioCustom := Some(None), monedaCustom := Some(""))
  }

  /** The changes of `saveImporte(cid, rowId, precio, moneda)`: `precio || null`. */
  function SaveImportePatch(precio: real, moneda: string): Patch {
    NoChanges.(precioCustom := Some(if precio == 0.0 then None else Some(precio)), monedaCustom := Some(moneda))
  }

  /** The rows of one circuit after `updateRow`: every row with that id is patched. */
  function UpdateRows(rows: seq<ServiceRow>, rowId: string, p: Patch): (r: seq<ServiceRow>)
    ensures |r| == |rows|
    ensures forall k :: 0 <= k < |rows| && rows[k].id != rowId ==> r[k] == rows[k]
    ensures forall k :: 0 <= k < |rows| && rows[k].id == rowId ==> r[k] == Apply(rows[k], p)
  {
    if rows == [] then []
    else
      var last := rows[|rows| - 1];
      UpdateRows(rows[..|rows| - 1], rowId, p) + [if last.id != rowId then last else Apply(last, p)]
  }

  /** `updateRow(cid, rowId, changes)` over the list of circuits. */
  function UpdateRow(cs: seq<Circuit>, cid: string, rowId: string, p: Patch): (r: seq<Circuit>)
    ensures |r| == |cs|
    ensures forall i :: 0 <= i < |cs| && cs[i].id != cid ==> r[i] == cs[i]
    ensures forall i :: 0 <= i < |cs| && cs[i].id == cid ==> r[i] == cs[i].(rows := UpdateRows(cs[i].rows, rowId, p))
  {
    if cs == [] then []
    else
      var last := cs[|cs| - 1];
      UpdateRow(cs[..|cs| - 1], cid, rowId, p)
        + [if last.id != cid then last else last.(rows := UpdateRows(last.rows, rowId, p))]
  }

  /** A row id that does not occur leaves the rows as they were. */
  lemma UpdateMissingRow(rows: seq<ServiceRow>, rowId: string, p: Patch)
    requires forall k :: 0 <= k < |rows| ==> rows[k].id != rowId
    ensures UpdateRows(rows, rowId, p) == rows
  {
  }

  /** After `saveProv` the row is priced by the rate table under its new supplier. */
  lemma SaveProvUsesTable(r: ServiceRow, val: string, info: CircInfo, tar: seq<RateEntry>)
    ensures var r' := Apply(r, SaveProvPatch(val));
      && !Pricing.HasOverride(r') && r'.provGeneral == val
      && Pricing.GetImporte(r', info, tar) == Helpers.GetImporte(r', info, tar)
      && !Pricing.GetImporte(r', info, tar).custom
  {
  }

  /** `saveImporte` with amount 0 clears the override, which hands the row back to the rate table. */
  lemma SaveImporteZeroClears(r: ServiceRow, moneda: string, info: CircInfo, tar: seq<RateEntry>)
    ensures var r' := Apply(r, SaveImportePatch(0.0, moneda));
      && r'.precioCustom == None && !Pricing.HasOverride(r')
      && Pricing.GetImporte(r', info, tar) == Helpers.GetImporte(r', info, tar)
  {
  }

  /** Setting a manual price and then clearing it gives back exactly the rate-table cost. */
  lemma OverrideRoundTrip(r: ServiceRow, precio: real, moneda: string, moneda': string, info: CircInfo, tar: seq<RateEntry>)
    requires !Pricing.HasOverride(r)
    ensures Pricing.GetImporte(Apply(Apply(r, SaveImportePatch(precio, moneda)), SaveImportePatch(0.0, moneda')), info, tar)
            == Pricing.GetImporte(r, info, tar)
  {
    var r' := Apply(Apply(r, SaveImportePatch(precio, moneda)), SaveImportePatch(0.0, moneda'));
    assert r'.provGeneral == r.provGeneral && r'.clasificacion == r.clasificacion;
  }

  /** A positive manual price is then the row's cost, USD only when chosen, whatever the table says. */
  lemma SaveImportePositive(r: ServiceRow, precio: real, moneda: string, info: CircInfo, tar: seq<RateEntry>)
    requires precio > 0.0
    ensures var i := Pricing.GetImporte(Apply(r, SaveImportePatch(precio, moneda)), info, tar);
      && i.found && i.custom
      && (moneda == "USD" ==> i.mxn == 0.0 && i.usd == precio)
      && (moneda != "USD" ==> i.mxn == precio && i.usd == 0.0)
  {
  }

  /** Toggling payment touches the `paid` flag only. */
  lemma TogglePaidOnlyPaid(r: ServiceRow, current: bool)
    ensures Apply(r, TogglePaidPatch(current)) == r.(paid := !current)
  {
  }

  /** Setting the payment date touches `fecha_pago` only. */
  lemma FechaPagoOnlyFechaPago(r: ServiceRow, val: string)
    ensures Apply(r, FechaPagoPatch(val)) == r.(fechaPago := val)
  {
  }

  /** Editing the note touches `nota` only. */
  lemma NotaOnlyNota(r: ServiceRow, val: string)
    ensures Apply(r, NotaPatch(val)) == r.(nota := val)
  {
  }

  /** Toggling a payment never changes what a circuit costs, in either currency. */
  lemma PaymentKeepsCost(c: Circuit, rowId: string, current: bool, tar: seq<RateEntry>, tc: real)
    ensures var c' := c.(rows := UpdateRows(c.rows, rowId, TogglePaidPatch(current)));
      && Pricing.Totals(c', tar, tc).costoMXN == Pricing.Totals(c, tar, tc).costoMXN
      && Pricing.Totals(c', tar, tc).costoUSD == Pricing.Totals(c, tar, tc).costoUSD
  {
    var rows' := UpdateRows(c.rows, rowId, TogglePaidPatch(current));
    forall k | 0 <= k < |c.rows| ensures rows'[k] == c.rows[k].(paid := rows'[k].paid) {
      TogglePaidOnlyPaid(c.rows[k], current);
    }
    Pricing.CostIgnoresPaid(c.rows, rows', c.info, tar, Pricing.MXN);
    Pricing.CostIgnoresPaid(c.rows, rows', c.info, tar, Pricing.USD);
  }

  // ---------------------------------------------------------------------------
  // saveImporteCobrado, deleteCircuit, updateTC

  /** `saveImporteCobrado(cid, valor, moneda)`: `valor || null` on every circuit with that id. */
  function SetCharge(cs: seq<Circuit>, cid: string, valor: real, moneda: string): (r: seq<Circuit>)
    ensures |r| == |cs|
    ensures forall i :: 0 <= i < |cs| ==> r[i].rows == cs[i].rows && r[i].id == cs[i].id
    ensures forall i :: 0 <= i < |cs| && cs[i].id == cid
              ==> Pricing.Ingreso(r[i]) == valor && r[i].monedaCobrado == moneda
    ensures forall i :: 0 <= i < |cs| && cs[i].id == cid
              ==> r[i] == cs[i].(importeCobrado := if valor == 0.0 then None else Some(valor), monedaCobrado := moneda)
    ensures forall i :: 0 <= i < |cs| && cs[i].id != cid ==> r[i] == cs[i]
  {
    if cs == [] then []
    else
      var last := cs[|cs| - 1];
      SetCharge(cs[..|cs| - 1], cid, valor, moneda)
        + [if last.id != cid then last
           else last.(importeCobrado := if valor == 0.0 then None else Some(valor), monedaCobrado := moneda)]
  }

  /** `circuits.filter((c) => c.id !== deleteId)`. */
  function WithoutCircuit(cs: seq<Circuit>, id: string): (r: seq<Circuit>)
    ensures |r| <= |cs|
    ensures forall c :: c in r <==> c in cs && c.id != id
  {
    if cs == [] then []
    else
      var init := WithoutCircuit(cs[..|cs| - 1], id);
      var last := cs[|cs| - 1];
      assert cs == cs[..|cs| - 1] + [last];
      if last.id != id then init + [last] else init
  }

  /** Deleting keeps the order of the circuits that remain: it distributes over concatenation, circuit by circuit. */
  lemma {:induction false} WithoutCircuitAppend(a: seq<Circuit>, b: seq<Circuit>, id: string)
    ensures WithoutCircuit(a + b, id) == WithoutCircuit(a, id) + WithoutCircuit(b, id)
  {
    if b == [] {
      assert a + b == a;
    } else {
      assert (a + b)[..|a + b| - 1] == a + b[..|b| - 1];
      assert (a + b)[|a + b| - 1] == b[|b| - 1];
      WithoutCircuitAppend(a, b[..|b| - 1], id);
    }
  }

  /** One circuit survives the deletion, once, exactly when it has another id. */
  lemma WithoutCircuitSingle(c: Circuit, id: string)
    ensures WithoutCircuit([c], id) == if c.id != id then [c] else []
  {
    assert [c][..0] == [];
  }

  /**
    The exchange rate after `updateTC(val)`, given `parseFloat(val)` (`None` for NaN): a
    value that is not a positive number is ignored.
  */
  function UpdatedTC(tc: real, v: Option<real>): (r: real)
    ensures tc > 0.0 ==> r > 0.0
    ensures r == tc || v == Some(r)
  {
    match v
    case None => tc
    case Some(x) => if x <= 0.0 then tc else x
  }

  /** A positive parsed value is taken exactly; anything else keeps the old rate. */
  lemma UpdatedTCIff(tc: real, v: Option<real>)
    ensures UpdatedTC(tc, v) == (if v.Some? && v.value > 0.0 then v.value else tc)
  {
  }

  // ---------------------------------------------------------------------------
  // monthMap

  /** `c.month_key || 'Sin mes'`. */
  function MonthKeyOf(c: Circuit): (k: string)
    ensures k != ""
    ensures c.monthKey == "" ==> k == "Sin mes"
    ensures c.monthKey != "" ==> k == c.monthKey
  {
    if c.monthKey != "" then c.monthKey else "Sin mes"
  }

  /** The circuits of one month, in list order. */
  function CircuitsInMonth(cs: seq<Circuit>, mk: string): seq<Circuit> {
    if cs == [] then []
    else
      var last := cs[|cs| - 1];
      CircuitsInMonth(cs[..|cs| - 1], mk) + (if MonthKeyOf(last) == mk then [last] else [])
  }

  /** A circuit is in a month's bucket exactly when it is listed and that is its month. */
  lemma {:induction false} InMonthIff(cs: seq<Circuit>, mk: string, c: Circuit)
    ensures c in CircuitsInMonth(cs, mk) <==> c in cs && MonthKeyOf(c) == mk
  {
    if cs != [] {
      InMonthIff(cs[..|cs| - 1], mk, c);
      assert cs == cs[..|cs| - 1] + [cs[|cs| - 1]];
    }
  }

  /** A month's bucket keeps list order: it distributes over concatenation, circuit by circuit. */
  lemma {:induction false} InMonthAppend(a: seq<Circuit>, b: seq<Circuit>, mk: string)
    ensures CircuitsInMonth(a + b, mk) == CircuitsInMonth(a, mk) + CircuitsInMonth(b, mk)
  {
    if b == [] {
      assert a + b == a;
    } else {
      assert (a + b)[..|a + b| - 1] == a + b[..|b| - 1];
      assert (a + b)[|a + b| - 1] == b[|b| - 1];
      InMonthAppend(a, b[..|b| - 1], mk);
    }
  }

  /** One circuit is in a month's bucket, once, exactly when that is its month. */
  lemma InMonthSingle(c: Circuit, mk: string)
    ensures CircuitsInMonth([c], mk) == if MonthKeyOf(c) == mk then [c] else []
  {
    assert [c][..0] == [];
  }

  /** A bucket is empty exactly when no circuit has that month. */
  lemma {:induction false} InMonthEmpty(cs: seq<Circuit>, mk: string)
    ensures CircuitsInMonth(cs, mk) == [] <==> forall i :: 0 <= i < |cs| ==> MonthKeyOf(cs[i]) != mk
  {
    if cs != [] {
      InMonthEmpty(cs[..|cs| - 1], mk);
      assert forall i :: 0 <= i < |cs| - 1 ==> cs[..|cs| - 1][i] == cs[i];
    }
  }

  /** `monthMap[mk] || []`. */
  function Lookup(m: map<string, seq<Circuit>>, mk: string): seq<Circuit> {
    if mk in m then m[mk] else []
  }

  /** `m` holds, under each month, that month's circuits of `cs`, and no empty bucket. */
  ghost predicate Groups(m: map<string, seq<Circuit>>, cs: seq<Circuit>) {
    && (forall mk :: Lookup(m, mk) == CircuitsInMonth(cs, mk))
    && (forall mk :: mk in m ==> m[mk] != [])
  }

  /** `monthMap[mk].push(c)`, creating the bucket first when it is missing. */
  function Push(m: map<string, seq<Circuit>>, c: Circuit): map<string, seq<Circuit>> {
    m[MonthKeyOf(c) := Lookup(m, MonthKeyOf(c)) + [c]]
  }

  /** Pushing the next circuit keeps the grouping exact. */
  lemma GroupsPush(m: map<string, seq<Circuit>>, cs: seq<Circuit>, i: nat)
    requires i < |cs| && Groups(m, cs[..i])
    ensures Groups(Push(m, cs[i]), cs[..i + 1])
  {
    InMonthStep(cs, i);
    var m' := Push(m, cs[i]);
    forall mk ensures Lookup(m', mk) == CircuitsInMonth(cs[..i + 1], mk) {
      assert Lookup(m, mk) == CircuitsInMonth(cs[..i], mk);
    }
  }

  /** The keys, in insertion order, are exactly the months present, each once. */
  ghost predicate KeyOrder(m: map<string, seq<Circuit>>, keys: seq<string>) {
    (forall mk :: mk in m <==> mk in keys) && NoRepeats(keys)
  }

  /** The keys after a push: the month is appended when its bucket is new. */
  function PushKey(m: map<string, seq<Circuit>>, keys: seq<string>, c: Circuit): seq<string> {
    if MonthKeyOf(c) in m then keys else keys + [MonthKeyOf(c)]
  }

  lemma KeyOrderPush(m: map<string, seq<Circuit>>, keys: seq<string>, c: Circuit)
    requires KeyOrder(m, keys)
    ensures KeyOrder(Push(m, c), PushKey(m, keys, c))
  {
    if MonthKeyOf(c) !in m {
      NoRepeatsSnoc(keys, MonthKeyOf(c));
    }
  }

  /** The body of the `monthMap` loop for one circuit. */
  method PushCircuit(m: map<string, seq<Circuit>>, keys: seq<string>, c: Circuit)
    returns (m': map<string, seq<Circuit>>, keys': seq<string>)
    ensures m' == Push(m, c) && keys' == PushKey(m, keys, c)
  {
    m', keys' := m, keys;
    var mk := MonthKeyOf(c);
    if mk !in m' {
      m' := m'[mk := []];
      keys' := keys' + [mk];
    }
    m' := m'[mk := m'[mk] + [c]];
  }

  /**
    The `monthMap` loop with its keys in insertion order: looking a month up (`|| []` when
    it is absent) gives that month's circuits, and only months that occur are keys.
  */
  method GroupByMonth(cs: seq<Circuit>) returns (m: map<string, seq<Circuit>>, keys: seq<string>)
    ensures forall mk :: Lookup(m, mk) == CircuitsInMonth(cs, mk)
    ensures forall mk :: mk in m ==> CircuitsInMonth(cs, mk) != []
    ensures forall mk :: mk in m <==> mk in keys
    ensures NoRepeats(keys)
  {
    m, keys := map[], [];
    var i := 0;
    while i < |cs|
      invariant i <= |cs|
      invariant Groups(m, cs[..i])
      invariant KeyOrder(m, keys)
    {
      GroupsPush(m, cs, i);
      KeyOrderPush(m, keys, cs[i]);
      m, keys := PushCircuit(m, keys, cs[i]);
      i := i + 1;
    }
    assert cs[..i] == cs;
  }

  /** One more circuit extends its own month's bucket and no other. */
  lemma InMonthStep(cs: seq<Circuit>, i: nat)
    requires i < |cs|
    ensures forall mk :: CircuitsInMonth(cs[..i + 1], mk)
                         == CircuitsInMonth(cs[..i], mk) + (if MonthKeyOf(cs[i]) == mk then [cs[i]] else [])
  {
    assert cs[..i + 1][..i] == cs[..i];
  }

  // ---------------------------------------------------------------------------
  // The dashboard's state

  /** The state the dashboard keeps: the circuits, the rate table and the exchange rate `TC`. */
  class DashboardState {
    var circuits: seq<Circuit>
    var tarifario: seq<RateEntry>
    var tc: real

    /** The exchange rate is always positive. */
    predicate Valid()
      reads this
    {
      tc > 0.0
    }

    /** The initial state: nothing loaded, `TC` 17.5. */
    constructor ()
      ensures Valid()
      ensures circuits == [] && tarifario == [] && tc == 17.5
    {
      circuits, tarifario, tc := [], [], 17.5;
    }

    /** `togglePaid(cid, rowId, current)`. */
    method TogglePaid(cid: string, rowId: string, current: bool)
      modifies this
      requires Valid()
      ensures Valid()
      ensures circuits == UpdateRow(old(circuits), cid, rowId, TogglePaidPatch(current))
      ensures tarifario == old(tarifario) && tc == old(tc)
    {
      circuits := UpdateRow(circuits, cid, rowId, TogglePaidPatch(current));
    }

    /** `setFechaPago(cid, rowId, val)`. */
    method SetFechaPago(cid: string, rowId: string, val: string)
      modifies this
      requires Valid()
      ensures Valid()
      ensures circuits == UpdateRow(old(circuits), cid, rowId, FechaPagoPatch(val))
      ensures tarifario == old(tarifario) && tc == old(tc)
    {
      circuits := UpdateRow(circuits, cid, rowId, FechaPagoPatch(val));
    }

    /** `setNota(cid, rowId, val)`. */
    method SetNota(cid: string, rowId: string, val: string)
      modifies this
      requires Valid()
      ensures Valid()
      ensures circuits == UpdateRow(old(circuits), cid, rowId, NotaPatch(val))
      ensures tarifario == old(tarifario) && tc == old(tc)
    {
      circuits := UpdateRow(circuits, cid, rowId, NotaPatch(val));
    }

    /** `saveProv(cid, rowId, val)`. */
    method SaveProv(cid: string, rowId: string, val: string)
      modifies this
      requires Valid()
      ensures Valid()
      ensures circuits == UpdateRow(old(circuits), cid, rowId, SaveProvPatch(val))
      ensures tarifario == old(tarifario) && tc == old(tc)
    {
      circuits := UpdateRow(circuits, cid, rowId, SaveProvPatch(val));
    }

    /** `saveImporte(cid, rowId, precio, moneda)`. */
    method SaveImporte(cid: string, rowId: string, precio: real, moneda: string)
      modifies this
      requires Valid()
      ensures Valid()
      ensures circuits == UpdateRow(old(circuits), cid, rowId, SaveImportePatch(precio, moneda))
      ensures tarifario == old(tarifario) && tc == old(tc)
    {
      circuits := UpdateRow(circuits, cid, rowId, SaveImportePatch(precio, moneda));
    }

    /** `saveImporteCobrado(cid, valor, moneda)`. */
    method SaveImporteCobrado(cid: string, valor: real, moneda: string)
      modifies this
      requires Valid()
      ensures Valid()
      ensures circuits == SetCharge(old(circuits), cid, valor, moneda)
      ensures tarifario == old(tarifario) && tc == old(tc)
    {
      circuits := SetCharge(circuits, cid, valor, moneda);
    }

    /** `deleteCircuit()` for the circuit id awaiting confirmation. */
    method DeleteCircuit(id: string)
      modifies this
      requires Valid()
      ensures Valid()
      ensures circuits == WithoutCircuit(old(circuits), id)
      ensures tarifario == old(tarifario) && tc == old(tc)
    {
      circuits := WithoutCircuit(circuits, id);
    }

    /** `updateTC(val)`, given `parseFloat(val)`. */
    method UpdateTC(v: Option<real>)
      modifies this
      requires Valid()
      ensures Valid()
      ensures tc == UpdatedTC(old(tc), v)
      ensures circuits == old(circuits) && tarifario == old(tarifario)
    {
      if v.None? || v.value == 0.0 || v.value <= 0.0 {
        return;
      }
      tc := v.value;
    }
  }
}
