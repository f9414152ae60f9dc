# CxP Circuitos: the pricing and aggregation core, in Dafny

CxP Circuitos is an accounts-payable dashboard for tour circuits. A circuit is one tour: a
header (tour leader, room count `habs`, start date) plus a list of service rows (hotel
nights, transport, activities, ...). Each row names a supplier. It is priced from a rate
table (`tarifario`) keyed by normalised supplier name, unless the user has typed a manual
price. The dashboard then does the following:
- it sums each circuit's cost and paid amounts in pesos (MXN) and dollars (USD);
- it converts both with the exchange rate `TC` and compares them with what the customer was charged;
- over a selection of circuits, it rolls these figures up, with category buckets and a ranking of suppliers by cost.

This project models that core and proves what it promises: the precedence of prices, one
currency per row, "pending = cost - paid", "rollup = sum of parts", and a stable
descending ranking.

Modules, one per file:

| file | module | models |
|---|---|---|
| `jsbuiltins.dfy` | `JsBuiltins` | the JavaScript built-ins the code relies on: truthiness, `String(v)`, `toUpperCase`, `trim`, `parseInt`, `parseFloat` |
| `records.dfy` | `Records` | rate entries, service rows, circuit headers, circuits, the price record `{mxn, usd, found, custom}` |
| `helpers.dfy` | `Helpers` | `src/helpers.js`: `norm`, `clean`, `parseAmt`, `fmtMXN`/`fmtUSD`, `cap`, the rate-table lookup, the older `getImporte`, `getDC`, and the row-selection loop of `parseCircuito` |
| `pricing.dfy` | `Pricing` | `getImporte` and `calcCircTotals` of `src/App.js` |
| `dashboard.dfy` | `Dashboard` | `filteredRows`, `updateRow` and the controls that call it, `saveImporteCobrado`, `deleteCircuit`, `updateTC`, the `monthMap` loop, and the dashboard state as a class |
| `proveedores.dfy` | `Proveedores` | the supplier ranking of `EstadoResultados` and `pctPaid` |
| `resultados.dfy` | `Resultados` | the rest of `EstadoResultados`: the selection of circuits, the rolled-up totals, the category tables, the category list and the margin |

How the model is built:
- The imperative parts are methods with loop invariants. Each one is proved equal to a recursive specification function:
  - the `forEach` of `calcCircTotals`;
  - the nested loops of `EstadoResultados` and of the supplier ranking;
  - the `monthMap` loop;
  - the import loop of `parseCircuito`.
- The properties are proved as lemmas about those functions.
- The dashboard state (`circuits`, `tarifario`, `TC`) is a class. Its methods change `circuits` or `tc` as the React setters do, and keep `TC > 0`.
- Amounts and `TC` are `real`, so there is no IEEE rounding.
- JavaScript objects used as dictionaries are a `map` plus a sequence of keys in insertion order.

Where the code and the dashboard's documented design disagree, the model follows the code:
- A rate entry whose price is `null` counts as found (`null === 0` is false), and it costs 0 (`null * n` is 0). The design says an absent price is unusable. See `Helpers.GetImporte` and `Pricing.GetImporte`.
- The margin is shown only when there is revenue and a positive cost (`src/App.js:443`, `458-461`). The design says that revenue with no resolved cost has a 100% margin. See `Resultados.Margen`.
- The methods of `EstadoResultados` follow the code's bucket reset `if (!catPaidMXN[cat])` (`Resultados.CatStepAsWritten`). `Resultados.CatFold` resets only for a new category; it gives the buckets their intended meaning (see Findings). Both folds book the same costs and keys.
- The supplier guard `if (!p) return` tests the raw name. A name of only spaces is therefore booked under the key `""`.

## Model

| member | source | states |
|---|---|---|
| JsBuiltins.UpperIdempotent | src/helpers.js:1 | `toUpperCase` applied twice equals applying it once |
| JsBuiltins.TrimShape | src/helpers.js:1 | the result of `trim` has no whitespace at either end; a trimmed string is left unchanged; only a blank string trims to "" |
| JsBuiltins.TrimPadded | src/helpers.js:2 | surrounding a trimmed string with whitespace-only padding gives a string that `trim` maps back to the original |
| JsBuiltins.ParseFloatNaN | src/helpers.js:6 | `parseFloat` of a digits-and-points text is NaN exactly when the text neither starts with a digit nor with a point followed by a digit |
| JsBuiltins.DecimalStringParsesBack | src/App.js:27 | `parseInt(String(n)) == n` for every natural `n` (the room count read back) |
| Helpers.NormNormalized | src/helpers.js:1 | `norm` leaves no leading, trailing or doubled space, only plain spaces, and upper case |
| Helpers.NormIdempotent | src/helpers.js:1 | `norm(norm(v)) == norm(v)` |
| Helpers.NormIgnoresCase | src/helpers.js:1 | upper-casing the input first does not change `norm` |
| Helpers.NormBlank | src/helpers.js:1 | `norm(v) == ""` exactly when `v` is all whitespace, so falsy and blank inputs give "" |
| Helpers.UpperTrimCommute | src/helpers.js:1 | upper-casing then trimming gives the same string as trimming then upper-casing |
| Helpers.NormTrim | src/helpers.js:1-2 | trimming first does not change `norm` |
| Helpers.CleanShape | src/helpers.js:2 | `clean` returns a trimmed string; it returns "" exactly for a falsy value or a whitespace-only text |
| Helpers.CleanKeepsKey | src/helpers.js:2 | `norm(clean(v)) == norm(v)`: importing through `clean` keeps matching keys |
| Helpers.ParseAmt | src/helpers.js:3-7 | the result is never negative; a falsy value gives 0; a number gives its absolute value |
| Helpers.ParseAmtWhole | src/helpers.js:3-7 | an integer written among non-numeric characters ("$1500 MXN") parses to itself |
| Helpers.ParseAmtDecimal | src/helpers.js:3-7 | an amount with a decimal part among non-numeric characters parses to its exact value |
| Helpers.StripAround | src/helpers.js:6 | removing every character that is not a digit or `.` keeps exactly the number |
| Helpers.FmtMXN | src/helpers.js:8-9 | the dash appears exactly when `v > 0` fails; otherwise the amount is shown in MXN |
| Helpers.FmtUSD | src/helpers.js:10-11 | the dash appears exactly when `v > 0` fails; otherwise the amount is shown in USD |
| Helpers.Cap | src/helpers.js:12 | an empty input is returned as is; otherwise the part standing for the first character is upper case, every character after the first is kept as it is, and upper-casing the result gives the same as upper-casing the input (so the head is the upper-cased first character) |
| Helpers.NormCap | src/helpers.js:12 | `cap` never changes a matching key |
| Helpers.FindRate | src/helpers.js:25 | `tarifario.find`: a found position is the first entry with the normalised supplier; none means no entry has it |
| Helpers.FirstMatchUnique | src/helpers.js:25 | the first match is unique, and `find` returns it |
| Helpers.Units | src/helpers.js:27-28 | the unit count is never 0, and it is 1 for every row that is not lodging |
| Helpers.LodgingUnits | src/helpers.js:28 | a lodging row in a circuit with `n >= 1` rooms (number or text) counts `n` units |
| Helpers.LodgingUnitsFallback | src/helpers.js:28 | a missing, non-numeric or zero room count falls back to 1 |
| Helpers.GetImporte | src/helpers.js:23-33 | the older resolver: at most one currency is non-zero, `custom` is never set, and an unresolved row costs 0 in both currencies |
| Helpers.FirstMatchDecides | src/helpers.js:24-32 | the first matching entry decides: a price of 0 makes the row unresolved; otherwise it costs `precio * units` in the entry's currency |
| Helpers.ResolvedIff | src/helpers.js:26 | a row is resolved exactly when a first match exists and its price is not 0 |
| Helpers.UnmatchedIsUnresolved | src/helpers.js:26 | a supplier missing from the table gives the unresolved result |
| Helpers.RateTableAppend | src/helpers.js:25 | entries appended after a match (duplicates included) never change a row's price |
| Helpers.GetDC | src/helpers.js:35-38 | the credit days of the first matching entry, 0 when that value is missing; 0 when no entry matches |
| Helpers.ParseCircuito | src/helpers.js:40-73 | the header cells, the id (`'CIRC-' + Date.now()` when blank), the kept rows from grid row 6 on, and the month key ("Sin mes" unless the start is a date) |
| Helpers.ImportRowsShape | src/helpers.js:50-68 | the imported rows are the selected grid rows in order, numbered 0, 1, 2, ...; each is unpaid, has no note, payment date or override, and is LIBERO or OPCIONAL |
| Helpers.SelectedIffTipo | src/helpers.js:52-55 | of the three guards only the type test decides: a row of type LIBERO or OPCIONAL is never blank |
| Pricing.GetImporte | src/App.js:19-30 | the result is flagged custom exactly when a positive override exists. That override wins and counts as found, in USD when chosen and in MXN otherwise. At most one currency is non-zero |
| Pricing.OverrideIgnoresTable | src/App.js:20-23 | with an override, the rate table makes no difference |
| Pricing.UnresolvedIff | src/App.js:24-26 | without an override, a row is unresolved exactly when no entry matches its supplier or the first match has price 0 |
| Pricing.ResolvedCost | src/App.js:27-29 | a resolved row costs `precio * units`, wholly in USD when the entry is USD, else wholly in MXN |
| Pricing.ImporteNonNegative | src/App.js:19-30 | with non-negative prices and a positive unit count, both amounts are non-negative |
| Pricing.CalcCircTotals | src/App.js:33-45 | the loop computes the row sums of cost and of paid amounts per currency, then `costoTotal`, `ingreso`, `ingresoMXN` and `utilidad` |
| Pricing.PendingIsCostMinusPaid | src/App.js:37-38 | cost minus paid is the sum over the unpaid rows, in each currency |
| Pricing.TotalsPending | src/App.js:33-45 | for a circuit, `costoX - paidX` is the cost of its unpaid rows |
| Pricing.RowSumAppend | src/App.js:35-39 | row sums add over any split of the rows |
| Pricing.CostIgnoresPaid | src/App.js:37 | the cost of a list of rows does not depend on their paid flags |
| Pricing.PaidWithinCost | src/App.js:37-38 | with non-negative amounts, `0 <= paid <= cost` |
| Pricing.ExampleLodgingRow | src/App.js:27-29 | a lodging row at 800 MXN in a two-room circuit costs 1600 MXN |
| Pricing.ExampleTransportRow | src/App.js:27-29 | a 50 USD transport row costs 50 USD and 0 MXN |
| Pricing.ExampleTotals | src/App.js:40-43 | for a two-row circuit whose rows are given the prices 1600 MXN and 50 USD, charged 1000 USD, at `TC = 18`: cost 2500, revenue 18000, profit 15500 pesos |
| Pricing.ExampleCircuit | src/App.js:19-45 | the same totals from the rate table up: a two-room lodging row whose first match is 800 MXN and a transport row whose first match is 50 USD |
| Dashboard.FilteredRows | src/App.js:207-215 | a row is kept exactly when every active filter accepts it; no row is added |
| Dashboard.FilteredRowsAppend | src/App.js:207 | filtering distributes over concatenation, so row order is kept |
| Dashboard.DefaultShowsAll | src/App.js:74 | with the initial filters, every row is shown, unchanged |
| Dashboard.FilteredRowsIdempotent | src/App.js:207-215 | filtering twice gives the same rows as filtering once |
| Dashboard.PaidUnpaidSplit | src/App.js:210-211 | the paid view and the unpaid view together hold as many rows as the unfiltered-by-payment view |
| Dashboard.Apply | src/App.js:165 | `{ ...r, ...changes }`: each changeable field present in the changes takes the new value and each absent one keeps the old; the row's id, index, date, destination, category, service, type and sale price are left alone |
| Dashboard.ApplyThen | src/App.js:165 | two successive updates are one update with the merged changes |
| Dashboard.ApplyIdempotent | src/App.js:165 | applying the same changes twice changes nothing more |
| Dashboard.UpdateRows | src/App.js:165 | within a circuit, rows with the id are patched and every other row is unchanged |
| Dashboard.UpdateRow | src/App.js:164-166 | only the circuit with the id has its rows updated; every other circuit is unchanged |
| Dashboard.UpdateMissingRow | src/App.js:165 | an id that occurs in no row leaves the rows unchanged |
| Dashboard.FechaPagoOnlyFechaPago | src/App.js:172-175 | setting the payment date changes `fecha_pago` only |
| Dashboard.NotaOnlyNota | src/App.js:176-179 | editing the note changes `nota` only |
| Dashboard.TogglePaidOnlyPaid | src/App.js:168-171 | `togglePaid` changes the paid flag only |
| Dashboard.PaymentKeepsCost | src/App.js:168-171 | toggling a payment never changes a circuit's cost in MXN or USD |
| Dashboard.SaveProvUsesTable | src/App.js:180-183 | after `saveProv`, the row has its new supplier and no override, and it is priced by the rate table |
| Dashboard.SaveImporteZeroClears | src/App.js:184-187 | `saveImporte` with 0 stores `null`, and the row falls back to the rate table |
| Dashboard.OverrideRoundTrip | src/App.js:184-187 | setting a manual price and then saving 0 gives back exactly the cost the row had before |
| Dashboard.SaveImportePositive | src/App.js:184-187 | a positive manual price becomes the row's cost, in USD only when chosen, whatever the table says |
| Dashboard.SetCharge | src/App.js:188-191 | each circuit with the id becomes itself with `importe_cobrado` set to `valor \|\| null` (`None` for 0) and `moneda_cobrado` set; header, month key, rows and id are kept; other circuits are unchanged; the list keeps its length and order |
| Dashboard.WithoutCircuit | src/App.js:194 | exactly the circuits with another id remain |
| Dashboard.WithoutCircuitAppend | src/App.js:194 | `filter` distributes over concatenation, so the remaining circuits keep their order and their repetitions |
| Dashboard.WithoutCircuitSingle | src/App.js:194 | a single circuit is kept exactly when its id differs |
| Dashboard.UpdatedTC | src/App.js:197-200 | the rate stays positive and is either unchanged or the parsed value |
| Dashboard.UpdatedTCIff | src/App.js:198 | a positive parsed value is taken exactly; NaN, 0 or a negative value keeps the old rate |
| Dashboard.MonthKeyOf | src/App.js:204 | the month key is the circuit's own when it has one and `'Sin mes'` otherwise, so it is never empty |
| Dashboard.InMonthIff | src/App.js:204 | a circuit is in a month's bucket exactly when it is listed and that is its month, so each circuit is in one bucket |
| Dashboard.InMonthAppend | src/App.js:204 | a month's bucket of two lists put together is the bucket of the first followed by that of the second |
| Dashboard.InMonthSingle | src/App.js:204 | a single circuit is in a bucket exactly when that is its month |
| Dashboard.InMonthEmpty | src/App.js:204 | a bucket is empty exactly when no circuit has that month |
| Dashboard.GroupByMonth | src/App.js:203-204 | looking a month up gives that month's circuits in order; only months that occur are keys; the key list holds each month once |
| Dashboard.DashboardState.constructor | src/App.js:69-71 | no circuits, no rate table, `TC` 17.5 |
| Dashboard.DashboardState.TogglePaid | src/App.js:168-171 | the circuits become `updateRow(..., { paid: !current })`; the rate table and `TC` are unchanged |
| Dashboard.DashboardState.SetFechaPago | src/App.js:172-175 | the circuits become `updateRow(..., { fecha_pago })`; nothing else changes |
| Dashboard.DashboardState.SetNota | src/App.js:176-179 | the circuits become `updateRow(..., { nota })`; nothing else changes |
| Dashboard.DashboardState.SaveProv | src/App.js:180-183 | the circuits get the new supplier and a cleared override; nothing else changes |
| Dashboard.DashboardState.SaveImporte | src/App.js:184-187 | the circuits get the override (`precio \|\| null`) and its currency; nothing else changes |
| Dashboard.DashboardState.SaveImporteCobrado | src/App.js:188-191 | the circuit's charge is set; nothing else changes |
| Dashboard.DashboardState.DeleteCircuit | src/App.js:192-196 | the circuit is removed; nothing else changes |
| Dashboard.DashboardState.UpdateTC | src/App.js:197-200 | `TC` takes the parsed value when that value is positive and otherwise stays; `TC > 0` is kept |
| Proveedores.ChargeOf | src/App.js:497-500 | a row's charge carries its raw supplier `p`, the key `norm(p)`, its paid flag, and the MXN and USD amounts `getImporte` gives it |
| Proveedores.RowCharges | src/App.js:496-500 | one charge per row, in row order: the charge at position `k` is that of row `k` |
| Proveedores.ProvFoldWellFormed | src/App.js:494-505 | every key is listed once; for every supplier, paid + pending equals the total in each currency |
| Proveedores.ProvFoldKeys | src/App.js:497-499 | there is an entry exactly for each key `norm(p)` of a supplier whose raw name `p` is non-empty, and `servicios` counts the rows booked under that key |
| Proveedores.ProvFoldKeysLast | src/App.js:498 | one more row appends its key to the key list exactly when its supplier is non-empty and its key is new |
| Proveedores.ProvFoldKeyOrder | src/App.js:498 | the keys of `pm` are in the order in which their first rows occur |
| Proveedores.ProvFoldSums | src/App.js:500-503 | each of an entry's totals, paid and pending amounts is the sum over that supplier's rows that qualify |
| Proveedores.ProvFoldFirstName | src/App.js:499 | the name shown is the spelling of the supplier's first row |
| Proveedores.Values | src/App.js:506-507 | each entry in key order, with `totalMXNEq = totalMXN + totalUSD * TC` |
| Proveedores.Positive | src/App.js:508 | exactly the entries with `totalMXNEq > 0` are kept, and nothing is added |
| Proveedores.PositiveAppend | src/App.js:508 | `filter` distributes over concatenation, so the kept entries stay in their order |
| Proveedores.PositiveWithEq | src/App.js:508 | for a positive value, the entries with that value are the same, in the same order, before and after the filter |
| Proveedores.SortDescSortedPerm | src/App.js:509 | the sort returns a permutation of its input, in non-increasing `totalMXNEq` |
| Proveedores.SortDescStable | src/App.js:509 | the stable sort keeps the relative order of entries with equal `totalMXNEq` |
| Proveedores.RankingTies | src/App.js:494-509 | in the ranking, the suppliers tied at any positive value appear in the order of `pm`'s keys; `Proveedores.ProvFoldKeyOrder` shows that this is the order in which their first rows occur |
| Proveedores.RankingPerm | src/App.js:494-509 | the ranking is the positive entries of the table, sorted in non-increasing order |
| Proveedores.RankingMembers | src/App.js:494-509 | every ranked supplier has a positive cost in pesos, and paid + pending equals the total for it |
| Proveedores.RankProveedores | src/App.js:494-509 | the two nested loops, followed by map, filter and sort, compute the ranking |
| Proveedores.BookRow | src/App.js:497-503 | one row booked on `pm`, with its entry created on first sight |
| Proveedores.BookCircuit | src/App.js:496-504 | the inner loop books all of one circuit's rows |
| Proveedores.PctPaidBounds | src/App.js:517 | `pctPaid` is between 0 and 100 |
| Proveedores.PctPaidAllPaid | src/App.js:517-518 | a supplier whose rows are all paid shows 100% |
| Resultados.WithId | src/App.js:358 | exactly the circuits with the selected id |
| Resultados.WithIdAppend | src/App.js:358 | `filter` distributes over concatenation, so the circuits kept stay in list order |
| Resultados.WithIdSingle | src/App.js:358 | a single circuit is kept exactly when it has the selected id |
| Resultados.CircsMostrarIff | src/App.js:356-358 | each mode shows exactly the circuits of the list that match the mode |
| Resultados.CircsMostrarAppend | src/App.js:356-358 | in each mode the selection of two lists put together is the selection of the first followed by that of the second, so list order is kept |
| Resultados.RollupAppend | src/App.js:365-371 | the totals of two selections put together are the field-wise sum of their totals |
| Resultados.RollupPending | src/App.js:371 | the pending totals are the cost of the selection's unpaid rows, in each currency |
| Resultados.RollupProfit | src/App.js:383 | `totalIngMXN - totalCosto` is the sum of the circuits' profits |
| Resultados.Margen | src/App.js:443 | a margin is shown exactly when there is revenue and some cost |
| Resultados.MargenBounds | src/App.js:458-461 | the margin is below 100%, and it is not negative exactly when revenue covers the cost |
| Resultados.CatOf | src/App.js:374 | the category is never empty |
| Resultados.ItemOf | src/App.js:374-375 | a row's item has the row's category and paid flag and the MXN and USD amounts `getImporte` gives it |
| Resultados.RowItems | src/App.js:373-375 | one item per row, in row order: the item at position `k` is that of row `k` |
| Resultados.RowItemsSnoc | src/App.js:373 | one more row adds its item at the end |
| Resultados.BlankIsOtros | src/App.js:374 | a blank category is booked under `OTROS` |
| Resultados.ManualMXNItem | src/App.js:375 | an unpaid manual price of 100 with no currency chosen books 100 pesos |
| Resultados.CatFoldKeys | src/App.js:376-377 | in the corrected fold, the key lists of `catCosto` and of the buckets each hold every key of their map, once |
| Resultados.CatFoldHasBuckets | src/App.js:377 | in the corrected fold, a category has buckets exactly when some row has it |
| Resultados.CatFoldBuckets | src/App.js:377-379 | in the corrected fold, each bucket holds the sum of that category's amounts for that payment state and currency |
| Resultados.CatFoldCosto | src/App.js:376 | in the corrected fold, `catCosto[cat]` exists exactly when some row of the category costs more than 0 pesos, and it is the sum of those costs |
| Resultados.CatFoldsShape | src/App.js:376-377 | the fold as written and the corrected fold have the same `catCosto`, the same key lists and the same categories with buckets |
| Resultados.BookShape | src/App.js:376-379 | whether a row resets the buckets never changes the costs, the key lists or which categories have buckets |
| Resultados.CatFoldAsWrittenKeys | src/App.js:376-377 | with the reset as written, the key lists still hold every key of their map, once |
| Resultados.CatFoldAsWrittenHasBuckets | src/App.js:377 | with the reset as written, a category still has buckets exactly when some row has it |
| Resultados.CatFoldAsWrittenCosto | src/App.js:376 | with the reset as written, `catCosto[cat]` still exists exactly for the categories with a positive cost, and is the sum of those costs |
| Resultados.BookDrawable | src/App.js:376-379 | with non-negative amounts and rate, every cost booked stays positive and a category with pesos in its buckets has a cost, whatever the reset |
| Resultados.CatFoldsDrawable | src/App.js:373-380 | with non-negative amounts and rate, both folds keep that invariant |
| Resultados.DrawableHasData | src/App.js:390 | under that invariant a category has data exactly when it has a cost |
| Resultados.PendingLostAsWritten | src/App.js:377 | for two unpaid rows of 100 pesos in one category, the code as written keeps 100 pending; booking with the reset only for a new category keeps 200 |
| Resultados.WithData | src/App.js:390 | exactly the fixed categories that have a cost, a paid amount or a pending amount |
| Resultados.Dedup | src/App.js:389-394 | `[...new Set(s)]` holds the values of `s`, each once |
| Resultados.DedupPrefix | src/App.js:389-394 | values appended later never reorder the ones already collected |
| Resultados.AllCatsIff | src/App.js:389-394 | a category is listed exactly when it has a cost or buckets |
| Resultados.AllCatsFixedFirst | src/App.js:389-394 | the fixed categories with data come first, in their fixed order |
| Resultados.WithDataAgree | src/App.js:390 | two tables in which the same categories have data give the same filtered list |
| Resultados.AllCatsAgree | src/App.js:373-394 | with non-negative amounts and rate, the reset as written draws the same categories, in the same order, as the corrected fold |
| Resultados.BookItem | src/App.js:376-379 | the map updates for one row, with the reset `if (!catPaidMXN[cat])` as written, are one step of the fold as written |
| Resultados.BookCategory | src/App.js:374-379 | one row booked under its category, one step of the fold as written |
| Resultados.BookCircuit | src/App.js:373-380 | the inner loop books all of one circuit's rows with the fold as written |
| Resultados.EstadoResultados | src/App.js:356-394 | the selection, its totals, the category tables (the fold as written), the category list and the supplier ranking, each equal to its specification |

## Left out

- Supabase reads and writes are not modelled: `loadAll`, `confirmLoad`, `saveTarifario`, and the `await`s inside the setters. They are network I/O. Only the state change each setter makes is modelled, and the value `TC` loads from the database is not modelled.
- File loading is not modelled: XLSX (`useXLSX`), `FileReader` and `sheet_to_json`. These are a foreign library and file I/O. `parseCircuito` takes the grid of cells that `sheet_to_json` would produce, with each cell's text rendering given.
- `handleTarFile`, the rate-table import from a spreadsheet, is outside the modelled core, apart from the `clean`/`parseAmt`/`norm` helpers it uses.
- `Date.now()` and the locale month label of `toLocaleDateString` are inputs of `Helpers.ParseCircuito`, as are a date cell's `toISOString()` and its `String(v)`.
- The month list `sortedMonths` is not modelled: it is sorted with `localeCompare`, which depends on the locale.
- Rendering is not modelled: the `Intl.NumberFormat` output, `toFixed`, the percentage shares and bar widths (`maxCat`, `maxProv`), and the JSX. `Helpers.FmtMXN` and `Helpers.FmtUSD` model only the dash guard and the currency.
- IEEE-754 arithmetic, `NaN` and `Infinity` are not modelled; amounts and `TC` are exact reals. `updateTC` receives the value of `parseFloat(val)` (`None` for NaN). `Proveedores.PctPaid` models `Math.round` as rounding half up.
- `Object.values` and `Object.keys` enumerate integer-like keys first. The model uses plain insertion order for the supplier and category keys.
- `totalIngUSD` adds `importe_cobrado` whatever its currency. The model does the same in `Resultados.AddCircuit`, and no property relies on its unit.
- The view state and `ProvPanel` are not modelled. `ProvPanel` keys by `toUpperCase()` but looks up with `norm`. The view state covers the modal, the sidebar, the active tab, the selected view and `saving`.
- `Dashboard.PaymentKeepsCost`: states that the MXN and USD costs are unchanged, not the profit. The profit follows from those costs through `Pricing.Totals`.
- `JsBuiltins.Upper`: `toUpperCase` is modelled for ASCII and Latin-1 letters (`ß` becomes `SS`), not for the whole of Unicode.
- `Helpers.ParseAmt`: `parseFloat` is modelled for the strings that remain after the non-numeric strip, that is digits and points. Exponent notation cannot occur there.

## Findings

| source | as written | input that shows it | evidently intended | confidence | as-written member | corrected member |
|---|---|---|---|---|---|---|
| src/App.js:377 | `if (!catPaidMXN[cat])` re-creates all four buckets whenever the category's paid pesos are still 0, not only when the category is new. The pending amounts booked so far are lost. | two unpaid rows in the same category, each 100 MXN: `catPendMXN` ends at 100 | create the buckets only for a new category, giving 200 | not executed; the buckets feed only the choice of categories to draw, and `Resultados.AllCatsAgree` proves that list unchanged when no amount is negative | Resultados.PendingLostAsWritten | Resultados.CatFoldBuckets |
