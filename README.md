# Rain-harvesting estimator and its saved result

This project models the computational core of the rainwater-catchment page
(`js/script.js`) of the Zinacantepec "Agua Pluvial" site:

- **the estimator** in `calcular`: it parses roof area (m²), annual rainfall
  (mm, that is L/m²) and runoff coefficient. It rejects the input when area or
  rainfall is not a number or is not above zero. Otherwise it computes the
  litres captured a year, the cubic metres, the monthly saving and payback time
  ("∞" when there is no saving), the floored counts of tanks (1100 L), showers
  (60 L) and washer loads (50 L), the rounded counts of toilet flushes (6 L)
  and jugs (20 L), and a two-way suggestion chosen by a strict `> 50` m³ test;
- **the single-slot result store**: a successful `calcular` shows the record and
  writes it to `localStorage` under `"resultadoAgua2025"`, replacing the record
  saved before; on page load a saved record is shown as it was stored, without
  recomputing it.

Files:

- `js_number.dfy` (module `JsNumber`): JavaScript numbers as `Finite(real) | NaN`.
  Arithmetic propagates NaN and every comparison with NaN is false. It also has
  `Math.floor` and the integer that `toFixed` prints, which rounds half away
  from zero.
- `estimator.dfy` (module `Estimator`): the constants, the `Record` the page
  stores, `Estimate` (validation and arithmetic) and `Derive` (everything after
  the captured litres, which depends on those litres alone), with the lemmas
  about them.
- `persistence.dfy` (module `Persistence`): class `ResultStore` (the slot,
  `Option<Record>`) and class `Page` (one page lifetime: the record its results
  panel shows, the restore step on load, and the effects of `calcular`).
- `wrappers.dfy`: the `Option` datatype.

Behaviour of the code worth noting:

- Toilet flushes and jugs are printed with `toFixed(0)`, so they are rounded
  to the nearest whole unit: 59 500 / 6 = 9916.67, which `toFixed(0)` prints
  as 9917.
- The payback time is "∞" whenever the monthly saving is not above zero: for
  any captured volume at or below zero (a zero or negative coefficient) and
  for NaN.
- The coefficient is never validated. A zero, negative or unparseable
  coefficient still gives a record, and that record is shown and saved.
- Reading the slot uses `JSON.parse` with no error handling, so a corrupt
  payload makes the script throw.

## Model

| member | source | states |
|---|---|---|
| JsNumber.Floor | js/script.js:100-102 | `Math.floor` gives an integer `n` with `n <= x < n + 1`, and NaN stays NaN |
| JsNumber.FloorMonotone | js/script.js:100-102 | `Math.floor` never decreases as its argument grows |
| JsNumber.RoundHalfAway | js/script.js:112 | the integer `toFixed` picks is within 1/2 of `x`, and on a tie it is the one farther from zero |
| JsNumber.ToFixed0 | js/script.js:112 | `toFixed(0)` prints an integer within 1/2 of the value, or NaN for NaN |
| JsNumber.ToFixed1Tenths | js/script.js:98 | `toFixed(1)` prints a number of tenths within 0.05 of the value |
| Estimator.Estimate | js/script.js:83-118 | a record is produced iff area and rainfall are both numbers above zero, and otherwise `calcular` returns early; the record is `Derive` of (area × rainfall) × coefficient |
| Estimator.Derive | js/script.js:95-118 | the record built from the captured litres: it keeps the litres, its cubic metres times 1000 give them back, and a NaN volume makes the cubic metres and all five counts NaN |
| Estimator.Suggestion | js/script.js:104-107 | the "excellent" sentence is chosen iff the cubic metres are a number and correspond to more than 50 000 L |
| Estimator.Payback | js/script.js:96-98 | the payback time is "∞" iff the captured litres are NaN or at most 0 |
| Estimator.CoefficientNotValidated | js/script.js:85-88 | the coefficient never decides rejection: any coefficient, NaN included, is accepted with valid area and rainfall |
| Estimator.Rejections | js/script.js:88-91 | area 0, area -10, unparseable area, rainfall 0 and unparseable rainfall are all rejected, never turned into a zero yield |
| Estimator.CapturedVolume | js/script.js:94-95 | for accepted area and rainfall, the captured litres are area × rainfall × coefficient, the cubic metres are those litres / 1000, and the rest of the record depends on the litres only |
| Estimator.TierThreshold | js/script.js:104-107 | the "excellent" suggestion is chosen iff more than 50 000 L (50 m³) are captured; exactly 50 m³ gives "medium" |
| Estimator.PaybackTime | js/script.js:96-98 | the payback time is "∞" iff the captured litres are at most 0; otherwise it is 7 200 000 / litres printed with one decimal, so the months lie within 0.05 of 7 200 000 / litres |
| Estimator.CostOverSaving | js/script.js:96-98 | for a positive volume the monthly saving is positive and the system cost divided by it is 7 200 000 / litres |
| Estimator.CountsAreWholeUnits | js/script.js:100-102 | tanks, showers and washer loads are the number of whole 1100, 60 and 50 L units in the captured litres |
| Estimator.CountsMonotone | js/script.js:100-102 | more captured litres never give fewer tanks, showers or washer loads |
| Estimator.CountsNonNegative | js/script.js:100-102 | a non-negative captured volume gives non-negative counts |
| Estimator.FlushesAndJugsMonotone | js/script.js:112 | more captured litres never give fewer toilet flushes or jugs |
| JsNumber.RoundHalfAwayMonotone | js/script.js:112 | the integer `toFixed` picks never decreases as its argument grows |
| Estimator.FlushesAndJugsRounded | js/script.js:112 | toilet flushes and jugs are always numbers; for a non-negative volume they equal floor(litres/6 + 1/2) and floor(litres/20 + 1/2) |
| Estimator.UnparseableCoefficient | js/script.js:94-112 | an unparseable coefficient is accepted: litres, cubic metres and every count are NaN, the suggestion is "medium" and the payback time is "∞" |
| Estimator.Example | js/script.js:94-112 | 100 m², 700 mm and coefficient 0.85 give 59 500 L, 59.5 m³, "excellent", 121.0 months, 54 tanks, 991 showers, 1190 washer loads, 9917 flushes and 2975 jugs |
| Persistence.LastWriteWins | js/script.js:121-126 | after a series of `calcular` calls (each input or click event), the slot holds the record of the last accepted call, or its earlier content if every call was rejected |
| Persistence.AfterCallsAppend | js/script.js:121-126 | one more `calcular` call extends the fold over the earlier calls by exactly one step |
| Persistence.Page.SlotHoldsLastAccepted | js/script.js:121-126 | however many times `calcular` ran on a page, the slot holds the record of its last accepted call, or what it held at load when every call was rejected |
| Persistence.ResultStore.constructor | js/script.js:219 | in a fresh persistence scope the slot is empty |
| Persistence.ResultStore.Save | js/script.js:121 | saving overwrites the slot with exactly the given record |
| Persistence.ResultStore.Load | js/script.js:219 | loading returns what the slot holds, and nothing if it is empty |
| Persistence.Page.Open | js/script.js:219-220 | on page load the panel shows the stored record unchanged, shows nothing for an empty slot, and leaves the store untouched; the page starts with no calls, its slot the fold of none |
| Persistence.Page.Calcular | js/script.js:82-122 | on rejected input neither the panel nor the slot changes; on accepted input the panel shows the estimate and the slot holds that same record; the call is appended to the page's history and the slot stays the fold of that history; a panel that showed the stored record still does |
| Persistence.CalcularThenReload | js/script.js:219-220 | in a fresh scope, calculating and then reloading shows the same panel as after the calculation |

## Left out

- Binary floating point: all arithmetic is exact over reals. IEEE-754 rounding is not modelled. Neither are the infinities (`parseFloat("Infinity")` or an overflowing product would pass validation) nor the "-0" that `toFixed` prints for small negative values.
- Text parsing by `parseFloat`: the inputs are the numbers it yields, NaN included.
- The `toFixed(2)` text of `litros` and `metros`, and the wording of `sugerencia`: the record keeps the numbers before formatting (unrounded litres and cubic metres; tier, payback tenths, flushes and jugs). `toFixed` switching to exponential notation at 10^21 and above is not modelled either.
- JSON serialisation: the slot holds the record value. `JSON.stringify` writes NaN fields as `null`, so a chart redrawn from a restored NaN record differs from the first drawing. The chart itself is presentation and is not modelled.
- Persistence.Page.Calcular: a failing `localStorage.setItem` (full quota, storage disabled) is not modelled. In the code it throws after the panel already shows the new record, leaving the old record in the slot; the model's `Save` always succeeds.
- A corrupt stored payload: `JSON.parse` would throw and stop the script, which the model does not represent.
- The `mostrarError` flag: it only decides whether the error modal opens, and it never changes what is shown or saved.
- DOM and presentation: element lookups, the modal, `mostrarResultado`'s text updates (modelled only as the panel's record), the bar chart in `generarGrafico`, the WhatsApp share button, the Leaflet map, the FAQ, the contact form, dark mode with its own `localStorage` flag, and event wiring.
