/**
  The rain-harvesting estimator of `calcular`: from the parsed roof area (m²),
  annual rainfall (mm, that is L/m²) and runoff coefficient it either rejects
  the input or builds the result record that the page shows and stores.
 */
module Estimator {
  import opened Wrappers
  import opened JsNumber

  /** Price of a catchment system, MXN */
  const SystemCost: real := 12000.0
  /** Estimated value of one litre, MXN */
  const LiterValue: real := 0.02
  const MonthsPerYear: real := 12.0
  const LitersPerCubicMeter: real := 1000.0
  /** Above this many cubic metres a year the suggestion is "excellent" */
  const ExcellentCubicMeters: real := 50.0
  /** Litres per unit of each equivalence */
  const TankLiters: real := 1100.0
  const ShowerLiters: real := 60.0
  const WasherLiters: real := 50.0
  const FlushLiters: real := 6.0
  const JugLiters: real := 20.0

  /** Which of the two suggestion sentences opens the `sugerencia` text */
  datatype Tier = Excellent | Medium

  /** `roiMeses`: the payback time printed with one decimal, or "∞" */
  datatype Roi = Months(tenths: int) | Unbounded

  /**
    The record `calcular` shows and stores. The text fields `litros`, `metros`
    and `sugerencia` are represented by the numbers they are formatted from.
   */
  datatype Record = Record(
    captacion: Num,     // litres captured a year (`litros` prints it with two decimals)
    metros: Num,        // cubic metres (`metros` prints them with two decimals)
    tier: Tier,         // suggestion sentence in `sugerencia`
    roiMeses: Roi,
    tinacos: Num,       // full tanks
    duchas: Num,        // full showers
    lavadoras: Num,     // full washer loads
    descargasWc: Num,   // toilet flushes, as printed in `sugerencia`
    garrafones: Num     // water jugs, as printed in `sugerencia`
  )

  /** The inputs `calcular` goes on with: area and rainfall are numbers above zero */
  predicate Accepted(area: Num, lluvia: Num) {
    Greater(area, 0.0) && Greater(lluvia, 0.0)
  }

  /** `count` is the number of whole units of `unit` litres that fit in `liters` */
  predicate WholeUnits(count: Num, liters: real, unit: real)
    requires unit > 0.0
  {
    count.Finite? && IsInteger(count.value)
    && count.value * unit <= liters < (count.value + 1.0) * unit
  }

  /** The validation and arithmetic of `calcular`; `None` when it returns early */
  function Estimate(area: Num, lluvia: Num, coef: Num): (r: Option<Record>)
    ensures r.Some? <==> Accepted(area, lluvia)
  {
    if area.NaN? || lluvia.NaN? || area.value <= 0.0 || lluvia.value <= 0.0 then None
    else Some(Derive(Mul(Mul(area, lluvia), coef)))
  }

  /** Everything after the captured litres is a function of them alone */
  function Derive(captacion: Num): (r: Record)
    ensures r.captacion == captacion
    ensures captacion.Finite? ==>
      r.metros.Finite? && r.metros.value * LitersPerCubicMeter == captacion.value
    ensures captacion.NaN? ==>
      r.metros.NaN? && r.tinacos.NaN? && r.duchas.NaN? && r.lavadoras.NaN?
      && r.descargasWc.NaN? && r.garrafones.NaN?
  {
    var metrosCubicos := Div(captacion, Finite(LitersPerCubicMeter));
    Record(
      captacion,
      metrosCubicos,
      Suggestion(metrosCubicos),
      Payback(captacion),
      Floor(Div(captacion, Finite(TankLiters))),
      Floor(Div(captacion, Finite(ShowerLiters))),
      Floor(Div(captacion, Finite(WasherLiters))),
      ToFixed0(Div(captacion, Finite(FlushLiters))),
      ToFixed0(Div(captacion, Finite(JugLiters))))
  }

  /** The suggestion sentence for a yearly volume in cubic metres */
  function Suggestion(metrosCubicos: Num): (t: Tier)
    ensures t == Excellent <==>
      metrosCubicos.Finite? && metrosCubicos.value * LitersPerCubicMeter > 50000.0
  {
    if Greater(metrosCubicos, ExcellentCubicMeters) then Excellent else Medium
  }

  /** Months for the monthly saving to pay for the system, or "∞" without a saving */
  function Payback(captacion: Num): (roi: Roi)
    ensures roi.Unbounded? <==> captacion.NaN? || captacion.value <= 0.0
  {
    var ahorroMensual := Mul(Div(captacion, Finite(MonthsPerYear)), Finite(LiterValue));
    if Greater(ahorroMensual, 0.0) then Months(ToFixed1Tenths(SystemCost / ahorroMensual.value))
    else Unbounded
  }

  /** The coefficient is never a reason to reject: only area and rainfall decide */
  lemma CoefficientNotValidated(area: Num, lluvia: Num, coef: Num, coef': Num)
    ensures Estimate(area, lluvia, coef).Some? == Estimate(area, lluvia, coef').Some?
    ensures Accepted(area, lluvia) ==> Estimate(area, lluvia, coef).Some?
  {
  }

  /** Zero, negative or unparseable area or rainfall is rejected, never turned into a zero yield */
  lemma Rejections(coef: Num)
    ensures Estimate(Finite(0.0), Finite(500.0), coef) == None
    ensures Estimate(Finite(-10.0), Finite(500.0), coef) == None
    ensures Estimate(NaN, Finite(500.0), coef) == None
    ensures Estimate(Finite(100.0), Finite(0.0), coef) == None
    ensures Estimate(Finite(100.0), NaN, coef) == None
  {
  }

  /**
    Captured litres are area × rainfall × coefficient, cubic metres a thousandth
    of that, and the rest of the record depends on the litres only.
   */
  lemma CapturedVolume(a: real, l: real, c: real)
    requires a > 0.0 && l > 0.0
    ensures Estimate(Finite(a), Finite(l), Finite(c)) == Some(Derive(Finite(a * l * c)))
    ensures Derive(Finite(a * l * c)).captacion == Finite(a * l * c)
    ensures Derive(Finite(a * l * c)).metros == Finite(a * l * c / LitersPerCubicMeter)
  {
    assert Mul(Mul(Finite(a), Finite(l)), Finite(c)) == Finite(a * l * c);
  }

  /** "Excellent" exactly when more than 50 m³ (50 000 L) are captured; 50 m³ itself is "medium" */
  lemma TierThreshold(v: real)
    ensures Derive(Finite(v)).tier == Excellent <==> v > 50000.0
    ensures Derive(Finite(50000.0)).tier == Medium
  {
  }

  /**
    The payback time is "∞" exactly when nothing is captured; otherwise the
    printed months are 7 200 000 / litres (SystemCost over the monthly saving),
    rounded to one decimal.
   */
  lemma PaybackTime(v: real)
    ensures Derive(Finite(v)).roiMeses.Unbounded? <==> v <= 0.0
    ensures v > 0.0 ==>
      var t := Derive(Finite(v)).roiMeses.tenths;
      t == ToFixed1Tenths(7200000.0 / v)
      && 7200000.0 / v - 0.05 <= t as real / 10.0 <= 7200000.0 / v + 0.05
  {
    assert Derive(Finite(v)).roiMeses == Payback(Finite(v));
    if v > 0.0 {
      CostOverSaving(v);
    }
  }

  /** SystemCost over the monthly saving of `v` litres a year is 7 200 000 / v */
  lemma CostOverSaving(v: real)
    requires v > 0.0
    ensures (v / MonthsPerYear) * LiterValue > 0.0
    ensures SystemCost / ((v / MonthsPerYear) * LiterValue) == 7200000.0 / v
  {
  }

  /** Tanks, showers and washer loads are whole units of 1100, 60 and 50 litres (floor) */
  lemma CountsAreWholeUnits(v: real)
    ensures WholeUnits(Derive(Finite(v)).tinacos, v, TankLiters)
    ensures WholeUnits(Derive(Finite(v)).duchas, v, ShowerLiters)
    ensures WholeUnits(Derive(Finite(v)).lavadoras, v, WasherLiters)
  {
  }

  /** More water never gives fewer tanks, showers or washer loads */
  lemma CountsMonotone(v: real, v': real)
    requires v <= v'
    ensures Derive(Finite(v)).tinacos.value <= Derive(Finite(v')).tinacos.value
    ensures Derive(Finite(v)).duchas.value <= Derive(Finite(v')).duchas.value
    ensures Derive(Finite(v)).lavadoras.value <= Derive(Finite(v')).lavadoras.value
  {
    var r, r' := Derive(Finite(v)), Derive(Finite(v'));
    FloorMonotone(v / TankLiters, v' / TankLiters);
    assert r.tinacos.value <= r'.tinacos.value;
    FloorMonotone(v / ShowerLiters, v' / ShowerLiters);
    assert r.duchas.value <= r'.duchas.value;
    FloorMonotone(v / WasherLiters, v' / WasherLiters);
  }

  /** No count is negative while the captured volume is not */
  lemma CountsNonNegative(v: real)
    requires v >= 0.0
    ensures Derive(Finite(v)).tinacos.value >= 0.0
    ensures Derive(Finite(v)).duchas.value >= 0.0
    ensures Derive(Finite(v)).lavadoras.value >= 0.0
  {
  }

  /**
    Toilet flushes and jugs are rounded to the nearest whole unit of 6 and 20
    litres (not floored): for a non-negative volume, floor(litres / unit + 1/2).
   */
  lemma FlushesAndJugsRounded(v: real)
    ensures Derive(Finite(v)).descargasWc.Finite? && Derive(Finite(v)).garrafones.Finite?
    ensures v >= 0.0 ==>
      Derive(Finite(v)).descargasWc.value == (v / FlushLiters + 0.5).Floor as real
      && Derive(Finite(v)).garrafones.value == (v / JugLiters + 0.5).Floor as real
  {
  }

  /** More water never gives fewer toilet flushes or jugs */
  lemma FlushesAndJugsMonotone(v: real, v': real)
    requires v <= v'
    ensures Derive(Finite(v)).descargasWc.value <= Derive(Finite(v')).descargasWc.value
    ensures Derive(Finite(v)).garrafones.value <= Derive(Finite(v')).garrafones.value
  {
    RoundHalfAwayMonotone(v / FlushLiters, v' / FlushLiters);
    RoundHalfAwayMonotone(v / JugLiters, v' / JugLiters);
  }

  /**
    An unparseable coefficient is accepted: the litres and every count become
    NaN, the comparisons with NaN fail, so the suggestion is "medium" and the
    payback time "∞".
   */
  lemma UnparseableCoefficient(a: real, l: real, r: Record)
    requires Estimate(Finite(a), Finite(l), NaN) == Some(r)
    ensures r.captacion.NaN? && r.metros.NaN?
    ensures r.tier == Medium && r.roiMeses == Unbounded
    ensures r.tinacos.NaN? && r.duchas.NaN? && r.lavadoras.NaN?
    ensures r.descargasWc.NaN? && r.garrafones.NaN?
  {
  }

  /** A 100 m² roof under 700 mm of rain with coefficient 0.85 */
  lemma Example()
    ensures Estimate(Finite(100.0), Finite(700.0), Finite(0.85)) == Some(Record(
      Finite(59500.0), Finite(59.5), Excellent, Months(1210),
      Finite(54.0), Finite(991.0), Finite(1190.0), Finite(9917.0), Finite(2975.0)))
  {
  }
}
