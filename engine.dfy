/**
 * The derivation engine (src/App.tsx lines 177-220): the cascade of subtotals computed from a
 * scenario, from airfare and allowances up to the grand total and its optional conversion.
 *
 * Every free-text amount goes through `num`, whose `Number` conversion is the parameter `p`.
 * Arithmetic is exact over `real`; the `reduce` folds of the source are left folds, related here
 * to right-recursive reference sums.
 */
module Engine {
  import opened Wrappers
  import opened Coercion
  import opened Scenarios

  // ---------------------------------------------------------------------------------------------
  // Folds.

  /** The reference sum of a list of amounts. */
  function Sum(xs: seq<real>): real {
    if xs == [] then 0.0 else xs[0] + Sum(xs[1..])
  }

  /** `xs.reduce((s, x) => s + x, acc)`: a left fold from the accumulator. */
  function FoldSum(acc: real, xs: seq<real>): real
    decreases xs
  {
    if xs == [] then acc else FoldSum(acc + xs[0], xs[1..])
  }

  /** The fold the source writes adds up to the reference sum. */
  lemma {:induction false} FoldSumIsSum(acc: real, xs: seq<real>)
    ensures FoldSum(acc, xs) == acc + Sum(xs)
    decreases xs
  {
    if xs != [] {
      FoldSumIsSum(acc + xs[0], xs[1..]);
    }
  }

  /** Sums split over concatenation. */
  lemma {:induction false} SumAppend(a: seq<real>, b: seq<real>)
    ensures Sum(a + b) == Sum(a) + Sum(b)
  {
    if a == [] {
      assert a + b == b;
    } else {
      assert (a + b)[1..] == a[1..] + b;
      SumAppend(a[1..], b);
    }
  }

  /** `Math.max` (its operands here are never NaN). */
  function Max(a: real, b: real): real {
    if a >= b then a else b
  }

  /** `Math.ceil`: the least integer not below `x`. */
  function Ceil(x: real): (r: int)
    ensures x <= r as real < x + 1.0
  {
    if x.Floor as real == x then x.Floor else x.Floor + 1
  }

  // ---------------------------------------------------------------------------------------------
  // Airfare and the longest stay.

  /** The fare of every leg, in order. */
  function Airfares(p: NumberParser, legs: seq<Leg>): seq<real> {
    seq(|legs|, i requires 0 <= i < |legs| => Num(p, legs[i].airfare))
  }

  /** `airfareTotal`: line 178. */
  function AirfareTotal(p: NumberParser, legs: seq<Leg>): real {
    FoldSum(0.0, Airfares(p, legs))
  }

  /** The airfare total is the sum of the fares. */
  lemma AirfareTotalIsSum(p: NumberParser, legs: seq<Leg>)
    ensures AirfareTotal(p, legs) == Sum(Airfares(p, legs))
    ensures legs == [] ==> AirfareTotal(p, legs) == 0.0
  {
    FoldSumIsSum(0.0, Airfares(p, legs));
  }

  /** Appending a leg adds its fare. */
  lemma AirfareTotalAppend(p: NumberParser, legs: seq<Leg>, leg: Leg)
    ensures AirfareTotal(p, legs + [leg]) == AirfareTotal(p, legs) + Num(p, leg.airfare)
  {
    assert Airfares(p, legs + [leg]) == Airfares(p, legs) + [Num(p, leg.airfare)];
    AirfareTotalIsSum(p, legs + [leg]);
    AirfareTotalIsSum(p, legs);
    SumAppend(Airfares(p, legs), [Num(p, leg.airfare)]);
  }

  /** `staffing.reduce((m, s) => Math.max(m, s.onsiteDays), m)`. */
  function FoldMaxDays(m: real, staffing: seq<StaffingItem>): real
    decreases staffing
  {
    if staffing == [] then m else FoldMaxDays(Max(m, staffing[0].onsiteDays), staffing[1..])
  }

  /** `maxDays`: line 181, seeded with 0. */
  function MaxDays(staffing: seq<StaffingItem>): real {
    FoldMaxDays(0.0, staffing)
  }

  /** The fold is the largest of the seed and every element, and is one of them. */
  lemma {:induction false} FoldMaxDaysBounds(m: real, staffing: seq<StaffingItem>)
    ensures FoldMaxDays(m, staffing) >= m
    ensures forall i :: 0 <= i < |staffing| ==> staffing[i].onsiteDays <= FoldMaxDays(m, staffing)
    ensures FoldMaxDays(m, staffing) == m
            || exists i :: 0 <= i < |staffing| && FoldMaxDays(m, staffing) == staffing[i].onsiteDays
    decreases staffing
  {
    if staffing != [] {
      var m' := Max(m, staffing[0].onsiteDays);
      var tail := staffing[1..];
      FoldMaxDaysBounds(m', tail);
      var r := FoldMaxDays(m, staffing);
      forall i | 0 <= i < |staffing| ensures staffing[i].onsiteDays <= r {
        if i > 0 {
          assert staffing[i] == tail[i - 1];
        }
      }
      if r != m {
        if r == m' {
          assert r == staffing[0].onsiteDays;
        } else {
          var j :| 0 <= j < |tail| && r == tail[j].onsiteDays;
          assert staffing[j + 1] == tail[j];
        }
      }
    }
  }

  /**
   * `maxDays` is the maximum `onsiteDays` over the staffing list: no role stays longer, and it is
   * the stay of some role, or 0 when there is no role or every stay is negative.
   */
  lemma MaxDaysIsMaximum(staffing: seq<StaffingItem>)
    ensures MaxDays(staffing) >= 0.0
    ensures forall i :: 0 <= i < |staffing| ==> staffing[i].onsiteDays <= MaxDays(staffing)
    ensures MaxDays(staffing) == 0.0
            || exists i :: 0 <= i < |staffing| && MaxDays(staffing) == staffing[i].onsiteDays
    ensures staffing == [] ==> MaxDays(staffing) == 0.0
  {
    FoldMaxDaysBounds(0.0, staffing);
  }

  /** Appending a role makes the longest stay the larger of the old one and the new role's. */
  lemma {:induction false} FoldMaxDaysAppend(m: real, staffing: seq<StaffingItem>, st: StaffingItem)
    ensures FoldMaxDays(m, staffing + [st]) == Max(FoldMaxDays(m, staffing), st.onsiteDays)
    decreases staffing
  {
    if staffing == [] {
      assert staffing + [st] == [st];
    } else {
      assert (staffing + [st])[1..] == staffing[1..] + [st];
      FoldMaxDaysAppend(Max(m, staffing[0].onsiteDays), staffing[1..], st);
    }
  }

  /** A list whose every role also belongs to another list has no longer stay than it. */
  lemma MaxDaysOfSublist(sub: seq<StaffingItem>, staffing: seq<StaffingItem>)
    requires forall st :: st in sub ==> st in staffing
    ensures MaxDays(sub) <= MaxDays(staffing)
  {
    MaxDaysIsMaximum(sub);
    MaxDaysIsMaximum(staffing);
    if MaxDays(sub) != 0.0 {
      var i :| 0 <= i < |sub| && MaxDays(sub) == sub[i].onsiteDays;
      assert sub[i] in staffing;
      var j :| 0 <= j < |staffing| && staffing[j] == sub[i];
    }
  }

  // ---------------------------------------------------------------------------------------------
  // Visas, security, insurance, personal tax and local transport: lines 179-191.

  function VisaTotal(p: NumberParser, vs: VisasSecurity): real {
    Num(p, vs.visaCost) + Num(p, vs.workPermitCost)
  }

  function SecurityTotal(p: NumberParser, vs: VisasSecurity): real {
    Num(p, vs.securityCost)
  }

  /** The policy and the fixed extra, plus health cover for every day of the longest stay. */
  function InsuranceTotal(p: NumberParser, ins: Insurance, maxDays: real): real {
    Num(p, ins.travelPolicy) + Num(p, ins.extraFixed) + Num(p, ins.healthPerDay) * maxDays
  }

  function PersonalTaxTotal(p: NumberParser, pt: PersonalTax): real {
    Num(p, pt.originConsulting) + Num(p, pt.destinationConsulting)
  }

  /** Distance times litres per kilometre times the fuel price. */
  function CarFuelCost(p: NumberParser, lt: LocalTransport): real {
    Num(p, lt.distanceKm) * (Num(p, lt.consumptionLPer100) / 100.0) * Num(p, lt.fuelPricePerL)
  }

  function CarRental(p: NumberParser, lt: LocalTransport): real {
    if lt.useCar then lt.carDays * Num(p, lt.carDailyRate) else 0.0
  }

  /** The train fare, plus every car cost when a car is used. */
  function LocalTransportTotal(p: NumberParser, lt: LocalTransport): real {
    Num(p, lt.trainCost)
    + (if lt.useCar
       then CarRental(p, lt) + CarFuelCost(p, lt) + Num(p, lt.tolls) + Num(p, lt.parking) + Num(p, lt.carExtraFees)
       else 0.0)
  }

  /** Without a car only the train fare counts, whatever the car fields say. */
  lemma NoCarOnlyTrain(p: NumberParser, lt: LocalTransport)
    requires !lt.useCar
    ensures LocalTransportTotal(p, lt) == Num(p, lt.trainCost)
    ensures CarRental(p, lt) == 0.0
  {
  }

  // ---------------------------------------------------------------------------------------------
  // Allowances: lines 193-197.

  function HotelTotal(p: NumberParser, al: Allowances, maxDays: real): real {
    Num(p, al.hotelPerNight) * maxDays
  }

  function MealsTotal(p: NumberParser, al: Allowances, maxDays: real): real {
    Num(p, al.mealsPerDay) * maxDays
  }

  /** Laundry is billed per started week: the weeks billed cover the stay, and one week fewer would not. */
  function LaundryWeeks(maxDays: real): (weeks: int)
    ensures weeks as real * 7.0 >= maxDays
    ensures (weeks - 1) as real * 7.0 < maxDays
  {
    Ceil(maxDays / 7.0)
  }

  function LaundryTotal(p: NumberParser, al: Allowances, maxDays: real): real {
    LaundryWeeks(maxDays) as real * Num(p, al.laundryPerWeek)
  }

  function IncidentalsTotal(p: NumberParser, al: Allowances, maxDays: real): real {
    Num(p, al.incidentalsPerDay) * maxDays
  }

  function PerDiemTotal(p: NumberParser, al: Allowances, maxDays: real): real {
    HotelTotal(p, al, maxDays) + MealsTotal(p, al, maxDays) + LaundryTotal(p, al, maxDays)
    + IncidentalsTotal(p, al, maxDays)
  }

  /** A ten-day stay bills two weeks of laundry. */
  lemma TenDaysBillTwoWeeks()
    ensures LaundryWeeks(10.0) == 2
  {
  }

  // ---------------------------------------------------------------------------------------------
  // Labour per role: lines 199-211.

  /** Regular on-site hours at the billable rate. */
  function BasePerHead(p: NumberParser, st: StaffingItem): real {
    st.onsiteDays * st.onsiteHoursPerDay * Num(p, st.billableHourly)
  }

  /** Overtime hours at the billable rate times the overtime multiplier. */
  function OvertimePerHead(p: NumberParser, st: StaffingItem): real {
    st.onsiteDays * st.overtimeHoursPerDay * Num(p, st.billableHourly) * Num(p, st.overtimeMultiplier)
  }

  /** Only the part of the weekend multiplier above 1 is billed on top, and never less than nothing. */
  function WeekendPremiumPerHead(p: NumberParser, st: StaffingItem): real {
    st.weekendDays * st.onsiteHoursPerDay * Num(p, st.billableHourly) * Max(Num(p, st.weekendMultiplier) - 1.0, 0.0)
  }

  function TravelPerHead(p: NumberParser, st: StaffingItem): real {
    if st.includeTravelTime then Num(p, st.travelHourly) * st.travelHours else 0.0
  }

  function PerHead(p: NumberParser, st: StaffingItem): real {
    BasePerHead(p, st) + OvertimePerHead(p, st) + WeekendPremiumPerHead(p, st) + TravelPerHead(p, st)
  }

  /** A role's labour cost: the cost per head times the head count. */
  function RoleTotal(p: NumberParser, st: StaffingItem): real {
    PerHead(p, st) * st.qty
  }

  /** One line of `laborBreakdown`. */
  datatype LaborRow = LaborRow(id: string, role: string, qty: real, total: real)

  /** `laborBreakdown`: one row per role, in order. */
  function LaborBreakdown(p: NumberParser, staffing: seq<StaffingItem>): seq<LaborRow> {
    seq(|staffing|, i requires 0 <= i < |staffing| =>
      LaborRow(staffing[i].id, staffing[i].role, staffing[i].qty, RoleTotal(p, staffing[i])))
  }

  function RowTotals(rows: seq<LaborRow>): seq<real> {
    seq(|rows|, i requires 0 <= i < |rows| => rows[i].total)
  }

  /** `laborTotal`: line 211. */
  function LaborTotal(p: NumberParser, staffing: seq<StaffingItem>): real {
    FoldSum(0.0, RowTotals(LaborBreakdown(p, staffing)))
  }

  /** The role totals, in order: the reference for `laborTotal`. */
  function RoleTotals(p: NumberParser, staffing: seq<StaffingItem>): seq<real> {
    seq(|staffing|, i requires 0 <= i < |staffing| => RoleTotal(p, staffing[i]))
  }

  /** The breakdown has one row per role, carrying its id, role and head count, in order. */
  lemma LaborBreakdownRows(p: NumberParser, staffing: seq<StaffingItem>, i: nat)
    requires i < |staffing|
    ensures |LaborBreakdown(p, staffing)| == |staffing|
    ensures LaborBreakdown(p, staffing)[i].id == staffing[i].id
    ensures LaborBreakdown(p, staffing)[i].role == staffing[i].role
    ensures LaborBreakdown(p, staffing)[i].qty == staffing[i].qty
    ensures LaborBreakdown(p, staffing)[i].total == PerHead(p, staffing[i]) * staffing[i].qty
  {
  }

  /** `laborTotal` is the sum over the roles of cost per head times head count. */
  lemma LaborTotalIsSum(p: NumberParser, staffing: seq<StaffingItem>)
    ensures LaborTotal(p, staffing) == Sum(RoleTotals(p, staffing))
    ensures staffing == [] ==> LaborTotal(p, staffing) == 0.0
  {
    assert RowTotals(LaborBreakdown(p, staffing)) == RoleTotals(p, staffing);
    FoldSumIsSum(0.0, RoleTotals(p, staffing));
  }

  /** Adding a role adds its total. */
  lemma LaborTotalAppend(p: NumberParser, staffing: seq<StaffingItem>, st: StaffingItem)
    ensures LaborTotal(p, staffing + [st]) == LaborTotal(p, staffing) + RoleTotal(p, st)
  {
    assert RoleTotals(p, staffing + [st]) == RoleTotals(p, staffing) + [RoleTotal(p, st)];
    LaborTotalIsSum(p, staffing + [st]);
    LaborTotalIsSum(p, staffing);
    SumAppend(RoleTotals(p, staffing), [RoleTotal(p, st)]);
  }

  /** The weekend premium is never negative for non-negative days, hours and rate, whatever the multiplier. */
  lemma WeekendPremiumNonNegative(p: NumberParser, st: StaffingItem)
    requires st.weekendDays >= 0.0 && st.onsiteHoursPerDay >= 0.0 && Num(p, st.billableHourly) >= 0.0
    ensures WeekendPremiumPerHead(p, st) >= 0.0
    ensures Num(p, st.weekendMultiplier) <= 1.0 ==> WeekendPremiumPerHead(p, st) == 0.0
  {
    var hours := st.weekendDays * st.onsiteHoursPerDay;
    assert hours >= 0.0;
    var cost := hours * Num(p, st.billableHourly);
    assert cost >= 0.0;
    assert WeekendPremiumPerHead(p, st) == cost * Max(Num(p, st.weekendMultiplier) - 1.0, 0.0);
  }

  /** Travel time is billed exactly when the role includes it. */
  lemma TravelTimeOnlyWhenIncluded(p: NumberParser, st: StaffingItem)
    ensures !st.includeTravelTime ==> TravelPerHead(p, st) == 0.0
    ensures st.includeTravelTime ==> TravelPerHead(p, st) == Num(p, st.travelHourly) * st.travelHours
    ensures !st.includeTravelTime ==>
              RoleTotal(p, st) == (BasePerHead(p, st) + OvertimePerHead(p, st) + WeekendPremiumPerHead(p, st)) * st.qty
  {
  }

  /**
   * The default role: one head at 120 an hour, 8 hours a day for 10 days, and 20 hours of travel
   * at 120, with no overtime and no weekend work, costs 12000.
   */
  lemma DefaultStaffTotal(p: NumberParser, id: string)
    requires FollowsJsNumber(p)
    ensures BasePerHead(p, DefaultStaff(id)) == 9600.0
    ensures TravelPerHead(p, DefaultStaff(id)) == 2400.0
    ensures RoleTotal(p, DefaultStaff(id)) == 12000.0
  {
    var st := DefaultStaff(id);
    NumOfDigits(p, "120");
    assert OvertimePerHead(p, st) == 0.0;
    assert WeekendPremiumPerHead(p, st) == 0.0;
  }

  // ---------------------------------------------------------------------------------------------
  // Taxes, contingency, grand total and conversion: lines 214-220.

  /** The taxable base: labour alone, or everything but taxes and contingency. */
  function TaxableBase(laborOnly: bool, labor: real, perDiem: real, travelFixed: real, personalTax: real): real {
    if laborOnly then labor else labor + perDiem + travelFixed + personalTax
  }

  /** The local rate, a percentage, on the base, plus the fixed withholding. */
  function TaxesTotal(base: real, ratePct: real, withholding: real): real {
    base * (ratePct / 100.0) + withholding
  }

  /** Everything before contingency: the costs and the taxes on them. */
  function Subtotal(labor: real, perDiem: real, travelFixed: real, personalTax: real, taxes: real): real {
    labor + perDiem + travelFixed + personalTax + taxes
  }

  /** The contingency percentage of the subtotal. */
  function Contingency(subtotal: real, contingencyPct: real): real {
    subtotal * (contingencyPct / 100.0)
  }

  function GrandTotal(subtotal: real, contingencyPct: real): real {
    subtotal + Contingency(subtotal, contingencyPct)
  }

  /** `converted`: the grand total at the single rate, only when the target currency is shown. */
  function Converted(showTarget: bool, rate: real, grandTotal: real): Option<real> {
    if showTarget then Some(grandTotal * rate) else None
  }

  /** Every value the engine derives. */
  datatype Totals = Totals(
    airfare: real,
    visa: real,
    security: real,
    maxDays: real,
    insurance: real,
    vsi: real,
    personalTax: real,
    carFuel: real,
    carRental: real,
    localTransport: real,
    hotel: real,
    meals: real,
    laundry: real,
    incidentals: real,
    perDiem: real,
    laborRows: seq<LaborRow>,
    labor: real,
    travelFixed: real,
    taxableBase: real,
    taxes: real,
    subtotal: real,
    contingency: real,
    grandTotal: real,
    converted: Option<real>)

  /** The whole cascade, in the order the source computes it. */
  function Derive(p: NumberParser, sc: Scenario): Totals {
    var airfare := AirfareTotal(p, sc.routing.legs);
    var visa := VisaTotal(p, sc.visasSecurity);
    var security := SecurityTotal(p, sc.visasSecurity);
    var maxDays := MaxDays(sc.staffing);
    var insurance := InsuranceTotal(p, sc.insurance, maxDays);
    var vsi := visa + security + insurance;
    var personalTax := PersonalTaxTotal(p, sc.personalTax);
    var localTransport := LocalTransportTotal(p, sc.localTransport);
    var perDiem := PerDiemTotal(p, sc.allowances, maxDays);
    var labor := LaborTotal(p, sc.staffing);
    var travelFixed := airfare + vsi + localTransport;
    var base := TaxableBase(sc.taxes.applyTaxToLaborOnly, labor, perDiem, travelFixed, personalTax);
    var taxes := TaxesTotal(base, Num(p, sc.taxes.localTaxPct), Num(p, sc.taxes.withholdingFixed));
    var subtotal := Subtotal(labor, perDiem, travelFixed, personalTax, taxes);
    var contingency := Contingency(subtotal, Num(p, sc.contingencyPct));
    var grandTotal := GrandTotal(subtotal, Num(p, sc.contingencyPct));
    Totals(airfare, visa, security, maxDays, insurance, vsi, personalTax,
           CarFuelCost(p, sc.localTransport), CarRental(p, sc.localTransport), localTransport,
           HotelTotal(p, sc.allowances, maxDays), MealsTotal(p, sc.allowances, maxDays),
           LaundryTotal(p, sc.allowances, maxDays), IncidentalsTotal(p, sc.allowances, maxDays), perDiem,
           LaborBreakdown(p, sc.staffing), labor, travelFixed, base, taxes, subtotal, contingency, grandTotal,
           Converted(sc.currency.showTarget, Num(p, sc.currency.rateBaseToTarget), grandTotal))
  }

  /**
   * With a non-negative rate and non-negative other costs, taxing labour only never costs more
   * than taxing the full base, and costs strictly less when the rate is positive and the other
   * costs are not all zero.
   */
  lemma LaborOnlyTaxNotLarger(labor: real, perDiem: real, travelFixed: real, personalTax: real,
                              ratePct: real, withholding: real)
    requires ratePct >= 0.0 && perDiem + travelFixed + personalTax >= 0.0
    ensures TaxesTotal(TaxableBase(true, labor, perDiem, travelFixed, personalTax), ratePct, withholding)
            <= TaxesTotal(TaxableBase(false, labor, perDiem, travelFixed, personalTax), ratePct, withholding)
    ensures ratePct > 0.0 && perDiem + travelFixed + personalTax > 0.0 ==>
              TaxesTotal(TaxableBase(true, labor, perDiem, travelFixed, personalTax), ratePct, withholding)
              < TaxesTotal(TaxableBase(false, labor, perDiem, travelFixed, personalTax), ratePct, withholding)
  {
    var rest := perDiem + travelFixed + personalTax;
    var full := TaxesTotal(labor + rest, ratePct, withholding);
    var only := TaxesTotal(labor, ratePct, withholding);
    assert full - only == rest * (ratePct / 100.0);
  }

  /** The scenario with the labour-only toggle set to `on`. */
  function WithLaborOnly(sc: Scenario, on: bool): Scenario {
    sc.(taxes := sc.taxes.(applyTaxToLaborOnly := on))
  }

  /**
   * The toggle changes only the taxable base: the taxable base is labour alone when it is on and
   * the sum of labour, allowances, fixed travel and personal tax when it is off, and under a
   * non-negative rate the taxes with it on are never larger.
   */
  lemma DeriveTaxToggle(p: NumberParser, sc: Scenario)
    requires Num(p, sc.taxes.localTaxPct) >= 0.0
    requires Derive(p, sc).perDiem + Derive(p, sc).travelFixed + Derive(p, sc).personalTax >= 0.0
    ensures Derive(p, WithLaborOnly(sc, true)).taxableBase == Derive(p, sc).labor
    ensures Derive(p, WithLaborOnly(sc, false)).taxableBase ==
              Derive(p, sc).labor + Derive(p, sc).perDiem + Derive(p, sc).travelFixed + Derive(p, sc).personalTax
    ensures Derive(p, WithLaborOnly(sc, true)).taxes <= Derive(p, WithLaborOnly(sc, false)).taxes
  {
    var t := Derive(p, sc);
    LaborOnlyTaxNotLarger(t.labor, t.perDiem, t.travelFixed, t.personalTax,
                          Num(p, sc.taxes.localTaxPct), Num(p, sc.taxes.withholdingFixed));
  }

  /**
   * Tax comes before contingency: the grand total is the pre-tax costs plus taxes, scaled by
   * 1 + contingency/100, and the contingency is charged on the tax-inclusive subtotal.
   */
  lemma TaxBeforeContingency(p: NumberParser, sc: Scenario)
    ensures Derive(p, sc).subtotal ==
              Derive(p, sc).labor + Derive(p, sc).perDiem + Derive(p, sc).travelFixed + Derive(p, sc).personalTax
              + Derive(p, sc).taxes
    ensures Derive(p, sc).contingency == Derive(p, sc).subtotal * (Num(p, sc.contingencyPct) / 100.0)
    ensures Derive(p, sc).grandTotal == Derive(p, sc).subtotal * (1.0 + Num(p, sc.contingencyPct) / 100.0)
  {
  }

  /** A conversion is shown exactly when the target currency is; it is the grand total at the rate. */
  lemma ConvertedIffShowTarget(p: NumberParser, sc: Scenario)
    ensures Derive(p, sc).converted.Some? <==> sc.currency.showTarget
    ensures sc.currency.showTarget ==>
              Derive(p, sc).converted == Some(Derive(p, sc).grandTotal * Num(p, sc.currency.rateBaseToTarget))
  {
    DerivedConversion(p, sc);
    ConversionShown(sc.currency.showTarget, Num(p, sc.currency.rateBaseToTarget), Derive(p, sc).grandTotal);
  }

  lemma DerivedConversion(p: NumberParser, sc: Scenario)
    ensures Derive(p, sc).converted ==
              Converted(sc.currency.showTarget, Num(p, sc.currency.rateBaseToTarget), Derive(p, sc).grandTotal)
  {
  }

  lemma ConversionShown(showTarget: bool, rate: real, grandTotal: real)
    ensures Converted(showTarget, rate, grandTotal).Some? <==> showTarget
    ensures showTarget ==> Converted(showTarget, rate, grandTotal) == Some(grandTotal * rate)
  {
  }

  /** A rate that does not convert to a finite number gives a converted total of 0. */
  lemma UnparseableRateConvertsToZero(p: NumberParser, sc: Scenario)
    requires sc.currency.showTarget
    requires !p(sc.currency.rateBaseToTarget).Finite?
    ensures Derive(p, sc).converted == Some(0.0)
  {
  }

  /** For instance, a rate typed as "abc". */
  lemma TextRateConvertsToZero(p: NumberParser, sc: Scenario)
    requires FollowsJsNumber(p)
    requires sc.currency.showTarget && sc.currency.rateBaseToTarget == "abc"
    ensures Derive(p, sc).converted == Some(0.0)
  {
    NumOfNonNumeric(p, "abc");
  }

  // ---------------------------------------------------------------------------------------------
  // The initial scenario, worked through.

  lemma InitialAirfareCost(p: NumberParser, legA: string, legB: string)
    requires FollowsJsNumber(p)
    ensures AirfareTotal(p, InitialLegs(legA, legB)) == 1600.0
  {
    var legs := InitialLegs(legA, legB);
    NumOfDigits(p, "900");
    NumOfDigits(p, "700");
    assert Airfares(p, legs) == [900.0, 700.0];
    AirfareTotalIsSum(p, legs);
    assert [900.0, 700.0][1..] == [700.0];
  }

  lemma InitialVisasSecurityInsuranceCost(p: NumberParser)
    requires FollowsJsNumber(p)
    ensures VisaTotal(p, InitialVisasSecurity) == 120.0
    ensures SecurityTotal(p, InitialVisasSecurity) == 0.0
    ensures InsuranceTotal(p, InitialInsurance, 10.0) == 145.0
  {
    NumOfDigits(p, "120");
    NumOfDigits(p, "0");
    NumOfDigits(p, "85");
    NumOfDigits(p, "6");
  }

  lemma InitialLocalTransportCost(p: NumberParser)
    requires FollowsJsNumber(p)
    ensures LocalTransportTotal(p, InitialLocalTransport) == 60.0
  {
    NumOfDigits(p, "60");
  }

  lemma InitialAllowancesCost(p: NumberParser)
    requires FollowsJsNumber(p)
    ensures PerDiemTotal(p, InitialAllowances, 10.0) == 2220.0
  {
    NumOfDigits(p, "140");
    NumOfDigits(p, "65");
    NumOfDigits(p, "25");
    NumOfDigits(p, "12");
    TenDaysBillTwoWeeks();
  }

  lemma InitialLaborCost(p: NumberParser, staffId: string)
    requires FollowsJsNumber(p)
    ensures MaxDays([DefaultStaff(staffId)]) == 10.0
    ensures LaborTotal(p, [DefaultStaff(staffId)]) == 12000.0
  {
    var staffing := [DefaultStaff(staffId)];
    MaxDaysIsMaximum(staffing);
    DefaultStaffTotal(p, staffId);
    LaborTotalIsSum(p, staffing);
    assert RoleTotals(p, staffing) == [12000.0];
  }

  lemma InitialRates(p: NumberParser)
    requires FollowsJsNumber(p)
    ensures Num(p, "0") == 0.0
    ensures Num(p, "7.5") == 7.5
  {
    NumOfDigits(p, "0");
    NumOfDecimal(p, "7.5");
  }

  /**
   * The initial scenario costs 17355.875: 1600 of airfare, 265 of visas, security and insurance,
   * 60 of local transport, 2220 of allowances and 12000 of labour, no tax, and 7.5% contingency.
   * No conversion is shown.
   */
  lemma InitialTotals(p: NumberParser, staffId: string, legA: string, legB: string)
    requires FollowsJsNumber(p)
    ensures Derive(p, Initial(staffId, legA, legB)).airfare == 1600.0
    ensures Derive(p, Initial(staffId, legA, legB)).maxDays == 10.0
    ensures Derive(p, Initial(staffId, legA, legB)).vsi == 265.0
    ensures Derive(p, Initial(staffId, legA, legB)).localTransport == 60.0
    ensures Derive(p, Initial(staffId, legA, legB)).perDiem == 2220.0
    ensures Derive(p, Initial(staffId, legA, legB)).labor == 12000.0
    ensures Derive(p, Initial(staffId, legA, legB)).taxes == 0.0
    ensures Derive(p, Initial(staffId, legA, legB)).grandTotal == 17355.875
    ensures Derive(p, Initial(staffId, legA, legB)).converted == None
  {
    InitialAirfareCost(p, legA, legB);
    InitialVisasSecurityInsuranceCost(p);
    InitialLocalTransportCost(p);
    InitialAllowancesCost(p);
    InitialLaborCost(p, staffId);
    InitialRates(p);
  }
}
