/**
 * The typed `Scenario` record (src/App.tsx lines 4-45) that the cost engine reads, the default
 * staffing role and the initial scenario (lines 107-147).
 *
 * Amounts typed by the user are text and are read through `num`; the fields the source types as
 * `number` are `real` here. Optional properties (`purpose`, `intermediate`) are `Option`s.
 */
module Scenarios {
  import opened Wrappers

  /** One staffing role: head count, rates and the days and hours worked on site. */
  datatype StaffingItem = StaffingItem(
    id: string,
    role: string,
    qty: real,
    billableHourly: string,
    onsiteHoursPerDay: real,
    onsiteDays: real,
    includeTravelTime: bool,
    travelHours: real,
    travelHourly: string,
    overtimeHoursPerDay: real,
    overtimeMultiplier: string,
    weekendDays: real,
    weekendMultiplier: string)

  /** One flight of the itinerary. */
  datatype Leg = Leg(id: string, from: string, to: string, purpose: Option<string>, airfare: string)

  datatype Meta = Meta(title: string, notes: string)

  datatype Routing = Routing(origin: string, intermediate: Option<string>, destination: string, legs: seq<Leg>)

  datatype VisasSecurity = VisasSecurity(visaCost: string, workPermitCost: string, securityCost: string)

  datatype Insurance = Insurance(travelPolicy: string, healthPerDay: string, extraFixed: string)

  datatype LocalTransport = LocalTransport(
    trainCost: string,
    useCar: bool,
    carDays: real,
    carDailyRate: string,
    distanceKm: string,
    fuelPricePerL: string,
    consumptionLPer100: string,
    tolls: string,
    parking: string,
    carExtraFees: string)

  datatype Allowances = Allowances(hotelPerNight: string, mealsPerDay: string, laundryPerWeek: string,
                                   incidentalsPerDay: string)

  datatype Taxes = Taxes(localTaxPct: string, withholdingFixed: string, applyTaxToLaborOnly: bool)

  datatype PersonalTax = PersonalTax(originConsulting: string, destinationConsulting: string)

  datatype Currency = Currency(base: string, showTarget: bool, target: string, rateBaseToTarget: string)

  /** A whole costing scenario. */
  datatype Scenario = Scenario(
    meta: Meta,
    staffing: seq<StaffingItem>,
    routing: Routing,
    visasSecurity: VisasSecurity,
    insurance: Insurance,
    localTransport: LocalTransport,
    allowances: Allowances,
    taxes: Taxes,
    personalTax: PersonalTax,
    contingencyPct: string,
    currency: Currency)

  /** `defaultStaff`, with the id its `crypto.randomUUID()` call produced. */
  function DefaultStaff(id: string): StaffingItem {
    StaffingItem(id, "Senior Field Engineer", 1.0, "120", 8.0, 10.0, true, 20.0, "120", 0.0, "1.5", 0.0, "2.0")
  }

  /** The two legs of `initial`, with the ids drawn for them. */
  function InitialLegs(legA: string, legB: string): seq<Leg> {
    [Leg(legA, "GRU", "DOH", Some("Conn"), "900"), Leg(legB, "DOH", "ICN", Some("Final"), "700")]
  }

  const InitialVisasSecurity := VisasSecurity("120", "0", "0")

  const InitialInsurance := Insurance("85", "6", "0")

  const InitialLocalTransport := LocalTransport("60", false, 0.0, "45", "0", "1.8", "7.5", "0", "0", "0")

  const InitialAllowances := Allowances("140", "65", "25", "12")

  const InitialTaxes := Taxes("0", "0", false)

  const InitialCurrency := Currency("USD", false, "EUR", "0.92")

  /** `initial`, with the ids drawn for the default role and the two legs. */
  function Initial(staffId: string, legA: string, legB: string): Scenario {
    Scenario(
      Meta("Mobilization — GitHub Pages (EN)", "Build ready to publish via Actions"),
      [DefaultStaff(staffId)],
      Routing("São Paulo, BR", Some("Doha, QA"), "Seoul, KR", InitialLegs(legA, legB)),
      InitialVisasSecurity,
      InitialInsurance,
      InitialLocalTransport,
      InitialAllowances,
      InitialTaxes,
      PersonalTax("0", "0"),
      "7.5",
      InitialCurrency)
  }
}
