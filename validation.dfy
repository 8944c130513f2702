/**
 * The scenario validator `isScenario` (src/App.tsx lines 71-92): an all-or-nothing shape test of an
 * untrusted JSON value. `MatchesSchema` states the same test from a table of required properties,
 * and the lemmas show that any one missing or mistyped required property rejects the whole value.
 */
module Validation {
  import opened Wrappers
  import opened JsonValues

  /** Line 78: one staffing element must be a record with text `id` and `role`; nothing else is checked. */
  predicate IsStaffingShape(st: Json) {
    IsRecord(st) && IsText(Get(st, "id")) && IsText(Get(st, "role"))
  }

  /** Line 80: one leg must be a record with text `id`, `from`, `to` and `airfare`. */
  predicate IsLegShape(leg: Json) {
    IsRecord(leg) && IsText(Get(leg, "id")) && IsText(Get(leg, "from")) && IsText(Get(leg, "to"))
    && IsText(Get(leg, "airfare"))
  }

  /** `isScenario`: one conjunct per early `return false` of the source, in its order. */
  predicate IsScenario(v: Json) {
    && IsRecord(v)
    && MetaOk(v)
    && StaffingOk(v)
    && RoutingOk(v)
    && LegsOk(v)
    && VisasSecurityOk(v)
    && InsuranceOk(v)
    && LocalTransportOk(v)
    && AllowancesOk(v)
    && TaxesOk(v)
    && PersonalTaxOk(v)
    && IsText(Get(v, "contingencyPct"))
    && CurrencyOk(v)
  }

  predicate MetaOk(v: Json) {
    IsRecordValue(Get(v, "meta")) && IsText(At(v, "meta", "title")) && IsText(At(v, "meta", "notes"))
  }

  predicate StaffingOk(v: Json) {
    IsArrayValue(Get(v, "staffing")) && forall st :: st in Get(v, "staffing").value.elems ==> IsStaffingShape(st)
  }

  predicate RoutingOk(v: Json) {
    IsRecordValue(Get(v, "routing")) && IsText(At(v, "routing", "origin"))
    && IsText(At(v, "routing", "destination")) && IsArrayValue(At(v, "routing", "legs"))
  }

  predicate LegsOk(v: Json)
    requires RoutingOk(v)
  {
    forall leg :: leg in At(v, "routing", "legs").value.elems ==> IsLegShape(leg)
  }

  predicate VisasSecurityOk(v: Json) {
    IsRecordValue(Get(v, "visasSecurity")) && IsText(At(v, "visasSecurity", "visaCost"))
    && IsText(At(v, "visasSecurity", "workPermitCost")) && IsText(At(v, "visasSecurity", "securityCost"))
  }

  predicate InsuranceOk(v: Json) {
    IsRecordValue(Get(v, "insurance")) && IsText(At(v, "insurance", "travelPolicy"))
    && IsText(At(v, "insurance", "healthPerDay")) && IsText(At(v, "insurance", "extraFixed"))
  }

  predicate LocalTransportOk(v: Json) {
    IsRecordValue(Get(v, "localTransport")) && IsText(At(v, "localTransport", "trainCost"))
    && IsFlag(At(v, "localTransport", "useCar"))
  }

  predicate AllowancesOk(v: Json) {
    IsRecordValue(Get(v, "allowances")) && IsText(At(v, "allowances", "hotelPerNight"))
    && IsText(At(v, "allowances", "mealsPerDay")) && IsText(At(v, "allowances", "laundryPerWeek"))
    && IsText(At(v, "allowances", "incidentalsPerDay"))
  }

  predicate TaxesOk(v: Json) {
    IsRecordValue(Get(v, "taxes")) && IsText(At(v, "taxes", "localTaxPct"))
    && IsText(At(v, "taxes", "withholdingFixed")) && IsFlag(At(v, "taxes", "applyTaxToLaborOnly"))
  }

  /** Lines 86-88: `personalTax` may be absent, but when present it must be well formed. */
  predicate PersonalTaxOk(v: Json) {
    Get(v, "personalTax").Some? ==>
      IsRecordValue(Get(v, "personalTax")) && IsText(At(v, "personalTax", "originConsulting"))
      && IsText(At(v, "personalTax", "destinationConsulting"))
  }

  predicate CurrencyOk(v: Json) {
    IsRecordValue(Get(v, "currency")) && IsText(At(v, "currency", "base"))
    && IsFlag(At(v, "currency", "showTarget")) && IsText(At(v, "currency", "target"))
    && IsText(At(v, "currency", "rateBaseToTarget"))
  }

  // ---------------------------------------------------------------------------------------------
  // The same shape as a table of required properties.

  datatype Kind = Text | Flag

  /** A required sub-record of the scenario and the typed properties it must carry. */
  datatype Section = Section(name: string, props: seq<(string, Kind)>)

  const MetaSection := Section("meta", [("title", Text), ("notes", Text)])
  const RoutingSection := Section("routing", [("origin", Text), ("destination", Text)])
  const VisasSecuritySection :=
    Section("visasSecurity", [("visaCost", Text), ("workPermitCost", Text), ("securityCost", Text)])
  const InsuranceSection :=
    Section("insurance", [("travelPolicy", Text), ("healthPerDay", Text), ("extraFixed", Text)])
  const LocalTransportSection := Section("localTransport", [("trainCost", Text), ("useCar", Flag)])
  const AllowancesSection :=
    Section("allowances", [("hotelPerNight", Text), ("mealsPerDay", Text), ("laundryPerWeek", Text),
                           ("incidentalsPerDay", Text)])
  const TaxesSection :=
    Section("taxes", [("localTaxPct", Text), ("withholdingFixed", Text), ("applyTaxToLaborOnly", Flag)])
  const CurrencySection :=
    Section("currency", [("base", Text), ("showTarget", Flag), ("target", Text), ("rateBaseToTarget", Text)])

  /** The sub-records every scenario must carry, with their required properties. */
  const Sections: seq<Section> := [
    MetaSection, RoutingSection, VisasSecuritySection, InsuranceSection, LocalTransportSection,
    AllowancesSection, TaxesSection, CurrencySection
  ]

  const StaffingProps: seq<(string, Kind)> := [("id", Text), ("role", Text)]
  const LegProps: seq<(string, Kind)> := [("id", Text), ("from", Text), ("to", Text), ("airfare", Text)]
  const PersonalTaxProps: seq<(string, Kind)> := [("originConsulting", Text), ("destinationConsulting", Text)]

  predicate HasKind(o: Option<Json>, kind: Kind) {
    match kind
    case Text => IsText(o)
    case Flag => IsFlag(o)
  }

  /** `o` is a record carrying every listed property with its kind. */
  predicate Fits(o: Option<Json>, props: seq<(string, Kind)>) {
    IsRecordValue(o) && forall p :: p in props ==> HasKind(GetIn(o, p.0), p.1)
  }

  /** `o` is an array whose every element fits `props`. */
  predicate AllFit(o: Option<Json>, props: seq<(string, Kind)>) {
    IsArrayValue(o) && forall e :: e in o.value.elems ==> Fits(Some(e), props)
  }

  predicate MatchesSchema(v: Json) {
    && IsRecord(v)
    && (forall sec :: sec in Sections ==> Fits(Get(v, sec.name), sec.props))
    && AllFit(Get(v, "staffing"), StaffingProps)
    && AllFit(At(v, "routing", "legs"), LegProps)
    && (Get(v, "personalTax") == None || Fits(Get(v, "personalTax"), PersonalTaxProps))
    && IsText(Get(v, "contingencyPct"))
  }

  /** The source's sequence of tests and the table describe the same shape. */
  lemma IsScenarioMatchesSchema(v: Json)
    ensures IsScenario(v) <==> MatchesSchema(v)
  {
    if IsScenario(v) {
      ScenarioMatchesSchema(v);
    }
    if MatchesSchema(v) {
      SchemaGivesScenario(v);
    }
  }

  lemma ScenarioMatchesSchema(v: Json)
    requires IsScenario(v)
    ensures MatchesSchema(v)
  {
    ScenarioSectionsFit(v);
    ScenarioItemsFit(v);
    ScenarioPersonalTaxFits(v);
  }

  lemma ScenarioPersonalTaxFits(v: Json)
    requires PersonalTaxOk(v)
    ensures Get(v, "personalTax") == None || Fits(Get(v, "personalTax"), PersonalTaxProps)
  {
  }

  lemma ScenarioSectionsFit(v: Json)
    requires IsScenario(v)
    ensures forall sec :: sec in Sections ==> Fits(Get(v, sec.name), sec.props)
  {
    forall sec | sec in Sections
      ensures Fits(Get(v, sec.name), sec.props)
    {
      var i :| 0 <= i < |Sections| && Sections[i] == sec;
      ScenarioSectionFits(v, i);
    }
  }

  lemma ScenarioSectionFits(v: Json, i: nat)
    requires IsScenario(v) && i < |Sections|
    ensures Fits(Get(v, Sections[i].name), Sections[i].props)
  {
    assert SectionOk(v, i);
    SectionOkFits(v, i);
  }

  /** The test the source applies to section i of the table. */
  predicate SectionOk(v: Json, i: nat) {
    match i
    case 0 => MetaOk(v)
    case 1 => RoutingOk(v)
    case 2 => VisasSecurityOk(v)
    case 3 => InsuranceOk(v)
    case 4 => LocalTransportOk(v)
    case 5 => AllowancesOk(v)
    case 6 => TaxesOk(v)
    case _ => CurrencyOk(v)
  }

  lemma SectionOkFits(v: Json, i: nat)
    requires i < |Sections| && SectionOk(v, i)
    ensures Fits(Get(v, Sections[i].name), Sections[i].props)
  {
  }

  lemma ScenarioItemsFit(v: Json)
    requires IsScenario(v)
    ensures AllFit(Get(v, "staffing"), StaffingProps)
    ensures AllFit(At(v, "routing", "legs"), LegProps)
  {
    forall e | e in Get(v, "staffing").value.elems ensures Fits(Some(e), StaffingProps) {
      assert IsStaffingShape(e);
    }
    forall e | e in At(v, "routing", "legs").value.elems ensures Fits(Some(e), LegProps) {
      assert IsLegShape(e);
    }
  }

  lemma SchemaGivesScenario(v: Json)
    requires MatchesSchema(v)
    ensures IsScenario(v)
  {
    assert MetaOk(v) by {
      assert MetaSection in Sections;
      assert ("title", Text) in MetaSection.props && ("notes", Text) in MetaSection.props;
    }
    assert RoutingOk(v) && LegsOk(v) by {
      assert RoutingSection in Sections;
      assert ("origin", Text) in RoutingSection.props && ("destination", Text) in RoutingSection.props;
      SchemaGivesItems(v);
    }
    assert StaffingOk(v) by { SchemaGivesItems(v); }
    assert VisasSecurityOk(v) by {
      var sec := VisasSecuritySection;
      assert sec in Sections;
      assert sec.props[0] in sec.props && sec.props[1] in sec.props && sec.props[2] in sec.props;
    }
    assert InsuranceOk(v) by {
      var sec := InsuranceSection;
      assert sec in Sections;
      assert sec.props[0] in sec.props && sec.props[1] in sec.props && sec.props[2] in sec.props;
    }
    assert LocalTransportOk(v) by {
      var sec := LocalTransportSection;
      assert sec in Sections;
      assert sec.props[0] in sec.props && sec.props[1] in sec.props;
    }
    assert AllowancesOk(v) by {
      var sec := AllowancesSection;
      assert sec in Sections;
      assert sec.props[0] in sec.props && sec.props[1] in sec.props && sec.props[2] in sec.props;
      assert sec.props[3] in sec.props;
    }
    assert TaxesOk(v) by {
      var sec := TaxesSection;
      assert sec in Sections;
      assert sec.props[0] in sec.props && sec.props[1] in sec.props && sec.props[2] in sec.props;
    }
    assert CurrencyOk(v) by {
      var sec := CurrencySection;
      assert sec in Sections;
      assert sec.props[0] in sec.props && sec.props[1] in sec.props && sec.props[2] in sec.props;
      assert sec.props[3] in sec.props;
    }
    assert PersonalTaxOk(v) by {
      if Get(v, "personalTax").Some? {
        assert PersonalTaxProps[0] in PersonalTaxProps && PersonalTaxProps[1] in PersonalTaxProps;
      }
    }
  }

  lemma SchemaGivesItems(v: Json)
    requires MatchesSchema(v)
    ensures StaffingOk(v)
    ensures IsArrayValue(At(v, "routing", "legs"))
    ensures forall leg :: leg in At(v, "routing", "legs").value.elems ==> IsLegShape(leg)
  {
    forall st | st in Get(v, "staffing").value.elems ensures IsStaffingShape(st) {
      assert Fits(Some(st), StaffingProps);
      assert StaffingProps[0] in StaffingProps && StaffingProps[1] in StaffingProps;
    }
    forall leg | leg in At(v, "routing", "legs").value.elems ensures IsLegShape(leg) {
      assert Fits(Some(leg), LegProps);
      assert LegProps[0] in LegProps && LegProps[1] in LegProps && LegProps[2] in LegProps;
      assert LegProps[3] in LegProps;
    }
  }

  // ---------------------------------------------------------------------------------------------
  // All or nothing: edits of one property and what they do to acceptance.

  /** `v` with top-level property `k` set to `o`, or deleted when `o` is None. */
  function ReplaceTop(v: Json, k: string, o: Option<Json>): Json {
    if v.JObject? then JObject(if o.Some? then v.fields[k := o.value] else v.fields - {k}) else v
  }

  /** `v` with `v[section][k]` set to `o` (deleted when None), when that section is an object. */
  function ReplaceIn(v: Json, section: string, k: string, o: Option<Json>): Json {
    if v.JObject? && section in v.fields && v.fields[section].JObject? then
      var rec := v.fields[section].fields;
      JObject(v.fields[section := JObject(if o.Some? then rec[k := o.value] else rec - {k})])
    else v
  }

  /** The list `v[list]` with property `k` of its element n set to `o` (deleted when None). */
  function ReplaceItemIn(items: seq<Json>, n: nat, k: string, o: Option<Json>): seq<Json>
    requires n < |items|
  {
    var e := items[n];
    if e.JObject? then items[n := JObject(if o.Some? then e.fields[k := o.value] else e.fields - {k})]
    else items
  }

  /** `v` with property `k` of staffing element n set to `o`. */
  function ReplaceInStaffing(v: Json, n: nat, k: string, o: Option<Json>): Json {
    if v.JObject? && "staffing" in v.fields && v.fields["staffing"].JArray?
       && n < |v.fields["staffing"].elems|
    then JObject(v.fields["staffing" := JArray(ReplaceItemIn(v.fields["staffing"].elems, n, k, o))])
    else v
  }

  /** What `ReplaceIn` leaves at the replaced position: the new value, or nothing at all. */
  lemma ReplaceInAt(v: Json, section: string, k: string, o: Option<Json>)
    ensures At(ReplaceIn(v, section, k, o), section, k) == o || At(ReplaceIn(v, section, k, o), section, k) == None
  {
  }

  /** A scenario carries property j of section i with its kind. */
  lemma ScenarioHasSectionProperty(w: Json, i: nat, j: nat)
    requires IsScenario(w)
    requires i < |Sections| && j < |Sections[i].props|
    ensures HasKind(At(w, Sections[i].name, Sections[i].props[j].0), Sections[i].props[j].1)
  {
    ScenarioMatchesSchema(w);
    assert Sections[i] in Sections;
    assert Sections[i].props[j] in Sections[i].props;
  }

  /** A required property of a required section that is missing or of the wrong type rejects the value. */
  lemma SectionPropertyRequired(v: Json, i: nat, j: nat, o: Option<Json>)
    requires i < |Sections| && j < |Sections[i].props|
    requires !HasKind(o, Sections[i].props[j].1)
    ensures !IsScenario(ReplaceIn(v, Sections[i].name, Sections[i].props[j].0, o))
  {
    var w := ReplaceIn(v, Sections[i].name, Sections[i].props[j].0, o);
    if IsScenario(w) {
      ScenarioHasSectionProperty(w, i, j);
    }
    ReplaceInAt(v, Sections[i].name, Sections[i].props[j].0, o);
  }

  /** A scenario carries every required top-level property, none of them null. */
  lemma ScenarioHasTopLevel(w: Json, k: string)
    requires IsScenario(w)
    requires k in RequiredTopLevel
    ensures Get(w, k).Some? && Get(w, k) != Some(JNull)
  {
  }

  /** A required section, the staffing list or the contingency percentage that is missing or null rejects the value. */
  lemma TopLevelPropertyRequired(v: Json, k: string, o: Option<Json>)
    requires k in RequiredTopLevel
    requires o == None || o == Some(JNull)
    ensures !IsScenario(ReplaceTop(v, k, o))
  {
    var w := ReplaceTop(v, k, o);
    if IsScenario(w) {
      ScenarioHasTopLevel(w, k);
    }
    assert v.JObject? ==> Get(w, k) == o;
  }

  /** The top-level properties without which no value is a scenario. */
  const RequiredTopLevel: seq<string> := [
    "meta", "staffing", "routing", "visasSecurity", "insurance", "localTransport", "allowances",
    "taxes", "contingencyPct", "currency"
  ]

  /** Every element of a scenario's staffing list has text `id` and `role`. */
  lemma ScenarioStaffingElement(w: Json, n: nat)
    requires IsScenario(w)
    requires n < |Get(w, "staffing").value.elems|
    ensures IsStaffingShape(Get(w, "staffing").value.elems[n])
  {
    assert Get(w, "staffing").value.elems[n] in Get(w, "staffing").value.elems;
  }

  /** A staffing element whose `id` or `role` is missing or not text rejects the value. */
  lemma StaffingIdentityRequired(v: Json, n: nat, j: nat, o: Option<Json>)
    requires IsArrayValue(Get(v, "staffing")) && n < |Get(v, "staffing").value.elems|
    requires j < |StaffingProps|
    requires !IsText(o)
    ensures !IsScenario(ReplaceInStaffing(v, n, StaffingProps[j].0, o))
  {
    var k := StaffingProps[j].0;
    var w := ReplaceInStaffing(v, n, k, o);
    if w == v {
      if IsScenario(v) {
        ScenarioStaffingElement(v, n);
      }
    } else {
      if IsScenario(w) {
        ScenarioStaffingElement(w, n);
      }
      assert Get(w.fields["staffing"].elems[n], k) == o;
    }
  }

  /** An absent `personalTax` is accepted: removing it from a scenario leaves a scenario. */
  lemma PersonalTaxOptional(v: Json)
    requires IsScenario(v)
    ensures IsScenario(ReplaceTop(v, "personalTax", None))
  {
    var w := ReplaceTop(v, "personalTax", None);
    forall k | k != "personalTax" ensures Get(w, k) == Get(v, k) {
    }
  }

  /** A `personalTax` that is present but not a record with text fees rejects the value. */
  lemma MalformedPersonalTaxRejected(v: Json, o: Option<Json>)
    requires o.Some? && !Fits(o, PersonalTaxProps)
    ensures !IsScenario(ReplaceTop(v, "personalTax", o))
  {
    var w := ReplaceTop(v, "personalTax", o);
    if IsScenario(w) {
      ScenarioPersonalTaxFits(w);
    }
    assert v.JObject? ==> Get(w, "personalTax") == o;
  }

  /** The numeric fields of a staffing element are never checked: any value there keeps a scenario a scenario. */
  lemma StaffingNumbersUnchecked(v: Json, n: nat, k: string, x: Json)
    requires IsScenario(v)
    requires k != "id" && k != "role"
    ensures IsScenario(ReplaceInStaffing(v, n, k, Some(x)))
  {
    var w := ReplaceInStaffing(v, n, k, Some(x));
    if w != v {
      var items := v.fields["staffing"].elems;
      var items' := ReplaceItemIn(items, n, k, Some(x));
      ReplacedItemsShaped(items, n, k, x);
      forall key | key != "staffing" ensures Get(w, key) == Get(v, key) {
      }
      AcceptedWithStaffing(v, w, items');
    }
  }

  /** Setting a property other than `id` and `role` keeps every staffing element well shaped. */
  lemma ReplacedItemsShaped(items: seq<Json>, n: nat, k: string, x: Json)
    requires n < |items|
    requires forall st :: st in items ==> IsStaffingShape(st)
    requires k != "id" && k != "role"
    ensures forall st :: st in ReplaceItemIn(items, n, k, Some(x)) ==> IsStaffingShape(st)
  {
    var items' := ReplaceItemIn(items, n, k, Some(x));
    forall st | st in items' ensures IsStaffingShape(st) {
      var m :| 0 <= m < |items'| && items'[m] == st;
      assert items[m] in items;
    }
  }

  /** A scenario whose staffing list is exchanged for another well-shaped one is still a scenario. */
  lemma AcceptedWithStaffing(v: Json, w: Json, items: seq<Json>)
    requires IsScenario(v) && w.JObject?
    requires forall key :: key != "staffing" ==> Get(w, key) == Get(v, key)
    requires Get(w, "staffing") == Some(JArray(items))
    requires forall st :: st in items ==> IsStaffingShape(st)
    ensures IsScenario(w)
  {
    assert Get(w, "meta") == Get(v, "meta");
    assert Get(w, "routing") == Get(v, "routing");
  }
}
