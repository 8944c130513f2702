/**
 * The scenario sanitiser `sanitizeScenario` (src/App.tsx lines 94-105). It runs on a value the
 * validator accepted and gives every staffing item and leg with an empty `id` a generated one,
 * leaving the other items untouched and in order. It also replaces `personalTax` by a record
 * holding exactly the two consulting fees, each defaulting to "0".
 *
 * `crypto.randomUUID` is the parameter `gen`: `gen(n)` is the id its n-th call returns. The calls
 * are made for the staffing list first and then for the legs, in list order.
 */
module Sanitizer {
  import opened Wrappers
  import opened JsonValues
  import opened Validation

  /** The id supply: the n-th call of the generator. */
  type IdSource = nat -> string

  /** A list element with a text `id` (implies it is an object). */
  predicate HasTextId(e: Json) {
    IsText(Get(e, "id"))
  }

  predicate AllHaveTextIds(items: seq<Json>) {
    forall i :: 0 <= i < |items| ==> HasTextId(items[i])
  }

  function IdOf(e: Json): string
    requires HasTextId(e)
  {
    Get(e, "id").value.s
  }

  /** `{ ...e, id }`. */
  function WithId(e: Json, id: string): Json
    requires e.JObject?
  {
    JObject(e.fields["id" := JString(id)])
  }

  /** The number of elements whose id is empty: the generator calls the list consumes. */
  function CountBlank(items: seq<Json>): nat
    requires AllHaveTextIds(items)
  {
    if items == [] then 0
    else (if IdOf(items[0]) == "" then 1 else 0) + CountBlank(items[1..])
  }

  /** `items.map(e => ({ ...e, id: e.id || crypto.randomUUID() }))`, the generator's calls numbered from `next`. */
  function FillIds(items: seq<Json>, gen: IdSource, next: nat): (r: seq<Json>)
    requires AllHaveTextIds(items)
    ensures |r| == |items|
  {
    if items == [] then []
    else if IdOf(items[0]) == "" then [WithId(items[0], gen(next))] + FillIds(items[1..], gen, next + 1)
    else [items[0]] + FillIds(items[1..], gen, next)
  }

  /**
   * Element i keeps its id unless that id is empty; then it receives the id of the generator call
   * that follows the calls made for the empty ids before it.
   */
  lemma {:induction false} FillIdsAt(items: seq<Json>, gen: IdSource, next: nat, i: nat)
    requires AllHaveTextIds(items)
    requires i < |items|
    ensures FillIds(items, gen, next)[i] ==
              if IdOf(items[i]) == "" then WithId(items[i], gen(next + CountBlank(items[..i]))) else items[i]
  {
    if i > 0 {
      var next' := if IdOf(items[0]) == "" then next + 1 else next;
      FillIdsAt(items[1..], gen, next', i - 1);
      CountBlankCons(items, i);
    }
  }

  lemma CountBlankCons(items: seq<Json>, i: nat)
    requires AllHaveTextIds(items)
    requires 1 <= i <= |items|
    ensures CountBlank(items[..i]) == (if IdOf(items[0]) == "" then 1 else 0) + CountBlank(items[1..][..i - 1])
  {
    assert items[..i][1..] == items[1..][..i - 1];
  }

  /** The staffing list (empty when there is none). */
  function Staffing(v: Json): seq<Json> {
    if IsArrayValue(Get(v, "staffing")) then Get(v, "staffing").value.elems else []
  }

  /** The legs of the routing (empty when there are none). */
  function Legs(v: Json): seq<Json> {
    if IsArrayValue(At(v, "routing", "legs")) then At(v, "routing", "legs").value.elems else []
  }

  /**
   * What the sanitiser relies on: an object whose routing is an object, whose list elements carry
   * text ids and whose `personalTax`, when present, holds the two fees as text. Every value the
   * validator accepts is one.
   */
  predicate Sanitizable(v: Json) {
    && v.JObject? && Get(v, "routing").Some? && Get(v, "routing").value.JObject?
    && (forall e :: e in Staffing(v) ==> HasTextId(e))
    && (forall e :: e in Legs(v) ==> HasTextId(e))
    && PersonalTaxOk(v)
  }

  lemma ScenarioSanitizable(v: Json)
    requires IsScenario(v)
    ensures Sanitizable(v)
  {
  }

  lemma SanitizableItems(v: Json)
    requires Sanitizable(v)
    ensures AllHaveTextIds(Staffing(v)) && AllHaveTextIds(Legs(v))
  {
    forall i | 0 <= i < |Staffing(v)| ensures HasTextId(Staffing(v)[i]) {
      assert Staffing(v)[i] in Staffing(v);
    }
    forall i | 0 <= i < |Legs(v)| ensures HasTextId(Legs(v)[i]) {
      assert Legs(v)[i] in Legs(v);
    }
  }

  /** `String(value.personalTax?.[k] ?? '0')` on a validated value. */
  function FeeText(v: Json, k: string): string
    requires Sanitizable(v)
    requires k == "originConsulting" || k == "destinationConsulting"
  {
    if Get(v, "personalTax").Some? then At(v, "personalTax", k).value.s else "0"
  }

  /** The two consulting fees, each the given text or "0". */
  function Fees(v: Json): map<string, Json>
    requires Sanitizable(v)
  {
    map["originConsulting" := JString(FeeText(v, "originConsulting")),
        "destinationConsulting" := JString(FeeText(v, "destinationConsulting"))]
  }

  /** `{ ...v, staffing, routing: { ...v.routing, legs }, personalTax }`. */
  function Rebuild(v: Json, staffing: seq<Json>, legs: seq<Json>, personalTax: map<string, Json>): Json
    requires v.JObject? && Get(v, "routing").Some? && Get(v, "routing").value.JObject?
  {
    var routing := Get(v, "routing").value;
    JObject(v.fields["staffing" := JArray(staffing)]
                    ["routing" := JObject(routing.fields["legs" := JArray(legs)])]
                    ["personalTax" := JObject(personalTax)])
  }

  /** `sanitizeScenario`. */
  function Sanitize(v: Json, gen: IdSource): Json
    requires Sanitizable(v)
  {
    SanitizableItems(v);
    Rebuild(v, FillIds(Staffing(v), gen, 0), FillIds(Legs(v), gen, CountBlank(Staffing(v))), Fees(v))
  }

  // ---------------------------------------------------------------------------------------------
  // What the sanitiser promises.

  lemma {:induction false} CountBlankAppend(a: seq<Json>, b: seq<Json>)
    requires AllHaveTextIds(a) && AllHaveTextIds(b)
    ensures AllHaveTextIds(a + b)
    ensures CountBlank(a + b) == CountBlank(a) + CountBlank(b)
  {
    if a == [] {
      assert a + b == b;
    } else {
      assert (a + b)[0] == a[0];
      assert (a + b)[1..] == a[1..] + b;
      CountBlankAppend(a[1..], b);
    }
  }

  /** Each empty id before position j consumes one generator call. */
  lemma CountBlankGrows(items: seq<Json>, i: nat, j: nat)
    requires AllHaveTextIds(items)
    requires i < j <= |items|
    ensures CountBlank(items[..i]) + (if IdOf(items[i]) == "" then 1 else 0) <= CountBlank(items[..j])
  {
    assert items[..j] == items[..i] + [items[i]] + items[i + 1..j];
    CountBlankAppend(items[..i], [items[i]]);
    CountBlankAppend(items[..i] + [items[i]], items[i + 1..j]);
  }

  /** Filling ids changes nothing but the id of an element whose id was empty. */
  lemma FillIdsKeepsOtherProperties(items: seq<Json>, gen: IdSource, next: nat, i: nat, k: string)
    requires AllHaveTextIds(items)
    requires i < |items| && k != "id"
    ensures Get(FillIds(items, gen, next)[i], k) == Get(items[i], k)
    ensures HasTextId(FillIds(items, gen, next)[i])
  {
    FillIdsAt(items, gen, next, i);
  }

  /** A list whose ids are all non-empty is left exactly as it is. */
  lemma {:induction false} FillIdsNoBlank(items: seq<Json>, gen: IdSource, next: nat)
    requires AllHaveTextIds(items)
    requires forall i :: 0 <= i < |items| ==> IdOf(items[i]) != ""
    ensures FillIds(items, gen, next) == items
  {
    if items != [] {
      FillIdsNoBlank(items[1..], gen, next);
    }
  }

  /** With a generator that never returns "", every id of the filled list is non-empty. */
  lemma FillIdsNonBlank(items: seq<Json>, gen: IdSource, next: nat)
    requires AllHaveTextIds(items)
    requires forall n :: gen(n) != ""
    ensures AllHaveTextIds(FillIds(items, gen, next))
    ensures forall i :: 0 <= i < |items| ==> IdOf(FillIds(items, gen, next)[i]) != ""
  {
    forall i | 0 <= i < |items|
      ensures HasTextId(FillIds(items, gen, next)[i]) && IdOf(FillIds(items, gen, next)[i]) != ""
    {
      FillIdsAt(items, gen, next, i);
    }
  }

  /**
   * Ids stay unique: when the non-empty ids of the list are pairwise distinct and the generator
   * returns distinct ids that the list does not already use, all ids of the filled list are distinct.
   */
  lemma FillIdsDistinct(items: seq<Json>, gen: IdSource, next: nat)
    requires AllHaveTextIds(items)
    requires forall i, j :: 0 <= i < j < |items| && IdOf(items[i]) != "" ==> IdOf(items[i]) != IdOf(items[j])
    requires forall m, n :: m != n ==> gen(m) != gen(n)
    requires forall n, i :: 0 <= i < |items| ==> gen(n) != IdOf(items[i])
    ensures AllHaveTextIds(FillIds(items, gen, next))
    ensures forall i, j :: 0 <= i < j < |items| ==>
              IdOf(FillIds(items, gen, next)[i]) != IdOf(FillIds(items, gen, next)[j])
  {
    var r := FillIds(items, gen, next);
    forall i | 0 <= i < |items| ensures HasTextId(r[i]) {
      FillIdsAt(items, gen, next, i);
    }
    forall i, j | 0 <= i < j < |items| ensures IdOf(r[i]) != IdOf(r[j]) {
      FillIdsAt(items, gen, next, i);
      FillIdsAt(items, gen, next, j);
      CountBlankGrows(items, i, j);
    }
  }

  /** Where the rebuilt value holds its parts, and that nothing else moves. */
  lemma RebuildLayout(v: Json, staffing: seq<Json>, legs: seq<Json>, personalTax: map<string, Json>)
    requires v.JObject? && Get(v, "routing").Some? && Get(v, "routing").value.JObject?
    ensures Rebuild(v, staffing, legs, personalTax).JObject?
    ensures Get(Rebuild(v, staffing, legs, personalTax), "staffing") == Some(JArray(staffing))
    ensures At(Rebuild(v, staffing, legs, personalTax), "routing", "legs") == Some(JArray(legs))
    ensures Get(Rebuild(v, staffing, legs, personalTax), "personalTax") == Some(JObject(personalTax))
    ensures forall k :: k != "staffing" && k != "routing" && k != "personalTax" ==>
              Get(Rebuild(v, staffing, legs, personalTax), k) == Get(v, k)
    ensures forall k :: k != "legs" ==> At(Rebuild(v, staffing, legs, personalTax), "routing", k) == At(v, "routing", k)
    ensures Get(Rebuild(v, staffing, legs, personalTax), "routing").Some?
    ensures Get(Rebuild(v, staffing, legs, personalTax), "routing").value.JObject?
  {
  }

  /** Where the sanitiser puts the filled lists and the new `personalTax`. */
  lemma SanitizeLayout(v: Json, gen: IdSource)
    requires Sanitizable(v)
    ensures AllHaveTextIds(Staffing(v)) && AllHaveTextIds(Legs(v))
    ensures Sanitize(v, gen).JObject?
    ensures Get(Sanitize(v, gen), "staffing") == Some(JArray(FillIds(Staffing(v), gen, 0)))
    ensures At(Sanitize(v, gen), "routing", "legs") == Some(JArray(FillIds(Legs(v), gen, CountBlank(Staffing(v)))))
    ensures Get(Sanitize(v, gen), "personalTax") == Some(JObject(Fees(v)))
  {
    SanitizableItems(v);
    RebuildLayout(v, FillIds(Staffing(v), gen, 0), FillIds(Legs(v), gen, CountBlank(Staffing(v))), Fees(v));
  }

  /** The sanitised lists are the filled lists. */
  lemma SanitizeLists(v: Json, gen: IdSource)
    requires Sanitizable(v)
    ensures AllHaveTextIds(Staffing(v)) && AllHaveTextIds(Legs(v))
    ensures Staffing(Sanitize(v, gen)) == FillIds(Staffing(v), gen, 0)
    ensures Legs(Sanitize(v, gen)) == FillIds(Legs(v), gen, CountBlank(Staffing(v)))
  {
    SanitizeLayout(v, gen);
  }

  /** Sections that a value shares with a scenario pass their tests in it too. */
  lemma SharedSectionsOk(v: Json, w: Json)
    requires IsScenario(v) && w.JObject?
    requires forall k :: k != "staffing" && k != "routing" && k != "personalTax" ==> Get(w, k) == Get(v, k)
    requires forall k :: k != "legs" ==> At(w, "routing", k) == At(v, "routing", k)
    requires Get(w, "routing").Some? && Get(w, "routing").value.JObject?
    ensures MetaOk(w) && VisasSecurityOk(w) && InsuranceOk(w) && LocalTransportOk(w) && AllowancesOk(w)
    ensures TaxesOk(w) && IsText(Get(w, "contingencyPct")) && CurrencyOk(w)
    ensures IsText(At(w, "routing", "origin")) && IsText(At(w, "routing", "destination"))
  {
    assert Get(w, "meta") == Get(v, "meta");
    assert Get(w, "visasSecurity") == Get(v, "visasSecurity");
    assert Get(w, "insurance") == Get(v, "insurance");
    assert Get(w, "localTransport") == Get(v, "localTransport");
    assert Get(w, "allowances") == Get(v, "allowances");
    assert Get(w, "taxes") == Get(v, "taxes");
    assert Get(w, "contingencyPct") == Get(v, "contingencyPct");
    assert Get(w, "currency") == Get(v, "currency");
  }

  /** The sanitiser's output is accepted by the validator. */
  lemma SanitizeAccepted(v: Json, gen: IdSource)
    requires IsScenario(v)
    ensures Sanitizable(v)
    ensures IsScenario(Sanitize(v, gen))
  {
    ScenarioSanitizable(v);
    FilledShapes(v, gen);
    RebuildAccepted(v, FillIds(Staffing(v), gen, 0), FillIds(Legs(v), gen, CountBlank(Staffing(v))), Fees(v));
  }

  /** A scenario rebuilt from well-shaped lists and two text fees is still a scenario. */
  lemma RebuildAccepted(v: Json, staffing: seq<Json>, legs: seq<Json>, personalTax: map<string, Json>)
    requires IsScenario(v)
    requires forall st :: st in staffing ==> IsStaffingShape(st)
    requires forall leg :: leg in legs ==> IsLegShape(leg)
    requires IsText(GetIn(Some(JObject(personalTax)), "originConsulting"))
    requires IsText(GetIn(Some(JObject(personalTax)), "destinationConsulting"))
    ensures IsScenario(Rebuild(v, staffing, legs, personalTax))
  {
    RebuildLayout(v, staffing, legs, personalTax);
    AcceptedFromParts(v, Rebuild(v, staffing, legs, personalTax), staffing, legs);
  }

  /** The filled lists still pass the element tests. */
  lemma FilledShapes(v: Json, gen: IdSource)
    requires IsScenario(v)
    ensures AllHaveTextIds(Staffing(v)) && AllHaveTextIds(Legs(v))
    ensures forall st :: st in FillIds(Staffing(v), gen, 0) ==> IsStaffingShape(st)
    ensures forall leg :: leg in FillIds(Legs(v), gen, CountBlank(Staffing(v))) ==> IsLegShape(leg)
  {
    SanitizableItems(v);
    var staffing := FillIds(Staffing(v), gen, 0);
    var legs := FillIds(Legs(v), gen, CountBlank(Staffing(v)));
    forall st | st in staffing ensures IsStaffingShape(st) {
      var i :| 0 <= i < |staffing| && staffing[i] == st;
      FillIdsKeepsOtherProperties(Staffing(v), gen, 0, i, "role");
      ScenarioStaffingElement(v, i);
    }
    forall leg | leg in legs ensures IsLegShape(leg) {
      var i :| 0 <= i < |legs| && legs[i] == leg;
      var n := CountBlank(Staffing(v));
      FillIdsKeepsOtherProperties(Legs(v), gen, n, i, "from");
      FillIdsKeepsOtherProperties(Legs(v), gen, n, i, "to");
      FillIdsKeepsOtherProperties(Legs(v), gen, n, i, "airfare");
      assert Legs(v)[i] in Legs(v);
    }
  }

  /** A value that shares a scenario's sections and carries well-shaped lists and fees is a scenario. */
  lemma AcceptedFromParts(v: Json, w: Json, staffing: seq<Json>, legs: seq<Json>)
    requires IsScenario(v) && w.JObject?
    requires forall k :: k != "staffing" && k != "routing" && k != "personalTax" ==> Get(w, k) == Get(v, k)
    requires forall k :: k != "legs" ==> At(w, "routing", k) == At(v, "routing", k)
    requires Get(w, "routing").Some? && Get(w, "routing").value.JObject?
    requires Get(w, "staffing") == Some(JArray(staffing))
    requires forall st :: st in staffing ==> IsStaffingShape(st)
    requires At(w, "routing", "legs") == Some(JArray(legs))
    requires forall leg :: leg in legs ==> IsLegShape(leg)
    requires IsRecordValue(Get(w, "personalTax")) && IsText(At(w, "personalTax", "originConsulting"))
    requires IsText(At(w, "personalTax", "destinationConsulting"))
    ensures IsScenario(w)
  {
    SharedSectionsOk(v, w);
  }

  /** Everything but the two lists and `personalTax` is carried over unchanged. */
  lemma SanitizeKeepsRest(v: Json, gen: IdSource)
    requires Sanitizable(v)
    ensures forall k :: k != "staffing" && k != "routing" && k != "personalTax" ==>
              Get(Sanitize(v, gen), k) == Get(v, k)
    ensures forall k :: k != "legs" ==> At(Sanitize(v, gen), "routing", k) == At(v, "routing", k)
    ensures Get(Sanitize(v, gen), "routing").Some? && Get(Sanitize(v, gen), "routing").value.JObject?
  {
    SanitizableItems(v);
    RebuildLayout(v, FillIds(Staffing(v), gen, 0), FillIds(Legs(v), gen, CountBlank(Staffing(v))), Fees(v));
  }

  /** Staffing item i: same position, same content; an empty id is replaced by a generated one. */
  lemma SanitizeStaffingAt(v: Json, gen: IdSource, i: nat)
    requires Sanitizable(v)
    requires i < |Staffing(v)|
    ensures |Staffing(Sanitize(v, gen))| == |Staffing(v)|
    ensures AllHaveTextIds(Staffing(v))
    ensures IdOf(Staffing(v)[i]) != "" ==> Staffing(Sanitize(v, gen))[i] == Staffing(v)[i]
    ensures IdOf(Staffing(v)[i]) == "" ==>
              Staffing(Sanitize(v, gen))[i] == WithId(Staffing(v)[i], gen(CountBlank(Staffing(v)[..i])))
  {
    SanitizeLists(v, gen);
    FillIdsAt(Staffing(v), gen, 0, i);
  }

  /** Leg i: same position, same content; an empty id takes the next call after the staffing list's. */
  lemma SanitizeLegAt(v: Json, gen: IdSource, i: nat)
    requires Sanitizable(v)
    requires i < |Legs(v)|
    ensures |Legs(Sanitize(v, gen))| == |Legs(v)|
    ensures AllHaveTextIds(Staffing(v)) && AllHaveTextIds(Legs(v))
    ensures IdOf(Legs(v)[i]) != "" ==> Legs(Sanitize(v, gen))[i] == Legs(v)[i]
    ensures IdOf(Legs(v)[i]) == "" ==>
              Legs(Sanitize(v, gen))[i] == WithId(Legs(v)[i], gen(CountBlank(Staffing(v)) + CountBlank(Legs(v)[..i])))
  {
    SanitizeLists(v, gen);
    FillIdsAt(Legs(v), gen, CountBlank(Staffing(v)), i);
  }

  /** `personalTax` always ends up as the two fees: copied when given, "0" when it was absent. */
  lemma SanitizePersonalTax(v: Json, gen: IdSource)
    requires Sanitizable(v)
    ensures Get(Sanitize(v, gen), "personalTax").Some?
    ensures Get(Sanitize(v, gen), "personalTax").value.JObject?
    ensures Get(Sanitize(v, gen), "personalTax").value.fields.Keys == {"originConsulting", "destinationConsulting"}
    ensures Get(v, "personalTax") == None ==>
              At(Sanitize(v, gen), "personalTax", "originConsulting") == Some(JString("0"))
              && At(Sanitize(v, gen), "personalTax", "destinationConsulting") == Some(JString("0"))
    ensures Get(v, "personalTax") != None ==>
              At(Sanitize(v, gen), "personalTax", "originConsulting") == At(v, "personalTax", "originConsulting")
              && At(Sanitize(v, gen), "personalTax", "destinationConsulting") == At(v, "personalTax", "destinationConsulting")
  {
    SanitizeLayout(v, gen);
  }

  /** Rebuilding a value from the parts it already holds gives the value back. */
  lemma RebuildSame(v: Json, staffing: seq<Json>, legs: seq<Json>, personalTax: map<string, Json>)
    requires v.JObject? && Get(v, "routing").Some? && Get(v, "routing").value.JObject?
    requires Get(v, "staffing") == Some(JArray(staffing))
    requires At(v, "routing", "legs") == Some(JArray(legs))
    requires Get(v, "personalTax") == Some(JObject(personalTax))
    ensures Rebuild(v, staffing, legs, personalTax) == v
  {
    var routing := Get(v, "routing").value;
    assert routing.fields["legs" := JArray(legs)] == routing.fields;
    assert v.fields["staffing" := JArray(staffing)]["routing" := routing]["personalTax" := JObject(personalTax)] == v.fields;
  }

  /** The sanitiser's output is again something it can run on. */
  lemma SanitizeSanitizable(v: Json, gen: IdSource)
    requires Sanitizable(v)
    ensures Sanitizable(Sanitize(v, gen))
  {
    var w := Sanitize(v, gen);
    SanitizeLayout(v, gen);
    SanitizeKeepsRest(v, gen);
    SanitizeLists(v, gen);
    forall e | e in Staffing(w) ensures HasTextId(e) {
      var i :| 0 <= i < |Staffing(w)| && Staffing(w)[i] == e;
      FillIdsKeepsOtherProperties(Staffing(v), gen, 0, i, "role");
    }
    forall e | e in Legs(w) ensures HasTextId(e) {
      var i :| 0 <= i < |Legs(w)| && Legs(w)[i] == e;
      FillIdsKeepsOtherProperties(Legs(v), gen, CountBlank(Staffing(v)), i, "from");
    }
  }

  /**
   * Sanitising twice is sanitising once, whatever the second generator returns: with a generator
   * that never returns "", no id is empty after the first pass, so none is regenerated.
   */
  lemma SanitizeIdempotent(v: Json, gen: IdSource, gen': IdSource)
    requires Sanitizable(v)
    requires forall n :: gen(n) != ""
    ensures Sanitizable(Sanitize(v, gen))
    ensures Sanitize(Sanitize(v, gen), gen') == Sanitize(v, gen)
  {
    var w := Sanitize(v, gen);
    SanitizeSanitizable(v, gen);
    SanitizeLayout(v, gen);
    SanitizeLists(v, gen);
    SanitizeLists(w, gen');
    SanitizePersonalTax(v, gen);
    FillIdsNonBlank(Staffing(v), gen, 0);
    FillIdsNonBlank(Legs(v), gen, CountBlank(Staffing(v)));
    FillIdsNoBlank(Staffing(w), gen', 0);
    FillIdsNoBlank(Legs(w), gen', CountBlank(Staffing(w)));
    assert Fees(w) == Fees(v);
    SanitizeKeepsRest(v, gen);
    RebuildSame(w, Staffing(w), Legs(w), Fees(w));
  }

  /** After sanitising, staffing ids and leg ids are non-empty and, under the freshness conditions, unique. */
  lemma SanitizeUniqueIds(v: Json, gen: IdSource)
    requires Sanitizable(v)
    requires AllHaveTextIds(Staffing(v)) && AllHaveTextIds(Legs(v))
    requires forall i, j :: 0 <= i < j < |Staffing(v)| && IdOf(Staffing(v)[i]) != "" ==>
               IdOf(Staffing(v)[i]) != IdOf(Staffing(v)[j])
    requires forall i, j :: 0 <= i < j < |Legs(v)| && IdOf(Legs(v)[i]) != "" ==>
               IdOf(Legs(v)[i]) != IdOf(Legs(v)[j])
    requires forall n :: gen(n) != ""
    requires forall m, n :: m != n ==> gen(m) != gen(n)
    requires forall n, i :: 0 <= i < |Staffing(v)| ==> gen(n) != IdOf(Staffing(v)[i])
    requires forall n, i :: 0 <= i < |Legs(v)| ==> gen(n) != IdOf(Legs(v)[i])
    ensures AllHaveTextIds(Staffing(Sanitize(v, gen))) && AllHaveTextIds(Legs(Sanitize(v, gen)))
    ensures forall i :: 0 <= i < |Staffing(Sanitize(v, gen))| ==> IdOf(Staffing(Sanitize(v, gen))[i]) != ""
    ensures forall i :: 0 <= i < |Legs(Sanitize(v, gen))| ==> IdOf(Legs(Sanitize(v, gen))[i]) != ""
    ensures forall i, j :: 0 <= i < j < |Staffing(Sanitize(v, gen))| ==>
              IdOf(Staffing(Sanitize(v, gen))[i]) != IdOf(Staffing(Sanitize(v, gen))[j])
    ensures forall i, j :: 0 <= i < j < |Legs(Sanitize(v, gen))| ==>
              IdOf(Legs(Sanitize(v, gen))[i]) != IdOf(Legs(Sanitize(v, gen))[j])
  {
    SanitizeLayout(v, gen);
    FillIdsNonBlank(Staffing(v), gen, 0);
    FillIdsNonBlank(Legs(v), gen, CountBlank(Staffing(v)));
    FillIdsDistinct(Staffing(v), gen, 0);
    FillIdsDistinct(Legs(v), gen, CountBlank(Staffing(v)));
  }
}
