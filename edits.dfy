/**
 * The list edits of the editor (src/App.tsx lines 315-318): appending a blank leg or a new role,
 * and removing every leg or role with a given id. Each builds a new scenario; the id of an
 * appended item is the value its `crypto.randomUUID()` call returned, passed in as `id`.
 */
module Edits {
  import opened Wrappers
  import opened Coercion
  import opened Scenarios
  import opened Engine

  // ---------------------------------------------------------------------------------------------
  // `filter(x => x.id !== id)`, for any list whose elements carry an id.

  /** The elements whose key differs from `id`, in their order. */
  function Without<T>(xs: seq<T>, key: T -> string, id: string): seq<T> {
    if xs == [] then []
    else (if key(xs[0]) != id then [xs[0]] else []) + Without(xs[1..], key, id)
  }

  /** An element survives exactly when it was there and its key differs. */
  lemma {:induction false} WithoutMembers<T>(xs: seq<T>, key: T -> string, id: string)
    ensures forall x :: x in Without(xs, key, id) <==> x in xs && key(x) != id
  {
    if xs != [] {
      WithoutMembers(xs[1..], key, id);
      assert xs == [xs[0]] + xs[1..];
    }
  }

  lemma WithoutMember<T>(xs: seq<T>, key: T -> string, id: string, x: T)
    requires x in Without(xs, key, id)
    ensures x in xs && key(x) != id
  {
    WithoutMembers(xs, key, id);
  }

  /** Filtering works piecewise, so the survivors keep their order. */
  lemma {:induction false} WithoutAppend<T>(a: seq<T>, b: seq<T>, key: T -> string, id: string)
    ensures Without(a + b, key, id) == Without(a, key, id) + Without(b, key, id)
  {
    if a == [] {
      assert a + b == b;
    } else {
      assert (a + b)[0] == a[0];
      assert (a + b)[1..] == a[1..] + b;
      WithoutAppend(a[1..], b, key, id);
    }
  }

  /** With no element carrying the id, nothing is removed. */
  lemma {:induction false} WithoutAbsent<T>(xs: seq<T>, key: T -> string, id: string)
    requires forall i :: 0 <= i < |xs| ==> key(xs[i]) != id
    ensures Without(xs, key, id) == xs
  {
    if xs != [] {
      WithoutAbsent(xs[1..], key, id);
    }
  }

  /** With exactly one element carrying the id, exactly that element is removed. */
  lemma {:induction false} WithoutUnique<T>(xs: seq<T>, key: T -> string, id: string, k: nat)
    requires k < |xs| && key(xs[k]) == id
    requires forall i :: 0 <= i < |xs| && i != k ==> key(xs[i]) != id
    ensures Without(xs, key, id) == xs[..k] + xs[k + 1..]
  {
    var tail := xs[1..];
    forall i | 0 <= i < |tail| && i != k - 1
      ensures key(tail[i]) != id
    {
      assert tail[i] == xs[i + 1];
    }
    if k == 0 {
      WithoutAbsent(tail, key, id);
      assert xs[..k] + xs[k + 1..] == tail;
    } else {
      WithoutUnique(tail, key, id, k - 1);
      assert xs[..k] + xs[k + 1..] == [xs[0]] + (tail[..k - 1] + tail[k..]);
    }
  }

  /** Filtering twice by the same id is filtering once. */
  lemma WithoutIdempotent<T>(xs: seq<T>, key: T -> string, id: string)
    ensures Without(Without(xs, key, id), key, id) == Without(xs, key, id)
  {
    var r := Without(xs, key, id);
    forall i | 0 <= i < |r| ensures key(r[i]) != id {
      WithoutMember(xs, key, id, r[i]);
    }
    WithoutAbsent(r, key, id);
  }

  // ---------------------------------------------------------------------------------------------
  // The four edits.

  function LegId(leg: Leg): string {
    leg.id
  }

  function StaffId(st: StaffingItem): string {
    st.id
  }

  /** The leg `addLeg` appends: no endpoints, an empty purpose and a fare of "0". */
  function BlankLeg(id: string): Leg {
    Leg(id, "", "", Some(""), "0")
  }

  /** `addLeg`. */
  function AddLeg(sc: Scenario, id: string): Scenario {
    sc.(routing := sc.routing.(legs := sc.routing.legs + [BlankLeg(id)]))
  }

  /** `rmLeg`. */
  function RmLeg(sc: Scenario, id: string): Scenario {
    sc.(routing := sc.routing.(legs := Without(sc.routing.legs, LegId, id)))
  }

  /** The role `addRole` appends: the default role renamed "Engineer". */
  function NewRole(id: string): StaffingItem {
    DefaultStaff(id).(role := "Engineer")
  }

  /** `addRole`. */
  function AddRole(sc: Scenario, id: string): Scenario {
    sc.(staffing := sc.staffing + [NewRole(id)])
  }

  /** `rmRole`. */
  function RmRole(sc: Scenario, id: string): Scenario {
    sc.(staffing := Without(sc.staffing, StaffId, id))
  }

  // ---------------------------------------------------------------------------------------------
  // What the edits do to the lists and to the totals.

  lemma AirfaresAppend(p: NumberParser, a: seq<Leg>, b: seq<Leg>)
    ensures Airfares(p, a + b) == Airfares(p, a) + Airfares(p, b)
  {
  }

  lemma RoleTotalsAppend(p: NumberParser, a: seq<StaffingItem>, b: seq<StaffingItem>)
    ensures RoleTotals(p, a + b) == RoleTotals(p, a) + RoleTotals(p, b)
  {
  }

  /**
   * Adding a leg appends exactly one leg, the blank one with the given id, after the earlier legs,
   * and changes nothing else; its fare of "0" leaves the airfare total, and so every total, as it was.
   */
  lemma AddLegKeepsTotals(p: NumberParser, sc: Scenario, id: string)
    requires FollowsJsNumber(p)
    ensures |AddLeg(sc, id).routing.legs| == |sc.routing.legs| + 1
    ensures AddLeg(sc, id).routing.legs[..|sc.routing.legs|] == sc.routing.legs
    ensures AddLeg(sc, id).routing.legs[|sc.routing.legs|] == Leg(id, "", "", Some(""), "0")
    ensures AddLeg(sc, id).routing.(legs := sc.routing.legs) == sc.routing
    ensures AddLeg(sc, id).(routing := sc.routing) == sc
    ensures AirfareTotal(p, AddLeg(sc, id).routing.legs) == AirfareTotal(p, sc.routing.legs)
    ensures Derive(p, AddLeg(sc, id)) == Derive(p, sc)
  {
    NumOfDigits(p, "0");
    AirfareTotalAppend(p, sc.routing.legs, BlankLeg(id));
  }

  /** Removing a leg keeps exactly the legs with another id, and changes nothing else. */
  lemma RmLegMembers(sc: Scenario, id: string)
    ensures forall leg :: leg in RmLeg(sc, id).routing.legs <==> leg in sc.routing.legs && leg.id != id
    ensures RmLeg(sc, id).routing.(legs := sc.routing.legs) == sc.routing
    ensures RmLeg(sc, id).(routing := sc.routing) == sc
    ensures RmLeg(RmLeg(sc, id), id) == RmLeg(sc, id)
  {
    WithoutMembers(sc.routing.legs, LegId, id);
    WithoutIdempotent(sc.routing.legs, LegId, id);
  }

  /**
   * Removing the one leg with a given id splices out that leg, keeping the others in order, and
   * takes exactly its fare off the airfare total.
   */
  lemma RmLegAirfare(p: NumberParser, sc: Scenario, id: string, k: nat)
    requires k < |sc.routing.legs| && sc.routing.legs[k].id == id
    requires forall i :: 0 <= i < |sc.routing.legs| && i != k ==> sc.routing.legs[i].id != id
    ensures RmLeg(sc, id).routing.legs == sc.routing.legs[..k] + sc.routing.legs[k + 1..]
    ensures AirfareTotal(p, RmLeg(sc, id).routing.legs)
            == AirfareTotal(p, sc.routing.legs) - Num(p, sc.routing.legs[k].airfare)
  {
    var legs := sc.routing.legs;
    WithoutUnique(legs, LegId, id, k);
    assert legs == legs[..k] + [legs[k]] + legs[k + 1..];
    AirfaresAppend(p, legs[..k], legs[k + 1..]);
    AirfaresAppend(p, legs[..k] + [legs[k]], legs[k + 1..]);
    AirfaresAppend(p, legs[..k], [legs[k]]);
    SumAppend(Airfares(p, legs[..k]), Airfares(p, legs[k + 1..]));
    SumAppend(Airfares(p, legs[..k]) + Airfares(p, [legs[k]]), Airfares(p, legs[k + 1..]));
    SumAppend(Airfares(p, legs[..k]), Airfares(p, [legs[k]]));
    AirfareTotalIsSum(p, legs);
    AirfareTotalIsSum(p, legs[..k] + legs[k + 1..]);
    assert Airfares(p, [legs[k]]) == [Num(p, legs[k].airfare)];
  }

  /** The new role bills 12000, whatever its name. */
  lemma NewRoleTotal(p: NumberParser, id: string)
    requires FollowsJsNumber(p)
    ensures RoleTotal(p, NewRole(id)) == 12000.0
    ensures NewRole(id).onsiteDays == 10.0
  {
    DefaultStaffTotal(p, id);
    assert RoleTotal(p, NewRole(id)) == RoleTotal(p, DefaultStaff(id));
  }

  /**
   * Adding a role appends exactly one role, the default role with the given id renamed "Engineer",
   * and changes nothing else; it raises the labour total by the 12000 that role bills and
   * lengthens the longest stay to at least its 10 days.
   */
  lemma AddRoleTotals(p: NumberParser, sc: Scenario, id: string)
    requires FollowsJsNumber(p)
    ensures |AddRole(sc, id).staffing| == |sc.staffing| + 1
    ensures AddRole(sc, id).staffing[..|sc.staffing|] == sc.staffing
    ensures AddRole(sc, id).staffing[|sc.staffing|] == DefaultStaff(id).(role := "Engineer")
    ensures AddRole(sc, id).(staffing := sc.staffing) == sc
    ensures LaborTotal(p, AddRole(sc, id).staffing) == LaborTotal(p, sc.staffing) + 12000.0
    ensures MaxDays(AddRole(sc, id).staffing) == Max(MaxDays(sc.staffing), 10.0)
  {
    NewRoleTotal(p, id);
    LaborTotalAppend(p, sc.staffing, NewRole(id));
    FoldMaxDaysAppend(0.0, sc.staffing, NewRole(id));
  }

  /**
   * Removing a role keeps exactly the roles with another id, changes nothing else, and never
   * lengthens the stay.
   */
  lemma RmRoleMembers(sc: Scenario, id: string)
    ensures forall st :: st in RmRole(sc, id).staffing <==> st in sc.staffing && st.id != id
    ensures RmRole(sc, id).(staffing := sc.staffing) == sc
    ensures RmRole(RmRole(sc, id), id) == RmRole(sc, id)
    ensures MaxDays(RmRole(sc, id).staffing) <= MaxDays(sc.staffing)
  {
    WithoutMembers(sc.staffing, StaffId, id);
    WithoutIdempotent(sc.staffing, StaffId, id);
    MaxDaysOfSublist(RmRole(sc, id).staffing, sc.staffing);
  }

  /**
   * Removing the one role with a given id splices out that role, keeping the others in order, and
   * takes exactly its total off the labour total.
   */
  lemma RmRoleLabor(p: NumberParser, sc: Scenario, id: string, k: nat)
    requires k < |sc.staffing| && sc.staffing[k].id == id
    requires forall i :: 0 <= i < |sc.staffing| && i != k ==> sc.staffing[i].id != id
    ensures RmRole(sc, id).staffing == sc.staffing[..k] + sc.staffing[k + 1..]
    ensures LaborTotal(p, RmRole(sc, id).staffing) == LaborTotal(p, sc.staffing) - RoleTotal(p, sc.staffing[k])
  {
    var staffing := sc.staffing;
    WithoutUnique(staffing, StaffId, id, k);
    assert staffing == staffing[..k] + [staffing[k]] + staffing[k + 1..];
    RoleTotalsAppend(p, staffing[..k], staffing[k + 1..]);
    RoleTotalsAppend(p, staffing[..k] + [staffing[k]], staffing[k + 1..]);
    RoleTotalsAppend(p, staffing[..k], [staffing[k]]);
    SumAppend(RoleTotals(p, staffing[..k]), RoleTotals(p, staffing[k + 1..]));
    SumAppend(RoleTotals(p, staffing[..k]) + RoleTotals(p, [staffing[k]]), RoleTotals(p, staffing[k + 1..]));
    SumAppend(RoleTotals(p, staffing[..k]), RoleTotals(p, [staffing[k]]));
    LaborTotalIsSum(p, staffing);
    LaborTotalIsSum(p, staffing[..k] + staffing[k + 1..]);
    assert RoleTotals(p, [staffing[k]]) == [RoleTotal(p, staffing[k])];
  }
}
