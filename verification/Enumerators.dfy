/**
 * The two enumerators of an account: the records a region returns, the
 * admission test for instances, the filter for reservations, and the
 * `EC2_Account_Connection` object whose `GetInstances` and
 * `GetReservations` group the records of every region into a tally.
 *
 * The records of each region are given as values (the provider calls that
 * fetch them are not part of this model); launch times and `now` are
 * integer timestamps in seconds.
 */
module Enumerators {
  import opened Tallies

  datatype Option<T> = None | Some(value: T)

  /** An instance as the provider reports it; `id` may be missing. */
  datatype Instance = Instance(id: Option<string>, placement: string, instanceType: string, launchTime: int)

  /** A purchased reservation as the provider reports it. */
  datatype Reservation = Reservation(
    state: string,
    offeringType: string,
    availabilityZone: string,
    instanceType: string,
    instanceCount: int)

  /** What one region's connection returns for the two queries. */
  datatype RegionRecords = RegionRecords(instances: seq<Instance>, reservations: seq<Reservation>)

  const SecondsPerDay: int := 86400

  /** `now + timedelta(days=-age_filter)`: the latest launch time that is still too recent. */
  function Cutoff(now: int, ageFilter: int): (cutoff: int)
    ensures now - cutoff == ageFilter * SecondsPerDay
    ensures ageFilter >= 0 ==> cutoff <= now
  {
    now + (-ageFilter) * SecondsPerDay
  }

  /** `_check_instance`: a real instance (non-empty id) launched strictly before the cutoff. */
  predicate CheckInstance(inst: Instance, ageFilter: int, now: int): (admitted: bool)
    ensures admitted ==> inst.id.Some? && inst.id.value != ""
    ensures admitted <==> inst.id != None && inst.id != Some("") && inst.launchTime < Cutoff(now, ageFilter)
  {
    if inst.id.None? || inst.id.value == "" then false
    else inst.launchTime < Cutoff(now, ageFilter)
  }

  /** The offering-type filter applies only when it is given and non-empty (Python truthiness). */
  predicate OfferingFilterOn(offeringType: Option<string>): (on: bool)
    ensures on <==> offeringType != None && offeringType != Some("")
  {
    offeringType.Some? && offeringType.value != ""
  }

  /** A reservation that passes both `continue` tests of `get_reservations`. */
  predicate Counted(r: Reservation, offeringType: Option<string>): (counted: bool)
    ensures counted ==> r.state == "active"
    ensures offeringType == None || offeringType == Some("") ==> (counted <==> r.state == "active")
    ensures offeringType == Some(r.offeringType) ==> (counted <==> r.state == "active")
    ensures offeringType.Some? && offeringType.value != "" && offeringType.value != r.offeringType ==> !counted
  {
    r.state == "active" && !(OfferingFilterOn(offeringType) && r.offeringType != offeringType.value)
  }

  // ---------------------------------------------------------------------
  // Reference definitions: what the grouping loops must produce.
  // ---------------------------------------------------------------------

  /** The instance records of all regions, region after region. */
  function AllInstances(regions: seq<RegionRecords>): seq<Instance>
  {
    if regions == [] then [] else AllInstances(regions[..|regions| - 1]) + regions[|regions| - 1].instances
  }

  /** The reservation records of all regions, region after region. */
  function AllReservations(regions: seq<RegionRecords>): seq<Reservation>
  {
    if regions == [] then [] else AllReservations(regions[..|regions| - 1]) + regions[|regions| - 1].reservations
  }

  lemma AllInstancesStep(regions: seq<RegionRecords>, i: nat)
    requires i < |regions|
    ensures AllInstances(regions[..i + 1]) == AllInstances(regions[..i]) + regions[i].instances
  {
    assert regions[..i + 1][..i] == regions[..i];
  }

  lemma AllReservationsStep(regions: seq<RegionRecords>, i: nat)
    requires i < |regions|
    ensures AllReservations(regions[..i + 1]) == AllReservations(regions[..i]) + regions[i].reservations
  {
    assert regions[..i + 1][..i] == regions[..i];
  }

  /** The number of admitted instances in `s` placed in `az` with type `ty`. */
  function AdmittedCount(s: seq<Instance>, az: string, ty: string, ageFilter: int, now: int): nat
  {
    if s == [] then 0
    else
      var i := s[|s| - 1];
      AdmittedCount(s[..|s| - 1], az, ty, ageFilter, now)
        + (if CheckInstance(i, ageFilter, now) && i.placement == az && i.instanceType == ty then 1 else 0)
  }

  /** The zones of the admitted instances in `s`. */
  function AdmittedZones(s: seq<Instance>, ageFilter: int, now: int): set<string>
  {
    if s == [] then {}
    else
      var i := s[|s| - 1];
      AdmittedZones(s[..|s| - 1], ageFilter, now) + (if CheckInstance(i, ageFilter, now) then {i.placement} else {})
  }

  /** The instance types of the admitted instances in `s`. */
  function AdmittedTypes(s: seq<Instance>, ageFilter: int, now: int): set<string>
  {
    if s == [] then {}
    else
      var i := s[|s| - 1];
      AdmittedTypes(s[..|s| - 1], ageFilter, now) + (if CheckInstance(i, ageFilter, now) then {i.instanceType} else {})
  }

  /** The purchased instances of the counted reservations in `s` for zone `az` and type `ty`. */
  function ReservedCount(s: seq<Reservation>, az: string, ty: string, offeringType: Option<string>): int
  {
    if s == [] then 0
    else
      var r := s[|s| - 1];
      ReservedCount(s[..|s| - 1], az, ty, offeringType)
        + (if Counted(r, offeringType) && r.availabilityZone == az && r.instanceType == ty then r.instanceCount else 0)
  }

  /** Some counted reservation in `s` is for zone `az` and type `ty`. */
  predicate Contributes(s: seq<Reservation>, az: string, ty: string, offeringType: Option<string>)
  {
    if s == [] then false
    else
      var r := s[|s| - 1];
      Contributes(s[..|s| - 1], az, ty, offeringType)
        || (Counted(r, offeringType) && r.availabilityZone == az && r.instanceType == ty)
  }

  /** The zones of the counted reservations in `s`. */
  function ReservedZones(s: seq<Reservation>, offeringType: Option<string>): set<string>
  {
    if s == [] then {}
    else
      var r := s[|s| - 1];
      ReservedZones(s[..|s| - 1], offeringType) + (if Counted(r, offeringType) then {r.availabilityZone} else {})
  }

  /** The instance types of the counted reservations in `s`. */
  function ReservedTypes(s: seq<Reservation>, offeringType: Option<string>): set<string>
  {
    if s == [] then {}
    else
      var r := s[|s| - 1];
      ReservedTypes(s[..|s| - 1], offeringType) + (if Counted(r, offeringType) then {r.instanceType} else {})
  }

  /**
   * `t` is the grouping of the admitted instances of `s`: one zone per zone
   * with an admitted instance, each cell the number of such instances, no
   * empty zone and no count below 1.
   */
  ghost predicate IsInstanceTally(t: Tally, s: seq<Instance>, ageFilter: int, now: int)
  {
    && t.Keys == AdmittedZones(s, ageFilter, now)
    && InnerKeys(t) == AdmittedTypes(s, ageFilter, now)
    && (forall az, ty :: Lookup(t, az, ty) == AdmittedCount(s, az, ty, ageFilter, now))
    && (forall az :: az in t ==> t[az] != map[])
    && (forall az, ty :: az in t && ty in t[az] ==> t[az][ty] >= 1)
  }

  /**
   * `t` is the grouping of the counted reservations of `s`: a cell exists
   * exactly where some counted reservation is, and holds the sum of their
   * purchased instance counts; no zone is empty.
   */
  ghost predicate IsReservationTally(t: Tally, s: seq<Reservation>, offeringType: Option<string>)
  {
    && t.Keys == ReservedZones(s, offeringType)
    && InnerKeys(t) == ReservedTypes(s, offeringType)
    && (forall az, ty :: Lookup(t, az, ty) == ReservedCount(s, az, ty, offeringType))
    && (forall az, ty :: (az in t && ty in t[az]) <==> Contributes(s, az, ty, offeringType))
    && (forall az :: az in t ==> t[az] != map[])
  }

  // ---------------------------------------------------------------------
  // The account object.
  // ---------------------------------------------------------------------

  /**
   * `EC2_Account_Connection`: one entry of `regions` per regional
   * connection; `instances` and `reservations` hold the last tallies built.
   */
  class AccountConnection {
    const regions: seq<RegionRecords>
    var instances: Tally
    var reservations: Tally

    constructor (regions: seq<RegionRecords>)
      ensures this.regions == regions
      ensures instances == map[] && reservations == map[]
    {
      this.regions := regions;
      instances := map[];
      reservations := map[];
    }

    /** `get_instances`: group the admitted instances of every region by zone and type. */
    method GetInstances(ageFilter: int, now: int) returns (result: Tally)
      modifies this`instances
      ensures IsInstanceTally(result, AllInstances(regions), ageFilter, now)
      ensures instances == result
    {
      var tally: Tally := map[];
      ghost var seen: seq<Instance> := [];
      for i := 0 to |regions|
        invariant seen == AllInstances(regions[..i])
        invariant IsInstanceTally(tally, seen, ageFilter, now)
      {
        var batch := regions[i].instances;
        ghost var start := seen;
        for j := 0 to |batch|
          invariant seen == start + batch[..j]
          invariant IsInstanceTally(tally, seen, ageFilter, now)
        {
          var inst := batch[j];
          assert batch[..j + 1] == batch[..j] + [inst];
          ghost var before := tally;
          if CheckInstance(inst, ageFilter, now) {
            tally := Increment(tally, inst.placement, inst.instanceType, 1);
          }
          InstanceStep(before, seen, inst, ageFilter, now, tally);
          seen := seen + [inst];
        }
        assert batch[..|batch|] == batch;
        AllInstancesStep(regions, i);
      }
      assert regions[..|regions|] == regions;
      instances := tally;
      result := tally;
    }

    /** `get_reservations`: sum the purchased counts of the counted reservations by zone and type. */
    method GetReservations(offeringType: Option<string>) returns (result: Tally)
      modifies this`reservations
      ensures IsReservationTally(result, AllReservations(regions), offeringType)
      ensures reservations == result
    {
      var tally: Tally := map[];
      ghost var seen: seq<Reservation> := [];
      for i := 0 to |regions|
        invariant seen == AllReservations(regions[..i])
        invariant IsReservationTally(tally, seen, offeringType)
      {
        var batch := regions[i].reservations;
        ghost var start := seen;
        for j := 0 to |batch|
          invariant seen == start + batch[..j]
          invariant IsReservationTally(tally, seen, offeringType)
        {
          var r := batch[j];
          assert batch[..j + 1] == batch[..j] + [r];
          ghost var before := tally;
          if r.state != "active" {
            // an inactive reservation is skipped
          } else if OfferingFilterOn(offeringType) && r.offeringType != offeringType.value {
            // so is one of another offering type, when a filter is given
          } else {
            tally := Increment(tally, r.availabilityZone, r.instanceType, r.instanceCount);
          }
          ReservationStep(before, seen, r, offeringType, tally);
          seen := seen + [r];
        }
        assert batch[..|batch|] == batch;
        AllReservationsStep(regions, i);
      }
      assert regions[..|regions|] == regions;
      reservations := tally;
      result := tally;
    }
  }

  // ---------------------------------------------------------------------
  // One step of the grouping loops.
  // ---------------------------------------------------------------------

  /** `t` with `n` added to the cell (`az`, `ty`), creating the zone and the cell as needed. */
  function Bumped(t: Tally, az: string, ty: string, n: int): Tally
  {
    t[az := ZoneOf(t, az)[ty := Lookup(t, az, ty) + n]]
  }

  /**
   * The nested update shared by both grouping loops: add to the cell if the
   * zone and the cell are truthy (present and non-empty, present and
   * non-zero), otherwise store the amount, creating the zone if needed.
   * Whatever branch is taken, the cell ends up `n` higher.
   */
  method Increment(t: Tally, az: string, ty: string, n: int) returns (u: Tally)
    ensures u == Bumped(t, az, ty, n)
    ensures forall a, y :: Lookup(u, a, y) == Lookup(t, a, y) + (if a == az && y == ty then n else 0)
  {
    if az in t && t[az] != map[] {
      if ty in t[az] && t[az][ty] != 0 {
        u := t[az := t[az][ty := t[az][ty] + n]];
      } else {
        u := t[az := t[az][ty := n]];
      }
    } else {
      u := t[az := map[ty := n]];
    }
  }

  /** Bumping a cell adds its type, and nothing else, to the types of the tally. */
  lemma BumpedInnerKeys(t: Tally, az: string, ty: string, n: int)
    ensures InnerKeys(Bumped(t, az, ty, n)) == InnerKeys(t) + {ty}
  {
    var m := ZoneOf(t, az)[ty := Lookup(t, az, ty) + n];
    InnerKeysUpdate(t, az, m);
    forall y | y in ZoneOf(t, az)
      ensures y in InnerKeys(t)
    {
      assert az in t && y in t[az];
    }
  }

  /** One record of the instance loop: admitted ones bump their cell, the others change nothing. */
  lemma InstanceStep(t: Tally, s: seq<Instance>, inst: Instance, ageFilter: int, now: int, t': Tally)
    requires IsInstanceTally(t, s, ageFilter, now)
    requires t' == if CheckInstance(inst, ageFilter, now) then Bumped(t, inst.placement, inst.instanceType, 1) else t
    ensures IsInstanceTally(t', s + [inst], ageFilter, now)
  {
    var s' := s + [inst];
    assert s'[..|s'| - 1] == s;
    if CheckInstance(inst, ageFilter, now) {
      BumpedInnerKeys(t, inst.placement, inst.instanceType, 1);
    }
  }

  /** One record of the reservation loop: counted ones bump their cell, the others change nothing. */
  lemma ReservationStep(t: Tally, s: seq<Reservation>, r: Reservation, offeringType: Option<string>, t': Tally)
    requires IsReservationTally(t, s, offeringType)
    requires t' == if Counted(r, offeringType) then Bumped(t, r.availabilityZone, r.instanceType, r.instanceCount) else t
    ensures IsReservationTally(t', s + [r], offeringType)
  {
    var s' := s + [r];
    assert s'[..|s'| - 1] == s;
    if Counted(r, offeringType) {
      var az, ty, n := r.availabilityZone, r.instanceType, r.instanceCount;
      ReserveStepCells(t, s, r, offeringType);
      assert t'.Keys == ReservedZones(s', offeringType);
      BumpedInnerKeys(t, az, ty, n);
    }
  }

  lemma ReserveStepCells(t: Tally, s: seq<Reservation>, r: Reservation, offeringType: Option<string>)
    requires forall az, ty :: Lookup(t, az, ty) == ReservedCount(s, az, ty, offeringType)
    requires forall az, ty :: (az in t && ty in t[az]) <==> Contributes(s, az, ty, offeringType)
    requires Counted(r, offeringType)
    ensures forall az, ty ::
      Lookup(Bumped(t, r.availabilityZone, r.instanceType, r.instanceCount), az, ty) == ReservedCount(s + [r], az, ty, offeringType)
    ensures forall az, ty ::
      var u := Bumped(t, r.availabilityZone, r.instanceType, r.instanceCount);
      (az in u && ty in u[az]) <==> Contributes(s + [r], az, ty, offeringType)
  {
    var s' := s + [r];
    assert s'[..|s'| - 1] == s;
  }

  // ---------------------------------------------------------------------
  // Properties of the admission test and of the reference definitions.
  // ---------------------------------------------------------------------

  /** An instance without an id, or with an empty one, is never admitted. */
  lemma MissingIdRejected(inst: Instance, ageFilter: int, now: int)
    requires inst.id == None || inst.id == Some("")
    ensures !CheckInstance(inst, ageFilter, now)
  {
  }

  /** The age test is strict: an instance launched exactly `age_filter` days ago is not admitted. */
  lemma AgeBoundaryExcluded(inst: Instance, ageFilter: int, now: int)
    requires inst.launchTime == now - ageFilter * SecondsPerDay
    ensures !CheckInstance(inst, ageFilter, now)
  {
  }

  /** A real instance is admitted exactly when it is more than `age_filter` days old at `now`. */
  lemma AdmittedIffOldEnough(inst: Instance, ageFilter: int, now: int)
    requires inst.id.Some? && inst.id.value != ""
    ensures CheckInstance(inst, ageFilter, now) <==> now - inst.launchTime > ageFilter * SecondsPerDay
  {
  }

  /** With no age filter, every instance with an id launched before `now` is admitted. */
  lemma ZeroAgeAdmitsEarlier(inst: Instance, now: int)
    requires inst.id.Some? && inst.id.value != ""
    ensures CheckInstance(inst, 0, now) <==> inst.launchTime < now
  {
  }

  /** Raising the age filter can only reject more instances. */
  lemma AgeFilterMonotone(inst: Instance, lower: int, higher: int, now: int)
    requires lower <= higher
    requires CheckInstance(inst, higher, now)
    ensures CheckInstance(inst, lower, now)
  {
  }

  lemma {:induction false} AdmittedCountAppend(s1: seq<Instance>, s2: seq<Instance>, az: string, ty: string, ageFilter: int, now: int)
    ensures AdmittedCount(s1 + s2, az, ty, ageFilter, now)
         == AdmittedCount(s1, az, ty, ageFilter, now) + AdmittedCount(s2, az, ty, ageFilter, now)
    decreases |s2|
  {
    if s2 == [] {
      assert s1 + s2 == s1;
    } else {
      var s := s1 + s2;
      assert s[..|s| - 1] == s1 + s2[..|s2| - 1];
      AdmittedCountAppend(s1, s2[..|s2| - 1], az, ty, ageFilter, now);
    }
  }

  /** An instance that fails the admission test adds nothing, wherever it stands among the records. */
  lemma RejectedInstanceIgnored(s1: seq<Instance>, inst: Instance, s2: seq<Instance>, az: string, ty: string, ageFilter: int, now: int)
    requires !CheckInstance(inst, ageFilter, now)
    ensures AdmittedCount(s1 + [inst] + s2, az, ty, ageFilter, now) == AdmittedCount(s1 + s2, az, ty, ageFilter, now)
  {
    AdmittedCountAppend(s1 + [inst], s2, az, ty, ageFilter, now);
    AdmittedCountAppend(s1, [inst], az, ty, ageFilter, now);
    AdmittedCountAppend(s1, s2, az, ty, ageFilter, now);
    assert [inst][..0] == [];
  }

  lemma {:induction false} ReservedCountAppend(s1: seq<Reservation>, s2: seq<Reservation>, az: string, ty: string, offeringType: Option<string>)
    ensures ReservedCount(s1 + s2, az, ty, offeringType)
         == ReservedCount(s1, az, ty, offeringType) + ReservedCount(s2, az, ty, offeringType)
    decreases |s2|
  {
    if s2 == [] {
      assert s1 + s2 == s1;
    } else {
      var s := s1 + s2;
      assert s[..|s| - 1] == s1 + s2[..|s2| - 1];
      ReservedCountAppend(s1, s2[..|s2| - 1], az, ty, offeringType);
    }
  }

  lemma {:induction false} ContributesAppend(s1: seq<Reservation>, s2: seq<Reservation>, az: string, ty: string, offeringType: Option<string>)
    ensures Contributes(s1 + s2, az, ty, offeringType)
        <==> Contributes(s1, az, ty, offeringType) || Contributes(s2, az, ty, offeringType)
    decreases |s2|
  {
    if s2 == [] {
      assert s1 + s2 == s1;
    } else {
      var s := s1 + s2;
      assert s[..|s| - 1] == s1 + s2[..|s2| - 1];
      ContributesAppend(s1, s2[..|s2| - 1], az, ty, offeringType);
    }
  }

  /**
   * A reservation that is not active, or whose offering type differs from a
   * given filter, adds nothing and creates no cell, wherever it stands.
   */
  lemma UncountedReservationIgnored(s1: seq<Reservation>, r: Reservation, s2: seq<Reservation>, az: string, ty: string, offeringType: Option<string>)
    requires r.state != "active" || (OfferingFilterOn(offeringType) && r.offeringType != offeringType.value)
    ensures ReservedCount(s1 + [r] + s2, az, ty, offeringType) == ReservedCount(s1 + s2, az, ty, offeringType)
    ensures Contributes(s1 + [r] + s2, az, ty, offeringType) <==> Contributes(s1 + s2, az, ty, offeringType)
  {
    ReservedCountAppend(s1 + [r], s2, az, ty, offeringType);
    ReservedCountAppend(s1, [r], az, ty, offeringType);
    ReservedCountAppend(s1, s2, az, ty, offeringType);
    ContributesAppend(s1 + [r], s2, az, ty, offeringType);
    ContributesAppend(s1, [r], az, ty, offeringType);
    ContributesAppend(s1, s2, az, ty, offeringType);
    assert [r][..0] == [];
  }

  /** Two active purchases of 3 and 4 instances in the same zone and type make one cell of 7. */
  lemma PurchasesAccumulate()
    ensures ReservedCount(
              [ Reservation("active", "Heavy Utilization", "us-east-1a", "m1.large", 3),
                Reservation("active", "Heavy Utilization", "us-east-1a", "m1.large", 4) ],
              "us-east-1a", "m1.large", Some("Heavy Utilization")) == 7
  {
    var s := [ Reservation("active", "Heavy Utilization", "us-east-1a", "m1.large", 3),
               Reservation("active", "Heavy Utilization", "us-east-1a", "m1.large", 4) ];
    assert s[..1][..0] == [];
  }
}
