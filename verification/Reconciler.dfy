/**
 * The reporting script: for each account, build the account's two tallies,
 * print one table of (running, reserved, running - reserved) per zone and
 * instance type, and fold the account's tallies into the cross-account
 * totals; then print the consolidated table from the totals. A table is a
 * value here (`Report`); how it is printed is not modelled.
 */
module Reconciler {
  import opened Tallies
  import opened Ordering
  import opened Enumerators

  /** One (running, reserved, running - reserved) triple of a table row. */
  datatype Cell = Cell(running: int, reserved: int, difference: int)

  /** One table row: a zone and one cell per column. */
  datatype Row = Row(zone: string, cells: seq<Cell>)

  /** One table: the instance types of the header line and one row per zone. */
  datatype Report = Report(columns: seq<string>, rows: seq<Row>)

  /** An account of the configuration, with what each configured region returned for it. */
  datatype AccountRecords = AccountRecords(name: string, regions: seq<RegionRecords>)

  /** The cell a table shows for a running count and a reserved count. */
  function Expected(running: int, reserved: int): Cell
  {
    Cell(running, reserved, running - reserved)
  }

  function RowZones(rows: seq<Row>): seq<string>
  {
    seq(|rows|, i requires 0 <= i < |rows| => rows[i].zone)
  }

  /** The header is `sorted(types)`, the rows follow `sorted(zones)`, every row is as wide as the header. */
  ghost predicate LaidOut(report: Report, zones: set<string>, types: set<string>)
  {
    && IsSortedListing(report.columns, types)
    && IsSortedListing(RowZones(report.rows), zones)
    && forall i :: 0 <= i < |report.rows| ==> |report.rows[i].cells| == |report.columns|
  }

  /** Every cell shows the counts of the two tallies at its zone and type. */
  ghost predicate Shows(report: Report, running: Tally, reserved: Tally)
  {
    forall i, j :: 0 <= i < |report.rows| && 0 <= j < |report.rows[i].cells| && j < |report.columns| ==>
      report.rows[i].cells[j]
        == Expected(Lookup(running, report.rows[i].zone, report.columns[j]),
                    Lookup(reserved, report.rows[i].zone, report.columns[j]))
  }

  // ---------------------------------------------------------------------
  // Reference definitions over the accounts' records.
  // ---------------------------------------------------------------------

  /** The admitted instances of zone `az` and type `ty` over all `accounts`. */
  ghost function TotalAdmitted(accounts: seq<AccountRecords>, az: string, ty: string, ageFilter: int, now: int): int
  {
    if accounts == [] then 0
    else
      TotalAdmitted(accounts[..|accounts| - 1], az, ty, ageFilter, now)
        + AdmittedCount(AllInstances(accounts[|accounts| - 1].regions), az, ty, ageFilter, now)
  }

  /** The reserved instances of zone `az` and type `ty` over all `accounts`. */
  ghost function TotalReserved(accounts: seq<AccountRecords>, az: string, ty: string, offeringType: Option<string>): int
  {
    if accounts == [] then 0
    else
      TotalReserved(accounts[..|accounts| - 1], az, ty, offeringType)
        + ReservedCount(AllReservations(accounts[|accounts| - 1].regions), az, ty, offeringType)
  }

  /** Every zone that has an admitted instance or a counted reservation in one of `accounts`. */
  ghost function SeenZones(accounts: seq<AccountRecords>, ageFilter: int, offeringType: Option<string>, now: int): set<string>
  {
    if accounts == [] then {}
    else
      var regions := accounts[|accounts| - 1].regions;
      SeenZones(accounts[..|accounts| - 1], ageFilter, offeringType, now)
        + AdmittedZones(AllInstances(regions), ageFilter, now)
        + ReservedZones(AllReservations(regions), offeringType)
  }

  /** Every instance type that has an admitted instance or a counted reservation in one of `accounts`. */
  ghost function SeenTypes(accounts: seq<AccountRecords>, ageFilter: int, offeringType: Option<string>, now: int): set<string>
  {
    if accounts == [] then {}
    else
      var regions := accounts[|accounts| - 1].regions;
      SeenTypes(accounts[..|accounts| - 1], ageFilter, offeringType, now)
        + AdmittedTypes(AllInstances(regions), ageFilter, now)
        + ReservedTypes(AllReservations(regions), offeringType)
  }

  /** Every cell shows the totals over `accounts` at its zone and type. */
  ghost predicate ShowsTotals(report: Report, accounts: seq<AccountRecords>, ageFilter: int, offeringType: Option<string>, now: int)
  {
    forall i, j :: 0 <= i < |report.rows| && 0 <= j < |report.rows[i].cells| && j < |report.columns| ==>
      report.rows[i].cells[j]
        == Expected(TotalAdmitted(accounts, report.rows[i].zone, report.columns[j], ageFilter, now),
                    TotalReserved(accounts, report.rows[i].zone, report.columns[j], offeringType))
  }

  // ---------------------------------------------------------------------
  // The steps of the script.
  // ---------------------------------------------------------------------

  /**
   * The cells of one zone's row: the diff of the zone's running and reserved
   * counts decides the branch; a type in the diff shows its two counts (0
   * when missing) and its diff entry, any other type shows 0,0,0.
   */
  method ZoneCells(running: Tally, reserved: Tally, az: string, columns: seq<string>) returns (cells: seq<Cell>)
    ensures |cells| == |columns|
    ensures forall j :: 0 <= j < |columns| ==>
      cells[j] == Expected(Lookup(running, az, columns[j]), Lookup(reserved, az, columns[j]))
  {
    var runningZone := ZoneOf(running, az);
    var reservedZone := ZoneOf(reserved, az);
    var diff := DictDiff(runningZone, reservedZone);
    cells := [];
    for j := 0 to |columns|
      invariant |cells| == j
      invariant forall k :: 0 <= k < j ==>
        cells[k] == Expected(Get(runningZone, columns[k]), Get(reservedZone, columns[k]))
    {
      var ty := columns[j];
      if ty in diff {
        cells := cells + [Cell(Get(runningZone, ty), Get(reservedZone, ty), diff[ty])];
      } else {
        cells := cells + [Cell(0, 0, 0)];
      }
    }
  }

  /** One printed table: the header `sorted(types)`, then a row per zone of `sorted(zones)`. */
  method Render(running: Tally, reserved: Tally, zones: set<string>, types: set<string>) returns (report: Report)
    ensures LaidOut(report, zones, types)
    ensures Shows(report, running, reserved)
  {
    var columns := SortStrings(types);
    var order := SortStrings(zones);
    var rows: seq<Row> := [];
    for i := 0 to |order|
      invariant |rows| == i
      invariant forall k :: 0 <= k < i ==> rows[k].zone == order[k] && |rows[k].cells| == |columns|
      invariant forall k, j :: 0 <= k < i && 0 <= j < |columns| ==>
        rows[k].cells[j] == Expected(Lookup(running, order[k], columns[j]), Lookup(reserved, order[k], columns[j]))
    {
      var cells := ZoneCells(running, reserved, order[i], columns);
      rows := rows + [Row(order[i], cells)];
    }
    assert RowZones(rows) == order;
    report := Report(columns, rows);
  }

  /**
   * The `total[...]` update of the script for every zone seen so far: a
   * zone whose total is truthy (present and non-empty) gets the account's
   * counts added with `DictSum`, any other zone takes the account's counts
   * (`{}` when the account lacks the zone).
   */
  method FoldTotals(total: Tally, zones: set<string>, account: Tally) returns (updated: Tally)
    ensures updated.Keys == total.Keys + zones
    ensures forall az :: az in zones ==> updated[az] == Sum(ZoneOf(total, az), ZoneOf(account, az))
    ensures forall az :: az in total && az !in zones ==> updated[az] == total[az]
    ensures forall az, ty :: Lookup(updated, az, ty) == Lookup(total, az, ty) + (if az in zones then Lookup(account, az, ty) else 0)
  {
    updated := total;
    var pending := zones;
    while pending != {}
      invariant pending <= zones
      invariant updated.Keys == total.Keys + (zones - pending)
      invariant forall az :: az in zones && az !in pending ==> updated[az] == Sum(ZoneOf(total, az), ZoneOf(account, az))
      invariant forall az :: az in total && (az !in zones || az in pending) ==> updated[az] == total[az]
      decreases pending
    {
      var az :| az in pending;
      var accountZone := ZoneOf(account, az);
      if az in updated && updated[az] != map[] {
        var summed := DictSum(updated[az], accountZone);
        updated := updated[az := summed];
      } else {
        SumIdentity(accountZone);
        updated := updated[az := accountZone];
      }
      pending := pending - {az};
    }
    forall az, ty
      ensures Lookup(updated, az, ty) == Lookup(total, az, ty) + (if az in zones then Lookup(account, az, ty) else 0)
    {
      GetSumDiff(ZoneOf(total, az), ZoneOf(account, az), ty);
    }
  }

  /** `for types in t.itervalues(): instance_types |= set(types.keys())`. */
  method AddTypes(types: set<string>, t: Tally) returns (r: set<string>)
    ensures r == types + InnerKeys(t)
  {
    r := types;
    var pending := t.Keys;
    while pending != {}
      invariant pending <= t.Keys
      invariant r == types + (set az, ty | az in t && az !in pending && ty in t[az] :: ty)
      decreases pending
    {
      var az :| az in pending;
      ghost var done := set z, ty | z in t && z !in pending && ty in t[z] :: ty;
      ghost var done' := set z, ty | z in t && z !in pending - {az} && ty in t[z] :: ty;
      assert done' == done + t[az].Keys by {
        forall ty | ty in done'
          ensures ty in done + t[az].Keys
        {
          var z :| z in t && z !in pending - {az} && ty in t[z];
          if z != az {
            assert ty in done;
          }
        }
        forall ty | ty in t[az].Keys
          ensures ty in done'
        {
          assert az in t && az !in pending - {az} && ty in t[az];
        }
      }
      r := r + t[az].Keys;
      pending := pending - {az};
    }
  }

  /** The running and reserved totals hold, at every zone and type, the sums over `accounts`. */
  ghost predicate HoldsTotals(totalRunning: Tally, totalReserved: Tally, accounts: seq<AccountRecords>,
                              ageFilter: int, offeringType: Option<string>, now: int)
  {
    && (forall az, ty :: Lookup(totalRunning, az, ty) == TotalAdmitted(accounts, az, ty, ageFilter, now))
    && (forall az, ty :: Lookup(totalReserved, az, ty) == TotalReserved(accounts, az, ty, offeringType))
  }

  /**
   * The table printed for account `k`: laid out over the zones and types of
   * the accounts up to and including `k`, showing the counts of `k` alone.
   */
  ghost predicate AccountReport(report: Report, accounts: seq<AccountRecords>, k: nat,
                                ageFilter: int, offeringType: Option<string>, now: int)
    requires k < |accounts|
  {
    && LaidOut(report, SeenZones(accounts[..k + 1], ageFilter, offeringType, now),
                       SeenTypes(accounts[..k + 1], ageFilter, offeringType, now))
    && ShowsTotals(report, [accounts[k]], ageFilter, offeringType, now)
  }

  /**
   * The script: for each account, tally its regions, widen the zone and
   * type sets, print the account's table over the cumulative sets, and fold
   * the account into the totals; finally print the consolidated table.
   */
  method Audit(accounts: seq<AccountRecords>, ageFilter: int, offeringType: Option<string>, now: int)
    returns (reports: seq<Report>, consolidated: Report)
    ensures |reports| == |accounts|
    ensures forall k :: 0 <= k < |accounts| ==> AccountReport(reports[k], accounts, k, ageFilter, offeringType, now)
    ensures LaidOut(consolidated, SeenZones(accounts, ageFilter, offeringType, now),
                                  SeenTypes(accounts, ageFilter, offeringType, now))
    ensures ShowsTotals(consolidated, accounts, ageFilter, offeringType, now)
  {
    var totalRunning: Tally := map[];
    var totalReserved: Tally := map[];
    var zones: set<string> := {};
    var types: set<string> := {};
    reports := [];
    for a := 0 to |accounts|
      invariant |reports| == a
      invariant zones == SeenZones(accounts[..a], ageFilter, offeringType, now)
      invariant types == SeenTypes(accounts[..a], ageFilter, offeringType, now)
      invariant HoldsTotals(totalRunning, totalReserved, accounts[..a], ageFilter, offeringType, now)
      invariant forall k :: 0 <= k < a ==> AccountReport(reports[k], accounts, k, ageFilter, offeringType, now)
    {
      var conn := new AccountConnection(accounts[a].regions);
      var running := conn.GetInstances(ageFilter, now);
      var reserved := conn.GetReservations(offeringType);
      SeenStep(accounts, a, running, reserved, ageFilter, offeringType, now);
      zones := zones + running.Keys + reserved.Keys;
      types := AddTypes(types, running);
      types := AddTypes(types, reserved);
      var report := Render(running, reserved, zones, types);
      SingleAccount(accounts, a, running, reserved, report, ageFilter, offeringType, now);
      ReportsAppend(reports, report, accounts, a, ageFilter, offeringType, now);
      reports := reports + [report];
      var newRunning := FoldTotals(totalRunning, zones, running);
      var newReserved := FoldTotals(totalReserved, zones, reserved);
      TotalsStep(accounts, a, totalRunning, totalReserved, running, reserved, zones,
                 newRunning, newReserved, ageFilter, offeringType, now);
      totalRunning, totalReserved := newRunning, newReserved;
    }
    assert accounts[..|accounts|] == accounts;
    consolidated := Render(totalRunning, totalReserved, zones, types);
    ShowsHeldTotals(consolidated, totalRunning, totalReserved, accounts, ageFilter, offeringType, now);
  }

  // ---------------------------------------------------------------------
  // Lemmas used by the script and properties of the tables.
  // ---------------------------------------------------------------------

  /** Taking one more account widens the seen zones and types by that account's tallies. */
  lemma SeenStep(accounts: seq<AccountRecords>, a: nat, running: Tally, reserved: Tally,
                 ageFilter: int, offeringType: Option<string>, now: int)
    requires a < |accounts|
    requires IsInstanceTally(running, AllInstances(accounts[a].regions), ageFilter, now)
    requires IsReservationTally(reserved, AllReservations(accounts[a].regions), offeringType)
    ensures SeenZones(accounts[..a + 1], ageFilter, offeringType, now)
      == SeenZones(accounts[..a], ageFilter, offeringType, now) + running.Keys + reserved.Keys
    ensures SeenTypes(accounts[..a + 1], ageFilter, offeringType, now)
      == SeenTypes(accounts[..a], ageFilter, offeringType, now) + InnerKeys(running) + InnerKeys(reserved)
  {
    assert accounts[..a + 1][..a] == accounts[..a];
  }

  /** Folding one more account's tallies into the totals gives the totals over one more account. */
  lemma TotalsStep(accounts: seq<AccountRecords>, a: nat, totalRunning: Tally, totalReserved: Tally,
                   running: Tally, reserved: Tally, zones: set<string>, newRunning: Tally, newReserved: Tally,
                   ageFilter: int, offeringType: Option<string>, now: int)
    requires a < |accounts|
    requires HoldsTotals(totalRunning, totalReserved, accounts[..a], ageFilter, offeringType, now)
    requires IsInstanceTally(running, AllInstances(accounts[a].regions), ageFilter, now)
    requires IsReservationTally(reserved, AllReservations(accounts[a].regions), offeringType)
    requires running.Keys <= zones && reserved.Keys <= zones
    requires forall az, ty ::
               Lookup(newRunning, az, ty) == Lookup(totalRunning, az, ty) + (if az in zones then Lookup(running, az, ty) else 0)
    requires forall az, ty ::
               Lookup(newReserved, az, ty) == Lookup(totalReserved, az, ty) + (if az in zones then Lookup(reserved, az, ty) else 0)
    ensures HoldsTotals(newRunning, newReserved, accounts[..a + 1], ageFilter, offeringType, now)
  {
    assert accounts[..a + 1][..a] == accounts[..a];
    forall az, ty
      ensures Lookup(newRunning, az, ty) == TotalAdmitted(accounts[..a + 1], az, ty, ageFilter, now)
      ensures Lookup(newReserved, az, ty) == TotalReserved(accounts[..a + 1], az, ty, offeringType)
    {
      assert Lookup(running, az, ty) == AdmittedCount(AllInstances(accounts[a].regions), az, ty, ageFilter, now);
      assert Lookup(reserved, az, ty) == ReservedCount(AllReservations(accounts[a].regions), az, ty, offeringType);
    }
  }

  /** The table printed for account `a`, built from that account's tallies, is its `AccountReport`. */
  lemma SingleAccount(accounts: seq<AccountRecords>, a: nat, running: Tally, reserved: Tally, report: Report,
                      ageFilter: int, offeringType: Option<string>, now: int)
    requires a < |accounts|
    requires IsInstanceTally(running, AllInstances(accounts[a].regions), ageFilter, now)
    requires IsReservationTally(reserved, AllReservations(accounts[a].regions), offeringType)
    requires LaidOut(report, SeenZones(accounts[..a + 1], ageFilter, offeringType, now),
                             SeenTypes(accounts[..a + 1], ageFilter, offeringType, now))
    requires Shows(report, running, reserved)
    ensures AccountReport(report, accounts, a, ageFilter, offeringType, now)
  {
    var account := accounts[a];
    assert [account][..0] == [];
    forall i, j | 0 <= i < |report.rows| && 0 <= j < |report.rows[i].cells| && j < |report.columns|
      ensures report.rows[i].cells[j]
        == Expected(TotalAdmitted([account], report.rows[i].zone, report.columns[j], ageFilter, now),
                    TotalReserved([account], report.rows[i].zone, report.columns[j], offeringType))
    {
      var az, ty := report.rows[i].zone, report.columns[j];
      assert Lookup(running, az, ty) == AdmittedCount(AllInstances(account.regions), az, ty, ageFilter, now);
      assert Lookup(reserved, az, ty) == ReservedCount(AllReservations(account.regions), az, ty, offeringType);
    }
  }

  /** Appending account `a`'s table keeps every earlier account's table. */
  lemma ReportsAppend(reports: seq<Report>, report: Report, accounts: seq<AccountRecords>, a: nat,
                      ageFilter: int, offeringType: Option<string>, now: int)
    requires a < |accounts| && |reports| == a
    requires forall k :: 0 <= k < a ==> AccountReport(reports[k], accounts, k, ageFilter, offeringType, now)
    requires AccountReport(report, accounts, a, ageFilter, offeringType, now)
    ensures forall k :: 0 <= k < a + 1 ==> AccountReport((reports + [report])[k], accounts, k, ageFilter, offeringType, now)
  {
    forall k | 0 <= k < a + 1
      ensures AccountReport((reports + [report])[k], accounts, k, ageFilter, offeringType, now)
    {
      if k < a {
        assert (reports + [report])[k] == reports[k];
      }
    }
  }

  /** A table built from tallies that hold the totals shows the totals. */
  lemma ShowsHeldTotals(report: Report, totalRunning: Tally, totalReserved: Tally, accounts: seq<AccountRecords>,
                        ageFilter: int, offeringType: Option<string>, now: int)
    requires HoldsTotals(totalRunning, totalReserved, accounts, ageFilter, offeringType, now)
    requires Shows(report, totalRunning, totalReserved)
    ensures ShowsTotals(report, accounts, ageFilter, offeringType, now)
  {
    forall i, j | 0 <= i < |report.rows| && 0 <= j < |report.rows[i].cells| && j < |report.columns|
      ensures report.rows[i].cells[j]
        == Expected(TotalAdmitted(accounts, report.rows[i].zone, report.columns[j], ageFilter, now),
                    TotalReserved(accounts, report.rows[i].zone, report.columns[j], offeringType))
    {
      var az, ty := report.rows[i].zone, report.columns[j];
      assert Lookup(totalRunning, az, ty) == TotalAdmitted(accounts, az, ty, ageFilter, now);
      assert Lookup(totalReserved, az, ty) == TotalReserved(accounts, az, ty, offeringType);
    }
  }

  /** In every table, the third column is the first minus the second. */
  lemma DifferenceColumn(report: Report, running: Tally, reserved: Tally, i: nat, j: nat)
    requires Shows(report, running, reserved)
    requires i < |report.rows| && j < |report.rows[i].cells| && j < |report.columns|
    ensures report.rows[i].cells[j].difference == report.rows[i].cells[j].running - report.rows[i].cells[j].reserved
  {
    var az, ty := report.rows[i].zone, report.columns[j];
    assert report.rows[i].cells[j] == Expected(Lookup(running, az, ty), Lookup(reserved, az, ty));
  }

  /** The totals over two runs of accounts are the sums of the totals over each run. */
  lemma {:induction false} TotalsAppend(a: seq<AccountRecords>, b: seq<AccountRecords>, az: string, ty: string,
                                        ageFilter: int, offeringType: Option<string>, now: int)
    ensures TotalAdmitted(a + b, az, ty, ageFilter, now)
         == TotalAdmitted(a, az, ty, ageFilter, now) + TotalAdmitted(b, az, ty, ageFilter, now)
    ensures TotalReserved(a + b, az, ty, offeringType)
         == TotalReserved(a, az, ty, offeringType) + TotalReserved(b, az, ty, offeringType)
    decreases |b|
  {
    if b == [] {
      assert a + b == a;
    } else {
      var ab := a + b;
      assert ab[..|ab| - 1] == a + b[..|b| - 1];
      assert ab[|ab| - 1] == b[|b| - 1];
      TotalsAppend(a, b[..|b| - 1], az, ty, ageFilter, offeringType, now);
    }
  }

  /** The zones seen over two runs of accounts are those seen over either run. */
  lemma {:induction false} SeenZonesAppend(a: seq<AccountRecords>, b: seq<AccountRecords>,
                                           ageFilter: int, offeringType: Option<string>, now: int)
    ensures SeenZones(a + b, ageFilter, offeringType, now)
         == SeenZones(a, ageFilter, offeringType, now) + SeenZones(b, ageFilter, offeringType, now)
    decreases |b|
  {
    if b == [] {
      assert a + b == a;
    } else {
      var ab, last := a + b, b[..|b| - 1];
      var regions := b[|b| - 1].regions;
      var added := AdmittedZones(AllInstances(regions), ageFilter, now) + ReservedZones(AllReservations(regions), offeringType);
      assert ab[..|ab| - 1] == a + last;
      assert ab[|ab| - 1] == b[|b| - 1];
      assert SeenZones(ab, ageFilter, offeringType, now) == SeenZones(a + last, ageFilter, offeringType, now) + added;
      assert SeenZones(b, ageFilter, offeringType, now) == SeenZones(last, ageFilter, offeringType, now) + added;
      SeenZonesAppend(a, last, ageFilter, offeringType, now);
    }
  }

  /** The instance types seen over two runs of accounts are those seen over either run. */
  lemma {:induction false} SeenTypesAppend(a: seq<AccountRecords>, b: seq<AccountRecords>,
                                           ageFilter: int, offeringType: Option<string>, now: int)
    ensures SeenTypes(a + b, ageFilter, offeringType, now)
         == SeenTypes(a, ageFilter, offeringType, now) + SeenTypes(b, ageFilter, offeringType, now)
    decreases |b|
  {
    if b == [] {
      assert a + b == a;
    } else {
      var ab, last := a + b, b[..|b| - 1];
      var regions := b[|b| - 1].regions;
      var added := AdmittedTypes(AllInstances(regions), ageFilter, now) + ReservedTypes(AllReservations(regions), offeringType);
      assert ab[..|ab| - 1] == a + last;
      assert ab[|ab| - 1] == b[|b| - 1];
      assert SeenTypes(ab, ageFilter, offeringType, now) == SeenTypes(a + last, ageFilter, offeringType, now) + added;
      assert SeenTypes(b, ageFilter, offeringType, now) == SeenTypes(last, ageFilter, offeringType, now) + added;
      SeenTypesAppend(a, last, ageFilter, offeringType, now);
    }
  }

  /** Removing the last element of `a` and a copy of it from `b` keeps the two permutations of each other. */
  lemma RemoveMatching<T>(a: seq<T>, b: seq<T>, i: nat)
    requires multiset(a) == multiset(b) && a != []
    requires i < |b| && b[i] == a[|a| - 1]
    ensures multiset(a[..|a| - 1]) == multiset(b[..i] + b[i + 1..])
  {
    var x, rest, front, back := a[|a| - 1], a[..|a| - 1], b[..i], b[i + 1..];
    assert a == rest + [x];
    assert b == front + [x] + back;
    forall y
      ensures multiset(rest)[y] == multiset(front + back)[y]
    {
      assert multiset(a)[y] == multiset(rest)[y] + multiset{x}[y];
      assert multiset(b)[y] == multiset(front)[y] + multiset{x}[y] + multiset(back)[y];
    }
    assert multiset(rest) == multiset(front + back);
  }

  /** Moving one account to the end of the list does not change the totals. */
  lemma TotalsMoveLast(front: seq<AccountRecords>, x: AccountRecords, back: seq<AccountRecords>, az: string, ty: string,
                       ageFilter: int, offeringType: Option<string>, now: int)
    ensures TotalAdmitted(front + [x] + back, az, ty, ageFilter, now) == TotalAdmitted(front + back + [x], az, ty, ageFilter, now)
    ensures TotalReserved(front + [x] + back, az, ty, offeringType) == TotalReserved(front + back + [x], az, ty, offeringType)
  {
    TotalsAppend(front + [x], back, az, ty, ageFilter, offeringType, now);
    TotalsAppend(front, [x], az, ty, ageFilter, offeringType, now);
    TotalsAppend(front, back, az, ty, ageFilter, offeringType, now);
    TotalsAppend(front + back, [x], az, ty, ageFilter, offeringType, now);
  }

  /** Moving one account to the end of the list does not change the zones and types seen. */
  lemma SeenMoveLast(front: seq<AccountRecords>, x: AccountRecords, back: seq<AccountRecords>,
                     ageFilter: int, offeringType: Option<string>, now: int)
    ensures SeenZones(front + [x] + back, ageFilter, offeringType, now) == SeenZones(front + back + [x], ageFilter, offeringType, now)
    ensures SeenTypes(front + [x] + back, ageFilter, offeringType, now) == SeenTypes(front + back + [x], ageFilter, offeringType, now)
  {
    SeenZonesAppend(front + [x], back, ageFilter, offeringType, now);
    SeenZonesAppend(front, [x], ageFilter, offeringType, now);
    SeenZonesAppend(front, back, ageFilter, offeringType, now);
    SeenZonesAppend(front + back, [x], ageFilter, offeringType, now);
    SeenTypesAppend(front + [x], back, ageFilter, offeringType, now);
    SeenTypesAppend(front, [x], ageFilter, offeringType, now);
    SeenTypesAppend(front, back, ageFilter, offeringType, now);
    SeenTypesAppend(front + back, [x], ageFilter, offeringType, now);
  }

  /** Listing the same accounts in another order does not change the running totals. */
  lemma {:induction false} AdmittedPermuted(a: seq<AccountRecords>, b: seq<AccountRecords>, az: string, ty: string,
                                          ageFilter: int, offeringType: Option<string>, now: int)
    requires multiset(a) == multiset(b)
    ensures TotalAdmitted(a, az, ty, ageFilter, now) == TotalAdmitted(b, az, ty, ageFilter, now)
    decreases |a|
  {
    if a == [] {
      assert |b| == |multiset(b)| == 0;
    } else {
      var x, rest := a[|a| - 1], a[..|a| - 1];
      assert x in multiset(b);
      var i :| 0 <= i < |b| && b[i] == x;
      var front, back := b[..i], b[i + 1..];
      assert b == front + [x] + back;
      RemoveMatching(a, b, i);
      AdmittedPermuted(rest, front + back, az, ty, ageFilter, offeringType, now);
      TotalsMoveLast(front, x, back, az, ty, ageFilter, offeringType, now);
      var moved := front + back + [x];
      assert moved[..|moved| - 1] == front + back;
      assert TotalAdmitted(a, az, ty, ageFilter, now) == TotalAdmitted(rest, az, ty, ageFilter, now) + AdmittedCount(AllInstances(x.regions), az, ty, ageFilter, now);
      assert TotalAdmitted(moved, az, ty, ageFilter, now) == TotalAdmitted(front + back, az, ty, ageFilter, now) + AdmittedCount(AllInstances(x.regions), az, ty, ageFilter, now);
    }
  }

  /** Listing the same accounts in another order does not change the reserved totals. */
  lemma {:induction false} ReservedPermuted(a: seq<AccountRecords>, b: seq<AccountRecords>, az: string, ty: string,
                                          ageFilter: int, offeringType: Option<string>, now: int)
    requires multiset(a) == multiset(b)
    ensures TotalReserved(a, az, ty, offeringType) == TotalReserved(b, az, ty, offeringType)
    decreases |a|
  {
    if a == [] {
      assert |b| == |multiset(b)| == 0;
    } else {
      var x, rest := a[|a| - 1], a[..|a| - 1];
      assert x in multiset(b);
      var i :| 0 <= i < |b| && b[i] == x;
      var front, back := b[..i], b[i + 1..];
      assert b == front + [x] + back;
      RemoveMatching(a, b, i);
      ReservedPermuted(rest, front + back, az, ty, ageFilter, offeringType, now);
      TotalsMoveLast(front, x, back, az, ty, ageFilter, offeringType, now);
      var moved := front + back + [x];
      assert moved[..|moved| - 1] == front + back;
      assert TotalReserved(a, az, ty, offeringType) == TotalReserved(rest, az, ty, offeringType) + ReservedCount(AllReservations(x.regions), az, ty, offeringType);
      assert TotalReserved(moved, az, ty, offeringType) == TotalReserved(front + back, az, ty, offeringType) + ReservedCount(AllReservations(x.regions), az, ty, offeringType);
    }
  }

  /** Listing the same accounts in another order does not change the zones and types seen. */
  lemma {:induction false} SeenPermuted(a: seq<AccountRecords>, b: seq<AccountRecords>,
                                        ageFilter: int, offeringType: Option<string>, now: int)
    requires multiset(a) == multiset(b)
    ensures SeenZones(a, ageFilter, offeringType, now) == SeenZones(b, ageFilter, offeringType, now)
    ensures SeenTypes(a, ageFilter, offeringType, now) == SeenTypes(b, ageFilter, offeringType, now)
    decreases |a|
  {
    if a == [] {
      assert |b| == |multiset(b)| == 0;
    } else {
      var x, rest := a[|a| - 1], a[..|a| - 1];
      assert x in multiset(b);
      var i :| 0 <= i < |b| && b[i] == x;
      var front, back := b[..i], b[i + 1..];
      assert b == front + [x] + back;
      RemoveMatching(a, b, i);
      SeenPermuted(rest, front + back, ageFilter, offeringType, now);
      SeenMoveLast(front, x, back, ageFilter, offeringType, now);
      assert (front + back + [x])[..|front + back|] == front + back;
    }
  }

  /**
   * The consolidated table depends only on which accounts are configured,
   * not on their order: two tables meeting its contract for two orderings
   * of the same accounts are equal. (The per-account tables do depend on
   * the order, since each is laid out over the accounts seen so far.)
   */
  lemma ConsolidatedOrderIndependent(r1: Report, r2: Report, a: seq<AccountRecords>, b: seq<AccountRecords>,
                                     ageFilter: int, offeringType: Option<string>, now: int)
    requires multiset(a) == multiset(b)
    requires LaidOut(r1, SeenZones(a, ageFilter, offeringType, now), SeenTypes(a, ageFilter, offeringType, now))
    requires ShowsTotals(r1, a, ageFilter, offeringType, now)
    requires LaidOut(r2, SeenZones(b, ageFilter, offeringType, now), SeenTypes(b, ageFilter, offeringType, now))
    requires ShowsTotals(r2, b, ageFilter, offeringType, now)
    ensures r1 == r2
  {
    SeenPermuted(a, b, ageFilter, offeringType, now);
    SortedListingUnique(r1.columns, r2.columns, SeenTypes(a, ageFilter, offeringType, now));
    SortedListingUnique(RowZones(r1.rows), RowZones(r2.rows), SeenZones(a, ageFilter, offeringType, now));
    assert |r1.rows| == |RowZones(r1.rows)| == |RowZones(r2.rows)| == |r2.rows|;
    forall i | 0 <= i < |r1.rows|
      ensures r1.rows[i] == r2.rows[i]
    {
      assert r1.rows[i].zone == RowZones(r1.rows)[i] == RowZones(r2.rows)[i] == r2.rows[i].zone;
      forall j | 0 <= j < |r1.columns|
        ensures r1.rows[i].cells[j] == r2.rows[i].cells[j]
      {
        AdmittedPermuted(a, b, r1.rows[i].zone, r1.columns[j], ageFilter, offeringType, now);
        ReservedPermuted(a, b, r1.rows[i].zone, r1.columns[j], ageFilter, offeringType, now);
      }
    }
  }

  /**
   * The end-to-end example: one account, two regions; the first has two old
   * enough running m5.large in zone r1a and one active reservation of two
   * m5.large there, the second has nothing. The only zone and type are r1a
   * and m5.large, and the consolidated cell is 2, 2, 0.
   */
  lemma SingleZoneExample()
    ensures
      var old1 := Instance(Some("i-1"), "r1a", "m5.large", 0);
      var old2 := Instance(Some("i-2"), "r1a", "m5.large", 0);
      var purchase := Reservation("active", "All Upfront", "r1a", "m5.large", 2);
      var accounts := [AccountRecords("A", [RegionRecords([old1, old2], [purchase]), RegionRecords([], [])])];
      var now := 30 * SecondsPerDay;
      && SeenZones(accounts, 7, None, now) == {"r1a"}
      && SeenTypes(accounts, 7, None, now) == {"m5.large"}
      && Expected(TotalAdmitted(accounts, "r1a", "m5.large", 7, now),
                  TotalReserved(accounts, "r1a", "m5.large", None)) == Cell(2, 2, 0)
  {
    var old1 := Instance(Some("i-1"), "r1a", "m5.large", 0);
    var old2 := Instance(Some("i-2"), "r1a", "m5.large", 0);
    var purchase := Reservation("active", "All Upfront", "r1a", "m5.large", 2);
    var r1 := RegionRecords([old1, old2], [purchase]);
    var r2 := RegionRecords([], []);
    var accounts := [AccountRecords("A", [r1, r2])];
    var now := 30 * SecondsPerDay;
    assert accounts[..0] == [];
    assert [r1, r2][..1] == [r1] && [r1][..0] == [];
    assert AllInstances([r1]) == [old1, old2];
    assert AllInstances([r1, r2]) == [old1, old2];
    assert AllReservations([r1]) == [purchase];
    assert AllReservations([r1, r2]) == [purchase];
    assert [old1, old2][..1] == [old1] && [old1][..0] == [];
    assert [purchase][..0] == [];
    assert CheckInstance(old1, 7, now) && CheckInstance(old2, 7, now);
    assert AdmittedCount([old1], "r1a", "m5.large", 7, now) == 1;
    assert AdmittedZones([old1], 7, now) == {"r1a"};
    assert AdmittedTypes([old1], 7, now) == {"m5.large"};
    assert Counted(purchase, None);
    var instances := AllInstances(accounts[0].regions);
    var purchases := AllReservations(accounts[0].regions);
    assert AdmittedCount(instances, "r1a", "m5.large", 7, now) == 2;
    assert AdmittedZones(instances, 7, now) == {"r1a"};
    assert AdmittedTypes(instances, 7, now) == {"m5.large"};
    assert ReservedCount(purchases, "r1a", "m5.large", None) == 2;
    assert ReservedZones(purchases, None) == {"r1a"};
    assert ReservedTypes(purchases, None) == {"m5.large"};
    assert TotalAdmitted(accounts, "r1a", "m5.large", 7, now) == 2;
    assert TotalReserved(accounts, "r1a", "m5.large", None) == 2;
  }
}
