# Reservationist tally-and-reconcile model

Reservationist compares the EC2 instances an account is running with the
reserved instances it has bought. It works zone by zone and instance type by
instance type. For each configured account, the script does five things:

1. It connects to every configured region.
2. It builds two tallies (availability zone → instance type → count):
   - the running instances old enough to count;
   - the active reservations, optionally of one offering type only.
3. It widens the running sets of zones and instance types seen so far.
4. It prints a table with one (running, reserved, running − reserved) triple
   per zone and type.
5. It folds the account's per-zone counts into cross-account totals.

After the last account it prints the same table for the totals.

This project models that logic in Dafny:

- `Ordering.dfy`: Python's `sorted()` over a set of strings. This is
  lexicographic order by code point. It is modelled by a selection sort,
  plus a proof that a set has exactly one strictly ascending listing.
- `Tallies.dfy`:
  - count maps, with a missing key read as 0;
  - `dict_sum` and `dict_diff` as methods looping over the second map;
  - `Sum` and `Diff` as their reference definitions.
- `Enumerators.dfy`:
  - the instance and reservation records;
  - the admission test `_check_instance`;
  - the `EC2_Account_Connection` class, whose two grouping methods update
    `instances` and `reservations` in place. Each is proved against a
    reference definition computed from the records of all regions.
- `Reconciler.dfy`:
  - the rows of a table;
  - the fold into the totals;
  - the account loop of the script, with its cumulative zone and type sets;
  - the consolidated table.

Tables are values (`Report`): a header of instance types and one row of cells
per zone. Printing them is not modelled.

Conventions:

- Timestamps are integer seconds. `timedelta(days=-n)` is `-n * 86400`
  seconds.
- `now` is a parameter.
- The records each region returns are given as values.
- Maps are Dafny values. So `dict_sum` and `dict_diff` cannot change their
  arguments, which matches the script: it copies `d1` first and never
  writes `d2`.

The source's truthiness tests are kept as written, and the proofs show they
give the arithmetic result:

- `result.get(k)`, `_result.get(_az)` and `_result[_az].get(_type)` are false
  for a stored 0 or an empty map.
- `offeringType` is false when it is `None` or `""`.
- `not instance.id` is true when the id is missing or empty.
- `total[...].get(az)` is false for an empty zone map.

## Model

| member | source | states |
|---|---|---|
| Tallies.DictSum | reservationist/reservationist.py:103-117 | The result's keys are the union of both key sets. Each value is `d1.get(k, 0) + d2.get(k, 0)`. The result equals the reference `Sum`, whichever truthiness branch each key takes. |
| Tallies.DictDiff | reservationist/reservationist.py:119-133 | The result's keys are the union of both key sets. Each value is `d1.get(k, 0) - d2.get(k, 0)`, so a key found only in `d2` gets the negated count. The result equals the reference `Diff`. |
| Tallies.SumExample | reservationist/reservationist.py:104-110 | The documented example: `{a:1,b:2}` summed with `{a:3,c:5}` is `{a:4,b:2,c:5}`. |
| Tallies.DiffExample | reservationist/reservationist.py:120-126 | The documented example: `{a:1,b:2}` minus `{a:3,c:5}` is `{a:-2,b:2,c:-5}`. |
| Tallies.GetSumDiff | reservationist/reservationist.py:111-116 | Reading a sum or a difference at any key, present or not, gives the sum or difference of the two reads with missing as 0. |
| Tallies.SumCommutative | reservationist/reservationist.py:103-117 | The key-wise sum does not depend on operand order. |
| Tallies.SumAssociative | reservationist/reservationist.py:103-117 | The key-wise sum is associative, so folding accounts one at a time gives the sum over all of them. |
| Tallies.SumIdentity | reservationist/reservationist.py:176-179 | The empty map is neutral on both sides. So storing an account's zone map when the total is empty or missing is the same as summing. |
| Tallies.DiffSelf | reservationist/reservationist.py:119-133 | `dict_diff(x, x)` keeps every key of `x`, each with count 0. |
| Tallies.DiffAntisymmetric | reservationist/reservationist.py:119-133 | Swapping the operands of `dict_diff` keeps the keys and negates every count. |
| Ordering.SortStrings | reservationist/reservationist.py:151-152 | The result lists every element of the set once, in strictly ascending lexicographic order. |
| Ordering.SortedListingUnique | reservationist/reservationist.py:151-152 | A set has only one strictly ascending listing. So `SortStrings` yields exactly Python's `sorted()`. |
| Ordering.LeastExists | reservationist/reservationist.py:151-152 | Every non-empty set of strings has a least element under the order `sorted()` uses. |
| Enumerators.AccountConnection.constructor | reservationist/reservationist.py:13-17 | The object holds one entry per regional connection. Its two tallies start empty only because Dafny fields must be initialized: `__init__` creates no `instances` or `reservations` attribute, and only `get_instances` and `get_reservations` set them (lines 56 and 100). |
| Enumerators.Cutoff | reservationist/reservationist.py:64 | The cutoff `now + timedelta(days=-age_filter)` lies exactly `age_filter` days before `now`, and not after `now` when the filter is non-negative. |
| Enumerators.CheckInstance | reservationist/reservationist.py:59-66 | An instance is admitted exactly when its id is present and non-empty and its launch time is strictly before the cutoff. An admitted instance always has a non-empty id. |
| Enumerators.OfferingFilterOn | reservationist/reservationist.py:87 | The offering filter is on exactly when the configured offering type is present and not empty. |
| Enumerators.Counted | reservationist/reservationist.py:84-88 | A counted reservation is always active. With no filter, or a filter equal to its offering type, a reservation is counted exactly when it is active. A non-empty filter naming a different offering type excludes it. |
| Enumerators.AccountConnection.GetInstances | reservationist/reservationist.py:28-57 | For every zone and type, the result counts the admitted instances of all regions with that placement and type. Zones and types are exactly those of admitted instances. No zone is empty and every stored count is at least 1. The result is also stored in `instances`. |
| Enumerators.AccountConnection.GetReservations | reservationist/reservationist.py:68-101 | For every zone and type, the result is the sum of `instance_count` over the active reservations that pass the offering filter. A cell exists exactly where such a reservation exists, and no zone is empty. The result is also stored in `reservations`. |
| Enumerators.Increment | reservationist/reservationist.py:91-99 | Each of the three truthiness branches of the nested update raises exactly the one cell `(az, type)` by the amount and leaves every other cell unchanged. |
| Enumerators.InstanceStep | reservationist/reservationist.py:46-55 | One instance keeps the grouping invariant: an admitted instance adds 1 to its cell, a rejected one changes nothing. |
| Enumerators.ReservationStep | reservationist/reservationist.py:83-99 | One reservation keeps the grouping invariant: a counted reservation adds its `instance_count` to its cell, any other changes nothing. |
| Enumerators.MissingIdRejected | reservationist/reservationist.py:60-61 | An instance with a missing or empty id is never admitted. |
| Enumerators.AdmittedIffOldEnough | reservationist/reservationist.py:59-66 | An instance with an id is admitted exactly when it is more than `age_filter` days old at `now`. |
| Enumerators.AgeBoundaryExcluded | reservationist/reservationist.py:64-66 | The comparison is strict: an instance launched exactly `age_filter` days before `now` is not admitted. |
| Enumerators.ZeroAgeAdmitsEarlier | reservationist/reservationist.py:28 | With the default `age_filter` of 0, an instance with an id is admitted exactly when it was launched before `now`. |
| Enumerators.AgeFilterMonotone | reservationist/reservationist.py:64 | Raising `age_filter` can only reject more instances. |
| Enumerators.AdmittedCountAppend | reservationist/reservationist.py:38-55 | The admitted count over two batches of records is the sum of the counts of each batch. |
| Enumerators.ReservedCountAppend | reservationist/reservationist.py:77-99 | The reserved count over two batches of records is the sum of the counts of each batch. |
| Enumerators.ContributesAppend | reservationist/reservationist.py:77-99 | A cell is created by two batches of reservations exactly when one of them creates it. |
| Enumerators.RejectedInstanceIgnored | reservationist/reservationist.py:40-42 | An instance that fails `_check_instance` contributes nothing to any cell, wherever it stands in the records. |
| Enumerators.UncountedReservationIgnored | reservationist/reservationist.py:84-88 | A reservation that is not active, or whose offering type differs from a given filter, contributes nothing and creates no cell, wherever it stands. |
| Enumerators.PurchasesAccumulate | reservationist/reservationist.py:93-95 | Two active purchases of 3 and 4 instances in the same zone and type make one cell of 7. |
| Reconciler.ZoneCells | reservationist/reservationist.py:154-171 | A zone's row has one cell per column. Each cell is (running count, reserved count, running − reserved), with missing counts as 0. This holds whether or not the type is in the zone's diff. |
| Reconciler.Render | reservationist/reservationist.py:151-172 | The header is `sorted(types)` and the rows follow `sorted(zones)`. Every row is as wide as the header. Every cell shows the two tallies' counts at its zone and type, and their difference. |
| Reconciler.FoldTotals | reservationist/reservationist.py:174-186 | Every zone seen so far ends up in the totals. Its map becomes the key-wise sum of the old total map and the account's map, each `{}` when missing. Other zones are unchanged. Every count rises by the account's count. |
| Reconciler.AddTypes | reservationist/reservationist.py:147-150 | The type set grows by exactly the instance types that appear under some zone of the tally. |
| Reconciler.Audit | reservationist/reservationist.py:136-212 | There is one table per account. Its layout uses the zones and types seen up to and including that account, and it shows that account's own counts. The consolidated table covers all zones and types seen, and each cell holds the totals over all accounts. |
| Reconciler.SeenStep | reservationist/reservationist.py:146-150 | One more account widens the seen zones by its tallies' zones and the seen types by its tallies' types. |
| Reconciler.TotalsStep | reservationist/reservationist.py:174-186 | Folding one more account into the totals gives, at every zone and type, the totals over one more account. |
| Reconciler.SingleAccount | reservationist/reservationist.py:151-171 | A table built from an account's tallies shows that account's admitted and reserved counts. |
| Reconciler.ReportsAppend | reservationist/reservationist.py:139-172 | Printing one more account's table leaves the earlier accounts' tables as they were. |
| Reconciler.ShowsHeldTotals | reservationist/reservationist.py:191-211 | A table built from tallies that hold the totals shows the totals over all accounts. |
| Reconciler.DifferenceColumn | reservationist/reservationist.py:167-171 | In every table, the third column of a cell is the first minus the second. |
| Reconciler.TotalsAppend | reservationist/reservationist.py:174-186 | The running and reserved totals over two runs of accounts are the sums of the totals over each run. |
| Reconciler.SeenZonesAppend | reservationist/reservationist.py:146 | The zones seen over two runs of accounts are the union of those seen over each run. |
| Reconciler.SeenTypesAppend | reservationist/reservationist.py:147-150 | The instance types seen over two runs of accounts are the union of those seen over each run. |
| Reconciler.AdmittedPermuted | reservationist/reservationist.py:174-179 | Any reordering of the accounts leaves the running totals unchanged at every zone and type. |
| Reconciler.ReservedPermuted | reservationist/reservationist.py:181-186 | Any reordering of the accounts leaves the reserved totals unchanged at every zone and type. |
| Reconciler.SeenPermuted | reservationist/reservationist.py:146-150 | Any reordering of the accounts leaves the seen zones and types unchanged. |
| Reconciler.ConsolidatedOrderIndependent | reservationist/reservationist.py:188-212 | Two consolidated tables for two orderings of the same accounts are equal: header, zone rows and every cell. The per-account tables do depend on the order, as in the script, since each is laid out over the accounts seen so far. |
| Reconciler.SingleZoneExample | reservationist/reservationist.py:136-212 | The setup is one account with two regions. The first region has two old-enough running m5.large in r1a and an active reservation of two m5.large there; the second is empty. The only zone and type seen are r1a and m5.large, and the consolidated cell is 2, 2, 0. |

## Left out

- Opening the regional connections and re-raising their failures (reservationist/reservationist.py:13-26). These are calls into the provider's SDK; each region's records are given instead.
- Fetching the records with `get_all_instances` and `get_all_reserved_instances` (lines 41 and 79), including the server-side filter on the `running` state. The records given are the ones those calls return.
- The error branches that skip a region (lines 43-45 and 80-82). As written, each of them would itself raise: line 44 names an undefined `instance_ids`, and line 81 formats `{1}` with one argument. No behaviour of these branches is modelled or claimed.
- Parsing `launch_time` with `dateutil` and reading `datetime.now()` (lines 63-64). Both are integer seconds given by the caller, and `age_filter` is a whole number of days.
- Enumerators.CheckInstance: the script reads the clock again for every instance it checks (line 64), so instances checked later in a run get a later cutoff. The model reads one `now` for the whole run and gives every instance the same cutoff.
- Enumerators.CheckInstance: the script compares a launch time parsed with `ignoretz=True` (a UTC wall-clock value with its zone dropped) against the host's local `datetime.now()`. So the cutoff is shifted by the host's UTC offset. The model assumes both timestamps are in the same frame, which the script guarantees only when the host runs on UTC.
- The CSV-style printing, the `config` module (credentials, regions, age filter, offering type) and logging. The configured values are parameters, and tables are values.
- The connections dict collapses a region listed twice. The model takes one entry per regional connection, so a duplicate region in the configuration is not modelled.
- The iteration order of the connections dict and of the tally dicts. Counts do not depend on it.
- The script prints each zone's row and folds that zone into the totals in one loop. The model builds the table, then folds. The two steps read the same inputs and write disjoint state.
- `total['running']` and `total['reserved']` are created lazily. They are modelled as two tallies that start empty.
- The totals store the account's own zone map, sharing it with the account's tally. Maps are values here, so that sharing is not represented. It is harmless in the source, because `dict_sum` copies before updating.
