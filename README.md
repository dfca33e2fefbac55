# Points ledger — a verified model

The points service keeps a ledger of point transactions. Each transaction is
earned from a payer at a given time, and a negative amount is a correction.
The service offers three operations:

- **Add a transaction.** The ledger stores a mutable copy of it.
- **Spend points.** Points are taken oldest first across all payers, and the
  service reports how much each payer lost.
- **Report balances.** The service returns each payer's current balance.

This project models the service class `DefaultPointsService` and the
ledger-owned record class `MutableTransaction` in Dafny, and proves what
they promise.

The model keeps the source's form:

- **`MutableTransaction`** is a class. Its `points` field is updated in place
  by `SpendPoints`.
- **`DefaultPointsService`** is a class whose `transactions` field holds those
  record objects. The methods run the same loops and branches as the Java
  code.
- **Each method is proved against value-level functions in `Ledger`:**
  - `Total` is the spend pool.
  - `PayerBalance` is one payer's balance.
  - `Walk`, `AfterSpend` and `SpentPerPayer` are the spend walk.
  - `Reports` is the descending per-payer report.
- **The lemmas in `Ledger`** say what those functions mean:
  - The walk takes the shortest prefix of records that covers the amount.
  - It never takes more than a record holds, so `spendPoints` cannot fail
    inside it.
  - It takes oldest first.
  - The pool drops by exactly the amount spent.
  - Each payer's balance moves by that payer's reported delta.
  - The reported deltas add up to minus the amount spent.
- **The library sort** (`List.sort`, which is stable) is the function
  `SortBy`. It is proved sorted, a permutation and stable, and these three
  facts are proved to determine the result uniquely.
- **`scenarios.dfy`** works out every scenario of the repository's unit
  tests in `DefaultPointsServiceTest.java`: the empty service, the balances
  with corrections, a spend from one payer, spends across payers with the
  records added in and out of time order, two spends in a row, and the two
  rejected amounts. The balances and the spends, with the records and
  balances they leave, are worked out on the ledger functions. The spends,
  the empty service and the rejected amounts are run through the service
  object itself.

Files:

- `sequences.dfy`: sums, the stable sort `SortBy`, distinctness.
- `model.dfy`:
  - the value types `Transaction`, `PayerPointDelta`, `PointsError`, `Outcome` and `Result`;
  - the class `MutableTransaction`;
  - `Snapshots`, the current values of a sequence of records.
- `ledger.dfy`: the value-level meaning of balances, the spend walk and the report.
- `points_service.dfy`: the class `DefaultPointsService` and the lemmas linking it to the ledger.
- `scenarios.dfy`: the unit-test scenarios.

Exceptions become return values:

- `IllegalArgumentException` is `Failure(InvalidAmount)`.
- `InsufficientPointsException` is `Failure(InsufficientPoints)` (or
  `Fail(InsufficientPoints)` for `spendPoints`).
- A failing check returns before anything is changed, as the throw does in
  the source.

## Model

| member | source | states |
|---|---|---|
| Model.MutableTransaction.constructor | src/main/java/com/cbiegay/points/model/MutableTransaction.java:17-21 | The new record copies the payer, points and timestamp of the submitted transaction |
| Model.MutableTransaction.SpendPoints | src/main/java/com/cbiegay/points/model/MutableTransaction.java:42-48 | Fails with InsufficientPoints, leaving points unchanged, exactly when the amount exceeds the current points; otherwise lowers points by the amount, leaving them non-negative |
| PointsService.DefaultPointsService.constructor | src/main/java/com/cbiegay/points/service/DefaultPointsService.java:29-31 | The ledger starts empty |
| PointsService.DefaultPointsService.AddTransaction | src/main/java/com/cbiegay/points/service/DefaultPointsService.java:37-39 | Appends one new record whose value is the submitted transaction; the earlier records and their values are unchanged and no record is held twice |
| PointsService.DefaultPointsService.Spend | src/main/java/com/cbiegay/points/service/DefaultPointsService.java:45-55 | Fails with InvalidAmount when the amount is below 1 and with InsufficientPoints when it exceeds the pool; succeeds exactly otherwise. Failure changes nothing. Success leaves the records sorted by timestamp and spent by the walk, and returns the descending per-payer report of the walk's deltas |
| PointsService.DefaultPointsService.SortTransactions | src/main/java/com/cbiegay/points/service/DefaultPointsService.java:49-50 | The history becomes the stable timestamp sort of the same record objects, with unchanged values |
| PointsService.DefaultPointsService.GetBalances | src/main/java/com/cbiegay/points/service/DefaultPointsService.java:61-76 | The keys are exactly the payers that have a record; each value is the sum of that payer's records' points, corrections included |
| PointsService.DefaultPointsService.CheckIfPointsToSpendIsValid | src/main/java/com/cbiegay/points/service/DefaultPointsService.java:78-83 | Fails, with InvalidAmount, exactly when the amount is below 1 |
| PointsService.DefaultPointsService.CheckIfSufficientPoints | src/main/java/com/cbiegay/points/service/DefaultPointsService.java:88-97 | Fails, with InsufficientPoints, exactly when the amount exceeds the sum of all records' points |
| PointsService.DefaultPointsService.SpendFromOrderedTransactions | src/main/java/com/cbiegay/points/service/DefaultPointsService.java:106-135 | The records end as the walk over them leaves them, and the returned map is the walk's per-payer deltas |
| PointsService.DefaultPointsService.PointsSpentMapToList | src/main/java/com/cbiegay/points/service/DefaultPointsService.java:141-152 | The list has exactly one entry per payer of the map, carrying that payer's delta, in descending order of delta |
| PointsService.SortedListReports | src/main/java/com/cbiegay/points/service/DefaultPointsService.java:149 | Sorting a listing of the deltas by descending points yields a report: still one entry per payer, now in descending order |
| PointsService.SnapshotsOfSorted | src/main/java/com/cbiegay/points/service/DefaultPointsService.java:50 | Sorting the record objects by timestamp and reading their values gives the values sorted by timestamp |
| PointsService.BalancesAfterSpend | src/main/java/com/cbiegay/points/service/DefaultPointsService.java:45-55 | For an amount between 1 and the pool: the spend lowers the pool by exactly the amount; each payer's balance changes by that payer's reported delta; a payer without a delta keeps its balance |
| Ledger.BalancesStep | src/main/java/com/cbiegay/points/service/DefaultPointsService.java:64-73 | Adding one more record to the running balances, by the two-branch map update, keeps them the balances of the records seen so far |
| Ledger.TallyStep | src/main/java/com/cbiegay/points/service/DefaultPointsService.java:122-127 | The two-branch map update credits the amount taken from one more record to that record's payer in the per-payer tally |
| Ledger.WalkTakesDeductions | src/main/java/com/cbiegay/points/service/DefaultPointsService.java:111-134 | The loop's effect equals two independent definitions: the records minus the list of deductions, and the per-payer tally of those deductions |
| Ledger.DeductionsShape | src/main/java/com/cbiegay/points/service/DefaultPointsService.java:116-120 | No deduction exceeds its record's points, so spendPoints never fails in the walk; every record before the last visited one is taken whole |
| Ledger.DeductionsOwe | src/main/java/com/cbiegay/points/service/DefaultPointsService.java:111-131 | From a positive amount, something is still owed after each record but the last visited; when the pool covers the amount, the deductions add up to exactly the amount |
| Ledger.DeductionsWalk | src/main/java/com/cbiegay/points/service/DefaultPointsService.java:111-131 | For an amount between 1 and the pool, the walk visits the shortest prefix whose total reaches the amount; the last visited record gives the amount minus the total before it |
| Ledger.SpendSettlesVisited | src/main/java/com/cbiegay/points/service/DefaultPointsService.java:114-131 | After a spend: records visited before the break hold 0, corrections included; the last visited keeps a non-negative remainder; later records are untouched; payers and timestamps never change |
| Ledger.SpendTakesOldestFirst | src/main/java/com/cbiegay/points/service/DefaultPointsService.java:49-52 | Over records sorted by timestamp, a record is charged only after every strictly older record is spent down to 0 |
| Ledger.SpendLowersTotal | src/main/java/com/cbiegay/points/service/DefaultPointsService.java:111-131 | A spend of an amount between 1 and the pool lowers the pool by exactly that amount |
| Ledger.SpendMovesBalances | src/main/java/com/cbiegay/points/service/DefaultPointsService.java:118-127 | Each payer's balance after the walk is the balance before plus that payer's delta; a payer without a delta keeps its balance |
| Ledger.SpentPayersAreVisited | src/main/java/com/cbiegay/points/service/DefaultPointsService.java:122-131 | A payer has a delta exactly when one of its records was visited before the break |
| Ledger.ReportedDeltasSumToSpend | src/main/java/com/cbiegay/points/service/DefaultPointsService.java:111-152 | The deltas in the report of a spend of an amount between 1 and the pool add up to minus that amount |
| Ledger.ListsOneMore | src/main/java/com/cbiegay/points/service/DefaultPointsService.java:144-147 | Adding the entry of one more unlisted payer keeps the list a partial listing of the map, with that payer no longer outstanding |
| Sequences.SortBySortsAndPermutes | src/main/java/com/cbiegay/points/service/DefaultPointsService.java:50 | The sort's result is ordered by the key and is a permutation of its input |
| Sequences.SortByStable | src/main/java/com/cbiegay/points/service/DefaultPointsService.java:50 | The sort is stable: for every key, the elements with that key keep their input order |
| Sequences.StableSortIsUnique | src/main/java/com/cbiegay/points/service/DefaultPointsService.java:50 | Any sequence ordered by the key that keeps each key's elements in input order is the sort's result |
| Scenarios.SortHistory | src/test/java/com/cbiegay/points/service/DefaultPointsServiceTest.java:99-103 | Records added out of time order are sorted oldest first, with the correction in its place in time |
| Scenarios.SpendAcrossPayers | src/test/java/com/cbiegay/points/service/DefaultPointsServiceTest.java:96-113 | Spending 5000 yields DANNON -100, UNILEVER -200, MILLER COORS -4700 and leaves DANNON's newest record untouched |
| Scenarios.ReportOfSpend | src/test/java/com/cbiegay/points/service/DefaultPointsServiceTest.java:107-113 | The only report of those deltas lists DANNON, UNILEVER, MILLER COORS in that order |
| Scenarios.ReportOfThree | src/main/java/com/cbiegay/points/service/DefaultPointsService.java:149 | For three payers with different deltas, the descending report has exactly one possible order |
| Scenarios.ReportOfOne | src/main/java/com/cbiegay/points/service/DefaultPointsService.java:141-152 | The report of one payer's delta is that single entry |
| Scenarios.SettledBalances | src/test/java/com/cbiegay/points/service/DefaultPointsServiceTest.java:115-120 | After the spend of 5000 the balances are DANNON 1000, UNILEVER 0, MILLER COORS 5300 |
| Scenarios.BalancesOfSettled | src/test/java/com/cbiegay/points/service/DefaultPointsServiceTest.java:115-120 | The balance map after that spend has exactly three entries, with those values |
| Scenarios.CollectedBalances | src/test/java/com/cbiegay/points/service/DefaultPointsServiceTest.java:30-46 | With two corrections among six records, the balances are DANNON 1100, UNILEVER 200, MILLER COORS 9950 |
| Scenarios.SpendLeavesLaterPayersOut | src/test/java/com/cbiegay/points/service/DefaultPointsServiceTest.java:124-136 | Spending 150 takes only from ALPHA's record; BRAVO and CHARLIE get no entry |
| Scenarios.FirstReport | src/test/java/com/cbiegay/points/service/DefaultPointsServiceTest.java:146-150 | The first spend is reported as ALPHA -150 alone |
| Scenarios.SecondSpend | src/test/java/com/cbiegay/points/service/DefaultPointsServiceTest.java:152-160 | A second spend of 205 yields ALPHA -50, BRAVO -100, CHARLIE -55, and leaves ALPHA and BRAVO at 0 and CHARLIE at 245 |
| Scenarios.ExhaustedBalances | src/test/java/com/cbiegay/points/service/DefaultPointsServiceTest.java:162-167 | After the two spends the payers are ALPHA, BRAVO and CHARLIE, with balances 0, 0 and 245 |
| Scenarios.BalancesOfExhausted | src/test/java/com/cbiegay/points/service/DefaultPointsServiceTest.java:162-167 | The balance map after the two spends has exactly three entries, with those values |
| Scenarios.SecondReport | src/test/java/com/cbiegay/points/service/DefaultPointsServiceTest.java:154-160 | The second spend is reported as ALPHA, CHARLIE, BRAVO: larger deltas first |
| Scenarios.SpendInTimeOrder | src/test/java/com/cbiegay/points/service/DefaultPointsServiceTest.java:67-82 | Records added in time order stay in that order, and spending 5000 yields DANNON -100, UNILEVER -200, MILLER COORS -4700 and the same records as when added out of order |
| Scenarios.ReportInTimeOrder | src/test/java/com/cbiegay/points/service/DefaultPointsServiceTest.java:76-82 | That spend is reported as DANNON, UNILEVER, MILLER COORS in that order |
| Scenarios.SpendFromSinglePayer | src/test/java/com/cbiegay/points/service/DefaultPointsServiceTest.java:48-65 | Spending 250 of one payer's 100 and 200 empties the older record and leaves 50 in the newer one: DANNON's delta is -250, DANNON is the only payer, and its balance is 50 |
| Scenarios.ReportOfSinglePayer | src/test/java/com/cbiegay/points/service/DefaultPointsServiceTest.java:54-58 | That spend is reported as the single entry DANNON -250 |
| Sequences.SortBySorted | src/main/java/com/cbiegay/points/service/DefaultPointsService.java:50 | Sorting a history that is already in timestamp order leaves it as it is |
| ServiceScenarios.InitialBalances | src/test/java/com/cbiegay/points/service/DefaultPointsServiceTest.java:23-27 | Through the service object: a new service reports an empty balance map |
| ServiceScenarios.SpendSinglePayer | src/test/java/com/cbiegay/points/service/DefaultPointsServiceTest.java:48-58 | Through the service object: spending 250 from two DANNON records returns the single delta DANNON -250 |
| ServiceScenarios.SpendChronological | src/test/java/com/cbiegay/points/service/DefaultPointsServiceTest.java:67-82 | Through the service object: after five additions in time order, spending 5000 returns the three deltas in the test's order |
| ServiceScenarios.SpendNotInTimeOrder | src/test/java/com/cbiegay/points/service/DefaultPointsServiceTest.java:96-113 | Through the service object: after five additions out of time order, spending 5000 returns the three deltas in the test's order |
| ServiceScenarios.SpendTwice | src/test/java/com/cbiegay/points/service/DefaultPointsServiceTest.java:139-160 | Through the service object: two spends in a row return the two reports of the test |
| ServiceScenarios.RejectBadAmounts | src/test/java/com/cbiegay/points/service/DefaultPointsServiceTest.java:171-188 | Through the service object: spending 301 of 300 fails with InsufficientPoints, and spending 0 or -1 fails with InvalidAmount |

## Left out

- HTTP controllers, request payloads and Spring wiring: they only call the three service operations.
- The `synchronized` lock: each operation is modelled as one atomic step; interleavings are not modelled.
- Dates: `java.util.Date` becomes an integer timestamp, compared with `<=`.
- The getters of `MutableTransaction` read the fields directly. `payer` and `timestamp` are `const`, since the source declares them `final`.
- `transaction.toMutableTransaction()` becomes a call to the `MutableTransaction` constructor.
- The two-branch `HashMap` updates in `getBalances` and `spendFromOrderedTransactions` are written as the functions `AddToBalance` and `Credit`. They keep the same two branches.
- HashMap key order: `PointsSpentMapToList` picks the next payer with an arbitrary choice. Its contract holds whatever order the map yields.
- The result list of a spend is a `seq` value, and `List.sort` of the history is `SortBy` assigned to the field. The identity of the Java `ArrayList` objects is not modelled. The record objects are modelled, and the sort keeps the same objects.
- PointsService.DefaultPointsService.Spend: does not model 32-bit `int` wrap-around in the running total, the amounts or the map sums, because all integers are unbounded here.
- PointsService.DefaultPointsService.PointsSpentMapToList: does not model overflow in the comparator `deltaB - deltaA`. The model orders by the exact difference.
- PointsService.DefaultPointsService.CheckIfSufficientPoints: does not model overflow of `totalAvailablePoints`.
- PointsService.DefaultPointsService.GetBalances: does not model overflow of a payer's running balance.
- Negative records that the walk reaches are not skipped. The source takes `min(points, left)`, which is negative for a correction. The amount owed grows by that value and the record ends at 0. The model does the same, and the unit-test scenario with a DANNON correction (`Scenarios.SpendAcrossPayers`) depends on it. This follows `DefaultPointsService.java:118-126` as written: no branch there tests for non-positive points before taking `min` and calling `spendPoints`.
- ServiceScenarios: the balances the unit tests read after a spend are stated on the ledger functions (`Scenarios.SettledBalances` and `Scenarios.BalancesOfSettled` for the spend of 5000; `Scenarios.SpendFromSinglePayer` for the single payer; `Scenarios.SecondSpend`, `Scenarios.ExhaustedBalances` and `Scenarios.BalancesOfExhausted` for the two spends in a row). The scenario methods do not call `GetBalances` on the service after `Spend`.
