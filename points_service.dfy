/**
 * The in-memory points service: a ledger of transactions in insertion order,
 * with operations to add a transaction, spend points oldest first across
 * payers, and report per-payer balances. Each operation runs as one atomic
 * step; the lock that serialises them in the running service is not modelled.
 */
module PointsService {
  import opened Sequences
  import opened Model
  import opened Ledger

  /** The order of the spend report: larger deltas first. */
  function PointsDescending(delta: PayerPointDelta): int
  {
    -delta.points
  }

  lemma {:induction false} SnapshotsOfInsert(x: MutableTransaction, ts: seq<MutableTransaction>)
    ensures Snapshots(InsertBy(x, ts, TimestampOf)) == InsertBy(x.Snapshot(), Snapshots(ts), Timestamp)
  {
    if ts == [] || TimestampOf(x) < TimestampOf(ts[0]) {
      assert Snapshots([x] + ts) == [x.Snapshot()] + Snapshots(ts);
    } else {
      var rest := InsertBy(x, ts[1..], TimestampOf);
      SnapshotsOfInsert(x, ts[1..]);
      assert Snapshots(ts)[1..] == Snapshots(ts[1..]);
      assert Snapshots([ts[0]] + rest) == [ts[0].Snapshot()] + Snapshots(rest);
    }
  }

  /** Sorting the held records by timestamp and then reading them equals sorting their values by timestamp. */
  lemma {:induction false} SnapshotsOfSorted(ts: seq<MutableTransaction>)
    ensures Snapshots(SortBy(ts, TimestampOf)) == SortBy(Snapshots(ts), Timestamp)
  {
    if ts != [] {
      var init, last := ts[..|ts| - 1], ts[|ts| - 1];
      SnapshotsOfSorted(init);
      SnapshotsOfInsert(last, SortBy(init, TimestampOf));
      assert ts == init + [last];
      SnapshotsAppend(init, [last]);
    }
  }

  /** Reordering a listing keeps it a listing. */
  lemma PermutedListing(list: seq<PayerPointDelta>, other: seq<PayerPointDelta>, spent: map<string, int>)
    requires Lists(list, spent)
    requires multiset(other) == multiset(list)
    requires Distinct(other)
    ensures Lists(other, spent)
  {
    forall i | 0 <= i < |other|
      ensures other[i].payer in spent && other[i].points == spent[other[i].payer]
    {
      assert other[i] in multiset(list);
    }
    forall payer | payer in spent ensures exists i :: 0 <= i < |other| && other[i].payer == payer {
      var k :| 0 <= k < |list| && list[k].payer == payer;
      assert list[k] in multiset(other);
      var i :| 0 <= i < |other| && other[i] == list[k];
    }
  }

  /** Sorting a listing of the deltas, larger deltas first, yields their report. */
  lemma SortedListReports(list: seq<PayerPointDelta>, spent: map<string, int>)
    requires Lists(list, spent)
    ensures Reports(SortBy(list, PointsDescending), spent)
  {
    var sorted := SortBy(list, PointsDescending);
    SortBySortsAndPermutes(list, PointsDescending);
    assert Distinct(list);
    SortByDistinct(list, PointsDescending);
    PermutedListing(list, sorted, spent);
  }

  /**
   * What a successful spend of `n` does to the accounts, stated on the records
   * as they were before it (in stored order): the spend pool drops by exactly
   * `n`, each payer's balance moves by that payer's reported delta, and a payer
   * without a delta keeps its balance.
   */
  lemma BalancesAfterSpend(records: seq<Transaction>, n: int, payer: string)
    requires 1 <= n <= Total(records)
    ensures Total(AfterSpend(SortBy(records, Timestamp), n)) == Total(records) - n
    ensures payer in SpentPerPayer(SortBy(records, Timestamp), n) ==>
      PayerBalance(AfterSpend(SortBy(records, Timestamp), n), payer)
        == PayerBalance(records, payer) + SpentPerPayer(SortBy(records, Timestamp), n)[payer]
    ensures payer !in SpentPerPayer(SortBy(records, Timestamp), n) ==>
      PayerBalance(AfterSpend(SortBy(records, Timestamp), n), payer) == PayerBalance(records, payer)
  {
    var sorted := SortBy(records, Timestamp);
    SortBySum(records, Timestamp, Points);
    SortBySum(records, Timestamp, PayerPoints(payer));
    SpendLowersTotal(sorted, n);
    SpendMovesBalances(sorted, n, payer);
  }

  class DefaultPointsService {
    /** Every record the ledger holds, each a distinct object it alone owns; spends draw on these. */
    var transactions: seq<MutableTransaction>

    ghost predicate Valid()
      reads this
    {
      Distinct(transactions)
    }

    /** The current value of every record, in stored order. */
    ghost function Records(): seq<Transaction>
      reads this, transactions
    {
      Snapshots(transactions)
    }

    constructor ()
      ensures Valid() && transactions == []
    {
      transactions := [];
    }

    /** Appends a ledger-owned copy of `transaction`; the existing records are unchanged. */
    method AddTransaction(transaction: Transaction)
      requires Valid()
      modifies this
      ensures Valid()
      ensures |transactions| == |old(transactions)| + 1
      ensures transactions[..|old(transactions)|] == old(transactions)
      ensures fresh(transactions[|old(transactions)|])
      ensures Records() == old(Records()) + [transaction]
    {
      var record := new MutableTransaction(transaction);
      transactions := transactions + [record];
      SnapshotsAppend(old(transactions), [record]);
    }

    /**
     * Spends `pointsToSpend` points, oldest first across payers, and reports
     * the change per payer, larger deltas first. Fails, changing nothing, when
     * the amount is below 1 or exceeds the spend pool.
     */
    method Spend(pointsToSpend: int) returns (result: Result<seq<PayerPointDelta>>)
      requires Valid()
      modifies this, set t | t in transactions
      ensures Valid()
      ensures pointsToSpend < 1 ==> result == Failure(InvalidAmount)
      ensures 1 <= pointsToSpend && pointsToSpend > old(Total(Records())) ==> result == Failure(InsufficientPoints)
      ensures result.Success? <==> 1 <= pointsToSpend <= old(Total(Records()))
      ensures result.Failure? ==> transactions == old(transactions) && Records() == old(Records())
      ensures result.Success? ==> transactions == SortBy(old(transactions), TimestampOf)
      ensures forall t :: t in transactions ==> t in old(transactions)
      ensures result.Success? ==> Records() == AfterSpend(SortBy(old(Records()), Timestamp), pointsToSpend)
      ensures result.Success? ==>
        Reports(result.value, SpentPerPayer(SortBy(old(Records()), Timestamp), pointsToSpend))
    {
      ghost var records := Records();
      var valid := CheckIfPointsToSpendIsValid(pointsToSpend);
      if valid.Fail? {
        return Failure(valid.error);
      }
      var sufficient := CheckIfSufficientPoints(pointsToSpend);
      if sufficient.Fail? {
        return Failure(sufficient.error);
      }
      assert Records() == records && transactions == old(transactions);

      // Order the history by timestamp so that the walk reaches the oldest records first
      SortTransactions();
      ghost var ts, sorted := transactions, Snapshots(transactions);
      assert sorted == SortBy(records, Timestamp);
      assert ts == SortBy(old(transactions), TimestampOf);
      var pointsSpentPerPayer := SpendFromOrderedTransactions(transactions, pointsToSpend);
      assert transactions == ts;
      assert pointsSpentPerPayer == SpentPerPayer(sorted, pointsToSpend);
      assert Records() == AfterSpend(sorted, pointsToSpend);
      var list := PointsSpentMapToList(pointsSpentPerPayer);
      return Success(list);
    }

    /**
     * Reorders the history by timestamp, as the library's stable list sort
     * does in place: records with equal timestamps keep their order, and the
     * history holds the same record objects with unchanged values.
     */
    method SortTransactions()
      requires Valid()
      modifies this
      ensures Valid()
      ensures transactions == SortBy(old(transactions), TimestampOf)
      ensures forall t :: t in transactions ==> t in old(transactions)
      ensures Records() == SortBy(old(Records()), Timestamp)
    {
      ghost var before := transactions;
      transactions := SortBy(transactions, TimestampOf);
      SortBySortsAndPermutes(before, TimestampOf);
      SortByDistinct(before, TimestampOf);
      SnapshotsOfSorted(before);
      assert forall t :: t in transactions ==> t in multiset(before);
    }

    /** Each payer with a record, mapped to the sum of that payer's records' points. */
    method GetBalances() returns (balances: map<string, int>)
      ensures forall payer :: payer in balances <==> payer in PayersOf(Records())
      ensures forall payer :: payer in balances ==> balances[payer] == PayerBalance(Records(), payer)
    {
      ghost var records := Records();
      SnapshotsIndex(transactions);
      balances := map[];
      for i := 0 to |transactions|
        invariant IsBalances(balances, records[..i])
      {
        BalancesStep(balances, records, i);
        balances := AddToBalance(balances, transactions[i].Snapshot());
      }
      assert records[..|transactions|] == records;
    }

    /** Rejects spending less than one point. */
    static method CheckIfPointsToSpendIsValid(pointsToSpend: int) returns (outcome: Outcome)
      ensures outcome.Fail? <==> pointsToSpend < 1
      ensures outcome.Fail? ==> outcome.error == InvalidAmount
    {
      if pointsToSpend < 1 {
        return Fail(InvalidAmount);
      }
      return Pass;
    }

    /** Rejects spending more than the spend pool, the sum of all records' points. */
    method CheckIfSufficientPoints(pointsToSpend: int) returns (outcome: Outcome)
      ensures outcome.Fail? <==> pointsToSpend > Total(Records())
      ensures outcome.Fail? ==> outcome.error == InsufficientPoints
    {
      ghost var records := Records();
      SnapshotsIndex(transactions);
      var totalAvailablePoints := 0;
      for i := 0 to |transactions|
        invariant totalAvailablePoints == Total(records[..i])
      {
        SumOfPrefixStep(records, i, Points);
        totalAvailablePoints := totalAvailablePoints + transactions[i].points;
      }
      assert records[..|transactions|] == records;

      if pointsToSpend > totalAvailablePoints {
        return Fail(InsufficientPoints);
      }
      return Pass;
    }

    /**
     * Walks `ts` in order, taking from each record the smaller of its points
     * and what is still owed, until nothing is owed; returns minus the amount
     * taken per payer visited.
     */
    static method SpendFromOrderedTransactions(ts: seq<MutableTransaction>, pointsToSpend: int)
      returns (pointsSpentPerPayer: map<string, int>)
      requires Distinct(ts)
      modifies ts
      ensures Snapshots(ts) == AfterSpend(old(Snapshots(ts)), pointsToSpend)
      ensures pointsSpentPerPayer == SpentPerPayer(old(Snapshots(ts)), pointsToSpend)
    {
      ghost var records := Snapshots(ts);
      SnapshotsIndex(ts);
      ghost var final := Walk(records, 0, pointsToSpend, map[]);
      var pointsLeftToSpend := pointsToSpend;
      pointsSpentPerPayer := map[];

      var i := 0;
      while i < |ts|
        invariant 0 <= i <= |ts| == |records|
        invariant forall j :: 0 <= j < |ts| ==> ts[j].Snapshot() == records[j]
        invariant Walk(records, i, pointsLeftToSpend, pointsSpentPerPayer) == final
      {
        var transaction := ts[i];
        var transactionPayer := transaction.payer;
        var transactionPoints := transaction.points;
        assert transaction.Snapshot() == records[i];
        ghost var owed, spentBefore := pointsLeftToSpend, pointsSpentPerPayer;

        var spentFromTransaction := Min(transactionPoints, pointsLeftToSpend);
        pointsLeftToSpend := pointsLeftToSpend - spentFromTransaction;
        var outcome := transaction.SpendPoints(spentFromTransaction);
        assert outcome == Pass;

        pointsSpentPerPayer := Credit(pointsSpentPerPayer, transactionPayer, spentFromTransaction);
        WalkNext(records, i, owed, spentBefore, spentFromTransaction, pointsSpentPerPayer);
        records := records[i := records[i].(points := records[i].points - spentFromTransaction)];
        i := i + 1;

        if pointsLeftToSpend == 0 {
          break;
        }
      }
      SnapshotsAre(ts, records);
    }

    /** Lists the deltas of `pointsSpentPerPayer`, one per payer, sorted by points in descending order. */
    static method PointsSpentMapToList(pointsSpentPerPayer: map<string, int>) returns (result: seq<PayerPointDelta>)
      ensures Reports(result, pointsSpentPerPayer)
    {
      var unsorted: seq<PayerPointDelta> := [];
      var remaining := pointsSpentPerPayer.Keys;
      while remaining != {}
        invariant ListsAllBut(unsorted, pointsSpentPerPayer, remaining)
        decreases remaining
      {
        var payer :| payer in remaining;
        var delta := pointsSpentPerPayer[payer];
        ListsOneMore(unsorted, pointsSpentPerPayer, remaining, payer);
        unsorted := unsorted + [PayerPointDelta(payer, delta)];
        remaining := remaining - {payer};
      }

      result := SortBy(unsorted, PointsDescending);
      SortedListReports(unsorted, pointsSpentPerPayer);
    }
  }
}
