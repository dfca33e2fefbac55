/**
 * The scenarios of the service's unit tests, worked out on the ledger
 * functions: which records a spend takes from, the deltas it reports and
 * in which order, and the balances before and after. Timestamps are small
 * numbers in the same order as the tests' dates.
 */
module Scenarios {
  import opened Sequences
  import opened Model
  import opened Ledger

  /** Five records of three payers, one a correction, added out of time order. */
  function History(): seq<Transaction>
  {
    [ Transaction("DANNON", 1000, 5), Transaction("UNILEVER", 200, 2), Transaction("DANNON", -200, 3),
      Transaction("MILLER COORS", 10000, 4), Transaction("DANNON", 300, 1) ]
  }

  /** Sorting by timestamp puts the oldest record first and the correction in its place in time. */
  lemma SortHistory()
    ensures SortBy(History(), Timestamp) == [History()[4], History()[1], History()[2], History()[3], History()[0]]
  {
    var h := History();
    assert SortBy(h[..1], Timestamp) == [h[0]] by {
      assert h[..1][..0] == [];
    }
    assert SortBy(h[..2], Timestamp) == [h[1], h[0]] by {
      assert h[..2][..1] == h[..1];
    }
    assert SortBy(h[..3], Timestamp) == [h[1], h[2], h[0]] by {
      assert h[..3][..2] == h[..2];
      assert InsertBy(h[2], [h[0]], Timestamp) == [h[2], h[0]];
      assert InsertBy(h[2], [h[1], h[0]], Timestamp) == [h[1]] + InsertBy(h[2], [h[1], h[0]][1..], Timestamp);
      assert [h[1], h[0]][1..] == [h[0]];
    }
    assert SortBy(h[..4], Timestamp) == [h[1], h[2], h[3], h[0]] by {
      assert h[..4][..3] == h[..3];
      assert InsertBy(h[3], [h[0]], Timestamp) == [h[3], h[0]];
      assert [h[2], h[0]][1..] == [h[0]];
      assert InsertBy(h[3], [h[2], h[0]], Timestamp) == [h[2], h[3], h[0]];
      assert [h[1], h[2], h[0]][1..] == [h[2], h[0]];
    }
    assert h[..5][..4] == h[..4] && h[..5] == h;
  }

  /** The history after the spend of 5000, in time order. */
  function Settled(): seq<Transaction>
  {
    [ Transaction("DANNON", 0, 1), Transaction("UNILEVER", 0, 2), Transaction("DANNON", 0, 3),
      Transaction("MILLER COORS", 5300, 4), Transaction("DANNON", 1000, 5) ]
  }

  /**
   * A spend of 5000 takes DANNON's oldest 300, UNILEVER's 200, then reaches
   * the DANNON correction of -200, which gives 200 back to the amount owed
   * and ends at 0, and takes the remaining 4700 from MILLER COORS.
   */
  lemma SpendAcrossPayers()
    ensures SpentPerPayer(SortBy(History(), Timestamp), 5000)
      == map["DANNON" := -100, "UNILEVER" := -200, "MILLER COORS" := -4700]
    ensures AfterSpend(SortBy(History(), Timestamp), 5000) == Settled()
  {
    SortHistory();
    var h := History();
    var s := SortBy(History(), Timestamp);
    var s1 := s[0 := s[0].(points := 0)];
    var s2 := s1[1 := s1[1].(points := 0)];
    var s3 := s2[2 := s2[2].(points := 0)];
    var s4 := s3[3 := s3[3].(points := 5300)];
    assert Walk(s, 0, 5000, map[]) == Walk(s1, 1, 4700, map["DANNON" := -300]);
    assert Walk(s1, 1, 4700, map["DANNON" := -300]) == Walk(s2, 2, 4500, map["DANNON" := -300, "UNILEVER" := -200]);
    assert Credit(map["DANNON" := -300, "UNILEVER" := -200], "DANNON", -200) == map["DANNON" := -100, "UNILEVER" := -200];
    assert Walk(s2, 2, 4500, map["DANNON" := -300, "UNILEVER" := -200]) == Walk(s3, 3, 4700, map["DANNON" := -100, "UNILEVER" := -200]);
    assert Walk(s3, 3, 4700, map["DANNON" := -100, "UNILEVER" := -200]) == (s4, map["DANNON" := -100, "UNILEVER" := -200, "MILLER COORS" := -4700]);
  }

  /** The spend pool of the history, the correction included. */
  lemma HistoryTotal()
    ensures Total(History()) == 11300
  {
  }

  /** The only map that `GetBalances` may return for the settled history. */
  lemma BalancesOfSettled(balances: map<string, int>)
    requires forall payer :: payer in balances <==> payer in PayersOf(Settled())
    requires forall payer :: payer in balances ==> balances[payer] == PayerBalance(Settled(), payer)
    ensures balances == map["DANNON" := 1000, "UNILEVER" := 0, "MILLER COORS" := 5300]
  {
    SettledBalances();
    assert balances.Keys == {"DANNON", "UNILEVER", "MILLER COORS"};
  }

  /** Entries with pairwise different payers, each one of three, are at most three. */
  lemma AtMostThree(list: seq<PayerPointDelta>, a: string, b: string, c: string)
    requires forall i, j :: 0 <= i < j < |list| ==> list[i].payer != list[j].payer
    requires forall t :: 0 <= t < |list| ==> list[t].payer in {a, b, c}
    ensures |list| <= 3
  {
    if |list| > 3 {
      Pigeonhole(list[0].payer, list[1].payer, list[2].payer, list[3].payer, a, b, c);
      assert false;
    }
  }

  /** Four values drawn from three cannot be pairwise different. */
  lemma Pigeonhole(p: string, q: string, r: string, s: string, a: string, b: string, c: string)
    requires p in {a, b, c} && q in {a, b, c} && r in {a, b, c} && s in {a, b, c}
    ensures p == q || p == r || p == s || q == r || q == s || r == s
  {
  }

  /** A listing of three payers' deltas has three entries. */
  lemma ListsThree(list: seq<PayerPointDelta>, spent: map<string, int>, a: string, b: string, c: string)
    requires a != b && b != c && a != c && spent.Keys == {a, b, c}
    requires Lists(list, spent)
    ensures |list| == 3
  {
    assert a in spent && b in spent && c in spent;
    var i :| 0 <= i < |list| && list[i].payer == a;
    var j :| 0 <= j < |list| && list[j].payer == b;
    var k :| 0 <= k < |list| && list[k].payer == c;
    assert i != j && j != k && i != k;
    forall t | 0 <= t < |list| ensures list[t].payer in {a, b, c} {
      assert list[t].payer in spent.Keys;
    }
    AtMostThree(list, a, b, c);
  }

  /** A report of one payer's delta is that single entry. */
  lemma ReportOfOne(list: seq<PayerPointDelta>, a: string, x: int)
    requires Reports(list, map[a := x])
    ensures list == [PayerPointDelta(a, x)]
  {
    var spent := map[a := x];
    assert a in spent;
    var i :| 0 <= i < |list| && list[i].payer == a;
    // Every entry names `a`, and no payer is listed twice: the first and the last entry are entry `i`.
    assert 0 == i by { assert list[0].payer in spent; }
    assert |list| - 1 == i by { assert list[|list| - 1].payer in spent; }
  }

  /** With three payers whose deltas differ, the report has exactly one possible order. */
  lemma ReportOfThree(list: seq<PayerPointDelta>, spent: map<string, int>, a: string, b: string, c: string)
    requires a != b && b != c && a != c && spent.Keys == {a, b, c}
    requires spent[a] > spent[b] > spent[c]
    requires Reports(list, spent)
    ensures list == [PayerPointDelta(a, spent[a]), PayerPointDelta(b, spent[b]), PayerPointDelta(c, spent[c])]
  {
    ListsThree(list, spent, a, b, c);
    assert list[0].points >= list[1].points >= list[2].points;
  }

  /** The spend of 5000 is reported as DANNON -100, UNILEVER -200, MILLER COORS -4700, in that order. */
  lemma ReportOfSpend(list: seq<PayerPointDelta>)
    requires Reports(list, SpentPerPayer(SortBy(History(), Timestamp), 5000))
    ensures list == [PayerPointDelta("DANNON", -100), PayerPointDelta("UNILEVER", -200),
                     PayerPointDelta("MILLER COORS", -4700)]
  {
    SpendAcrossPayers();
    ReportOfThree(list, SpentPerPayer(SortBy(History(), Timestamp), 5000), "DANNON", "UNILEVER", "MILLER COORS");
  }

  /** Three payers in time order; a spend of 150 is covered by the oldest record alone. */
  function Earlier(): seq<Transaction>
  {
    [Transaction("ALPHA", 200, 11), Transaction("BRAVO", 100, 12), Transaction("CHARLIE", 300, 13)]
  }

  /** The spend of 150 reports ALPHA alone; BRAVO and CHARLIE, reached only after the break, get no entry. */
  lemma SpendLeavesLaterPayersOut()
    ensures SpentPerPayer(SortBy(Earlier(), Timestamp), 150) == map["ALPHA" := -150]
    ensures AfterSpend(SortBy(Earlier(), Timestamp), 150) == Remaining()
  {
    var h := Earlier();
    SortedThree(h);
    assert Walk(h, 0, 150, map[]) == (h[0 := h[0].(points := 50)], map["ALPHA" := -150]);
  }

  /** Three records in time order are already sorted. */
  lemma SortedThree(h: seq<Transaction>)
    requires |h| == 3 && h[0].timestamp <= h[1].timestamp <= h[2].timestamp
    ensures SortBy(h, Timestamp) == h
  {
    assert h[..1][..0] == [] && h[..2][..1] == h[..1] && h[..3][..2] == h[..2] && h[..3] == h;
    assert SortBy(h[..1], Timestamp) == [h[0]];
    assert [h[0]][1..] == [] && [h[0], h[1]][1..] == [h[1]] && [h[1]][1..] == [];
    assert SortBy(h[..2], Timestamp) == InsertBy(h[1], [h[0]], Timestamp) == [h[0], h[1]];
    assert InsertBy(h[2], [h[1]], Timestamp) == [h[1], h[2]];
    assert InsertBy(h[2], [h[0], h[1]], Timestamp) == [h[0]] + [h[1], h[2]];
  }

  /** The records after the first spend of 150. */
  function Remaining(): seq<Transaction>
  {
    [Transaction("ALPHA", 50, 11), Transaction("BRAVO", 100, 12), Transaction("CHARLIE", 300, 13)]
  }

  /** A second spend of 205 empties ALPHA and BRAVO and takes the rest from CHARLIE. */
  lemma SecondSpend()
    ensures SpentPerPayer(SortBy(Remaining(), Timestamp), 205) == map["ALPHA" := -50, "BRAVO" := -100, "CHARLIE" := -55]
    ensures AfterSpend(SortBy(Remaining(), Timestamp), 205) == Exhausted()
  {
    var h := Remaining();
    SortedThree(h);
    var h1 := h[0 := h[0].(points := 0)];
    var h2 := h1[1 := h1[1].(points := 0)];
    assert Walk(h, 0, 205, map[]) == Walk(h1, 1, 155, map["ALPHA" := -50]);
    assert Walk(h1, 1, 155, map["ALPHA" := -50]) == Walk(h2, 2, 55, map["ALPHA" := -50, "BRAVO" := -100]);
  }

  /** The records after both spends: ALPHA and BRAVO spent out, 245 left of CHARLIE's 300. */
  function Exhausted(): seq<Transaction>
  {
    [Transaction("ALPHA", 0, 11), Transaction("BRAVO", 0, 12), Transaction("CHARLIE", 245, 13)]
  }

  /** After the two spends every payer keeps an entry; only CHARLIE has points left. */
  lemma ExhaustedBalances()
    ensures PayersOf(Exhausted()) == {"ALPHA", "BRAVO", "CHARLIE"}
    ensures PayerBalance(Exhausted(), "ALPHA") == 0
    ensures PayerBalance(Exhausted(), "BRAVO") == 0
    ensures PayerBalance(Exhausted(), "CHARLIE") == 245
  {
  }

  /** The only map that `GetBalances` may return after the two spends. */
  lemma BalancesOfExhausted(balances: map<string, int>)
    requires forall payer :: payer in balances <==> payer in PayersOf(Exhausted())
    requires forall payer :: payer in balances ==> balances[payer] == PayerBalance(Exhausted(), payer)
    ensures balances == map["ALPHA" := 0, "BRAVO" := 0, "CHARLIE" := 245]
  {
    ExhaustedBalances();
    assert balances.Keys == {"ALPHA", "BRAVO", "CHARLIE"};
  }

  /** The report of the first spend. */
  lemma FirstReport(list: seq<PayerPointDelta>)
    requires Reports(list, SpentPerPayer(SortBy(Earlier(), Timestamp), 150))
    ensures list == [PayerPointDelta("ALPHA", -150)]
  {
    SpendLeavesLaterPayersOut();
    ReportOfOne(list, "ALPHA", -150);
  }

  /** The report of the second spend: ALPHA -50 before CHARLIE -55 before BRAVO -100. */
  lemma SecondReport(list: seq<PayerPointDelta>)
    requires Reports(list, SpentPerPayer(SortBy(Remaining(), Timestamp), 205))
    ensures list == [PayerPointDelta("ALPHA", -50), PayerPointDelta("CHARLIE", -55), PayerPointDelta("BRAVO", -100)]
  {
    SecondSpend();
    ReportOfThree(list, SpentPerPayer(SortBy(Remaining(), Timestamp), 205), "ALPHA", "CHARLIE", "BRAVO");
  }

  /** Six records of three payers, two of them corrections, in the order they were added. */
  function Collected(): seq<Transaction>
  {
    [ Transaction("DANNON", 1000, 5), Transaction("UNILEVER", 200, 2), Transaction("DANNON", -200, 3),
      Transaction("MILLER COORS", 10000, 4), Transaction("MILLER COORS", -50, 4), Transaction("DANNON", 300, 1) ]
  }

  /** Each payer's balance counts its corrections; every payer with a record has a balance. */
  lemma CollectedBalances()
    ensures PayersOf(Collected()) == {"DANNON", "UNILEVER", "MILLER COORS"}
    ensures PayerBalance(Collected(), "DANNON") == 1100
    ensures PayerBalance(Collected(), "UNILEVER") == 200
    ensures PayerBalance(Collected(), "MILLER COORS") == 9950
  {
    var h := Collected();
    assert h[1..] == [h[1], h[2], h[3], h[4], h[5]];
    assert h[1..][1..] == [h[2], h[3], h[4], h[5]];
    assert h[1..][1..][1..] == [h[3], h[4], h[5]];
    assert h[1..][1..][1..][1..] == [h[4], h[5]];
    assert h[1..][1..][1..][1..][1..] == [h[5]];
    assert h[1..][1..][1..][1..][1..][1..] == [];
    assert PayersOf(h) == {"DANNON", "UNILEVER", "MILLER COORS"} by {
      assert h[0].payer == "DANNON" && h[1].payer == "UNILEVER" && h[3].payer == "MILLER COORS";
    }
  }

  /** After the spend of 5000 the corrected DANNON record and UNILEVER are spent out; the newest DANNON record is untouched. */
  lemma SettledBalances()
    ensures PayersOf(Settled()) == {"DANNON", "UNILEVER", "MILLER COORS"}
    ensures PayerBalance(Settled(), "DANNON") == 1000
    ensures PayerBalance(Settled(), "UNILEVER") == 0
    ensures PayerBalance(Settled(), "MILLER COORS") == 5300
  {
  }

  /** The history of `History()`, added in time order instead. */
  function InTimeOrder(): seq<Transaction>
  {
    [ Transaction("DANNON", 300, 1), Transaction("UNILEVER", 200, 2), Transaction("DANNON", -200, 3),
      Transaction("MILLER COORS", 10000, 4), Transaction("DANNON", 1000, 5) ]
  }

  /** Added in time order, the records stay in that order and the spend of 5000 gives the same deltas and records. */
  lemma SpendInTimeOrder()
    ensures SortBy(InTimeOrder(), Timestamp) == InTimeOrder()
    ensures SpentPerPayer(SortBy(InTimeOrder(), Timestamp), 5000)
      == map["DANNON" := -100, "UNILEVER" := -200, "MILLER COORS" := -4700]
    ensures AfterSpend(SortBy(InTimeOrder(), Timestamp), 5000) == Settled()
  {
    SortHistory();
    assert InTimeOrder() == SortBy(History(), Timestamp);
    SortBySortsAndPermutes(History(), Timestamp);
    SortBySorted(InTimeOrder(), Timestamp);
    SpendAcrossPayers();
  }

  /** The report of the spend of 5000 from the history added in time order. */
  lemma ReportInTimeOrder(list: seq<PayerPointDelta>)
    requires Reports(list, SpentPerPayer(SortBy(InTimeOrder(), Timestamp), 5000))
    ensures list == [PayerPointDelta("DANNON", -100), PayerPointDelta("UNILEVER", -200),
                     PayerPointDelta("MILLER COORS", -4700)]
  {
    SpendInTimeOrder();
    ReportOfThree(list, SpentPerPayer(SortBy(InTimeOrder(), Timestamp), 5000), "DANNON", "UNILEVER", "MILLER COORS");
  }

  /** Two DANNON records, the older one of 100 points. */
  function SinglePayer(): seq<Transaction>
  {
    [Transaction("DANNON", 100, 5), Transaction("DANNON", 200, 6)]
  }

  /**
   * A spend of 250 from one payer empties the older record and takes 150 of
   * the newer one: DANNON's delta is -250 and its balance is left at 50.
   */
  lemma SpendFromSinglePayer()
    ensures SpentPerPayer(SortBy(SinglePayer(), Timestamp), 250) == map["DANNON" := -250]
    ensures AfterSpend(SortBy(SinglePayer(), Timestamp), 250) == [Transaction("DANNON", 0, 5), Transaction("DANNON", 50, 6)]
    ensures PayersOf(AfterSpend(SortBy(SinglePayer(), Timestamp), 250)) == {"DANNON"}
    ensures PayerBalance(AfterSpend(SortBy(SinglePayer(), Timestamp), 250), "DANNON") == 50
  {
    var h := SinglePayer();
    SortBySorted(h, Timestamp);
    var h1 := h[0 := h[0].(points := 0)];
    var h2 := h1[1 := h1[1].(points := 50)];
    assert Walk(h, 0, 250, map[]) == Walk(h1, 1, 150, map["DANNON" := -100]);
    assert Credit(map["DANNON" := -100], "DANNON", 150) == map["DANNON" := -250];
    assert Walk(h1, 1, 150, map["DANNON" := -100]) == (h2, map["DANNON" := -250]);
    assert h2[1..] == [h2[1]] && h2[1..][1..] == [];
    assert PayersOf(h2) == {"DANNON"} by {
      assert h2[0].payer == "DANNON";
    }
  }

  /** The spend of 250 is reported as DANNON -250 alone. */
  lemma ReportOfSinglePayer(list: seq<PayerPointDelta>)
    requires Reports(list, SpentPerPayer(SortBy(SinglePayer(), Timestamp), 250))
    ensures list == [PayerPointDelta("DANNON", -250)]
  {
    SpendFromSinglePayer();
    ReportOfOne(list, "DANNON", -250);
  }
}

/** The same scenarios run through the service object, as the unit tests do. */
module ServiceScenarios {
  import opened Sequences
  import opened Model
  import opened Ledger
  import opened PointsService
  import opened Scenarios

  /** A new service to which the transactions of `history` were added, one by one. */
  method Load(history: seq<Transaction>) returns (service: DefaultPointsService)
    ensures fresh(service) && service.Valid()
    ensures forall t :: t in service.transactions ==> fresh(t)
    ensures service.Records() == history
  {
    service := new DefaultPointsService();
    for i := 0 to |history|
      invariant fresh(service) && service.Valid()
      invariant forall t :: t in service.transactions ==> fresh(t)
      invariant service.Records() == history[..i]
    {
      ghost var before := service.transactions;
      service.AddTransaction(history[i]);
      assert service.transactions == before + [service.transactions[|before|]];
      assert history[..i + 1] == history[..i] + [history[i]];
    }
    assert history[..|history|] == history;
  }

  /** Records added out of time order are still spent oldest first. */
  method SpendNotInTimeOrder() returns (report: Result<seq<PayerPointDelta>>)
    ensures report == Success([PayerPointDelta("DANNON", -100), PayerPointDelta("UNILEVER", -200),
                               PayerPointDelta("MILLER COORS", -4700)])
  {
    var service := Load(History());
    HistoryTotal();
    report := service.Spend(5000);
    SpendAcrossPayers();
    ReportOfSpend(report.value);
  }

  /** The second of two spends reports ALPHA, then CHARLIE, then BRAVO: larger deltas first. */
  method SpendTwice() returns (first: Result<seq<PayerPointDelta>>, second: Result<seq<PayerPointDelta>>)
    ensures first == Success([PayerPointDelta("ALPHA", -150)])
    ensures second == Success([PayerPointDelta("ALPHA", -50), PayerPointDelta("CHARLIE", -55),
                               PayerPointDelta("BRAVO", -100)])
  {
    var service := Load(Earlier());
    assert Total(Earlier()) == 600 by {
      var h := Earlier();
      assert h[1..] == [h[1], h[2]] && h[1..][1..] == [h[2]] && h[1..][1..][1..] == [];
    }
    first := service.Spend(150);
    FirstReport(first.value);
    SpendLeavesLaterPayersOut();
    assert Total(Remaining()) == 450 by {
      var h := Remaining();
      assert h[1..] == [h[1], h[2]] && h[1..][1..] == [h[2]] && h[1..][1..][1..] == [];
    }
    second := service.Spend(205);
    SecondReport(second.value);
  }

  /** Spending more than the pool, or less than one point, fails with the matching error. */
  method RejectBadAmounts() returns (over: Result<seq<PayerPointDelta>>, zero: Result<seq<PayerPointDelta>>,
                                     negative: Result<seq<PayerPointDelta>>)
    ensures over == Failure(InsufficientPoints)
    ensures zero == Failure(InvalidAmount) && negative == Failure(InvalidAmount)
  {
    var history := [Transaction("ALPHA", 100, 1), Transaction("BRAVO", 200, 2)];
    var service := Load(history);
    assert Total(history) == 300 by {
      assert history[1..] == [history[1]] && history[1..][1..] == [];
    }
    over := service.Spend(301);
    zero := service.Spend(0);
    negative := service.Spend(-1);
  }

  /** A new service holds no records, so it reports no balances. */
  method InitialBalances() returns (balances: map<string, int>)
    ensures balances == map[]
  {
    var service := new DefaultPointsService();
    balances := service.GetBalances();
    assert balances.Keys == {};
  }

  /** Spending 250 from one payer's two records returns the one delta of -250. */
  method SpendSinglePayer() returns (report: Result<seq<PayerPointDelta>>)
    ensures report == Success([PayerPointDelta("DANNON", -250)])
  {
    var service := Load(SinglePayer());
    assert Total(SinglePayer()) == 300 by {
      var h := SinglePayer();
      assert h[1..] == [h[1]] && h[1..][1..] == [];
    }
    report := service.Spend(250);
    ReportOfSinglePayer(report.value);
  }

  /** Records added in time order are spent in that order. */
  method SpendChronological() returns (report: Result<seq<PayerPointDelta>>)
    ensures report == Success([PayerPointDelta("DANNON", -100), PayerPointDelta("UNILEVER", -200),
                               PayerPointDelta("MILLER COORS", -4700)])
  {
    var service := Load(InTimeOrder());
    assert Total(InTimeOrder()) == 11300 by {
      var h := InTimeOrder();
      assert h[1..] == [h[1], h[2], h[3], h[4]];
      assert h[1..][1..] == [h[2], h[3], h[4]];
      assert h[1..][1..][1..] == [h[3], h[4]];
      assert h[1..][1..][1..][1..] == [h[4]];
      assert h[1..][1..][1..][1..][1..] == [];
    }
    report := service.Spend(5000);
    ReportInTimeOrder(report.value);
  }
}
