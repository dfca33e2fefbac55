/**
 * The ledger's arithmetic on values: balances, the spend walk and what it
 * leaves behind. The class `DefaultPointsService` is proved to compute
 * exactly these functions; the lemmas here state what they mean.
 *
 * The walk is the one `spendFromOrderedTransactions` performs: for each
 * record, oldest first, it takes `min(points, left)`, where `left` is the
 * amount still owed, and it stops as soon as `left` is 0. A record with
 * negative points that the walk reaches is not skipped: the `min` is the
 * negative value, `left` grows by it and the record ends at 0.
 */
module Ledger {
  import opened Sequences
  import opened Model

  function Points(t: Transaction): int
  {
    t.points
  }

  /** The points of `t` if it belongs to `payer`, otherwise 0. */
  function PayerPoints(payer: string): Transaction -> int
  {
    (t: Transaction) => if t.payer == payer then t.points else 0
  }

  /** The spend pool: the sum of all records' points, negative corrections included. */
  function Total(es: seq<Transaction>): int
  {
    SumOf(es, Points)
  }

  /** A payer's balance: the sum of that payer's records' points, negative corrections included. */
  function PayerBalance(es: seq<Transaction>, payer: string): int
  {
    SumOf(es, PayerPoints(payer))
  }

  /** The payers that have at least one record. */
  function PayersOf(es: seq<Transaction>): set<string>
  {
    set i | 0 <= i < |es| :: es[i].payer
  }

  /** A payer without records has balance 0. */
  lemma {:induction false} PayerBalanceAbsent(es: seq<Transaction>, payer: string)
    requires payer !in PayersOf(es)
    ensures PayerBalance(es, payer) == 0
  {
    if es != [] {
      assert PayersOf(es[1..]) <= PayersOf(es) by {
        forall q | q in PayersOf(es[1..]) ensures q in PayersOf(es) {
          var i :| 0 <= i < |es[1..]| && es[1..][i].payer == q;
          assert es[i + 1].payer == q;
        }
      }
      assert es[0].payer in PayersOf(es);
      PayerBalanceAbsent(es[1..], payer);
    }
  }

  /** `balances` holds one entry per payer with records in `es`, carrying that payer's balance. */
  ghost predicate IsBalances(balances: map<string, int>, es: seq<Transaction>)
  {
    && (forall payer :: payer in balances <==> payer in PayersOf(es))
    && (forall payer :: payer in balances ==> balances[payer] == PayerBalance(es, payer))
  }

  /** The map update of the balance loop: a payer seen first starts at the record's points, a payer seen again adds them. */
  function AddToBalance(balances: map<string, int>, t: Transaction): map<string, int>
  {
    if t.payer !in balances then balances[t.payer := t.points] else balances[t.payer := balances[t.payer] + t.points]
  }

  /** Adding record `i` to the balances of the records before it gives the balances of the records up to it. */
  lemma BalancesStep(balances: map<string, int>, es: seq<Transaction>, i: nat)
    requires i < |es| && IsBalances(balances, es[..i])
    ensures IsBalances(AddToBalance(balances, es[i]), es[..i + 1])
  {
    var payer := es[i].payer;
    forall p ensures PayerBalance(es[..i + 1], p) == PayerBalance(es[..i], p) + PayerPoints(p)(es[i]) {
      SumOfPrefixStep(es, i, PayerPoints(p));
    }
    assert PayersOf(es[..i + 1]) == PayersOf(es[..i]) + {payer} by {
      assert es[..i + 1][i] == es[i];
      assert forall j :: 0 <= j < i ==> es[..i + 1][j] == es[..i][j];
    }
    if payer !in balances {
      PayerBalanceAbsent(es[..i], payer);
    }
  }

  function Min(a: int, b: int): int
  {
    if a <= b then a else b
  }

  /**
   * What the spend walk takes from each record it visits, in visiting order;
   * the walk starts owing `left` and visits `|Deductions(es, left)|` records.
   */
  function Deductions(es: seq<Transaction>, left: int): (d: seq<int>)
    ensures |d| <= |es|
  {
    if es == [] then []
    else
      var taken := Min(es[0].points, left);
      [taken] + (if left - taken == 0 then [] else Deductions(es[1..], left - taken))
  }

  /** The records after deducting `d[i]` from the `i`-th one. */
  function Deduct(es: seq<Transaction>, d: seq<int>): seq<Transaction>
    requires |d| <= |es|
  {
    seq(|es|, i requires 0 <= i < |es| =>
      if i < |d| then es[i].(points := es[i].points - d[i]) else es[i])
  }

  /** The total taken from the records whose payer is in `payers`, among the first `|d|` records. */
  function PaidBy(es: seq<Transaction>, d: seq<int>, payers: set<string>): int
    requires |d| <= |es|
  {
    if d == [] then 0
    else
      var k := |d| - 1;
      PaidBy(es, d[..k], payers) + (if es[k].payer in payers then d[k] else 0)
  }

  /** The payers of the first `|d|` records. */
  function VisitedPayers(es: seq<Transaction>, d: seq<int>): set<string>
    requires |d| <= |es|
  {
    set i | 0 <= i < |d| :: es[i].payer
  }

  /** One entry per visited payer: minus what was taken from that payer's records. */
  function Tally(es: seq<Transaction>, d: seq<int>): map<string, int>
    requires |d| <= |es|
  {
    map p | p in VisitedPayers(es, d) :: -PaidBy(es, d, {p})
  }

  /** The map update of the spend loop: a payer seen first is put at minus `x`, a payer seen again is lowered by `x`. */
  function Credit(m: map<string, int>, payer: string, x: int): map<string, int>
  {
    if payer !in m then m[payer := x * -1] else m[payer := m[payer] - x]
  }

  /**
   * The spend loop resumed at record `i`, owing `left`, with the deltas `m`
   * gathered so far: the records and the deltas it finishes with. Each step
   * takes `min(points, left)` from record `i`, credits it to that record's
   * payer, and stops once nothing is owed or the records run out.
   */
  function Walk(es: seq<Transaction>, i: nat, left: int, m: map<string, int>): (r: (seq<Transaction>, map<string, int>))
    requires i <= |es|
    ensures |r.0| == |es|
    decreases |es| - i
  {
    if i == |es| then (es, m)
    else
      var x := Min(es[i].points, left);
      var es', m' := es[i := es[i].(points := es[i].points - x)], Credit(m, es[i].payer, x);
      if left - x == 0 then (es', m') else Walk(es', i + 1, left - x, m')
  }

  /** One step of the loop: record `i` gives `x`, and the loop stops there or resumes at the next record. */
  lemma WalkNext(es: seq<Transaction>, i: nat, left: int, m: map<string, int>, x: int, m2: map<string, int>)
    requires i < |es| && x == Min(es[i].points, left) && m2 == Credit(m, es[i].payer, x)
    ensures left - x == 0 ==> Walk(es, i, left, m) == (es[i := es[i].(points := es[i].points - x)], m2)
    ensures left - x != 0 ==> Walk(es, i, left, m) == Walk(es[i := es[i].(points := es[i].points - x)], i + 1, left - x, m2)
  {
  }

  /** The records, in walking order, after a spend of `n`. */
  function AfterSpend(es: seq<Transaction>, n: int): seq<Transaction>
  {
    Walk(es, 0, n, map[]).0
  }

  /** The per-payer deltas of a spend of `n`. */
  function SpentPerPayer(es: seq<Transaction>, n: int): map<string, int>
  {
    Walk(es, 0, n, map[]).1
  }

  /** `Credit` applied, starting from `m`, for each amount of `d` and the payer of the matching record of `es`. */
  function TallyFrom(m: map<string, int>, es: seq<Transaction>, d: seq<int>): map<string, int>
    requires |d| <= |es|
    decreases |d|
  {
    if d == [] then m else TallyFrom(Credit(m, es[0].payer, d[0]), es[1..], d[1..])
  }

  function DeltaPoints(delta: PayerPointDelta): int
  {
    delta.points
  }

  /** `list` holds exactly one entry per payer of `spent`, carrying that payer's delta. */
  ghost predicate Lists(list: seq<PayerPointDelta>, spent: map<string, int>)
  {
    && (forall i, j :: 0 <= i < j < |list| ==> list[i].payer != list[j].payer)
    && (forall i :: 0 <= i < |list| ==> list[i].payer in spent && list[i].points == spent[list[i].payer])
    && (forall p :: p in spent ==> exists i :: 0 <= i < |list| && list[i].payer == p)
  }

  /** `list` reports the deltas in `spent`, one entry per payer, sorted by delta in descending order. */
  ghost predicate Reports(list: seq<PayerPointDelta>, spent: map<string, int>)
  {
    && Lists(list, spent)
    && (forall i, j :: 0 <= i < j < |list| ==> list[i].points >= list[j].points)
  }

  /** `list` lists the entries of `spent` whose payer is not in `remaining`. */
  ghost predicate ListsAllBut(list: seq<PayerPointDelta>, spent: map<string, int>, remaining: set<string>)
  {
    && remaining <= spent.Keys
    && (forall i, j :: 0 <= i < j < |list| ==> list[i].payer != list[j].payer)
    && (forall i :: 0 <= i < |list| ==>
         list[i].payer in spent && list[i].payer !in remaining && list[i].points == spent[list[i].payer])
    && (forall p :: p in spent && p !in remaining ==> exists i :: 0 <= i < |list| && list[i].payer == p)
  }

  /** Listing one more payer's entry takes that payer off the remaining ones; once none remain, all are listed. */
  lemma ListsOneMore(list: seq<PayerPointDelta>, spent: map<string, int>, remaining: set<string>, payer: string)
    requires ListsAllBut(list, spent, remaining) && payer in remaining
    ensures ListsAllBut(list + [PayerPointDelta(payer, spent[payer])], spent, remaining - {payer})
  {
    var list' := list + [PayerPointDelta(payer, spent[payer])];
    forall q | q in spent && q !in remaining - {payer}
      ensures exists i :: 0 <= i < |list'| && list'[i].payer == q
    {
      if q == payer {
        assert list'[|list|].payer == q;
      } else {
        var i :| 0 <= i < |list| && list[i].payer == q;
        assert list'[i] == list[i];
      }
    }
  }

  // ---------------------------------------------------------------------------
  // The walk

  /**
   * Whatever it owes, the walk never takes more than a record holds, so
   * `spendPoints` cannot fail inside it; and it takes every record but the
   * last one it visits whole.
   */
  lemma {:induction false} DeductionsShape(es: seq<Transaction>, left: int)
    ensures forall i :: 0 <= i < |Deductions(es, left)| ==> Deductions(es, left)[i] <= es[i].points
    ensures forall i :: 0 <= i < |Deductions(es, left)| - 1 ==> Deductions(es, left)[i] == es[i].points
  {
    if es != [] {
      var taken := Min(es[0].points, left);
      if left - taken != 0 {
        DeductionsShape(es[1..], left - taken);
      }
    }
  }

  /**
   * Starting from a positive debt, the walk still owes something after each
   * record but the last it visits, and when the pool covers the debt it ends owing exactly 0.
   */
  lemma {:induction false} DeductionsOwe(es: seq<Transaction>, left: int)
    requires 1 <= left
    ensures forall j :: 1 <= j < |Deductions(es, left)| ==> Sum(Deductions(es, left)[..j]) < left
    ensures left <= Total(es) ==> 1 <= |Deductions(es, left)| && Sum(Deductions(es, left)) == left
  {
    var d := Deductions(es, left);
    if es != [] {
      var taken := Min(es[0].points, left);
      assert Total(es) == es[0].points + Total(es[1..]);
      if left - taken == 0 {
        assert d == [left];
        assert Sum(d) == left + Sum([]);
      } else {
        var d' := Deductions(es[1..], left - taken);
        assert d == [taken] + d';
        DeductionsOwe(es[1..], left - taken);
        assert d[1..] == d';
        assert Sum(d) == taken + Sum(d');
        forall j | 1 <= j < |d| ensures Sum(d[..j]) < left {
          assert d[..j][0] == taken && d[..j][1..] == d'[..j - 1];
          assert Sum(d[..j]) == taken + Sum(d'[..j - 1]);
          if j == 1 {
            assert d'[..j - 1] == [];
          }
        }
      }
    }
  }

  /** Where the walk took records whole, what it took equals their total. */
  lemma {:induction false} TakenWhole(es: seq<Transaction>, d: seq<int>, j: nat)
    requires j <= |d| <= |es|
    requires forall i :: 0 <= i < j ==> d[i] == es[i].points
    ensures Sum(d[..j]) == Total(es[..j])
  {
    if j > 0 {
      TakenWhole(es, d, j - 1);
      SumOfPrefixStep(d, j - 1, Identity);
      SumOfPrefixStep(es, j - 1, Points);
    }
  }

  /**
   * When `1 <= n <= Total(es)` the walk ends owing exactly 0 and visits the
   * shortest prefix whose total reaches `n`: every record before the last
   * visited one is taken whole, and the last gives what was still owed.
   */
  lemma DeductionsWalk(es: seq<Transaction>, n: int)
    requires 1 <= n <= Total(es)
    ensures 1 <= |Deductions(es, n)| <= |es|
    ensures Sum(Deductions(es, n)) == n
    ensures forall i :: 0 <= i < |Deductions(es, n)| - 1 ==>
      Deductions(es, n)[i] == es[i].points && Total(es[..i + 1]) < n
    ensures Deductions(es, n)[|Deductions(es, n)| - 1] == n - Total(es[..|Deductions(es, n)| - 1])
    ensures Deductions(es, n)[|Deductions(es, n)| - 1] <= es[|Deductions(es, n)| - 1].points
    ensures Total(es[..|Deductions(es, n)|]) >= n
  {
    var d := Deductions(es, n);
    DeductionsShape(es, n);
    DeductionsOwe(es, n);
    var k := |d| - 1;
    forall i | 0 <= i < k ensures d[i] == es[i].points && Total(es[..i + 1]) < n {
      TakenWhole(es, d, i + 1);
      assert Sum(d[..i + 1]) < n;
    }
    assert d[k] == n - Total(es[..k]) && Total(es[..|d|]) >= n by {
      TakenWhole(es, d, k);
      SumOfPrefixStep(d, k, Identity);
      assert d[..k + 1] == d;
      SumOfPrefixStep(es, k, Points);
    }
  }

  /**
   * After a spend of `1 <= n <= Total(es)`, every record visited before the
   * break holds 0 points (negative corrections included), the last visited
   * record keeps what exceeded the amount still owed, which is not negative,
   * and the records after the break are untouched. Payers and timestamps never change.
   */
  lemma SpendSettlesVisited(es: seq<Transaction>, n: int)
    requires 1 <= n <= Total(es)
    ensures 1 <= |Deductions(es, n)| <= |es| == |AfterSpend(es, n)|
    ensures forall i :: 0 <= i < |es| ==>
      AfterSpend(es, n)[i].payer == es[i].payer && AfterSpend(es, n)[i].timestamp == es[i].timestamp
    ensures forall i :: 0 <= i < |Deductions(es, n)| - 1 ==> AfterSpend(es, n)[i].points == 0
    ensures AfterSpend(es, n)[|Deductions(es, n)| - 1].points
      == es[|Deductions(es, n)| - 1].points - (n - Total(es[..|Deductions(es, n)| - 1])) >= 0
    ensures forall i :: |Deductions(es, n)| <= i < |es| ==> AfterSpend(es, n)[i] == es[i]
  {
    WalkTakesDeductions(es, n);
    DeductionsWalk(es, n);
  }

  /**
   * Oldest first: over records sorted by timestamp, a record is charged only
   * when every strictly older record has been spent down to 0.
   */
  lemma SpendTakesOldestFirst(es: seq<Transaction>, n: int, older: nat, charged: nat)
    requires SortedBy(es, Timestamp)
    requires 1 <= n <= Total(es)
    requires charged < |Deductions(es, n)| && older < |es|
    requires es[older].timestamp < es[charged].timestamp
    ensures AfterSpend(es, n)[older].points == 0
  {
    WalkTakesDeductions(es, n);
    DeductionsWalk(es, n);
    assert older < charged;
  }

  // ---------------------------------------------------------------------------
  // Conservation

  lemma DeductStep(es: seq<Transaction>, d: seq<int>)
    requires 1 <= |d| <= |es|
    ensures Deduct(es, d) == Deduct(es, d[..|d| - 1])[|d| - 1 := es[|d| - 1].(points := es[|d| - 1].points - d[|d| - 1])]
  {
  }

  lemma {:induction false} SumOfUpdate<T>(s: seq<T>, k: nat, y: T, f: T -> int)
    requires k < |s|
    ensures SumOf(s[k := y], f) == SumOf(s, f) - f(s[k]) + f(y)
  {
    if k > 0 {
      assert s[k := y][1..] == s[1..][k - 1 := y];
      SumOfUpdate(s[1..], k - 1, y, f);
    } else {
      assert s[k := y][1..] == s[1..];
    }
  }

  /** Deducting `d` lowers a payer's balance by what was taken from that payer's records. */
  lemma {:induction false} DeductBalance(es: seq<Transaction>, d: seq<int>, payer: string)
    requires |d| <= |es|
    ensures PayerBalance(Deduct(es, d), payer) == PayerBalance(es, payer) - PaidBy(es, d, {payer})
  {
    if d == [] {
      assert Deduct(es, d) == es;
    } else {
      var k := |d| - 1;
      DeductBalance(es, d[..k], payer);
      DeductStep(es, d);
      SumOfUpdate(Deduct(es, d[..k]), k, es[k].(points := es[k].points - d[k]), PayerPoints(payer));
    }
  }

  /** Deducting `d` lowers the spend pool by the sum of `d`. */
  lemma {:induction false} DeductTotal(es: seq<Transaction>, d: seq<int>)
    requires |d| <= |es|
    ensures Total(Deduct(es, d)) == Total(es) - Sum(d)
  {
    if d == [] {
      assert Deduct(es, d) == es;
    } else {
      var k := |d| - 1;
      DeductTotal(es, d[..k]);
      DeductStep(es, d);
      SumOfUpdate(Deduct(es, d[..k]), k, es[k].(points := es[k].points - d[k]), Points);
      SumOfPrefixStep(d, k, Identity);
      assert d[..k + 1] == d;
    }
  }

  /** A spend of `1 <= n <= Total(es)` lowers the spend pool by exactly `n`. */
  lemma SpendLowersTotal(es: seq<Transaction>, n: int)
    requires 1 <= n <= Total(es)
    ensures Total(AfterSpend(es, n)) == Total(es) - n
  {
    WalkTakesDeductions(es, n);
    DeductionsWalk(es, n);
    DeductTotal(es, Deductions(es, n));
  }

  lemma {:induction false} PaidByOthers(es: seq<Transaction>, d: seq<int>, payers: set<string>)
    requires |d| <= |es|
    requires forall i :: 0 <= i < |d| ==> es[i].payer !in payers
    ensures PaidBy(es, d, payers) == 0
  {
    if d != [] {
      PaidByOthers(es, d[..|d| - 1], payers);
    }
  }

  /**
   * Per payer, the balance after a spend is the balance before plus that
   * payer's delta; a payer without a delta keeps its balance.
   */
  lemma SpendMovesBalances(es: seq<Transaction>, n: int, payer: string)
    ensures payer in SpentPerPayer(es, n) ==>
      PayerBalance(AfterSpend(es, n), payer) == PayerBalance(es, payer) + SpentPerPayer(es, n)[payer]
    ensures payer !in SpentPerPayer(es, n) ==> PayerBalance(AfterSpend(es, n), payer) == PayerBalance(es, payer)
  {
    WalkTakesDeductions(es, n);
    var d := Deductions(es, n);
    DeductBalance(es, d, payer);
    if payer !in VisitedPayers(es, d) {
      PaidByOthers(es, d, {payer});
    }
  }

  // ---------------------------------------------------------------------------
  // The per-payer deltas

  /** One more visited record credits what was taken from it to its payer. */
  lemma TallyStep(es: seq<Transaction>, d: seq<int>, x: int)
    requires |d| < |es|
    ensures Tally(es, d + [x]) == Credit(Tally(es, d), es[|d|].payer, x)
  {
    var m, payer, d' := Tally(es, d), es[|d|].payer, d + [x];
    assert d'[..|d|] == d;
    assert VisitedPayers(es, d') == VisitedPayers(es, d) + {payer};
    if payer !in m {
      PaidByOthers(es, d, {payer});
    }
  }

  /** Crediting the amounts after `d` one by one, starting from the tally of `d`, yields the tally of the whole. */
  lemma {:induction false} TallyFromTally(es: seq<Transaction>, d: seq<int>, e: seq<int>)
    requires |d| + |e| <= |es|
    ensures TallyFrom(Tally(es, d), es[|d|..], e) == Tally(es, d + e)
    decreases |e|
  {
    if e == [] {
      assert d + e == d;
    } else {
      var d' := d + [e[0]];
      assert TallyFrom(Tally(es, d), es[|d|..], e) == TallyFrom(Tally(es, d'), es[|d'|..], e[1..]) by {
        TallyStep(es, d, e[0]);
        assert es[|d|..][1..] == es[|d'|..];
      }
      assert d' + e[1..] == d + e;
      TallyFromTally(es, d', e[1..]);
    }
  }

  /** Deducting from the first record and then from the rest. */
  lemma DeductCons(es: seq<Transaction>, x: int, d: seq<int>)
    requires |d| < |es|
    ensures Deduct(es, [x] + d) == [es[0].(points := es[0].points - x)] + Deduct(es[1..], d)
  {
  }

  /** The walk resumed at record `i` takes `min(points, left)` from it, then goes on with the next record unless nothing is owed. */
  lemma DeductionsAt(es: seq<Transaction>, i: nat, left: int, x: int)
    requires i < |es| && x == Min(es[i].points, left)
    ensures left - x == 0 ==> Deductions(es[i..], left) == [x]
    ensures left - x != 0 ==> Deductions(es[i..], left) == [x] + Deductions(es[i + 1..], left - x)
  {
    assert es[i..][1..] == es[i + 1..];
  }

  /** Deducting `[x] + rest` from the records from `i` on is deducting `x` from record `i`, then `rest` from the ones after it. */
  lemma DeductAt(es: seq<Transaction>, i: nat, x: int, rest: seq<int>, es': seq<Transaction>)
    requires i < |es| && |rest| < |es| - i
    requires es' == es[i := es[i].(points := es[i].points - x)]
    ensures es[..i] + Deduct(es[i..], [x] + rest) == es'[..i + 1] + Deduct(es'[i + 1..], rest)
  {
    DeductCons(es[i..], x, rest);
    assert es[i..][1..] == es'[i + 1..];
    assert es'[..i + 1] == es[..i] + [es'[i]];
  }

  /** Crediting `[x] + rest` from record `i` on is crediting `x` to record `i`'s payer, then `rest` from the next record on. */
  lemma TallyFromAt(m: map<string, int>, es: seq<Transaction>, i: nat, x: int, rest: seq<int>)
    requires i < |es| && |rest| < |es| - i
    ensures TallyFrom(m, es[i..], [x] + rest) == TallyFrom(Credit(m, es[i].payer, x), es[i + 1..], rest)
  {
    assert ([x] + rest)[1..] == rest;
    assert es[i..][1..] == es[i + 1..];
  }

  /** Resumed at record `i`, the loop deducts exactly what `Deductions` prescribes for the records from `i` on. */
  lemma {:induction false} WalkRecords(es: seq<Transaction>, i: nat, left: int, m: map<string, int>)
    requires i <= |es|
    ensures Walk(es, i, left, m).0 == es[..i] + Deduct(es[i..], Deductions(es[i..], left))
    decreases |es| - i
  {
    if i == |es| {
      assert es[..i] + Deduct(es[i..], []) == es;
    } else {
      var x := Min(es[i].points, left);
      var es', m' := es[i := es[i].(points := es[i].points - x)], Credit(m, es[i].payer, x);
      DeductionsAt(es, i, left, x);
      WalkNext(es, i, left, m, x, m');
      if left - x != 0 {
        var rest := Deductions(es[i + 1..], left - x);
        DeductAt(es, i, x, rest, es');
        WalkRecords(es', i + 1, left - x, m');
        assert es'[i + 1..] == es[i + 1..];
      } else {
        DeductAt(es, i, x, [], es');
        assert es'[..i + 1] + Deduct(es'[i + 1..], []) == es';
      }
    }
  }

  /** Resumed at record `i`, the loop credits exactly what `Deductions` prescribes for the records from `i` on. */
  lemma {:induction false} WalkTally(es: seq<Transaction>, i: nat, left: int, m: map<string, int>)
    requires i <= |es|
    ensures Walk(es, i, left, m).1 == TallyFrom(m, es[i..], Deductions(es[i..], left))
    decreases |es| - i
  {
    if i < |es| {
      var x := Min(es[i].points, left);
      var es', m' := es[i := es[i].(points := es[i].points - x)], Credit(m, es[i].payer, x);
      DeductionsAt(es, i, left, x);
      WalkNext(es, i, left, m, x, m');
      if left - x != 0 {
        TallyFromAt(m, es, i, x, Deductions(es[i + 1..], left - x));
        WalkTally(es', i + 1, left - x, m');
        assert es'[i + 1..] == es[i + 1..];
      } else {
        TallyFromAt(m, es, i, x, []);
      }
    }
  }

  /**
   * The spend loop, run from the first record owing `n`, deducts `Deductions(es, n)`
   * record by record and reports, per visited payer, minus what it took from that payer.
   */
  lemma WalkTakesDeductions(es: seq<Transaction>, n: int)
    ensures AfterSpend(es, n) == Deduct(es, Deductions(es, n))
    ensures SpentPerPayer(es, n) == Tally(es, Deductions(es, n))
  {
    var d := Deductions(es, n);
    WalkRecords(es, 0, n, map[]);
    WalkTally(es, 0, n, map[]);
    assert es[0..] == es && es[..0] + Deduct(es, d) == Deduct(es, d);
    assert Tally(es, []) == map[];
    TallyFromTally(es, [], d);
    assert [] + d == d;
  }

  /**
   * The deltas name exactly the payers of the records the walk visited: a
   * payer whose records all lie after the break gets no entry.
   */
  lemma SpentPayersAreVisited(es: seq<Transaction>, n: int)
    ensures forall p :: p in SpentPerPayer(es, n) <==> exists i :: 0 <= i < |Deductions(es, n)| && es[i].payer == p
  {
    WalkTakesDeductions(es, n);
  }

  lemma {:induction false} PaidBySplit(es: seq<Transaction>, d: seq<int>, payer: string, others: set<string>)
    requires |d| <= |es| && payer !in others
    ensures PaidBy(es, d, {payer} + others) == PaidBy(es, d, {payer}) + PaidBy(es, d, others)
  {
    if d != [] {
      PaidBySplit(es, d[..|d| - 1], payer, others);
    }
  }

  lemma {:induction false} PaidByEveryone(es: seq<Transaction>, d: seq<int>, payers: set<string>)
    requires |d| <= |es|
    requires VisitedPayers(es, d) <= payers
    ensures PaidBy(es, d, payers) == Sum(d)
  {
    if d != [] {
      var k := |d| - 1;
      assert VisitedPayers(es, d[..k]) <= VisitedPayers(es, d);
      assert es[k].payer in VisitedPayers(es, d);
      PaidByEveryone(es, d[..k], payers);
      SumOfPrefixStep(d, k, Identity);
      assert d[..k + 1] == d;
    }
  }

  function ListPayers(list: seq<PayerPointDelta>): set<string>
  {
    set i | 0 <= i < |list| :: list[i].payer
  }

  lemma {:induction false} ListSumPaid(list: seq<PayerPointDelta>, es: seq<Transaction>, d: seq<int>)
    requires |d| <= |es|
    requires forall i, j :: 0 <= i < j < |list| ==> list[i].payer != list[j].payer
    requires forall i :: 0 <= i < |list| ==> list[i].points == -PaidBy(es, d, {list[i].payer})
    ensures SumOf(list, DeltaPoints) == -PaidBy(es, d, ListPayers(list))
  {
    if list == [] {
      assert ListPayers(list) == {};
      PaidByOthers(es, d, {});
    } else {
      var rest := list[1..];
      ListSumPaid(rest, es, d);
      assert ListPayers(list) == {list[0].payer} + ListPayers(rest);
      assert list[0].payer !in ListPayers(rest);
      PaidBySplit(es, d, list[0].payer, ListPayers(rest));
    }
  }

  /** The deltas reported for a spend of `1 <= n <= Total(es)` add up to exactly `-n`. */
  lemma ReportedDeltasSumToSpend(list: seq<PayerPointDelta>, es: seq<Transaction>, n: int)
    requires 1 <= n <= Total(es)
    requires Reports(list, SpentPerPayer(es, n))
    ensures SumOf(list, DeltaPoints) == -n
  {
    WalkTakesDeductions(es, n);
    var d := Deductions(es, n);
    DeductionsWalk(es, n);
    ListSumPaid(list, es, d);
    var spent := SpentPerPayer(es, n);
    forall p | p in VisitedPayers(es, d) ensures p in ListPayers(list) {
      assert p in spent;
      var i :| 0 <= i < |list| && list[i].payer == p;
    }
    assert ListPayers(list) == VisitedPayers(es, d);
    PaidByEveryone(es, d, ListPayers(list));
  }
}
