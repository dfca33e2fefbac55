/**
 * The records of the points service: the immutable `Transaction` a client
 * submits, the ledger-owned `MutableTransaction` whose points are spent in
 * place, the per-payer `PayerPointDelta` a spend reports, and the two errors.
 * Timestamps are whole numbers compared with `<=`; a later instant is a larger number.
 */
module Model {

  /** An immutable transaction: points (possibly negative, a correction) earned from a payer at a time. */
  datatype Transaction = Transaction(payer: string, points: int, timestamp: int)

  /** The change in one payer's points caused by one spend. */
  datatype PayerPointDelta = PayerPointDelta(payer: string, points: int)

  /** The two failures: spending less than one point, and spending more points than are available. */
  datatype PointsError = InvalidAmount | InsufficientPoints

  /** The outcome of a check or of an operation that returns nothing. */
  datatype Outcome = Pass | Fail(error: PointsError)

  /** The outcome of an operation that returns a value. */
  datatype Result<T> = Success(value: T) | Failure(error: PointsError)

  function Timestamp(t: Transaction): int
  {
    t.timestamp
  }

  /**
   * A transaction held by the ledger. Payer and timestamp are fixed at
   * construction; only the remaining points change, through `SpendPoints`.
   */
  class MutableTransaction {
    const payer: string
    var points: int
    const timestamp: int

    /** Copies payer, points and timestamp of the submitted transaction. */
    constructor (transaction: Transaction)
      ensures payer == transaction.payer
      ensures points == transaction.points
      ensures timestamp == transaction.timestamp
    {
      payer := transaction.payer;
      points := transaction.points;
      timestamp := transaction.timestamp;
    }

    /** The record's current value. */
    function Snapshot(): Transaction
      reads this
    {
      Transaction(payer, points, timestamp)
    }

    /**
     * Deducts `amount` from the remaining points. Fails, changing nothing,
     * when `amount` exceeds them; a negative `amount` adds points.
     */
    method SpendPoints(amount: int) returns (outcome: Outcome)
      modifies this
      ensures outcome == (if amount > old(points) then Fail(InsufficientPoints) else Pass)
      ensures outcome.Fail? ==> points == old(points)
      ensures outcome.Pass? ==> points == old(points) - amount && points >= 0
    {
      if amount > points {
        return Fail(InsufficientPoints);
      }
      points := points - amount;
      outcome := Pass;
    }
  }

  /** The timestamp of a ledger-held transaction; fixed for the object's lifetime. */
  function TimestampOf(t: MutableTransaction): int
  {
    t.timestamp
  }

  /** The current values of a sequence of ledger-held transactions. */
  ghost function Snapshots(ts: seq<MutableTransaction>): (es: seq<Transaction>)
    reads ts
    ensures |es| == |ts|
  {
    if ts == [] then [] else [ts[0].Snapshot()] + Snapshots(ts[1..])
  }

  /** The `i`-th value is the current value of the `i`-th transaction. */
  lemma {:induction false} SnapshotsIndex(ts: seq<MutableTransaction>)
    ensures forall i :: 0 <= i < |ts| ==> Snapshots(ts)[i] == ts[i].Snapshot()
  {
    if ts != [] {
      SnapshotsIndex(ts[1..]);
    }
  }

  /** The values of a concatenation are the concatenated values. */
  lemma {:induction false} SnapshotsAppend(a: seq<MutableTransaction>, b: seq<MutableTransaction>)
    ensures Snapshots(a + b) == Snapshots(a) + Snapshots(b)
  {
    if a == [] {
      assert a + b == b;
    } else {
      assert (a + b)[1..] == a[1..] + b;
      SnapshotsAppend(a[1..], b);
    }
  }

  /** Ledger-held transactions whose current values are `es`. */
  lemma SnapshotsAre(ts: seq<MutableTransaction>, es: seq<Transaction>)
    requires |ts| == |es|
    requires forall i :: 0 <= i < |ts| ==> ts[i].Snapshot() == es[i]
    ensures Snapshots(ts) == es
  {
    SnapshotsIndex(ts);
  }
}
