/** The balance snapshots: a running balance walked backwards over the changes of each time bucket. */
module Snapshots {
  import opened Types
  import opened Sums
  import opened Aggregation

  /** A time bucket and the change of the balance in it. */
  datatype Change = Change(bucket: Hour, amount: int)

  function Amount(c: Change): int {
    c.amount
  }

  /** The snapshots made from `rows`: each bucket gets the running balance before its change is taken off. */
  function SnapshotsOf(total: int, rows: seq<Change>): map<Hour, int> {
    if rows == [] then map[]
    else
      var init := rows[..|rows| - 1];
      SnapshotsOf(total, init)[rows[|rows| - 1].bucket := total - SeqSum(init, Amount)]
  }

  /** The loop of the endpoint over rows sorted by bucket, latest first. */
  method BalanceSnapshots(total: int, rows: seq<Change>) returns (snapshots: map<Hour, int>)
    ensures snapshots == SnapshotsOf(total, rows)
  {
    snapshots := map[];
    var running := total;
    for i := 0 to |rows|
      invariant running == total - SeqSum(rows[..i], Amount)
      invariant snapshots == SnapshotsOf(total, rows[..i])
    {
      var current := running;
      running := running - rows[i].amount;
      snapshots := snapshots[rows[i].bucket := current];
      assert rows[..i + 1][..i] == rows[..i];
    }
    assert rows[..|rows|] == rows;
  }

  /** The last row of a bucket decides its snapshot. */
  lemma {:induction false} SnapshotAt(total: int, rows: seq<Change>, i: nat)
    requires i < |rows| && forall j | i < j < |rows| :: rows[j].bucket != rows[i].bucket
    ensures rows[i].bucket in SnapshotsOf(total, rows)
    ensures SnapshotsOf(total, rows)[rows[i].bucket] == total - SeqSum(rows[..i], Amount)
  {
    var init := rows[..|rows| - 1];
    if i < |rows| - 1 {
      SnapshotAt(total, init, i);
      assert init[..i] == rows[..i];
    } else {
      assert init == rows[..i];
    }
  }

  /**
   * A bucket with several rows, as in the day and week series, shows the balance at its end exactly when its changes
   * other than the last row cancel.
   */
  lemma SharedBucketIff(total: int, rows: seq<Change>, first: nat, last: nat)
    requires first <= last < |rows| && forall j | last < j < |rows| :: rows[j].bucket != rows[last].bucket
    ensures rows[last].bucket in SnapshotsOf(total, rows)
    ensures SnapshotsOf(total, rows)[rows[last].bucket] == total - SeqSum(rows[..first], Amount)
       <==> SeqSum(rows[first..last], Amount) == 0
  {
    SnapshotAt(total, rows, last);
    SeqSumConcat(rows[..first], rows[first..last], Amount);
    assert rows[..first] + rows[first..last] == rows[..last];
  }

  // ---- the hourly series ----

  /** One row per hour from `now` back over `span` hours; an hour without a statistic counts as no change. */
  function Hourly(stats: map<(Address, Hour), int>, a: Address, now: Hour, span: nat): seq<Change> {
    seq(span + 1, i requires 0 <= i <= span => Change(now - i, GetOrZero(stats, (a, now - i))))
  }

  ghost function UpToWeight(a: Address, hour: Hour): ((Address, Hour), int) -> int {
    (k: (Address, Hour), v: int) => if k.0 == a && k.1 <= hour then v else 0
  }

  ghost function AfterWeight(a: Address, hour: Hour): ((Address, Hour), int) -> int {
    (k: (Address, Hour), v: int) => if k.0 == a && k.1 > hour then v else 0
  }

  ghost function AtWeight(a: Address, hour: Hour): ((Address, Hour), int) -> int {
    (k: (Address, Hour), v: int) => if k.0 == a && k.1 == hour then v else 0
  }

  /** The sum of every change of `a` at or before `hour`. */
  ghost function BalanceAt(stats: map<(Address, Hour), int>, a: Address, hour: Hour): int {
    Total(stats, UpToWeight(a, hour))
  }

  lemma OneHour(stats: map<(Address, Hour), int>, a: Address, hour: Hour)
    ensures BalanceAt(stats, a, hour) == BalanceAt(stats, a, hour - 1) + GetOrZero(stats, (a, hour))
  {
    TotalSplit(stats, UpToWeight(a, hour), UpToWeight(a, hour - 1), AtWeight(a, hour));
    TotalOne(stats, (a, hour), AtWeight(a, hour));
  }

  lemma {:induction false} HourlySum(stats: map<(Address, Hour), int>, a: Address, now: Hour, span: nat, i: nat)
    requires i <= span + 1
    ensures BalanceAt(stats, a, now) == BalanceAt(stats, a, now - i) + SeqSum(Hourly(stats, a, now, span)[..i], Amount)
  {
    var rows := Hourly(stats, a, now, span);
    if i == 0 {
    } else {
      HourlySum(stats, a, now, span, i - 1);
      var hour := now - (i - 1);
      assert rows[..i] == rows[..i - 1] + [rows[i - 1]];
      SeqSumSnoc(rows[..i - 1], rows[i - 1], Amount);
      OneHour(stats, a, hour);
      assert now - i == hour - 1 && rows[i - 1] == Change(hour, GetOrZero(stats, (a, hour)));
    }
  }

  /**
   * At hourly steps every snapshot is the sum of all changes at or before its hour, exactly when the statistics after
   * the current hour net to zero. It rests on the balance row agreeing with the statistics.
   */
  lemma HourlySnapshotsIff(s: State, a: Address, now: Hour, span: nat)
    requires Agree(s)
    ensures var shown := SnapshotsOf(GetOrZero(s.balances, a), Hourly(s.stats, a, now, span));
      && (forall hour | now - span <= hour <= now :: hour in shown)
      && ((forall hour | now - span <= hour <= now :: shown[hour] == BalanceAt(s.stats, a, hour))
          <==> Total(s.stats, AfterWeight(a, now)) == 0)
  {
    var total, rows := GetOrZero(s.balances, a), Hourly(s.stats, a, now, span);
    TotalSplit(s.stats, StatWeight(a), UpToWeight(a, now), AfterWeight(a, now));
    forall hour | now - span <= hour <= now
      ensures hour in SnapshotsOf(total, rows)
      ensures SnapshotsOf(total, rows)[hour] == BalanceAt(s.stats, a, hour) + Total(s.stats, AfterWeight(a, now))
    {
      var i := now - hour;
      SnapshotAt(total, rows, i);
      HourlySum(s.stats, a, now, span, i);
      assert rows[i].bucket == hour;
    }
    assert now in SnapshotsOf(total, rows);
  }
}
