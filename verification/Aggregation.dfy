/** What the aggregator does to its event log, balances, hourly statistics and pending coinbase events. */
module Aggregation {
  import opened Types
  import opened Sums
  import opened Conservation

  datatype LogRow = LogRow(height: nat, txid: Txid, address: Address, amount: int, action: Action)

  datatype State = State(
    log: seq<LogRow>,
    balances: map<Address, int>,
    stats: map<(Address, Hour), int>,
    pending: seq<Event>,
    last: nat)

  const START := State([], map[], map[], [], 0)

  const COOLDOWN := 100

  // ---- the steps ----

  function ToRow(e: Event): LogRow {
    LogRow(e.height, e.txid, e.address, e.amount, e.action)
  }

  function ToRows(es: seq<Event>): seq<LogRow> {
    seq(|es|, i requires 0 <= i < |es| => ToRow(es[i]))
  }

  function Negated(r: LogRow): LogRow {
    r.(amount := -r.amount, action := Reorg)
  }

  function AllNegated(rows: seq<LogRow>): seq<LogRow> {
    seq(|rows|, i requires 0 <= i < |rows| => Negated(rows[i]))
  }

  function Filter<T>(s: seq<T>, p: T -> bool): seq<T> {
    if s == [] then []
    else Filter(s[..|s| - 1], p) + if p(s[|s| - 1]) then [s[|s| - 1]] else []
  }

  /** A result set without ORDER BY: the same rows in some order. */
  ghost predicate InSomeOrder<T>(rows: seq<T>, of: seq<T>) {
    multiset(rows) == multiset(of)
  }

  function RowSince(n: nat): LogRow -> bool {
    (r: LogRow) => r.height >= n
  }

  function RowBefore(n: nat): LogRow -> bool {
    (r: LogRow) => r.height < n
  }

  function EventUpTo(n: nat): Event -> bool {
    (e: Event) => e.height <= n
  }

  function EventAfter(n: nat): Event -> bool {
    (e: Event) => e.height > n
  }

  /** Insert one row: log, balance and the statistic of the current hour. */
  function Post(s: State, r: LogRow, hour: Hour): State {
    s.(log := s.log + [r],
       balances := s.balances[r.address := GetOrZero(s.balances, r.address) + r.amount],
       stats := s.stats[(r.address, hour) := GetOrZero(s.stats, (r.address, hour)) + r.amount])
  }

  function PostAll(s: State, rows: seq<LogRow>, hours: seq<Hour>): State
    requires |hours| == |rows|
  {
    if rows == [] then s
    else Post(PostAll(s, rows[..|rows| - 1], hours[..|rows| - 1]), rows[|rows| - 1], hours[|rows| - 1])
  }

  lemma PostNothing(s: State)
    ensures PostAll(s, [], []) == s
  {
  }

  lemma PostOneMore(s: State, rows: seq<LogRow>, hours: seq<Hour>, row: LogRow, hour: Hour)
    requires |hours| == |rows|
    ensures PostAll(s, rows + [row], hours + [hour]) == Post(PostAll(s, rows, hours), row, hour)
  {
    assert (rows + [row])[..|rows|] == rows && (hours + [hour])[..|rows|] == hours;
  }

  /** A coinbase event waits in the pending table; any other is posted at once. */
  function Received(s: State, e: Event, hour: Hour): State {
    if e.isCoinbase then s.(pending := s.pending + [e]) else Post(s, ToRow(e), hour)
  }

  /** `s'` is `s` once the pending events up to `last - 100` moved to the log, in the order `due`. */
  ghost predicate Commits(s: State, s': State, due: seq<Event>, hours: seq<Hour>) {
    if s.last < COOLDOWN then due == [] && s' == s
    else
      var upTo := s.last - COOLDOWN;
      && InSomeOrder(due, Filter(s.pending, EventUpTo(upTo)))
      && |hours| == |due|
      && s' == PostAll(s.(pending := Filter(s.pending, EventAfter(upTo))), ToRows(due), hours)
  }

  /** `s'` is `s` after handling the event `e`. */
  ghost predicate Handles(s: State, e: Event, s': State, hour: Hour, due: seq<Event>, hours: seq<Hour>) {
    var r := Received(s, e, hour);
    if e.height > s.last then Commits(r.(last := e.height), s', due, hours) else due == [] && s' == r
  }

  /**
   * `s'` is `s` after a reorganisation from height `n`, when the rows from `n` on came back as `rows`. Without any row
   * there is no such state: the source unwraps the last row.
   */
  ghost predicate Reorgs(s: State, n: nat, s': State, rows: seq<LogRow>, hours: seq<Hour>) {
    && InSomeOrder(rows, Filter(s.log, RowSince(n)))
    && rows != []
    && |hours| == |rows|
    && var upTo := rows[|rows| - 1].height;
       s' == PostAll(s, AllNegated(rows), hours).(pending := Filter(s.pending, EventAfter(upTo)), last := upTo)
  }

  // ---- filters ----

  lemma {:induction false} FilterIn<T>(s: seq<T>, p: T -> bool, x: T)
    ensures x in Filter(s, p) <==> x in s && p(x)
  {
    if s == [] {
    } else {
      FilterIn(s[..|s| - 1], p, x);
      assert s == s[..|s| - 1] + [s[|s| - 1]];
    }
  }

  lemma {:induction false} FilterSum<T>(s: seq<T>, p: T -> bool, w: T -> int, w': T -> int)
    requires forall x: T | x in s :: w'(x) == if p(x) then w(x) else 0
    ensures SeqSum(Filter(s, p), w) == SeqSum(s, w')
  {
    if s == [] {
    } else {
      var init, x := s[..|s| - 1], s[|s| - 1];
      FilterSum(init, p, w, w');
      SeqSumConcat(Filter(init, p), if p(x) then [x] else [], w);
      assert SeqSum([x], w) == w(x) by { SeqSumSnoc([], x, w); assert [] + [x] == [x]; }
    }
  }

  lemma {:induction false} FilterNone<T>(s: seq<T>, p: T -> bool)
    requires forall x | x in s :: !p(x)
    ensures Filter(s, p) == []
  {
    if s == [] {
    } else {
      FilterNone(s[..|s| - 1], p);
    }
  }

  lemma {:induction false} FilterAppend<T>(s: seq<T>, t: seq<T>, p: T -> bool)
    ensures Filter(s + t, p) == Filter(s, p) + Filter(t, p)
  {
    if t == [] {
      assert s + t == s;
    } else {
      assert (s + t)[..|s + t| - 1] == s + t[..|t| - 1];
      FilterAppend(s, t[..|t| - 1], p);
    }
  }

  lemma {:induction false} FilterSplit<T>(s: seq<T>, p: T -> bool, q: T -> bool)
    requires forall x | x in s :: p(x) <==> !q(x)
    ensures multiset(s) == multiset(Filter(s, p)) + multiset(Filter(s, q))
  {
    if s == [] {
    } else {
      assert s == s[..|s| - 1] + [s[|s| - 1]];
      FilterSplit(s[..|s| - 1], p, q);
    }
  }

  lemma {:induction false} SumZero<T>(s: seq<T>, w: T -> int)
    requires forall x | x in s :: w(x) == 0
    ensures SeqSum(s, w) == 0
  {
    if s == [] {
    } else {
      SumZero(s[..|s| - 1], w);
    }
  }

  // ---- the measures ----

  ghost function RowWeight(a: Address): LogRow -> int {
    (r: LogRow) => if r.address == a then r.amount else 0
  }

  ghost function RowCellWeight(h: nat, a: Address): LogRow -> int {
    (r: LogRow) => if r.address == a && r.height == h then r.amount else 0
  }

  ghost function RowBeforeWeight(n: nat, a: Address): LogRow -> int {
    (r: LogRow) => if r.address == a && r.height < n then r.amount else 0
  }

  ghost function EventWeight(a: Address): Event -> int {
    (e: Event) => if e.address == a then e.amount else 0
  }

  ghost function EventCellWeight(h: nat, a: Address): Event -> int {
    (e: Event) => if e.address == a && e.height == h then e.amount else 0
  }

  ghost function StatWeight(a: Address): ((Address, Hour), int) -> int {
    (k: (Address, Hour), v: int) => if k.0 == a then v else 0
  }

  /** What the log says about address `a` at height `h`. */
  ghost function LogCell(s: State, h: nat, a: Address): int {
    SeqSum(s.log, RowCellWeight(h, a))
  }

  /** What the pending table holds for address `a` at height `h`. */
  ghost function PendingCell(s: State, h: nat, a: Address): int {
    SeqSum(s.pending, EventCellWeight(h, a))
  }

  ghost function Account(s: State, h: nat, a: Address): int {
    LogCell(s, h, a) + PendingCell(s, h, a)
  }

  lemma {:induction false} PostAllLog(s: State, rows: seq<LogRow>, hours: seq<Hour>)
    requires |hours| == |rows|
    ensures PostAll(s, rows, hours).log == s.log + rows
    ensures PostAll(s, rows, hours).pending == s.pending && PostAll(s, rows, hours).last == s.last
  {
    if rows == [] {
      assert s.log + rows == s.log;
    } else {
      PostAllLog(s, rows[..|rows| - 1], hours[..|rows| - 1]);
      assert rows == rows[..|rows| - 1] + [rows[|rows| - 1]];
    }
  }

  lemma {:induction false} RowsSum(es: seq<Event>, w: LogRow -> int, w': Event -> int)
    requires forall e | e in es :: w(ToRow(e)) == w'(e)
    ensures SeqSum(ToRows(es), w) == SeqSum(es, w')
  {
    if es == [] {
    } else {
      RowsSum(es[..|es| - 1], w, w');
      assert ToRows(es) == ToRows(es[..|es| - 1]) + [ToRow(es[|es| - 1])];
      SeqSumSnoc(ToRows(es[..|es| - 1]), ToRow(es[|es| - 1]), w);
    }
  }

  lemma {:induction false} NegatedSum(rows: seq<LogRow>, w: LogRow -> int)
    requires forall r | r in rows :: w(Negated(r)) == -w(r)
    ensures SeqSum(AllNegated(rows), w) == -SeqSum(rows, w)
  {
    if rows == [] {
    } else {
      NegatedSum(rows[..|rows| - 1], w);
      assert AllNegated(rows) == AllNegated(rows[..|rows| - 1]) + [Negated(rows[|rows| - 1])];
      SeqSumSnoc(AllNegated(rows[..|rows| - 1]), Negated(rows[|rows| - 1]), w);
    }
  }

  // ---- hour by hour ----

  /** What the rows posted in hour `hour` change for address `a`. */
  function PostedAt(rows: seq<LogRow>, hours: seq<Hour>, a: Address, hour: Hour): int
    requires |hours| == |rows|
  {
    if rows == [] then 0
    else
      var k := |rows| - 1;
      PostedAt(rows[..k], hours[..k], a, hour) + if rows[k].address == a && hours[k] == hour then rows[k].amount else 0
  }

  /** The statistic of each address and hour grows by exactly the rows posted in that hour. */
  lemma {:induction false} StatisticsByHour(s: State, rows: seq<LogRow>, hours: seq<Hour>, a: Address, hour: Hour)
    requires |hours| == |rows|
    ensures GetOrZero(PostAll(s, rows, hours).stats, (a, hour))
         == GetOrZero(s.stats, (a, hour)) + PostedAt(rows, hours, a, hour)
  {
    if rows == [] {
    } else {
      StatisticsByHour(s, rows[..|rows| - 1], hours[..|rows| - 1], a, hour);
    }
  }

  /** No statistic of another hour changed. */
  ghost predicate OnlyHourChanged(stats: map<(Address, Hour), int>, stats': map<(Address, Hour), int>, hour: Hour) {
    forall k: (Address, Hour) | k.1 != hour :: Lookup(stats', k) == Lookup(stats, k)
  }

  lemma {:induction false} PostAllHour(s: State, rows: seq<LogRow>, hours: seq<Hour>, hour: Hour)
    requires |hours| == |rows| && forall i | 0 <= i < |hours| :: hours[i] == hour
    ensures OnlyHourChanged(s.stats, PostAll(s, rows, hours).stats, hour)
  {
    hide Post;
    if rows == [] {
    } else {
      var k := |rows| - 1;
      PostAllHour(s, rows[..k], hours[..k], hour);
      PostHour(PostAll(s, rows[..k], hours[..k]), rows[k], hour);
    }
  }

  lemma PostHour(s: State, r: LogRow, hour: Hour)
    ensures OnlyHourChanged(s.stats, Post(s, r, hour).stats, hour)
  {
  }

  /** Handling an event within one hour changes no statistic of another. */
  lemma HandlesInHour(s: State, e: Event, s': State, hour: Hour, due: seq<Event>, hours: seq<Hour>)
    requires Handles(s, e, s', hour, due, hours) && forall i | 0 <= i < |hours| :: hours[i] == hour
    ensures OnlyHourChanged(s.stats, s'.stats, hour)
  {
    hide PostAll, Post, Filter;
    PostHour(s, ToRow(e), hour);
    if e.height > s.last && e.height >= COOLDOWN {
      var r := Received(s, e, hour).(last := e.height);
      PostAllHour(r.(pending := Filter(r.pending, EventAfter(e.height - COOLDOWN))), ToRows(due), hours, hour);
    }
  }

  /** And so does a reorganisation. */
  lemma ReorgsInHour(s: State, n: nat, s': State, rows: seq<LogRow>, hours: seq<Hour>, hour: Hour)
    requires Reorgs(s, n, s', rows, hours) && forall i | 0 <= i < |hours| :: hours[i] == hour
    ensures OnlyHourChanged(s.stats, s'.stats, hour)
  {
    hide PostAll;
    PostAllHour(s, AllNegated(rows), hours, hour);
  }

  // ---- three-way agreement ----

  /** The balance, the log and the hourly statistics tell the same about every address. */
  ghost predicate Agree(s: State) {
    forall a: Address ::
      && GetOrZero(s.balances, a) == SeqSum(s.log, RowWeight(a))
      && GetOrZero(s.balances, a) == Total(s.stats, StatWeight(a))
  }

  lemma PostAgrees(s: State, r: LogRow, hour: Hour)
    requires Agree(s)
    ensures Agree(Post(s, r, hour))
  {
    var s' := Post(s, r, hour);
    forall a: Address
      ensures GetOrZero(s'.balances, a) == SeqSum(s'.log, RowWeight(a)) == Total(s'.stats, StatWeight(a))
    {
      SeqSumSnoc(s.log, r, RowWeight(a));
      var k := (r.address, hour);
      TotalUpdate(s.stats, k, GetOrZero(s.stats, k) + r.amount, StatWeight(a));
    }
  }

  lemma {:induction false} PostAllAgrees(s: State, rows: seq<LogRow>, hours: seq<Hour>)
    requires Agree(s) && |hours| == |rows|
    ensures Agree(PostAll(s, rows, hours))
  {
    hide Agree, Post;
    if rows == [] {
    } else {
      PostAllAgrees(s, rows[..|rows| - 1], hours[..|rows| - 1]);
      PostAgrees(PostAll(s, rows[..|rows| - 1], hours[..|rows| - 1]), rows[|rows| - 1], hours[|rows| - 1]);
    }
  }

  lemma OnlyTablesMatter(s: State, pending: seq<Event>, last: nat)
    requires Agree(s)
    ensures Agree(s.(pending := pending, last := last))
  {
  }

  lemma CommitsAgrees(s: State, s': State, due: seq<Event>, hours: seq<Hour>)
    requires Agree(s) && Commits(s, s', due, hours)
    ensures Agree(s')
  {
    if s.last >= COOLDOWN {
      PostAllAgrees(s.(pending := Filter(s.pending, EventAfter(s.last - COOLDOWN))), ToRows(due), hours);
    }
  }

  /** Through events and maturation. */
  lemma HandlesAgrees(s: State, e: Event, s': State, hour: Hour, due: seq<Event>, hours: seq<Hour>)
    requires Agree(s) && Handles(s, e, s', hour, due, hours)
    ensures Agree(s')
  {
    hide Agree, Commits;
    if e.isCoinbase {
      OnlyTablesMatter(s, s.pending + [e], s.last);
    } else {
      PostAgrees(s, ToRow(e), hour);
    }
    var r := Received(s, e, hour);
    OnlyTablesMatter(r, r.pending, e.height);
    if e.height > s.last {
      CommitsAgrees(r.(last := e.height), s', due, hours);
    }
  }

  /** And through reorganisations. */
  lemma ReorgsAgrees(s: State, n: nat, s': State, rows: seq<LogRow>, hours: seq<Hour>)
    requires Agree(s) && Reorgs(s, n, s', rows, hours)
    ensures Agree(s')
  {
    PostAllAgrees(s, AllNegated(rows), hours);
  }

  // ---- what an event does to the accounts ----

  lemma CommitsKeepsAccounts(s: State, s': State, due: seq<Event>, hours: seq<Hour>, h: nat, a: Address)
    requires Commits(s, s', due, hours)
    ensures Account(s', h, a) == Account(s, h, a)
  {
    hide PostAll, Filter;
    if s.last >= COOLDOWN {
      var upTo := s.last - COOLDOWN;
      var w, w' := RowCellWeight(h, a), EventCellWeight(h, a);
      var mine, rest := Filter(s.pending, EventUpTo(upTo)), Filter(s.pending, EventAfter(upTo));
      PostAllLog(s.(pending := rest), ToRows(due), hours);
      SeqSumConcat(s.log, ToRows(due), w);
      RowsSum(due, w, w');
      SeqSumPermutation(due, mine, w');
      FilterSplit(s.pending, EventUpTo(upTo), EventAfter(upTo));
      assert multiset(mine + rest) == multiset(s.pending);
      SeqSumPermutation(mine + rest, s.pending, w');
      SeqSumConcat(mine, rest, w');
    }
  }

  /** An event adds its amount to its own cell, whether it is posted, held back, or lets others mature. */
  lemma HandlesAddsToAccount(s: State, e: Event, s': State, hour: Hour, due: seq<Event>, hours: seq<Hour>,
                             h: nat, a: Address)
    requires Handles(s, e, s', hour, due, hours)
    ensures Account(s', h, a) == Account(s, h, a) + EventCellWeight(h, a)(e)
  {
    var r := Received(s, e, hour);
    SeqSumSnoc(s.pending, e, EventCellWeight(h, a));
    SeqSumSnoc(s.log, ToRow(e), RowCellWeight(h, a));
    if e.height > s.last {
      CommitsKeepsAccounts(r.(last := e.height), s', due, hours, h, a);
    }
  }

  // ---- the rows themselves ----

  /** The row of an event keeps all of it but the coinbase flag. */
  ghost predicate RowOf(r: LogRow, e: Event) {
    && r.height == e.height
    && r.txid == e.txid
    && r.address == e.address
    && r.amount == e.amount
    && r.action == e.action
  }

  /** The row that takes back `r`, marked as a reorganisation. */
  ghost predicate TakesBack(r': LogRow, r: LogRow) {
    && r'.height == r.height
    && r'.txid == r.txid
    && r'.address == r.address
    && r'.amount + r.amount == 0
    && r'.action.Reorg?
  }

  lemma CommitsLog(s: State, s': State, due: seq<Event>, hours: seq<Hour>)
    requires Commits(s, s', due, hours)
    ensures s'.log == s.log + ToRows(due)
  {
    hide PostAll, Filter;
    if s.last >= COOLDOWN {
      PostAllLog(s.(pending := Filter(s.pending, EventAfter(s.last - COOLDOWN))), ToRows(due), hours);
    } else {
      assert s.log + ToRows(due) == s.log;
    }
  }

  /** What an event adds to the log: its own row, unless it is a coinbase's, and the rows of those that matured. */
  lemma HandledRows(s: State, e: Event, s': State, hour: Hour, due: seq<Event>, hours: seq<Hour>)
    returns (es: seq<Event>)
    requires Handles(s, e, s', hour, due, hours)
    ensures es == (if e.isCoinbase then [] else [e]) + due && |s'.log| == |s.log| + |es| && s.log <= s'.log
    ensures forall i | 0 <= i < |es| :: RowOf(s'.log[|s.log| + i], es[i])
  {
    hide Commits;
    es := (if e.isCoinbase then [] else [e]) + due;
    var r := Received(s, e, hour);
    if e.height > s.last {
      CommitsLog(r.(last := e.height), s', due, hours);
    }
  }

  /** What a reorganisation adds to the log: a row taking back each row from the fork point on. */
  lemma ReorgRows(s: State, n: nat, s': State, rows: seq<LogRow>, hours: seq<Hour>)
    requires Reorgs(s, n, s', rows, hours)
    ensures multiset(rows) == multiset(Filter(s.log, RowSince(n)))
    ensures |s'.log| == |s.log| + |rows| && s.log <= s'.log
    ensures forall i | 0 <= i < |rows| :: TakesBack(s'.log[|s.log| + i], rows[i])
  {
    PostAllLog(s, AllNegated(rows), hours);
  }

  // ---- what a reorganisation does ----

  lemma ReorgLog(s: State, n: nat, s': State, rows: seq<LogRow>, hours: seq<Hour>, w: LogRow -> int, w': LogRow -> int)
    requires Reorgs(s, n, s', rows, hours)
    requires forall r: LogRow :: w(Negated(r)) == -w(r)
    requires forall r: LogRow :: w'(r) == if r.height < n then w(r) else 0
    ensures SeqSum(s'.log, w) == SeqSum(s.log, w')
  {
    PostAllLog(s, AllNegated(rows), hours);
    SeqSumConcat(s.log, AllNegated(rows), w);
    NegatedSum(rows, w);
    SeqSumPermutation(rows, Filter(s.log, RowSince(n)), w);
    var above := (r: LogRow) => if r.height >= n then w(r) else 0;
    FilterSum(s.log, RowSince(n), w, above);
    SumSplit(s.log, w, w', above);
  }

  lemma {:induction false} SumSplit<T>(s: seq<T>, w: T -> int, u: T -> int, v: T -> int)
    requires forall x | x in s :: w(x) == u(x) + v(x)
    ensures SeqSum(s, w) == SeqSum(s, u) + SeqSum(s, v)
  {
    if s == [] {
    } else {
      SumSplit(s[..|s| - 1], w, u, v);
    }
  }

  /**
   * Compensation is sound however often it is repeated, although earlier compensations are negated again: from `n` on
   * every cell of the log nets to zero, the rows below are untouched, and each balance is the sum of the rows below.
   */
  lemma ReorgCompensates(s: State, n: nat, s': State, rows: seq<LogRow>, hours: seq<Hour>)
    requires Agree(s) && Reorgs(s, n, s', rows, hours)
    ensures forall h: nat, a: Address :: LogCell(s', h, a) == if h < n then LogCell(s, h, a) else 0
    ensures Filter(s'.log, RowBefore(n)) == Filter(s.log, RowBefore(n)) && s.log <= s'.log
    ensures forall a: Address :: GetOrZero(s'.balances, a) == SeqSum(s.log, RowBeforeWeight(n, a))
  {
    forall h: nat, a: Address
      ensures LogCell(s', h, a) == if h < n then LogCell(s, h, a) else 0
    {
      if h < n {
        ReorgLog(s, n, s', rows, hours, RowCellWeight(h, a), RowCellWeight(h, a));
      } else {
        var none := (r: LogRow) => 0;
        ReorgLog(s, n, s', rows, hours, RowCellWeight(h, a), none);
        SumZero(s.log, none);
      }
    }
    forall a: Address
      ensures GetOrZero(s'.balances, a) == SeqSum(s.log, RowBeforeWeight(n, a))
    {
      ReorgsAgrees(s, n, s', rows, hours);
      ReorgLog(s, n, s', rows, hours, RowWeight(a), RowBeforeWeight(n, a));
    }
    PostAllLog(s, AllNegated(rows), hours);
    forall r | r in AllNegated(rows)
      ensures r.height >= n
    {
      var i :| 0 <= i < |rows| && r == Negated(rows[i]);
      assert rows[i] in multiset(Filter(s.log, RowSince(n)));
      FilterIn(s.log, RowSince(n), rows[i]);
    }
    FilterAppend(s.log, AllNegated(rows), RowBefore(n));
    FilterNone(AllNegated(rows), RowBefore(n));
  }

  /** The accounts after a reorganisation: pending events survive only above the height of the last row returned. */
  lemma AccountsAfterReorg(s: State, n: nat, s': State, rows: seq<LogRow>, hours: seq<Hour>, h: nat, a: Address)
    requires Reorgs(s, n, s', rows, hours)
    ensures rows[|rows| - 1].height >= n
    ensures Account(s', h, a)
         == (if h < n then LogCell(s, h, a) else 0) + (if h > rows[|rows| - 1].height then PendingCell(s, h, a) else 0)
  {
    var upTo := rows[|rows| - 1].height;
    assert rows[|rows| - 1] in multiset(Filter(s.log, RowSince(n)));
    FilterIn(s.log, RowSince(n), rows[|rows| - 1]);
    if h < n {
      ReorgLog(s, n, s', rows, hours, RowCellWeight(h, a), RowCellWeight(h, a));
    } else {
      var none := (r: LogRow) => 0;
      ReorgLog(s, n, s', rows, hours, RowCellWeight(h, a), none);
      SumZero(s.log, none);
    }
    if h > upTo {
      FilterSum(s.pending, EventAfter(upTo), EventCellWeight(h, a), EventCellWeight(h, a));
    } else {
      var none := (e: Event) => 0;
      FilterSum(s.pending, EventAfter(upTo), EventCellWeight(h, a), none);
      SumZero(s.pending, none);
    }
  }

  /** What a reorganisation should do: forget every height from `n` on, and nothing else. */
  ghost predicate Forgets(s: State, n: nat, s': State) {
    forall h: nat, a: Address :: Account(s', h, a) == if h < n then Account(s, h, a) else 0
  }

  /** The pending events dropped, those up to `upTo`, are exactly the orphaned ones, those from `n` on. */
  predicate DropsOrphansOnly(s: State, n: nat, upTo: nat) {
    forall e | e in s.pending :: n <= e.height <= upTo
  }

  lemma {:induction false} PositiveSum(es: seq<Event>, e: Event)
    requires forall x | x in es :: x.amount > 0
    ensures SeqSum(es, EventCellWeight(e.height, e.address)) >= 0
    ensures e in es ==> SeqSum(es, EventCellWeight(e.height, e.address)) > 0
  {
    if es == [] {
    } else {
      assert es == es[..|es| - 1] + [es[|es| - 1]];
      PositiveSum(es[..|es| - 1], e);
    }
  }

  /** For one result of the unordered query: what decides is the height of its last row. */
  lemma ReorgForgetsIff(s: State, n: nat, s': State, rows: seq<LogRow>, hours: seq<Hour>)
    requires Reorgs(s, n, s', rows, hours) && forall e | e in s.pending :: e.amount > 0
    ensures rows != [] && (Forgets(s, n, s') <==> DropsOrphansOnly(s, n, rows[|rows| - 1].height))
  {
    var upTo := rows[|rows| - 1].height;
    forall h: nat, a: Address
      ensures Account(s', h, a)
           == (if h < n then LogCell(s, h, a) else 0) + (if h > upTo then PendingCell(s, h, a) else 0)
      ensures upTo >= n
    {
      AccountsAfterReorg(s, n, s', rows, hours, h, a);
    }
    if DropsOrphansOnly(s, n, upTo) {
      forall h: nat, a: Address | h < n || h > upTo
        ensures PendingCell(s, h, a) == 0
      {
        SumZero(s.pending, EventCellWeight(h, a));
      }
    } else {
      var e :| e in s.pending && !(n <= e.height <= upTo);
      PositiveSum(s.pending, e);
      AccountsAfterReorg(s, n, s', rows, hours, e.height, e.address);
      assert Account(s', e.height, e.address) != if e.height < n then Account(s, e.height, e.address) else 0;
    }
  }

  /** Every pending event lies between the fork point and each row at or above it. */
  predicate SafeToReorg(s: State, n: nat) {
    forall e, r | e in s.pending && r in s.log && r.height >= n :: n <= e.height <= r.height
  }

  /** The unordered query may return any of its rows last. */
  lemma AnyRowLast(log: seq<LogRow>, n: nat, r: LogRow) returns (rows: seq<LogRow>)
    requires r in log && r.height >= n
    ensures InSomeOrder(rows, Filter(log, RowSince(n))) && rows != [] && rows[|rows| - 1] == r
  {
    var found := Filter(log, RowSince(n));
    FilterIn(log, RowSince(n), r);
    var i :| 0 <= i < |found| && found[i] == r;
    rows := found[..i] + found[i + 1..] + [r];
    assert found == found[..i] + [r] + found[i + 1..];
  }

  /** With row `r` returned last. */
  lemma ReorgEndingWith(s: State, n: nat, r: LogRow) returns (s': State, rows: seq<LogRow>, hours: seq<Hour>)
    requires r in s.log && r.height >= n
    ensures Reorgs(s, n, s', rows, hours) && rows != [] && rows[|rows| - 1] == r
  {
    rows := AnyRowLast(s.log, n, r);
    hours := seq(|rows|, _ => 0);
    s' := PostAll(s, AllNegated(rows), hours).(pending := Filter(s.pending, EventAfter(r.height)), last := r.height);
  }

  lemma LastRowIsSince(s: State, n: nat, s': State, rows: seq<LogRow>, hours: seq<Hour>)
    requires Reorgs(s, n, s', rows, hours)
    ensures rows != [] && rows[|rows| - 1] in s.log && s'.last == rows[|rows| - 1].height >= n
  {
    assert rows[|rows| - 1] in multiset(Filter(s.log, RowSince(n)));
    FilterIn(s.log, RowSince(n), rows[|rows| - 1]);
  }

  /** A reorganisation has an outcome, where the source does not panic, exactly when the log has a row to compensate. */
  lemma ReorgPossibleIff(s: State, n: nat)
    ensures (exists s', rows, hours :: Reorgs(s, n, s', rows, hours)) <==> exists r | r in s.log :: r.height >= n
  {
    if s', rows, hours :| Reorgs(s, n, s', rows, hours) {
      LastRowIsSince(s, n, s', rows, hours);
    }
    if r :| r in s.log && r.height >= n {
      var s', rows, hours := ReorgEndingWith(s, n, r);
    }
  }

  /**
   * Whatever order the query returns its rows in, a reorganisation forgets the orphaned heights and nothing else:
   * exactly when every pending event lies between the fork point and each row at or above it.
   */
  lemma ReorgAlwaysForgetsIff(s: State, n: nat)
    requires forall e | e in s.pending :: e.amount > 0
    ensures (forall s', rows, hours | Reorgs(s, n, s', rows, hours) :: Forgets(s, n, s')) <==> SafeToReorg(s, n)
  {
    hide Reorgs, Forgets;
    if SafeToReorg(s, n) {
      forall s', rows, hours | Reorgs(s, n, s', rows, hours)
        ensures Forgets(s, n, s')
      {
        LastRowIsSince(s, n, s', rows, hours);
        ReorgForgetsIff(s, n, s', rows, hours);
      }
    } else {
      var e, r :| e in s.pending && r in s.log && r.height >= n && !(n <= e.height <= r.height);
      var s', rows, hours := ReorgEndingWith(s, n, r);
      ReorgForgetsIff(s, n, s', rows, hours);
    }
  }
}
