/** The aggregator: it takes one message at a time off the channel and updates its tables. */
module Aggregator {
  import opened Types
  import opened Sums
  import opened Channel
  import opened Clocks
  import opened Aggregation
  import opened Draining

  /** While the clock stays within one hour, no statistic of another hour changes. */
  ghost predicate SameHourOnly(clock: Clock, lo: nat, hi: nat, stats: map<(Address, Hour), int>,
                               stats': map<(Address, Hour), int>) {
    forall hour | clock.Within(hour, lo, hi) :: OnlyHourChanged(stats, stats', hour)
  }

  lemma PostsKeepHours(clock: Clock, first: nat, s: State, rows: seq<LogRow>, hours: seq<Hour>)
    requires |hours| == |rows| && hours == clock.Hours(first, |rows|)
    ensures SameHourOnly(clock, first, first + |rows|, s.stats, PostAll(s, rows, hours).stats)
  {
    hide PostAll, OnlyHourChanged;
    forall hour | clock.Within(hour, first, first + |rows|)
      ensures OnlyHourChanged(s.stats, PostAll(s, rows, hours).stats, hour)
    {
      clock.HoursWithin(hour, first, |rows|);
      PostAllHour(s, rows, hours, hour);
    }
  }

  lemma SameStats(stats: map<(Address, Hour), int>)
    ensures forall hour :: OnlyHourChanged(stats, stats, hour)
  {
  }

  lemma HandleKeepsHours(clock: Clock, looks: nat, s: State, e: Event, s': State, hour: Hour, due: seq<Event>,
                         hours: seq<Hour>)
    requires Handles(s, e, s', hour, due, hours) && (!e.isCoinbase ==> hour == clock.HourAt(looks))
    requires hours == clock.Hours(if e.isCoinbase then looks else looks + 1, |hours|)
    ensures SameHourOnly(clock, looks, looks + |hours| + if e.isCoinbase then 0 else 1, s.stats, s'.stats)
  {
    hide Commits, OnlyHourChanged, Post;
    var first := if e.isCoinbase then looks else looks + 1;
    forall h | clock.Within(h, looks, first + |hours|)
      ensures OnlyHourChanged(s.stats, s'.stats, h)
    {
      clock.HoursWithin(h, first, |hours|);
      assert Handles(s, e, s', h, due, hours);
      HandlesInHour(s, e, s', h, due, hours);
    }
  }

  class Aggregator {
    const receiver: EventChannel
    const clock: Clock
    var log: seq<LogRow>
    var balances: map<Address, int>
    var stats: map<(Address, Hour), int>
    var pending: seq<Event>
    var last: nat

    ghost function View(): State
      reads this
    {
      State(log, balances, stats, pending, last)
    }

    constructor (receiver: EventChannel, clock: Clock)
      ensures this.receiver == receiver && this.clock == clock && View() == START
    {
      this.receiver, this.clock := receiver, clock;
      log, balances, stats, pending, last := [], map[], map[], [], 0;
    }

    /** The wall clock, truncated to the hour. */
    method CurrentHour() returns (hour: Hour)
      modifies clock
      ensures hour == HourOf(clock.readings(old(clock.looks))) && clock.looks == old(clock.looks) + 1
    {
      var now := clock.Now();
      hour := HourOf(now);
    }

    // SELECT without ORDER BY: callers may rely on no order.
    method EventsSince(n: nat) returns (rows: seq<LogRow>)
      ensures InSomeOrder(rows, Filter(log, RowSince(n)))
    {
      rows := Filter(log, RowSince(n));
    }

    // DELETE ... RETURNING: the rows removed, in any order.
    method PullPending(upTo: nat) returns (events: seq<Event>)
      modifies this`pending
      ensures InSomeOrder(events, Filter(old(pending), EventUpTo(upTo)))
      ensures pending == Filter(old(pending), EventAfter(upTo))
    {
      events := Filter(pending, EventUpTo(upTo));
      pending := Filter(pending, EventAfter(upTo));
    }

    method InsertEvent(row: LogRow)
      modifies this`log
      ensures log == old(log) + [row]
    {
      log := log + [row];
    }

    method UpdateTotalBalance(row: LogRow)
      modifies this`balances
      ensures balances == old(balances)[row.address := GetOrZero(old(balances), row.address) + row.amount]
    {
      balances := balances[row.address := GetOrZero(balances, row.address) + row.amount];
    }

    method UpdateStatisticBalanceChange(row: LogRow) returns (ghost hour: Hour)
      modifies this`stats, clock
      ensures hour == clock.HourAt(old(clock.looks)) && clock.looks == old(clock.looks) + 1
      ensures stats == old(stats)[(row.address, hour) := GetOrZero(old(stats), (row.address, hour)) + row.amount]
    {
      var now := CurrentHour();
      hour := now;
      stats := stats[(row.address, now) := GetOrZero(stats, (row.address, now)) + row.amount];
    }

    /** The three updates every posted row makes, in one database transaction. */
    method Record(row: LogRow) returns (ghost hour: Hour)
      modifies this`log, this`balances, this`stats, clock
      ensures hour == clock.HourAt(old(clock.looks)) && clock.looks == old(clock.looks) + 1
      ensures View() == Post(old(View()), row, hour)
    {
      InsertEvent(row);
      UpdateTotalBalance(row);
      hour := UpdateStatisticBalanceChange(row);
    }

    /** Post rows one after the other. */
    method RecordAll(rows: seq<LogRow>) returns (ghost hours: seq<Hour>)
      modifies this`log, this`balances, this`stats, clock
      ensures hours == clock.Hours(old(clock.looks), |rows|) && clock.looks == old(clock.looks) + |rows|
      ensures View() == PostAll(old(View()), rows, hours)
      ensures SameHourOnly(clock, old(clock.looks), clock.looks, old(stats), stats)
    {
      hide Post, PostAll, SameHourOnly, Clock.HourAt;
      hours := [];
      PostNothing(View());
      assert rows[..0] == [];
      for i := 0 to |rows|
        invariant clock.looks == old(clock.looks) + i && hours == clock.Hours(old(clock.looks), i)
        invariant View() == PostAll(old(View()), rows[..i], hours)
      {
        ghost var hour := Record(rows[i]);
        PostOneMore(old(View()), rows[..i], hours, rows[i], hour);
        assert rows[..i + 1] == rows[..i] + [rows[i]];
        hours := hours + [hour];
      }
      assert rows[..|rows|] == rows;
      PostsKeepHours(clock, old(clock.looks), old(View()), rows, hours);
    }

    method CommitPendingEvents() returns (ghost due: seq<Event>, ghost hours: seq<Hour>)
      modifies this`log, this`balances, this`stats, this`pending, clock
      ensures Commits(old(View()), View(), due, hours)
      ensures hours == clock.Hours(old(clock.looks), |hours|) && clock.looks == old(clock.looks) + |hours|
      ensures SameHourOnly(clock, old(clock.looks), clock.looks, old(stats), stats)
    {
      hide PostAll, Post, Filter, OnlyHourChanged;
      due, hours := [], [];
      if last < COOLDOWN {
        SameStats(stats);
        return;
      }
      var events := PullPending(last - COOLDOWN);
      due := events;
      hours := RecordAll(ToRows(events));
    }

    method HandleEvent(event: Event) returns (ghost hour: Hour, ghost due: seq<Event>, ghost hours: seq<Hour>)
      modifies this, clock
      ensures Handles(old(View()), event, View(), hour, due, hours)
      ensures !event.isCoinbase ==> hour == clock.HourAt(old(clock.looks))
      ensures var first := old(clock.looks) + if event.isCoinbase then 0 else 1;
        hours == clock.Hours(first, |hours|) && clock.looks == first + |hours|
      ensures SameHourOnly(clock, old(clock.looks), clock.looks, old(stats), stats)
    {
      hide Commits, Post;
      hour, due, hours := 0, [], [];
      if event.isCoinbase {
        pending := pending + [event];
      } else {
        hour := Record(ToRow(event));
      }
      if event.height > last {
        last := event.height;
        due, hours := CommitPendingEvents();
      }
      HandleKeepsHours(clock, old(clock.looks), old(View()), event, View(), hour, due, hours);
    }

    /** Fails, where the source panics, exactly when the log has no row at or above the fork point. */
    method HandleReorg(n: nat) returns (r: Outcome, ghost rows: seq<LogRow>, ghost hours: seq<Hour>)
      modifies this, clock
      ensures hours == clock.Hours(old(clock.looks), |hours|) && clock.looks == old(clock.looks) + |hours|
      ensures SameHourOnly(clock, old(clock.looks), clock.looks, old(stats), stats)
      ensures r.Pass? <==> exists row | row in old(log) :: row.height >= n
      ensures r.Pass? ==> Reorgs(old(View()), n, View(), rows, hours)
      ensures r.Fail? ==> View() == old(View())
    {
      hide PostAll, Post, Filter, OnlyHourChanged;
      var events := EventsSince(n);
      rows, hours := events, [];
      if events == [] {
        SameStats(stats);
        NoRows(log, n, events);
        return Fail(Panic), rows, hours;
      }
      var lastNumber := events[|events| - 1].height;
      SomeRow(log, n, events);
      hours := RecordAll(AllNegated(events));
      var _ := PullPending(lastNumber);
      last := lastNumber;
      return Pass, rows, hours;
    }

    /**
     * Receive until the channel is empty. Every message received is handled in order; the one that stops the aggregator
     * early is a reorganisation for which the log has no row.
     */
    method Run() returns (r: Outcome)
      requires receiver.Valid()
      modifies this, receiver`taken, clock
      ensures receiver.Valid() && old(receiver.taken) <= receiver.taken
      ensures r.Pass? ==> receiver.taken == |receiver.sent|
      ensures r.Pass? ==> ConsumesAll(old(View()), receiver.sent[old(receiver.taken)..receiver.taken], View())
      ensures r.Fail? ==> old(receiver.taken) < receiver.taken
      ensures r.Fail? ==> ConsumesAll(old(View()), receiver.sent[old(receiver.taken)..receiver.taken - 1], View())
      ensures r.Fail? ==> StopsAggregator(receiver.sent[receiver.taken - 1], View())
    {
      hide ConsumesAll, Consumes, Handles, Reorgs;
      ghost var start, from, sent := View(), receiver.taken, receiver.sent;
      ConsumesNone(start);
      assert sent[from..from] == [];
      var m := receiver.Receive();
      while m.Some?
        invariant receiver.Valid() && receiver.sent == sent && from <= receiver.taken
        invariant m.Some? ==> from < receiver.taken && m.value == sent[receiver.taken - 1]
        invariant m.None? ==> receiver.taken == |sent|
        invariant ConsumesAll(start, sent[from..if m.Some? then receiver.taken - 1 else receiver.taken], View())
        decreases |sent| - receiver.taken, m.Some?
      {
        ghost var before, done := View(), receiver.taken;
        match m.value {
          case EventMsg(event) =>
            ghost var hour, due, hours := HandleEvent(event);
            HandledIsConsumed(before, event, View(), hour, due, hours);
          case ReorgMsg(n) =>
            ghost var rows, hours;
            r, rows, hours := HandleReorg(n);
            if r.Fail? {
              return;
            }
            ReorgIsConsumed(before, n, View(), rows, hours);
        }
        ConsumesMore(start, sent[from..done - 1], before, m.value, View());
        assert sent[from..done] == sent[from..done - 1] + [m.value];
        m := receiver.Receive();
      }
      return Pass;
    }
  }

  /** A reorganisation with nothing to compensate. */
  ghost predicate StopsAggregator(m: Msg, s: State) {
    m.ReorgMsg? && forall row | row in s.log :: row.height < m.since
  }

  lemma NoRows(log: seq<LogRow>, n: nat, events: seq<LogRow>)
    requires InSomeOrder(events, Filter(log, RowSince(n))) && events == []
    ensures forall row | row in log :: row.height < n
  {
    forall row | row in log
      ensures row.height < n
    {
      FilterIn(log, RowSince(n), row);
      assert row !in multiset(events);
    }
  }

  lemma SomeRow(log: seq<LogRow>, n: nat, events: seq<LogRow>)
    requires InSomeOrder(events, Filter(log, RowSince(n))) && events != []
    ensures exists row | row in log :: row.height >= n
  {
    assert events[0] in multiset(events);
    FilterIn(log, RowSince(n), events[0]);
  }
}
