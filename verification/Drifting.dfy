/** The aggregator over whole message streams: when it stops, and how far reorganisations take its accounts off. */
module Drifting {
  import opened Types
  import opened Sums
  import opened Conservation
  import opened Aggregation
  import opened Draining

  // ---- the states it goes through ----

  /** `states` are the states before, between and after handling `msgs`. */
  ghost predicate Trace(states: seq<State>, msgs: seq<Msg>) {
    |states| == |msgs| + 1 && forall i | 0 <= i < |msgs| :: Consumes(states[i], msgs[i], states[i + 1])
  }

  function Final(states: seq<State>): State
    requires states != []
  {
    states[|states| - 1]
  }

  lemma TracePrefix(states: seq<State>, msgs: seq<Msg>, k: nat)
    requires Trace(states, msgs) && k <= |msgs|
    ensures Trace(states[..k + 1], msgs[..k])
  {
    hide Consumes;
  }

  lemma TraceSnoc(states: seq<State>, msgs: seq<Msg>, m: Msg, s': State)
    requires Trace(states, msgs) && Consumes(Final(states), m, s')
    ensures Trace(states + [s'], msgs + [m])
  {
    hide Consumes;
  }

  lemma {:induction false} TraceConsumes(states: seq<State>, msgs: seq<Msg>)
    requires Trace(states, msgs)
    ensures ConsumesAll(states[0], msgs, Final(states))
    decreases |msgs|
  {
    hide Consumes;
    if msgs == [] {
    } else {
      var k := |msgs| - 1;
      TracePrefix(states, msgs, k);
      TraceConsumes(states[..k + 1], msgs[..k]);
      assert ConsumesAll(states[0], msgs[..k], states[k]) && Consumes(states[k], msgs[k], states[k + 1]);
    }
  }

  lemma {:induction false} ConsumesTrace(s: State, msgs: seq<Msg>, s': State) returns (states: seq<State>)
    requires ConsumesAll(s, msgs, s')
    ensures Trace(states, msgs) && states[0] == s && Final(states) == s'
    decreases |msgs|
  {
    hide Consumes;
    if msgs == [] {
      states := [s];
    } else {
      var k := |msgs| - 1;
      var mid :| ConsumesAll(s, msgs[..k], mid) && Consumes(mid, msgs[k], s');
      var init := ConsumesTrace(s, msgs[..k], mid);
      states := init + [s'];
      TraceSnoc(init, msgs[..k], msgs[k], s');
      assert msgs[..k] + [msgs[k]] == msgs;
    }
  }

  // ---- how far off ----

  /**
   * How far cell (h, a) is off. A reorganisation clears the cells from its fork point on and keeps those below; but it
   * drops the pending events below the fork point too, and keeps those above the height of the last row returned,
   * which is the height it goes back to.
   */
  ghost function Drift(states: seq<State>, msgs: seq<Msg>, h: nat, a: Address): int
    requires |states| == |msgs| + 1
    decreases |msgs|
  {
    if msgs == [] then 0
    else
      var k := |msgs| - 1;
      var before := Drift(states[..k + 1], msgs[..k], h, a);
      match msgs[k]
      case EventMsg(_) => before
      case ReorgMsg(n) =>
        if h < n then before - PendingCell(states[k], h, a)
        else if h > states[k + 1].last then PendingCell(states[k], h, a)
        else 0
  }

  lemma ReorgDrift(s: State, n: nat, s': State, h: nat, a: Address)
    requires Consumes(s, ReorgMsg(n), s')
    ensures Account(s', h, a) == if h < n then Account(s, h, a) - PendingCell(s, h, a)
                                 else if h > s'.last then PendingCell(s, h, a) else 0
  {
    hide Account, PendingCell, LogCell, Reorgs;
    var rows: seq<LogRow>, hours :| Reorgs(s, n, s', rows, hours);
    LastRowIsSince(s, n, s', rows, hours);
    AccountsAfterReorg(s, n, s', rows, hours, h, a);
    assert Account(s, h, a) == LogCell(s, h, a) + PendingCell(s, h, a) by { AccountParts(s, h, a); }
  }

  lemma AccountParts(s: State, h: nat, a: Address)
    ensures Account(s, h, a) == LogCell(s, h, a) + PendingCell(s, h, a)
  {
  }

  /** On any run, every account is what the messages say plus its drift. */
  lemma {:induction false} AccountsDrift(states: seq<State>, msgs: seq<Msg>, h: nat, a: Address)
    requires Trace(states, msgs)
    ensures Account(Final(states), h, a) == Drained(Account(states[0], h, a), msgs, h, a) + Drift(states, msgs, h, a)
    decreases |msgs|
  {
    hide Account, Handles, Reorgs, PendingCell;
    if msgs == [] {
    } else {
      var k := |msgs| - 1;
      TracePrefix(states, msgs, k);
      AccountsDrift(states[..k + 1], msgs[..k], h, a);
      match msgs[k]
      case EventMsg(e) =>
        var hour, due, hours :| Handles(states[k], e, states[k + 1], hour, due, hours);
        HandlesAddsToAccount(states[k], e, states[k + 1], hour, due, hours, h, a);
      case ReorgMsg(n) =>
        ReorgDrift(states[k], n, states[k + 1], h, a);
    }
  }

  /** Every reorganisation met only pending events between its fork point and each row above. */
  ghost predicate SafeTrace(states: seq<State>, msgs: seq<Msg>)
    requires |states| == |msgs| + 1
  {
    forall i | 0 <= i < |msgs| && msgs[i].ReorgMsg? :: SafeToReorg(states[i], msgs[i].since)
  }

  lemma SafePending(s: State, n: nat, s': State, h: nat, a: Address)
    requires Consumes(s, ReorgMsg(n), s') && SafeToReorg(s, n) && (h < n || h > s'.last)
    ensures PendingCell(s, h, a) == 0
  {
    var rows: seq<LogRow>, hours :| Reorgs(s, n, s', rows, hours);
    LastRowIsSince(s, n, s', rows, hours);
    SumZero(s.pending, EventCellWeight(h, a));
  }

  lemma {:induction false} SafeHasNoDrift(states: seq<State>, msgs: seq<Msg>, h: nat, a: Address)
    requires Trace(states, msgs) && SafeTrace(states, msgs)
    ensures Drift(states, msgs, h, a) == 0
    decreases |msgs|
  {
    hide Consumes, SafeToReorg, PendingCell;
    if msgs == [] {
    } else {
      var k := |msgs| - 1;
      TracePrefix(states, msgs, k);
      SafeHasNoDrift(states[..k + 1], msgs[..k], h, a);
      if msgs[k].ReorgMsg? && (h < msgs[k].since || h > states[k + 1].last) {
        SafePending(states[k], msgs[k].since, states[k + 1], h, a);
      }
    }
  }

  // ---- when it stops ----

  lemma EventHandled(s: State, e: Event) returns (s': State)
    ensures Consumes(s, EventMsg(e), s')
  {
    var r := Received(s, e, 0).(last := if e.height > s.last then e.height else s.last);
    var due, hours := [], [];
    if e.height > s.last && e.height >= COOLDOWN {
      due := Filter(r.pending, EventUpTo(e.height - COOLDOWN));
      hours := seq(|due|, _ => 0);
      s' := PostAll(r.(pending := Filter(r.pending, EventAfter(e.height - COOLDOWN))), ToRows(due), hours);
    } else {
      s' := r;
    }
    assert Handles(s, e, s', 0, due, hours);
  }

  /** The aggregator can handle every event, and a reorganisation exactly when its log has a row to compensate. */
  lemma ConsumableIff(s: State, m: Msg)
    ensures (exists s' :: Consumes(s, m, s')) <==> (m.ReorgMsg? ==> exists r | r in s.log :: r.height >= m.since)
  {
    hide Handles, Reorgs;
    match m
    case EventMsg(e) =>
      var s' := EventHandled(s, e);
    case ReorgMsg(n) =>
      ReorgPossibleIff(s, n);
      if s', rows, hours :| Reorgs(s, n, s', rows, hours) {
        assert Consumes(s, m, s');
      }
  }

  ghost predicate NoCoinbaseEvents(msgs: seq<Msg>) {
    forall m | m in msgs && m.EventMsg? :: !m.event.isCoinbase
  }

  ghost predicate HasRowSince(log: seq<LogRow>, n: nat) {
    exists r | r in log :: r.height >= n
  }

  ghost predicate HasEventSince(msgs: seq<Msg>, n: nat) {
    exists m | m in msgs && m.EventMsg? :: m.event.height >= n
  }

  /** Without coinbase events nothing is ever pending, and the log reaches as high as the events did. */
  lemma PlainStep(s: State, m: Msg, s': State, n: nat)
    requires s.pending == [] && Consumes(s, m, s') && (m.EventMsg? ==> !m.event.isCoinbase)
    ensures s'.pending == []
    ensures HasRowSince(s'.log, n) <==> HasRowSince(s.log, n) || (m.EventMsg? && m.event.height >= n)
  {
    match m
    case EventMsg(e) =>
      var hour, due, hours :| Handles(s, e, s', hour, due, hours);
      PlainEvent(s, e, s', hour, due, hours);
    case ReorgMsg(since) =>
      var rows: seq<LogRow>, hours :| Reorgs(s, since, s', rows, hours);
      PostAllLog(s, AllNegated(rows), hours);
      FilterNone(s.pending, EventAfter(s'.last));
      forall r | r in AllNegated(rows) && r.height >= n
        ensures HasRowSince(s.log, n)
      {
        var i :| 0 <= i < |rows| && r == Negated(rows[i]);
        assert rows[i] in multiset(Filter(s.log, RowSince(since)));
        FilterIn(s.log, RowSince(since), rows[i]);
      }
  }

  lemma PlainEvent(s: State, e: Event, s': State, hour: Hour, due: seq<Event>, hours: seq<Hour>)
    requires s.pending == [] && !e.isCoinbase && Handles(s, e, s', hour, due, hours)
    ensures s'.pending == [] && s'.log == s.log + [ToRow(e)]
  {
    var r := Received(s, e, hour).(last := e.height);
    if e.height > s.last && r.last >= COOLDOWN {
      var upTo := r.last - COOLDOWN;
      FilterNone(r.pending, EventAfter(upTo));
      FilterNone(r.pending, EventUpTo(upTo));
      assert |multiset(due)| == 0;
      PostAllLog(r.(pending := []), ToRows(due), hours);
    }
  }

  lemma {:induction false} PlainTrace(states: seq<State>, msgs: seq<Msg>, n: nat)
    requires Trace(states, msgs) && states[0] == START && NoCoinbaseEvents(msgs)
    ensures Final(states).pending == []
    ensures HasRowSince(Final(states).log, n) <==> HasEventSince(msgs, n)
    decreases |msgs|
  {
    hide Consumes, HasRowSince;
    if msgs == [] {
      assert !HasRowSince(START.log, n) by { NoRowAtStart(n); }
    } else {
      var k := |msgs| - 1;
      TracePrefix(states, msgs, k);
      PlainTrace(states[..k + 1], msgs[..k], n);
      assert msgs == msgs[..k] + [msgs[k]];
      PlainStep(states[k], msgs[k], states[k + 1], n);
    }
  }

  lemma NoRowAtStart(n: nat)
    ensures !HasRowSince(START.log, n)
  {
  }

  /** Reorganisation `i` comes after an event at or above its fork point. */
  ghost predicate Preceded(msgs: seq<Msg>, i: nat)
    requires i < |msgs|
  {
    msgs[i].ReorgMsg? ==> HasEventSince(msgs[..i], msgs[i].since)
  }

  lemma {:induction false} CanGoOn(states: seq<State>, msgs: seq<Msg>, k: nat) returns (all: seq<State>)
    requires k <= |msgs| && Trace(states, msgs[..k]) && states[0] == START && NoCoinbaseEvents(msgs)
    requires forall i | k <= i < |msgs| :: Preceded(msgs, i)
    ensures states <= all && Trace(all, msgs)
    decreases |msgs| - k
  {
    hide Consumes, HasRowSince, HasEventSince;
    if k == |msgs| {
      all := states;
      assert msgs[..k] == msgs;
    } else {
      var s := Final(states);
      assert Preceded(msgs, k);
      if msgs[k].ReorgMsg? {
        PlainTrace(states, msgs[..k], msgs[k].since);
        assert exists r | r in s.log :: r.height >= msgs[k].since by { RowSinceMeans(s.log, msgs[k].since); }
      }
      ConsumableIff(s, msgs[k]);
      var s' :| Consumes(s, msgs[k], s');
      TraceSnoc(states, msgs[..k], msgs[k], s');
      assert msgs[..k] + [msgs[k]] == msgs[..k + 1];
      all := CanGoOn(states + [s'], msgs, k + 1);
    }
  }

  lemma RowSinceMeans(log: seq<LogRow>, n: nat)
    ensures HasRowSince(log, n) <==> exists r | r in log :: r.height >= n
  {
  }

  /**
   * Without coinbase events the aggregator gets through the rest of a stream exactly when each reorganisation in it
   * comes after an event at or above its fork point.
   */
  lemma PlainNeverStopsIff(states: seq<State>, msgs: seq<Msg>, k: nat)
    requires k <= |msgs| && Trace(states, msgs[..k]) && states[0] == START && NoCoinbaseEvents(msgs)
    ensures (exists all: seq<State> :: states <= all && Trace(all, msgs))
       <==> forall i | k <= i < |msgs| :: Preceded(msgs, i)
  {
    hide Consumes, HasRowSince, HasEventSince;
    if all: seq<State> :| states <= all && Trace(all, msgs) {
      forall i | k <= i < |msgs|
        ensures Preceded(msgs, i)
      {
        TracePrefix(all, msgs, i);
        assert Consumes(all[i], msgs[i], all[i + 1]);
        ConsumableIff(all[i], msgs[i]);
        if msgs[i].ReorgMsg? {
          PlainTrace(all[..i + 1], msgs[..i], msgs[i].since);
          RowSinceMeans(all[i].log, msgs[i].since);
        }
      }
    }
    if forall i | k <= i < |msgs| :: Preceded(msgs, i) {
      var all := CanGoOn(states, msgs, k);
    }
  }
}
