/** Coinbase events: each is committed once and only when mature. */
module Maturity {
  import opened Types
  import opened Sums
  import opened Schema
  import opened Indexing
  import opened Integrity
  import opened Conservation
  import opened Aggregation
  import opened Draining

  // ---- exactly once ----

  function EventsOf(msgs: seq<Msg>): seq<Event>
    requires forall m | m in msgs :: m.EventMsg?
  {
    seq(|msgs|, i requires 0 <= i < |msgs| => msgs[i].event)
  }

  ghost predicate OnlyEvents(msgs: seq<Msg>) {
    forall m | m in msgs :: m.EventMsg?
  }

  lemma ToRowsConcat(a: seq<Event>, b: seq<Event>)
    ensures ToRows(a + b) == ToRows(a) + ToRows(b)
  {
  }

  lemma MiddleOut(l: seq<LogRow>, x: seq<LogRow>, r: seq<LogRow>)
    ensures multiset(l + x + r) == multiset(l + r) + multiset(x)
  {
  }

  lemma {:induction false} ToRowsPermutation(a: seq<Event>, b: seq<Event>)
    requires multiset(a) == multiset(b)
    ensures multiset(ToRows(a)) == multiset(ToRows(b))
  {
    if |a| == 0 {
      assert |multiset(b)| == 0;
    } else {
      hide ToRows;
      var i := RemoveOne(a, b);
      var init, x, l, r := a[..|a| - 1], a[|a| - 1], b[..i], b[i + 1..];
      ToRowsPermutation(init, l + r);
      assert a == init + [x] && b == l + [x] + r;
      ToRowsConcat(init, [x]);
      ToRowsConcat(l, r);
      ToRowsConcat(l + [x], r);
      ToRowsConcat(l, [x]);
      MiddleOut(ToRows(l), ToRows([x]), ToRows(r));
    }
  }

  /** Every event a row stands for: those in the log and those still pending. */
  ghost function Bag(s: State): multiset<LogRow> {
    multiset(s.log) + multiset(ToRows(s.pending))
  }

  lemma DueAndRest(pending: seq<Event>, due: seq<Event>, upTo: nat)
    requires InSomeOrder(due, Filter(pending, EventUpTo(upTo)))
    ensures multiset(ToRows(due)) + multiset(ToRows(Filter(pending, EventAfter(upTo)))) == multiset(ToRows(pending))
  {
    var rest := Filter(pending, EventAfter(upTo));
    FilterSplit(pending, EventUpTo(upTo), EventAfter(upTo));
    assert multiset(due + rest) == multiset(pending);
    ToRowsPermutation(due + rest, pending);
    ToRowsConcat(due, rest);
  }

  lemma CommitKeepsBag(s: State, s': State, due: seq<Event>, hours: seq<Hour>)
    requires Commits(s, s', due, hours)
    ensures Bag(s') == Bag(s)
  {
    hide PostAll, Filter;
    if s.last >= COOLDOWN {
      var upTo := s.last - COOLDOWN;
      PostAllLog(s.(pending := Filter(s.pending, EventAfter(upTo))), ToRows(due), hours);
      DueAndRest(s.pending, due, upTo);
    }
  }

  lemma HandleAddsOne(s: State, e: Event, s': State, hour: Hour, due: seq<Event>, hours: seq<Hour>)
    requires Handles(s, e, s', hour, due, hours)
    ensures Bag(s') == Bag(s) + multiset{ToRow(e)}
  {
    var r := Received(s, e, hour);
    ToRowsConcat(s.pending, [e]);
    assert ToRows([e]) == [ToRow(e)];
    assert Bag(r) == Bag(s) + multiset{ToRow(e)};
    if e.height > s.last {
      CommitKeepsBag(r.(last := e.height), s', due, hours);
    }
  }

  lemma EventsSnoc(msgs: seq<Msg>)
    requires msgs != [] && OnlyEvents(msgs)
    ensures OnlyEvents(msgs[..|msgs| - 1]) && msgs[|msgs| - 1].EventMsg?
    ensures EventsOf(msgs) == EventsOf(msgs[..|msgs| - 1]) + [msgs[|msgs| - 1].event]
  {
  }

  lemma RowsSnoc(es: seq<Event>, e: Event)
    ensures multiset(ToRows(es + [e])) == multiset(ToRows(es)) + multiset{ToRow(e)}
  {
    assert ToRows(es + [e]) == ToRows(es) + [ToRow(e)];
  }

  /** Without reorganisations every event handled is in the log or pending, exactly once. */
  lemma {:induction false} ExactlyOnce(msgs: seq<Msg>, s: State)
    requires OnlyEvents(msgs) && ConsumesAll(START, msgs, s)
    ensures Bag(s) == multiset(ToRows(EventsOf(msgs)))
    ensures forall e | e in s.pending :: e.isCoinbase
    decreases |msgs|
  {
    hide ConsumesAll, Consumes, Handles;
    if msgs == [] {
      assert s == START by { NothingConsumed(s); }
    } else {
      hide Bag, ToRows, EventsOf;
      var init, m := msgs[..|msgs| - 1], msgs[|msgs| - 1];
      EventsSnoc(msgs);
      var mid := BeforeLast(msgs, s);
      ExactlyOnce(init, mid);
      var hour, due, hours := TheHandling(mid, m, s);
      HandleAddsOne(mid, m.event, s, hour, due, hours);
      RowsSnoc(EventsOf(init), m.event);
      PendingIsCoinbase(mid, m.event, s, hour, due, hours);
    }
  }

  lemma NothingConsumed(s: State)
    requires ConsumesAll(START, [], s)
    ensures s == START
  {
  }

  lemma BeforeLast(msgs: seq<Msg>, s: State) returns (mid: State)
    requires msgs != [] && ConsumesAll(START, msgs, s)
    ensures ConsumesAll(START, msgs[..|msgs| - 1], mid) && Consumes(mid, msgs[|msgs| - 1], s)
  {
    var init, m := msgs[..|msgs| - 1], msgs[|msgs| - 1];
    mid :| ConsumesAll(START, init, mid) && Consumes(mid, m, s);
  }

  lemma TheHandling(s: State, m: Msg, s': State) returns (hour: Hour, due: seq<Event>, hours: seq<Hour>)
    requires m.EventMsg? && Consumes(s, m, s')
    ensures Handles(s, m.event, s', hour, due, hours)
  {
    hour, due, hours :| Handles(s, m.event, s', hour, due, hours);
  }

  lemma PendingIsCoinbase(s: State, e: Event, s': State, hour: Hour, due: seq<Event>, hours: seq<Hour>)
    requires Handles(s, e, s', hour, due, hours) && forall x | x in s.pending :: x.isCoinbase
    ensures forall x | x in s'.pending :: x.isCoinbase
  {
    var r := Received(s, e, hour);
    assert forall x | x in r.pending :: x.isCoinbase;
    if e.height > s.last && e.height >= COOLDOWN {
      var rest := Filter(r.pending, EventAfter(e.height - COOLDOWN));
      PostAllLog(r.(last := e.height, pending := rest), ToRows(due), hours);
      forall x | x in s'.pending
        ensures x.isCoinbase
      {
        FilterIn(r.pending, EventAfter(e.height - COOLDOWN), x);
      }
    }
  }

  /** What one message commits beyond its own row was pending, and is at least 100 blocks older than the message. */
  lemma CommittedIsMature(s: State, e: Event, s': State, hour: Hour, due: seq<Event>, hours: seq<Hour>)
    requires Handles(s, e, s', hour, due, hours)
    ensures s'.log == s.log + (if e.isCoinbase then [] else [ToRow(e)]) + ToRows(due)
    ensures forall d | d in due :: d in s.pending && d.height + 100 <= e.height
  {
    hide Commits;
    var r := Received(s, e, hour);
    if e.height > s.last {
      CommitsMature(r.(last := e.height), s', due, hours);
    }
    assert s'.log == r.log + ToRows(due);
  }

  lemma CommitsMature(s: State, s': State, due: seq<Event>, hours: seq<Hour>)
    requires Commits(s, s', due, hours)
    ensures s'.log == s.log + ToRows(due)
    ensures forall d | d in due :: d in s.pending && d.height + COOLDOWN <= s.last
  {
    hide PostAll, Filter;
    if s.last < COOLDOWN {
      assert s.log + ToRows(due) == s.log;
    } else {
      var upTo := s.last - COOLDOWN;
      PostAllLog(s.(pending := Filter(s.pending, EventAfter(upTo))), ToRows(due), hours);
      forall d | d in due
        ensures d in s.pending && d.height <= upTo
      {
        assert d in multiset(Filter(s.pending, EventUpTo(upTo)));
        FilterIn(s.pending, EventUpTo(upTo), d);
      }
    }
  }

  // ---- what is pending when heights do not decrease ----

  ghost predicate NonDecreasing(msgs: seq<Msg>)
    requires OnlyEvents(msgs)
  {
    forall i, j | 0 <= i < j < |msgs| :: EventsOf(msgs)[i].height <= EventsOf(msgs)[j].height
  }

  ghost function LastHeight(msgs: seq<Msg>): nat
    requires OnlyEvents(msgs)
  {
    if msgs == [] then 0 else EventsOf(msgs)[|msgs| - 1].height
  }

  /** A coinbase event still in its cooldown when the last height seen is `last`. */
  function Waiting(last: nat): Event -> bool {
    (e: Event) => e.isCoinbase && e.height + 100 > last
  }

  lemma {:induction false} FilterTwice(s: seq<Event>, p: Event -> bool, q: Event -> bool, pq: Event -> bool)
    requires forall e | e in s :: pq(e) <==> p(e) && q(e)
    ensures Filter(Filter(s, p), q) == Filter(s, pq)
  {
    if s == [] {
    } else {
      var init, x := s[..|s| - 1], s[|s| - 1];
      FilterTwice(init, p, q, pq);
      FilterAppend(Filter(init, p), if p(x) then [x] else [], q);
      if p(x) {
        assert Filter([x], q) == if q(x) then [x] else [] by { FilterAppend([], [x], q); assert [x][..0] == []; }
      }
    }
  }

  lemma {:induction false} FilterSame(s: seq<Event>, p: Event -> bool, q: Event -> bool)
    requires forall e | e in s :: p(e) <==> q(e)
    ensures Filter(s, p) == Filter(s, q)
  {
    if s == [] {
    } else {
      FilterSame(s[..|s| - 1], p, q);
    }
  }

  lemma WaitingStep(es: seq<Event>, s: State, e: Event, s': State, hour: Hour, due: seq<Event>, hours: seq<Hour>)
    requires Handles(s, e, s', hour, due, hours) && e.height >= s.last
    requires s.pending == Filter(es, Waiting(s.last))
    ensures s'.pending == Filter(es + [e], Waiting(e.height)) && s'.last == e.height
  {
    hide Commits, Filter;
    var r := Received(s, e, hour);
    OneMoreWaiting(es, e, s.last);
    if e.height > s.last {
      CommitsWaiting(es + [e], s.last, r.(last := e.height), s', due, hours);
    }
  }

  lemma OneMoreWaiting(es: seq<Event>, e: Event, last: nat)
    requires e.height >= last
    ensures Filter(es + [e], Waiting(last)) == Filter(es, Waiting(last)) + if e.isCoinbase then [e] else []
  {
    assert (es + [e])[..|es|] == es;
  }

  lemma CommitsWaiting(es: seq<Event>, last: nat, s: State, s': State, due: seq<Event>, hours: seq<Hour>)
    requires Commits(s, s', due, hours) && s.pending == Filter(es, Waiting(last)) && last <= s.last
    ensures s'.pending == Filter(es, Waiting(s.last)) && s'.last == s.last
  {
    hide PostAll, Filter;
    if s.last < COOLDOWN {
      FilterSame(es, Waiting(last), Waiting(s.last));
    } else {
      var upTo := s.last - COOLDOWN;
      PostAllLog(s.(pending := Filter(s.pending, EventAfter(upTo))), ToRows(due), hours);
      FilterTwice(es, Waiting(last), EventAfter(upTo), Waiting(s.last));
    }
  }

  /** Pending are exactly the coinbase events handled that are still in their cooldown. */
  lemma {:induction false} PendingIsWaiting(msgs: seq<Msg>, s: State)
    requires OnlyEvents(msgs) && NonDecreasing(msgs) && ConsumesAll(START, msgs, s)
    ensures s.last == LastHeight(msgs) && s.pending == Filter(EventsOf(msgs), Waiting(s.last))
    decreases |msgs|
  {
    hide ConsumesAll, Consumes, Handles;
    if msgs == [] {
      NothingConsumed(s);
    } else {
      var init, m := msgs[..|msgs| - 1], msgs[|msgs| - 1];
      EventsSnoc(msgs);
      var mid := BeforeLast(msgs, s);
      assert NonDecreasing(init) by { InitNonDecreasing(msgs); }
      PendingIsWaiting(init, mid);
      var hour, due, hours := TheHandling(mid, m, s);
      LastRises(msgs);
      hide Filter, NonDecreasing;
      WaitingStep(EventsOf(init), mid, m.event, s, hour, due, hours);
    }
  }

  lemma InitNonDecreasing(msgs: seq<Msg>)
    requires msgs != [] && OnlyEvents(msgs) && NonDecreasing(msgs)
    ensures NonDecreasing(msgs[..|msgs| - 1])
  {
    EventsSnoc(msgs);
    var init := msgs[..|msgs| - 1];
    forall i, j | 0 <= i < j < |init|
      ensures EventsOf(init)[i].height <= EventsOf(init)[j].height
    {
      assert EventsOf(msgs)[i].height <= EventsOf(msgs)[j].height;
    }
  }

  lemma LastRises(msgs: seq<Msg>)
    requires msgs != [] && OnlyEvents(msgs) && NonDecreasing(msgs)
    ensures OnlyEvents(msgs[..|msgs| - 1])
    ensures LastHeight(msgs[..|msgs| - 1]) <= LastHeight(msgs) == msgs[|msgs| - 1].event.height
  {
    EventsSnoc(msgs);
    if |msgs| > 1 {
      assert EventsOf(msgs)[|msgs| - 2].height <= EventsOf(msgs)[|msgs| - 1].height;
    }
  }
}
