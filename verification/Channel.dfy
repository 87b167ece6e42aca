/** The unbounded channel from the processor to the aggregator. */
module Channel {
  import opened Types

  class EventChannel {
    // Everything ever sent; the first `taken` messages have been received.
    var sent: seq<Msg>
    var taken: nat

    ghost predicate Valid()
      reads this
    {
      taken <= |sent|
    }

    constructor ()
      ensures Valid() && sent == [] && taken == 0
    {
      sent, taken := [], 0;
    }

    method Send(m: Msg)
      requires Valid()
      modifies this`sent
      ensures Valid() && sent == old(sent) + [m]
    {
      sent := sent + [m];
    }

    method Receive() returns (m: Option<Msg>)
      requires Valid()
      modifies this`taken
      ensures Valid()
      ensures m.None? <==> old(taken) == |sent|
      ensures m.Some? ==> m.value == sent[old(taken)] && taken == old(taken) + 1
      ensures m.None? ==> taken == old(taken)
    {
      if taken == |sent| {
        return None;
      }
      m := Some(sent[taken]);
      taken := taken + 1;
    }
  }
}
