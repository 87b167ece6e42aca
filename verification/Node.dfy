/** The Bitcoin node behind the RPC client, asked one call at a time. */
module Node {
  import opened Types
  import opened Chain
  import opened Follower

  /** For each call, the tip of the node's best chain at that moment, or None when the call fails. */
  type Oracle = nat -> Option<Hash>

  /** The RPC client. What the node answers is not its doing: any call may fail, and no two need agree on one branch. */
  class Client {
    const world: World
    const node: Oracle
    var calls: nat

    // How many calls went without an answer.
    ghost var unanswered: nat

    ghost predicate Valid() {
      ValidWorld(world) && forall n: nat :: node(n).Some? ==> node(n).value in world
    }

    constructor (world: World, node: Oracle)
      ensures this.world == world && this.node == node && calls == 0 && unanswered == 0
    {
      this.world, this.node, this.calls, this.unanswered := world, node, 0, 0;
    }

    /** The height of the best chain at call `n`. */
    function TipAt(n: nat): Option<nat>
      requires Valid()
    {
      if node(n).Some? then Some(world[node(n).value].header.height) else None
    }

    /** The block of the best chain at that height, at call `n`. */
    function BlockAt(n: nat, height: nat): (r: Option<Block>)
      requires Valid()
      ensures r.Some? <==> node(n).Some? && height <= world[node(n).value].header.height
      ensures r.Some? ==> Serves(world, r.value) && r.value.header.height == height
      ensures r.Some? ==> r.value.header.hash == AncestorAt(world, node(n).value, height)
    {
      if node(n).Some? && height <= world[node(n).value].header.height then
        assert Linked(world, AncestorAt(world, node(n).value, height));
        Some(world[AncestorAt(world, node(n).value, height)])
      else
        None
    }

    /** The tip is the highest block there is. */
    lemma TipIsTop(n: nat)
      requires Valid() && TipAt(n).Some?
      ensures BlockAt(n, TipAt(n).value).Some? && BlockAt(n, TipAt(n).value + 1).None?
      ensures BlockAt(n, TipAt(n).value).value.header.hash == node(n).value
    {
      TipOfBranch(world, node(n).value);
    }

    /** From call `n` on the node always answers. */
    ghost predicate Up(n: nat) {
      forall m: nat | m >= n :: node(m).Some?
    }

    /** From call `n` on the node always answers, and from one chain. */
    ghost predicate Steady(n: nat) {
      node(n).Some? && forall m: nat | m >= n :: node(m) == node(n)
    }

    method TipNumber() returns (r: Option<nat>)
      requires Valid()
      modifies this
      ensures calls == old(calls) + 1 && r == TipAt(old(calls))
      ensures unanswered == old(unanswered) + if r.None? then 1 else 0
    {
      r := TipAt(calls);
      calls := calls + 1;
      if r.None? {
        unanswered := unanswered + 1;
      }
    }

    method ScanBlock(height: nat) returns (r: Option<Block>)
      requires Valid()
      modifies this
      ensures calls == old(calls) + 1 && r == BlockAt(old(calls), height)
      ensures unanswered == old(unanswered) + if r.None? then 1 else 0
    {
      r := BlockAt(calls, height);
      calls := calls + 1;
      if r.None? {
        unanswered := unanswered + 1;
      }
    }

    method ScanBlockByHash(hash: Hash) returns (r: Option<Block>)
      requires Valid()
      modifies this
      ensures calls == old(calls) + 1
      ensures r == if node(old(calls)).Some? && hash in world then Some(world[hash]) else None
      ensures unanswered == old(unanswered) + if r.None? then 1 else 0
    {
      if node(calls).Some? && hash in world {
        r := Some(world[hash]);
      } else {
        r := None;
        unanswered := unanswered + 1;
      }
      calls := calls + 1;
    }
  }
}
