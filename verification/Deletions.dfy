/** What deleting nodes from the inventory leaves behind. */
module Deletions {
  import opened Base
  import opened Lanes
  import opened Engine
  import opened EngineProofs

  /**
   * A node outside the inventory is gone from the liveness map and the down set, none of its checks has
   * an open alert or a held page, and what was said about each is the resolve of an alert that had been
   * sent, or nothing. Its rows leave the index if its liveness was known.
   */
  lemma ADeletedNodeLeavesNothing(s: State, s': State, retired: set<NodeId>, kept: set<NodeId>, em: Emission,
                                  n: NodeId, c: Check)
    requires Inv(s, retired) && ForgetStep(s, s', kept, em) && n !in kept && c.Node() == Some(n)
    ensures n !in s'.live && n !in s'.down && c !in s'.active && c !in s'.held
    ensures n in s.live ==> c !in s'.rowStates
    ensures if c in s.active && c !in s.held then c in em && em[c] == Resolve(s.active[c]) else c !in em
  {
    assert LaneOk(c, LaneOf(s, c), NodeDown(s, c));
    assert n in s.down <==> WasDown(s, n);
    assert LaneOf(s', c).alert == Lookup(s'.active, c) && LaneOf(s', c).hold == Lookup(s'.held, c);
    assert LaneOf(s, c).alert == Lookup(s.active, c) && LaneOf(s, c).hold == Lookup(s.held, c);
  }

  /** A node that is still there, and whatever is about no node, is left exactly as it was. */
  lemma OthersAreLeftAlone(s: State, s': State, kept: set<NodeId>, em: Emission, c: Check)
    requires ForgetStep(s, s', kept, em) && (c.Node().None? || c.Node().value in kept)
    ensures LaneOf(s', c) == LaneOf(s, c) && c !in em && (c in s'.rowStates <==> c in s.rowStates)
    ensures c.Node().Some? ==> Lookup(s'.live, c.Node().value) == Lookup(s.live, c.Node().value)
    ensures c.Node().Some? ==> (c.Node().value in s'.down <==> c.Node().value in s.down)
  {
    if c.Node().Some? {
      assert c.Node().value in kept;
    }
  }
}
