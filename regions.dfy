/**
 * Frames for the pass state: which part of the scene a step may change, and
 * the worklist invariant that every queued object is either still in the
 * scene or already in the removed set.
 */
module Regions {
  import opened Forest
  import opened SceneGraph

  /** Outside `r` every object of `m0` is still present with the same record, and no object is new. */
  ghost predicate Framed(m0: Nodes, m1: Nodes, r: set<Id>)
  {
    m1.Keys <= m0.Keys && forall x :: x in m0 && x !in r ==> x in m1 && m1[x] == m0[x]
  }

  /**
   * `w1` arises from `w0` by changes inside the region `r`: records outside `r`
   * are kept, the order only loses the objects that left, the removed set and
   * the worklist only grow, and what they gain lies in `r`.
   */
  ghost predicate Evolved(w0: World, w1: World, r: set<Id>)
  {
    Framed(w0.nodes, w1.nodes, r) && Shrunk(w0.nodes, w1.nodes) &&
    w1.order == Without(w0.order, w0.nodes.Keys - w1.nodes.Keys) &&
    w0.removed <= w1.removed && w1.removed - w0.removed <= r &&
    w0.work <= w1.work && (forall i :: |w0.work| <= i < |w1.work| ==> w1.work[i] in r)
  }

  /** Every object of `d` keeps its record from `m0` in `m1`. */
  ghost predicate Untouched(m0: Nodes, m1: Nodes, d: set<Id>)
  {
    forall x :: x in d ==> x in m0 && x in m1 && m1[x] == m0[x]
  }

  /** Every queued object is in the scene or in the removed set. */
  ghost predicate Tracked(w: World)
  {
    forall e :: e in w.work ==> e in w.nodes || e in w.removed
  }

  lemma EvolvedSame(w: World, r: set<Id>)
    ensures Evolved(w, w, r)
  {
    assert w.nodes.Keys - w.nodes.Keys == {};
    WithoutNothing(w.order);
  }

  lemma EvolvedTrans(w0: World, w1: World, w2: World, r: set<Id>)
    requires Evolved(w0, w1, r) && Evolved(w1, w2, r)
    ensures Evolved(w0, w2, r)
  {
    var k0, k1, k2 := w0.nodes.Keys, w1.nodes.Keys, w2.nodes.Keys;
    WithoutTwice(w0.order, k0 - k1, k1 - k2, k0 - k2);
    forall i | |w0.work| <= i < |w2.work| ensures w2.work[i] in r {
      if i < |w1.work| {
        assert w2.work[i] == w1.work[i];
      }
    }
  }

  lemma EvolvedWider(w0: World, w1: World, r: set<Id>, s: set<Id>)
    requires Evolved(w0, w1, r) && r <= s
    ensures Evolved(w0, w1, s)
  {
  }

  /** A step that keeps every object and the removed set, changes records only in `r` and queues only members of `r`. */
  lemma SameKeysEvolved(w: World, m1: Nodes, extra: seq<Id>, r: set<Id>)
    requires Framed(w.nodes, m1, r) && Shrunk(w.nodes, m1) && m1.Keys == w.nodes.Keys
    requires forall e :: e in extra ==> e in r
    ensures Evolved(w, World(m1, w.order, w.removed, w.work + extra), r)
  {
    assert w.nodes.Keys - m1.Keys == {};
    WithoutNothing(w.order);
    var w1 := World(m1, w.order, w.removed, w.work + extra);
    forall i | |w.work| <= i < |w1.work| ensures w1.work[i] in r {
      assert w1.work[i] == extra[i - |w.work|];
    }
  }

  /** A child of a member of the subtree of `a` is in that subtree too. */
  lemma ChildInSubtree(m: Nodes, rank: map<Id, nat>, x: Id, a: Id)
    requires Ranked(m, rank) && x in m && m[x].parent.Some? && m[x].parent.value in Subtree(m, rank, a)
    ensures x in Subtree(m, rank, x) && x in Subtree(m, rank, a)
  {
  }

  /** The subtree of a child of `p` is part of the subtree of `p`, and `p` is outside it. */
  lemma KidSubtree(m: Nodes, rank: map<Id, nat>, c: Id, p: Id)
    requires Ranked(m, rank) && c in m && m[c].parent == Some(p)
    ensures Subtree(m, rank, c) <= Subtree(m, rank, p) && p !in Subtree(m, rank, c)
  {
    assert Reaches(m, rank, p, p);
    SubtreeNested(m, rank, c, p);
    if p in Subtree(m, rank, c) {
      ReachesRank(m, rank, p, c);
    }
  }

  /** `remove_object_and_children` changes the subtree of `x` and nothing else. */
  lemma RemovedSubtreeEvolved(w: World, rank: map<Id, nat>, x: Id)
    requires Sound(w, rank)
    ensures Evolved(w, RemovedSubtree(w, rank, x), Subtree(w.nodes, rank, x))
    ensures Tracked(w) ==> Tracked(RemovedSubtree(w, rank, x))
  {
    var d := Subtree(w.nodes, rank, x);
    var r := RemovedSubtree(w, rank, x);
    assert w.nodes.Keys - r.nodes.Keys == d;
  }

  /**
   * From `w1` to `w2` the objects of `d` that were present keep their records,
   * no object appears, the removed set and the worklist only grow, and nothing
   * newly removed or newly queued lies in `d`.
   */
  ghost predicate Settled(w1: World, w2: World, d: set<Id>)
  {
    w2.nodes.Keys <= w1.nodes.Keys &&
    (forall x :: x in d && x in w1.nodes ==> x in w2.nodes && w2.nodes[x] == w1.nodes[x]) &&
    w1.removed <= w2.removed && (w2.removed - w1.removed) !! d && w1.work <= w2.work &&
    (forall i :: |w1.work| <= i < |w2.work| ==> w2.work[i] !in d)
  }

  /** A step confined to a region away from `d` leaves `d` settled. */
  lemma EvolvedSettled(w1: World, w2: World, r: set<Id>, d: set<Id>)
    requires Evolved(w1, w2, r) && r !! d
    ensures Settled(w1, w2, d)
  {
  }

  lemma SettledTrans(w1: World, w2: World, w3: World, d: set<Id>)
    requires Settled(w1, w2, d) && Settled(w2, w3, d)
    ensures Settled(w1, w3, d)
  {
    forall i | |w1.work| <= i < |w3.work| ensures w3.work[i] !in d {
      if i < |w2.work| {
        assert w3.work[i] == w2.work[i];
      }
    }
  }

  lemma SettledSame(w: World, d: set<Id>)
    ensures Settled(w, w, d)
  {
  }

  /** The children of a node of an untouched subtree are the same in the evolved state. */
  lemma ChildrenSeen(w0: World, w1: World, rank: map<Id, nat>, r: set<Id>, a: Id, x: Id)
    requires Ranked(w0.nodes, rank) && Evolved(w0, w1, r)
    requires Untouched(w0.nodes, w1.nodes, Subtree(w0.nodes, rank, a)) && x in Subtree(w0.nodes, rank, a)
    ensures ChildrenIn(w1.nodes, w1.order, x) == ChildrenIn(w0.nodes, w0.order, x)
  {
    var g := w0.nodes.Keys - w1.nodes.Keys;
    forall y | y in w0.order && y !in g
      ensures (y in w1.nodes && w1.nodes[y].parent == Some(x)) <==> (y in w0.nodes && w0.nodes[y].parent == Some(x))
    {
      if y in w0.nodes && w0.nodes[y].parent == Some(x) {
        ChildInSubtree(w0.nodes, rank, y, a);
      }
    }
    forall y | y in w0.order && y in g ensures !(y in w0.nodes && w0.nodes[y].parent == Some(x)) {
      if y in w0.nodes && w0.nodes[y].parent == Some(x) {
        ChildInSubtree(w0.nodes, rank, y, a);
      }
    }
    ChildrenAfter(w0.nodes, w1.nodes, w0.order, g, x);
  }

  /**
   * A subtree that a sequence of steps left untouched looks the same afterwards:
   * same members, same records, same child lists.
   */
  lemma RegionSeen(w0: World, w1: World, rank: map<Id, nat>, r: set<Id>, a: Id)
    requires Ranked(w0.nodes, rank) && Ranked(w1.nodes, rank) && Evolved(w0, w1, r)
    requires Untouched(w0.nodes, w1.nodes, Subtree(w0.nodes, rank, a))
    ensures Subtree(w1.nodes, rank, a) == Subtree(w0.nodes, rank, a)
    ensures forall x :: x in Subtree(w0.nodes, rank, a) ==> ChildrenIn(w1.nodes, w1.order, x) == ChildrenIn(w0.nodes, w0.order, x)
  {
    SubtreeKept(w0.nodes, w1.nodes, rank, a);
    forall x | x in Subtree(w0.nodes, rank, a) ensures ChildrenIn(w1.nodes, w1.order, x) == ChildrenIn(w0.nodes, w0.order, x) {
      ChildrenSeen(w0, w1, rank, r, a, x);
    }
  }
}
