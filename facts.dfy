/**
 * Facts about the whole dispatch loop and the removal list: first parents are
 * distinct roots, so their rules work on disjoint subtrees; each rule finds its
 * subtree as the scene had it, no later rule disturbs it, skipped first
 * parents are neither changed nor queued, and the pass never stops early.
 */
module PassFacts {
  import opened Forest
  import opened SceneGraph
  import opened Classify
  import opened Conversion
  import opened Regions
  import opened RuleFrames

  /** The first parents handed to the dispatcher: distinct root objects of the scene. */
  ghost predicate RootList(m0: Nodes, qs: seq<Id>)
  {
    NoDup(qs) && forall q :: q in qs ==> q in m0 && m0[q].parent.None?
  }

  /** A first parent whose tag names neither rule. */
  predicate Skipped(m0: Nodes, q: Id)
  {
    q in m0 && m0[q].tag != Some(Drawable) && m0[q].tag != Some(Fragment)
  }

  /** Nothing queued in `w` lies in `d`. */
  ghost predicate NotQueued(w: World, d: set<Id>)
  {
    forall i :: 0 <= i < |w.work| ==> w.work[i] !in d
  }

  /**
   * The invariant after the first `n` first parents: queued objects are
   * tracked, the state evolved from the scene, and the subtree of every first
   * parent still to come, and of every skipped one, is untouched and unqueued.
   */
  ghost predicate DispatchInv(m0: Nodes, o0: seq<Id>, rank: map<Id, nat>, qs: seq<Id>, n: nat, d: World)
    requires Ranked(m0, rank)
  {
    Tracked(d) && Evolved(World(m0, o0, {}, []), d, m0.Keys) &&
    forall j :: 0 <= j < |qs| && (n <= j || Skipped(m0, qs[j])) ==> Kept(m0, rank, d, qs[j])
  }

  /** The subtree the scene gives `a` keeps its records in `d`, and none of it is queued. */
  ghost predicate Kept(m0: Nodes, rank: map<Id, nat>, d: World, a: Id)
    requires Ranked(m0, rank)
  {
    Untouched(m0, d.nodes, Subtree(m0, rank, a)) && NotQueued(d, Subtree(m0, rank, a))
  }

  /** A rule confined to the subtree of `q` keeps the subtree of another root `a` untouched and unqueued. */
  lemma OtherRootKept(m0: Nodes, rank: map<Id, nat>, r0: World, r1: World, r: set<Id>, q: Id, a: Id)
    requires Ranked(m0, rank) && Evolved(r0, r1, r) && r <= Subtree(m0, rank, q)
    requires q in m0 && a in m0 && q != a && m0[q].parent.None? && m0[a].parent.None?
    requires Kept(m0, rank, r0, a)
    ensures Kept(m0, rank, r1, a)
  {
    SiblingsDisjoint(m0, rank, q, a);
    forall i | 0 <= i < |r1.work| ensures r1.work[i] !in Subtree(m0, rank, a) {
      if i < |r0.work| {
        assert r1.work[i] == r0.work[i];
      }
    }
  }

  /** The dispatcher's starting state. */
  function Start(m0: Nodes, o0: seq<Id>): World
  {
    World(m0, o0, {}, [])
  }

  /** One more first parent: the pass goes on and the invariant still holds. */
  lemma DispatchStep(m0: Nodes, o0: seq<Id>, rank: map<Id, nat>, qs: seq<Id>, n: nat)
    requires Ranked(m0, rank) && NoDup(o0) && RootList(m0, qs) && 0 < n <= |qs|
    ensures Dispatched(Start(m0, o0), rank, qs, n).1
    ensures DispatchInv(m0, o0, rank, qs, n, Dispatched(Start(m0, o0), rank, qs, n).0)
    decreases n, 0
  {
    DispatchSafe(m0, o0, rank, qs, n - 1);
    var w0 := Start(m0, o0);
    var r0 := Dispatched(w0, rank, qs, n - 1).0;
    var q := qs[n - 1];
    assert Dispatched(w0, rank, qs, n) == RuleEffect(r0, rank, q);
    assert Reaches(m0, rank, q, q);
    SubtreeShrunk(m0, r0.nodes, rank, q);
    var sq := Subtree(r0.nodes, rank, q);
    assert forall e :: e in r0.work ==> e !in sq;
    RuleEffectSafe(r0, rank, q);
    var r1 := RuleEffect(r0, rank, q).0;
    EvolvedChain(w0, r0, r1, sq, m0.Keys);
    forall j | 0 <= j < |qs| && (n <= j || Skipped(m0, qs[j]))
      ensures Kept(m0, rank, r1, qs[j])
    {
      if j != n - 1 {
        OtherRootKept(m0, rank, r0, r1, sq, q, qs[j]);
      }
    }
  }

  /** The dispatcher never stops early on distinct roots, and the invariant holds throughout. */
  lemma {:induction false} DispatchSafe(m0: Nodes, o0: seq<Id>, rank: map<Id, nat>, qs: seq<Id>, n: nat)
    requires Ranked(m0, rank) && NoDup(o0) && RootList(m0, qs) && n <= |qs|
    ensures Dispatched(Start(m0, o0), rank, qs, n).1
    ensures DispatchInv(m0, o0, rank, qs, n, Dispatched(Start(m0, o0), rank, qs, n).0)
    decreases n, 1
  {
    if n == 0 {
      EvolvedSame(Start(m0, o0), m0.Keys);
    } else {
      DispatchStep(m0, o0, rank, qs, n);
    }
  }

  /**
   * When its turn comes, a first parent finds its subtree exactly as the scene
   * had it: the same objects with the same records and the same child lists.
   */
  lemma RuleSeesScene(m0: Nodes, o0: seq<Id>, rank: map<Id, nat>, qs: seq<Id>, n: nat)
    requires Ranked(m0, rank) && NoDup(o0) && RootList(m0, qs) && n < |qs|
    ensures var d := Dispatched(Start(m0, o0), rank, qs, n).0;
      d.nodes.Keys <= m0.Keys &&
      Untouched(m0, d.nodes, Subtree(m0, rank, qs[n])) &&
      Subtree(d.nodes, rank, qs[n]) == Subtree(m0, rank, qs[n]) &&
      (forall x :: x in Subtree(m0, rank, qs[n]) ==> ChildrenIn(d.nodes, d.order, x) == ChildrenIn(m0, o0, x)) &&
      NotQueued(d, Subtree(m0, rank, qs[n]))
  {
    DispatchSafe(m0, o0, rank, qs, n);
    var d := Dispatched(Start(m0, o0), rank, qs, n).0;
    RegionSeen(Start(m0, o0), d, rank, m0.Keys, qs[n]);
  }

  /** In the dispatch loop, once `qs[j]` has had its turn no other first parent disturbs its subtree. */
  lemma {:induction false} AfterTurn(m0: Nodes, o0: seq<Id>, rank: map<Id, nat>, qs: seq<Id>, j: nat, n: nat)
    requires Ranked(m0, rank) && NoDup(o0) && RootList(m0, qs) && j < n <= |qs|
    ensures Settled(Dispatched(Start(m0, o0), rank, qs, j + 1).0, Dispatched(Start(m0, o0), rank, qs, n).0, Subtree(m0, rank, qs[j]))
  {
    var w0 := Start(m0, o0);
    if n == j + 1 {
      SettledSame(Dispatched(w0, rank, qs, n).0, Subtree(m0, rank, qs[j]));
    } else {
      AfterTurn(m0, o0, rank, qs, j, n - 1);
      TurnSettles(m0, o0, rank, qs, j, n);
      SettledTrans(Dispatched(w0, rank, qs, j + 1).0, Dispatched(w0, rank, qs, n - 1).0, Dispatched(w0, rank, qs, n).0, Subtree(m0, rank, qs[j]));
    }
  }

  /** The turn of `qs[n - 1]` changes only the subtree that first parent had in the scene. */
  lemma TurnConfined(m0: Nodes, o0: seq<Id>, rank: map<Id, nat>, qs: seq<Id>, n: nat)
    requires Ranked(m0, rank) && NoDup(o0) && RootList(m0, qs) && 0 < n <= |qs|
    ensures Evolved(Dispatched(Start(m0, o0), rank, qs, n - 1).0, Dispatched(Start(m0, o0), rank, qs, n).0, Subtree(m0, rank, qs[n - 1]))
  {
    var w0 := Start(m0, o0);
    DispatchSafe(m0, o0, rank, qs, n - 1);
    var r0 := Dispatched(w0, rank, qs, n - 1).0;
    var q := qs[n - 1];
    assert Dispatched(w0, rank, qs, n) == RuleEffect(r0, rank, q);
    assert Reaches(m0, rank, q, q);
    SubtreeShrunk(m0, r0.nodes, rank, q);
    var sq := Subtree(r0.nodes, rank, q);
    assert forall e :: e in r0.work ==> e !in sq;
    RuleEffectSafe(r0, rank, q);
    EvolvedWider(r0, RuleEffect(r0, rank, q).0, sq, Subtree(m0, rank, q));
  }

  /** The turn of `qs[n - 1]` leaves the subtree of an earlier first parent `qs[j]` settled. */
  lemma TurnSettles(m0: Nodes, o0: seq<Id>, rank: map<Id, nat>, qs: seq<Id>, j: nat, n: nat)
    requires Ranked(m0, rank) && NoDup(o0) && RootList(m0, qs) && j + 1 < n <= |qs|
    ensures Settled(Dispatched(Start(m0, o0), rank, qs, n - 1).0, Dispatched(Start(m0, o0), rank, qs, n).0, Subtree(m0, rank, qs[j]))
  {
    TurnConfined(m0, o0, rank, qs, n);
    SiblingsDisjoint(m0, rank, qs[n - 1], qs[j]);
    EvolvedSettled(Dispatched(Start(m0, o0), rank, qs, n - 1).0, Dispatched(Start(m0, o0), rank, qs, n).0,
                   Subtree(m0, rank, qs[n - 1]), Subtree(m0, rank, qs[j]));
  }

  /** A skipped first parent's subtree is neither changed nor queued by the whole dispatch loop. */
  lemma SkippedUntouched(m0: Nodes, o0: seq<Id>, rank: map<Id, nat>, qs: seq<Id>, j: nat)
    requires Ranked(m0, rank) && NoDup(o0) && RootList(m0, qs) && j < |qs| && Skipped(m0, qs[j])
    ensures var d := Dispatched(Start(m0, o0), rank, qs, |qs|).0;
      Untouched(m0, d.nodes, Subtree(m0, rank, qs[j])) && NotQueued(d, Subtree(m0, rank, qs[j]))
  {
    DispatchSafe(m0, o0, rank, qs, |qs|);
  }

  // ----- the removal list -----

  /** The objects of `w` in the subtrees of the first `n` entries of `es`. */
  ghost function QueuedSubtrees(w: World, rank: map<Id, nat>, es: seq<Id>, n: nat): (q: set<Id>)
    requires Ranked(w.nodes, rank) && n <= |es|
    ensures q <= w.nodes.Keys
  {
    if n == 0 then {} else QueuedSubtrees(w, rank, es, n - 1) + Subtree(w.nodes, rank, es[n - 1])
  }

  /** An object is in those subtrees exactly when one of the first `n` entries is it or an ancestor of it. */
  lemma {:induction false} QueuedSubtreesMembers(w: World, rank: map<Id, nat>, es: seq<Id>, n: nat)
    requires Ranked(w.nodes, rank) && n <= |es|
    ensures forall x :: x in QueuedSubtrees(w, rank, es, n) <==>
      x in w.nodes && exists k :: 0 <= k < n && Reaches(w.nodes, rank, x, es[k])
  {
    if n > 0 {
      QueuedSubtreesMembers(w, rank, es, n - 1);
    }
  }

  lemma {:induction false} QueuedSubtreesDownClosed(w: World, rank: map<Id, nat>, es: seq<Id>, n: nat)
    requires Ranked(w.nodes, rank) && n <= |es|
    ensures DownClosed(w.nodes, QueuedSubtrees(w, rank, es, n))
  {
    if n > 0 {
      QueuedSubtreesDownClosed(w, rank, es, n - 1);
      SubtreeDownClosed(w.nodes, rank, es[n - 1]);
    }
  }

  /** After the first `n` entries, exactly their subtrees have left the scene for the removed set. */
  ghost predicate DrainInv(w: World, rank: map<Id, nat>, es: seq<Id>, n: nat, r: World)
    requires Ranked(w.nodes, rank) && n <= |es|
  {
    var q := QueuedSubtrees(w, rank, es, n);
    r.nodes == w.nodes - q && r.removed == w.removed + q && r.order == Without(w.order, q) && r.work == w.work
  }

  /** The step for an entry already removed: nothing changes, and its subtree was already gone. */
  lemma DrainSkip(w: World, rank: map<Id, nat>, es: seq<Id>, n: nat)
    requires Sound(w, rank) && 0 < n <= |es|
    requires es[n - 1] in w.removed || es[n - 1] in QueuedSubtrees(w, rank, es, n - 1)
    ensures QueuedSubtrees(w, rank, es, n) == QueuedSubtrees(w, rank, es, n - 1)
  {
    var e := es[n - 1];
    if e in QueuedSubtrees(w, rank, es, n - 1) {
      QueuedSubtreesDownClosed(w, rank, es, n - 1);
      DownClosedSubtree(w.nodes, rank, QueuedSubtrees(w, rank, es, n - 1), e);
    } else {
      forall x | x in Subtree(w.nodes, rank, e) ensures false {
        ReachesRank(w.nodes, rank, x, e);
      }
    }
  }

  /** The step for a present entry: its remaining subtree is its original subtree minus what is gone. */
  lemma DrainRemove(w: World, rank: map<Id, nat>, es: seq<Id>, n: nat, r0: World)
    requires Sound(w, rank) && 0 < n <= |es| && Sound(r0, rank)
    requires DrainInv(w, rank, es, n - 1, r0) && es[n - 1] in r0.nodes
    ensures DrainInv(w, rank, es, n, RemovedSubtree(r0, rank, es[n - 1]))
  {
    var e := es[n - 1];
    var q0 := QueuedSubtrees(w, rank, es, n - 1);
    var d := Subtree(r0.nodes, rank, e);
    QueuedSubtreesDownClosed(w, rank, es, n - 1);
    SubtreeMinusDown(w.nodes, rank, q0, e);
    assert d == Subtree(w.nodes, rank, e) - q0;
    assert q0 + d == QueuedSubtrees(w, rank, es, n);
    WithoutTwice(w.order, q0, d, q0 + d);
    MinusTwice(w.nodes, q0, d);
  }

  lemma DrainStep(w: World, rank: map<Id, nat>, es: seq<Id>, n: nat)
    requires Sound(w, rank) && 0 < n <= |es| && forall e :: e in es ==> e in w.nodes || e in w.removed
    ensures Drained(w, rank, es, n).1 && DrainInv(w, rank, es, n, Drained(w, rank, es, n).0)
    decreases n, 0
  {
    DrainExact(w, rank, es, n - 1);
    var r0 := Drained(w, rank, es, n - 1).0;
    var e := es[n - 1];
    assert e in es;
    if e in r0.removed {
      DrainSkip(w, rank, es, n);
    } else {
      DrainRemove(w, rank, es, n, r0);
    }
  }

  lemma DrainStart(w: World, rank: map<Id, nat>, es: seq<Id>)
    requires Sound(w, rank)
    ensures DrainInv(w, rank, es, 0, w)
  {
    assert w.nodes - {} == w.nodes;
    WithoutNothing(w.order);
  }

  /**
   * The removal loop over entries that are all present or already removed
   * runs to the end, and removes exactly the subtrees (as they were before the
   * loop) of its entries: those move from the scene to the removed set.
   */
  lemma {:induction false} DrainExact(w: World, rank: map<Id, nat>, es: seq<Id>, n: nat)
    requires Sound(w, rank) && n <= |es| && forall e :: e in es ==> e in w.nodes || e in w.removed
    ensures Drained(w, rank, es, n).1 && DrainInv(w, rank, es, n, Drained(w, rank, es, n).0)
    decreases n, 1
  {
    if n == 0 {
      DrainStart(w, rank, es);
    } else {
      DrainStep(w, rank, es, n);
    }
  }

  /** Every entry of the removal list ends up in the removed set and out of the scene. */
  lemma DrainRemovesEntries(w: World, rank: map<Id, nat>, es: seq<Id>)
    requires Sound(w, rank) && forall e :: e in es ==> e in w.nodes || e in w.removed
    ensures var r := Drained(w, rank, es, |es|);
      r.1 && forall e :: e in es ==> e in r.0.removed && e !in r.0.nodes
  {
    DrainExact(w, rank, es, |es|);
    QueuedSubtreesMembers(w, rank, es, |es|);
    forall e | e in es ensures e in QueuedSubtrees(w, rank, es, |es|) || e in w.removed {
      var k :| 0 <= k < |es| && es[k] == e;
      if e in w.nodes {
        assert Reaches(w.nodes, rank, e, es[k]);
      }
    }
  }
}
