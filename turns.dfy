/**
 * The rules as the dispatch loop runs them: what each first parent's rule
 * does holds at the end of the whole loop, stated against the scene before
 * the pass, whatever the other first parents are.
 */
module TurnOutcomes {
  import opened Forest
  import opened SceneGraph
  import opened DrawableRule
  import opened FragmentRule
  import opened Conversion
  import opened Regions
  import opened RuleFrames
  import opened PassFacts
  import opened RuleOutcomes

  /** A settled region stays settled in any part of it. */
  lemma SettledSmaller(w1: World, w2: World, d: set<Id>, e: set<Id>)
    requires Settled(w1, w2, d) && e <= d
    ensures Settled(w1, w2, e)
  {
  }

  /** In a settled region an object is queued afterwards exactly when it was queued before. */
  lemma SettledQueued(w1: World, w2: World, d: set<Id>, x: Id)
    requires Settled(w1, w2, d) && x in d
    ensures x in w2.work <==> x in w1.work
  {
    if x in w2.work {
      var i :| 0 <= i < |w2.work| && w2.work[i] == x;
      assert i < |w1.work| && w1.work[i] == x;
    }
    if x in w1.work {
      var i :| 0 <= i < |w1.work| && w1.work[i] == x;
      assert w2.work[i] == x;
    }
  }

  /** The state before turn `n` of the dispatch loop, and its facts. */
  lemma BeforeTurn(m0: Nodes, o0: seq<Id>, rank: map<Id, nat>, qs: seq<Id>, n: nat)
    requires Ranked(m0, rank) && NoDup(o0) && RootList(m0, qs) && n < |qs|
    ensures var d := Dispatched(Start(m0, o0), rank, qs, n);
      d.1 && Sound(d.0, rank) && NoDup(d.0.order) && Tracked(d.0) &&
      Evolved(Start(m0, o0), d.0, m0.Keys) &&
      Dispatched(Start(m0, o0), rank, qs, n + 1) == RuleEffect(d.0, rank, qs[n])
  {
    DispatchSafe(m0, o0, rank, qs, n);
  }

  /**
   * A child `c` of first parent `q` lies in an untouched region when `q`'s turn
   * comes, so its subtree and child lists are as the scene had them.
   */
  lemma KidSeen(m0: Nodes, o0: seq<Id>, rank: map<Id, nat>, qs: seq<Id>, n: nat, c: Id)
    requires Ranked(m0, rank) && NoDup(o0) && RootList(m0, qs) && n < |qs|
    requires c in ChildrenIn(m0, o0, qs[n])
    ensures var d := Dispatched(Start(m0, o0), rank, qs, n).0;
      c in m0 && Subtree(m0, rank, c) <= Subtree(m0, rank, qs[n]) &&
      Untouched(m0, d.nodes, Subtree(m0, rank, c)) &&
      Subtree(d.nodes, rank, c) == Subtree(m0, rank, c) &&
      forall x :: x in Subtree(m0, rank, c) ==> ChildrenIn(d.nodes, d.order, x) == ChildrenIn(m0, o0, x)
  {
    var d := Dispatched(Start(m0, o0), rank, qs, n).0;
    RuleSeesScene(m0, o0, rank, qs, n);
    BeforeTurn(m0, o0, rank, qs, n);
    KidSubtree(m0, rank, c, qs[n]);
    RegionSeen(Start(m0, o0), d, rank, m0.Keys, c);
  }

  /**
   * Fragment first parent `qs[n]`: after the whole dispatch loop, each child in
   * the snapshot of its children ends as `KidOutcome` says, judged from the scene
   * before the pass.
   */
  lemma FragmentTurn(m0: Nodes, o0: seq<Id>, rank: map<Id, nat>, qs: seq<Id>, n: nat, k: nat)
    requires Ranked(m0, rank) && NoDup(o0) && RootList(m0, qs) && n < |qs|
    requires m0[qs[n]].tag == Some(Fragment) && k < |ChildrenIn(m0, o0, qs[n])|
    ensures ChildrenIn(m0, o0, qs[n])[k] in m0
    ensures KidOutcome(Start(m0, o0), rank, ChildrenIn(m0, o0, qs[n])[k], m0[qs[n]].name,
                       Dispatched(Start(m0, o0), rank, qs, |qs|).0)
  {
    var q := qs[n];
    var kids := ChildrenIn(m0, o0, q);
    var c := kids[k];
    assert c in kids;
    var d := Dispatched(Start(m0, o0), rank, qs, n).0;
    BeforeTurn(m0, o0, rank, qs, n);
    RuleSeesScene(m0, o0, rank, qs, n);
    assert Reaches(m0, rank, q, q);
    assert ChildrenIn(d.nodes, d.order, q) == kids && d.nodes[q] == m0[q];
    forall e | e in d.work ensures e !in Subtree(d.nodes, rank, q) {
      var i :| 0 <= i < |d.work| && d.work[i] == e;
    }
    FragmentKidOutcome(d, rank, q, k);
    var r := Dispatched(Start(m0, o0), rank, qs, n + 1).0;
    assert r == FragmentEffect(d, rank, q);
    KidSeen(m0, o0, rank, qs, n, c);
    KidOutcomeTransfer(Start(m0, o0), d, rank, c, m0[q].name, r);
    AfterTurn(m0, o0, rank, qs, n, |qs|);
    SettledSmaller(r, Dispatched(Start(m0, o0), rank, qs, |qs|).0, Subtree(m0, rank, q), Subtree(m0, rank, c));
    KidOutcomePersists(Start(m0, o0), rank, c, m0[q].name, r, Dispatched(Start(m0, o0), rank, qs, |qs|).0);
  }

  /** Every first parent handled by a rule is on the worklist after the dispatch loop. */
  lemma RuleParentQueued(m0: Nodes, o0: seq<Id>, rank: map<Id, nat>, qs: seq<Id>, n: nat)
    requires Ranked(m0, rank) && NoDup(o0) && RootList(m0, qs) && n < |qs|
    requires m0[qs[n]].tag == Some(Drawable) || m0[qs[n]].tag == Some(Fragment)
    ensures qs[n] in Dispatched(Start(m0, o0), rank, qs, |qs|).0.work
  {
    var q := qs[n];
    var d := Dispatched(Start(m0, o0), rank, qs, n).0;
    BeforeTurn(m0, o0, rank, qs, n);
    RuleSeesScene(m0, o0, rank, qs, n);
    assert Reaches(m0, rank, q, q);
    var r := Dispatched(Start(m0, o0), rank, qs, n + 1).0;
    if m0[q].tag == Some(Drawable) {
      DrawableWorklist(d, q);
    } else {
      FragmentQueuesLast(d, rank, q);
    }
    assert r.work[|r.work| - 1] == q;
    AfterTurn(m0, o0, rank, qs, n, |qs|);
    SettledQueued(r, Dispatched(Start(m0, o0), rank, qs, |qs|).0, Subtree(m0, rank, q), q);
  }

  /** What turn `n` does to one child `c` of a drawable first parent, before the later turns. */
  lemma DrawableKidAtTurn(m0: Nodes, o0: seq<Id>, rank: map<Id, nat>, qs: seq<Id>, n: nat, c: Id)
    requires Ranked(m0, rank) && NoDup(o0) && RootList(m0, qs) && n < |qs|
    requires m0[qs[n]].tag == Some(Drawable) && c in ChildrenIn(m0, o0, qs[n])
    ensures var r := Dispatched(Start(m0, o0), rank, qs, n + 1).0;
      c in m0 && c in r.nodes && r.nodes[c] == m0[c].(parent := None, name := m0[qs[n]].name, marked := true) &&
      (c in r.work <==> m0[c].tag == Some(BoundBox) || !m0[c].attachesAsset)
  {
    var q := qs[n];
    var d := Dispatched(Start(m0, o0), rank, qs, n).0;
    BeforeTurn(m0, o0, rank, qs, n);
    RuleSeesScene(m0, o0, rank, qs, n);
    assert Reaches(m0, rank, q, q);
    var kids := ChildrenIn(d.nodes, d.order, q);
    assert kids == ChildrenIn(m0, o0, q) && d.nodes[q] == m0[q];
    KidSubtree(m0, rank, c, q);
    assert Reaches(m0, rank, c, c);
    assert c !in d.work;
    DrawableKidResult(d, rank, q, c);
  }

  /**
   * Drawable first parent `qs[n]`: after the whole dispatch loop, each of its
   * children has no parent, `qs[n]`'s name and an asset mark, and is queued
   * exactly when it is a bound box or got no asset data.
   */
  lemma DrawableTurn(m0: Nodes, o0: seq<Id>, rank: map<Id, nat>, qs: seq<Id>, n: nat, c: Id)
    requires Ranked(m0, rank) && NoDup(o0) && RootList(m0, qs) && n < |qs|
    requires m0[qs[n]].tag == Some(Drawable) && c in ChildrenIn(m0, o0, qs[n])
    ensures var e := Dispatched(Start(m0, o0), rank, qs, |qs|).0;
      c in m0 && c in e.nodes && e.nodes[c] == m0[c].(parent := None, name := m0[qs[n]].name, marked := true) &&
      (c in e.work <==> m0[c].tag == Some(BoundBox) || !m0[c].attachesAsset)
  {
    DrawableKidAtTurn(m0, o0, rank, qs, n, c);
    KidSubtree(m0, rank, c, qs[n]);
    assert Reaches(m0, rank, c, c);
    AfterTurn(m0, o0, rank, qs, n, |qs|);
    SettledQueued(Dispatched(Start(m0, o0), rank, qs, n + 1).0, Dispatched(Start(m0, o0), rank, qs, |qs|).0,
                  Subtree(m0, rank, qs[n]), c);
  }
}
