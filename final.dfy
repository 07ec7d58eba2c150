/**
 * What the whole pass leaves of each first parent's children, judged from the
 * scene before the pass: the drain removes an object exactly when it or an
 * ancestor is queued, and an object with no parent that nobody queued stays,
 * with its name stripped.
 */
module PassOutcomes {
  import opened Forest
  import opened Names
  import opened Classify
  import opened DrawableRule
  import opened FragmentRule
  import opened Conversion
  import opened PassFacts
  import opened RuleOutcomes
  import opened TurnOutcomes
  import opened Pass
  import opened RuleFrames

  /** An object below a queued entry is drained. */
  lemma InDrained(d: World, rank: map<Id, nat>, x: Id, e: Id)
    requires Ranked(d.nodes, rank) && e in d.work && Reaches(d.nodes, rank, x, e)
    ensures x in QueuedSubtrees(d, rank, d.work, |d.work|)
  {
    QueuedSubtreesMembers(d, rank, d.work, |d.work|);
    var k :| 0 <= k < |d.work| && d.work[k] == e;
  }

  /** An object with no parent that is not queued itself is not drained. */
  lemma RootNotDrained(d: World, rank: map<Id, nat>, x: Id)
    requires Ranked(d.nodes, rank) && x in d.nodes && d.nodes[x].parent.None? && x !in d.work
    ensures x !in QueuedSubtrees(d, rank, d.work, |d.work|)
  {
    QueuedSubtreesMembers(d, rank, d.work, |d.work|);
    forall k | 0 <= k < |d.work| ensures !Reaches(d.nodes, rank, x, d.work[k]) {
      assert d.work[k] != x;
    }
  }

  /**
   * The final scene holds exactly the objects left after dispatch outside the
   * subtrees of the queued objects, each with its name stripped.
   */
  lemma PassFinal(m: Nodes, o: seq<Id>, rank: map<Id, nat>)
    requires Ranked(m, rank) && NoDup(o) && forall x :: x in o <==> x in m
    ensures var d := DispatchedScene(m, o, rank).0;
      var f := Converted(m, o, rank).0;
      f.Keys == d.nodes.Keys - QueuedSubtrees(d, rank, d.work, |d.work|) &&
      forall x :: x in f ==> f[x] == d.nodes[x].(name := StripSuffix(d.nodes[x].name))
  {
    var d := DispatchedScene(m, o, rank).0;
    var q := QueuedSubtrees(d, rank, d.work, |d.work|);
    PassResult(m, o, rank);
    DispatchCompletes(m, o, rank);
    NormalizedAt(d.nodes - q, Without(d.order, q));
  }

  /** The first parents are distinct roots of the scene. */
  lemma FirstParentsRoots(m: Nodes, o: seq<Id>)
    requires NoDup(o)
    ensures RootList(m, FirstParentsIn(m, o, o))
  {
    FirstParentsInMembers(m, o, o);
    FirstParentsInNoDup(m, o, o);
  }

  /**
   * A child `c` of a drawable first parent survives the pass exactly when it is
   * no bound box and got asset data; it then has no parent, the first parent's
   * name with the suffix stripped, and an asset mark.
   */
  lemma DrawableChildFinal(m: Nodes, o: seq<Id>, rank: map<Id, nat>, n: nat, c: Id)
    requires Ranked(m, rank) && NoDup(o) && forall x :: x in o <==> x in m
    requires n < |FirstParentsIn(m, o, o)|
    requires FirstParentsIn(m, o, o)[n] in m && m[FirstParentsIn(m, o, o)[n]].tag == Some(Drawable) && c in ChildrenIn(m, o, FirstParentsIn(m, o, o)[n])
    ensures var f := Converted(m, o, rank).0;
      c in m && (c in f <==> m[c].tag != Some(BoundBox) && m[c].attachesAsset) &&
      (c in f ==> f[c] == m[c].(parent := None, name := StripSuffix(m[FirstParentsIn(m, o, o)[n]].name), marked := true))
  {
    var fps := FirstParentsIn(m, o, o);
    FirstParentsRoots(m, o);
    DrawableTurn(m, o, rank, fps, n, c);
    PassFinal(m, o, rank);
    var d := DispatchedScene(m, o, rank).0;
    if c in d.work {
      InDrained(d, rank, c, c);
    } else {
      RootNotDrained(d, rank, c);
    }
  }

  /**
   * Child `c` of a fragment first parent never survives the pass. When it is a
   * `.mesh` with several drawable models, the last model survives with no
   * parent, the first parent's name with the suffix stripped and an asset
   * mark, and the other models do not; when it is a `.mesh` with at most one
   * model, that model is removed. A child with neither `.mesh` suffix loses its
   * whole subtree.
   */
  lemma FragmentChildFinal(m: Nodes, o: seq<Id>, rank: map<Id, nat>, n: nat, k: nat)
    requires Ranked(m, rank) && NoDup(o) && forall x :: x in o <==> x in m
    requires n < |FirstParentsIn(m, o, o)|
    requires FirstParentsIn(m, o, o)[n] in m && m[FirstParentsIn(m, o, o)[n]].tag == Some(Fragment) && k < |ChildrenIn(m, o, FirstParentsIn(m, o, o)[n])|
    ensures var c := ChildrenIn(m, o, FirstParentsIn(m, o, o)[n])[k];
      c in m && c !in Converted(m, o, rank).0 &&
      forall x :: x in DrawableModels(m, ChildrenIn(m, o, c)) ==> x in m
    ensures var q := FirstParentsIn(m, o, o)[n];
      var c := ChildrenIn(m, o, q)[k];
      var ms := DrawableModels(m, ChildrenIn(m, o, c));
      var f := Converted(m, o, rank).0;
      EndsWith(m[c].name, ".mesh") && !EndsWith(m[c].name, ".col") ==>
        if |ms| > 1 then
          ms[|ms| - 1] in f && f[ms[|ms| - 1]] == m[ms[|ms| - 1]].(name := StripSuffix(m[q].name), parent := None, marked := true) &&
          forall x :: x in ms && x != ms[|ms| - 1] ==> x !in f
        else forall x :: x in ms ==> x !in f
    ensures var c := ChildrenIn(m, o, FirstParentsIn(m, o, o)[n])[k];
      !EndsWith(m[c].name, ".mesh") ==>
        forall x :: x in m && Reaches(m, rank, x, c) ==> x !in Converted(m, o, rank).0
  {
    var fps := FirstParentsIn(m, o, o);
    var q := fps[n];
    var c := ChildrenIn(m, o, q)[k];
    FirstParentsRoots(m, o);
    FragmentTurn(m, o, rank, fps, n, k);
    RuleParentQueued(m, o, rank, fps, n);
    PassFinal(m, o, rank);
    var d := DispatchedScene(m, o, rank).0;
    ModelsBelow(Start(m, o), rank, c);
    assert c in ChildrenIn(m, o, q);
    assert Reaches(m, rank, c, c);
    var ms := DrawableModels(m, ChildrenIn(m, o, c));
    if EndsWith(m[c].name, ".col") {
      assert c !in d.nodes;
    } else if !EndsWith(m[c].name, ".mesh") {
      assert c in d.nodes && d.nodes[c] == m[c];
      InDrained(d, rank, c, q);
      forall x | x in m && Reaches(m, rank, x, c) ensures x !in Converted(m, o, rank).0 {
        ReachesKept(m, d.nodes, rank, x, c);
        ReachesTrans(d.nodes, rank, x, c, q);
        InDrained(d, rank, x, q);
      }
    } else if EndsWith(m[c].name, ".mesh") && |ms| > 1 {
      InDrained(d, rank, c, c);
      RootNotDrained(d, rank, ms[|ms| - 1]);
    } else {
      assert c in d.nodes && d.nodes[c] == m[c];
      InDrained(d, rank, c, q);
      forall x | x in ms && EndsWith(m[c].name, ".mesh") ensures x !in Converted(m, o, rank).0 {
        InDrained(d, rank, x, x);
      }
    }
  }
}
