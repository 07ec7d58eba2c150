/**
 * What each rule leaves behind, stated in terms of the state the rule started
 * from: the drawable rule's children are flattened and queued as the rule
 * says; every fragment child ends as its suffix prescribes, whichever other
 * children come after it.
 */
module RuleOutcomes {
  import opened Forest
  import opened Names
  import opened SceneGraph
  import opened DrawableRule
  import opened FragmentRule
  import opened Regions
  import opened RuleFrames

  // ----- the drawable rule -----

  /**
   * Every child of `p` ends with no parent, `p`'s name and an asset mark; no
   * other object changes and none leaves; the worklist is only appended to, with
   * the bound boxes and the children without asset data, and `p` last.
   */
  lemma DrawableOutcome(w: World, p: Id)
    requires p in w.nodes
    ensures var kids := ChildrenIn(w.nodes, w.order, p);
      var r := DrawableEffect(w, p);
      r.nodes.Keys == w.nodes.Keys && r.order == w.order && r.removed == w.removed &&
      (forall k :: k in kids ==> r.nodes[k] == w.nodes[k].(parent := None, name := w.nodes[p].name, marked := true)) &&
      (forall y :: y in w.nodes && y !in kids ==> r.nodes[y] == w.nodes[y]) &&
      |r.work| > |w.work| && r.work[..|w.work|] == w.work && r.work[|r.work| - 1] == p &&
      forall x :: x in r.work[|w.work|..|r.work| - 1] <==>
        x in kids && (w.nodes[x].tag == Some(BoundBox) || !w.nodes[x].attachesAsset)
  {
    DrawableRecords(w, p);
    DrawableWorklist(w, p);
  }

  /** The records after the drawable rule: children flattened, everything else as it was. */
  lemma DrawableRecords(w: World, p: Id)
    requires p in w.nodes
    ensures var kids := ChildrenIn(w.nodes, w.order, p);
      var r := DrawableEffect(w, p);
      r.nodes.Keys == w.nodes.Keys && r.order == w.order && r.removed == w.removed &&
      (forall k :: k in kids ==> r.nodes[k] == w.nodes[k].(parent := None, name := w.nodes[p].name, marked := true)) &&
      (forall y :: y in w.nodes && y !in kids ==> r.nodes[y] == w.nodes[y])
  {
    FlattenAllAt(w.nodes, ChildrenIn(w.nodes, w.order, p), w.nodes[p].name);
  }

  /** The worklist after the drawable rule: the old list, the queued children, then `p`. */
  lemma DrawableWorklist(w: World, p: Id)
    requires p in w.nodes
    ensures var kids := ChildrenIn(w.nodes, w.order, p);
      var r := DrawableEffect(w, p);
      |r.work| > |w.work| && r.work[..|w.work|] == w.work && r.work[|r.work| - 1] == p &&
      forall x :: x in r.work[|w.work|..|r.work| - 1] <==>
        x in kids && (w.nodes[x].tag == Some(BoundBox) || !w.nodes[x].attachesAsset)
  {
    var kids := ChildrenIn(w.nodes, w.order, p);
    var q := DrawableQueue(w.nodes, kids);
    DrawableQueueMembers(w.nodes, kids);
    var r := DrawableEffect(w, p);
    assert r.work == w.work + q + [p];
    assert r.work[|w.work|..|r.work| - 1] == q;
  }

  /** One child `c` of `p`, not queued before: flattened, and queued exactly when a bound box or without asset data. */
  lemma DrawableKidResult(w: World, rank: map<Id, nat>, p: Id, c: Id)
    requires Ranked(w.nodes, rank) && p in w.nodes && c in ChildrenIn(w.nodes, w.order, p) && c !in w.work
    ensures var r := DrawableEffect(w, p);
      c in w.nodes && c in r.nodes && r.nodes[c] == w.nodes[c].(parent := None, name := w.nodes[p].name, marked := true) &&
      (c in r.work <==> w.nodes[c].tag == Some(BoundBox) || !w.nodes[c].attachesAsset)
  {
    FlattenAllAt(w.nodes, ChildrenIn(w.nodes, w.order, p), w.nodes[p].name);
    DrawableKidQueued(w, rank, p, c);
  }

  lemma DrawableKidQueued(w: World, rank: map<Id, nat>, p: Id, c: Id)
    requires Ranked(w.nodes, rank) && p in w.nodes && c in ChildrenIn(w.nodes, w.order, p) && c !in w.work
    ensures c in w.nodes && (c in DrawableEffect(w, p).work <==> w.nodes[c].tag == Some(BoundBox) || !w.nodes[c].attachesAsset)
  {
    var kids := ChildrenIn(w.nodes, w.order, p);
    DrawableQueueMembers(w.nodes, kids);
    NotOwnParent(w.nodes, rank, p);
    var q := DrawableQueue(w.nodes, kids);
    assert DrawableEffect(w, p).work == w.work + q + [p];
  }

  // ----- the fragment rule, child by child -----

  /** `.col`: every object of the subtree went through the removed set and left the scene. */
  ghost predicate SubtreeGone(sub: set<Id>, r: World)
  {
    forall x :: x in sub ==> x in r.removed && x !in r.nodes
  }

  /**
   * `.mesh` with several drawable models `ms`: the child keeps its record, the
   * last model survives with no parent, the first parent's name `pname` and an
   * asset mark and is not queued, the other models are gone without entering
   * the removed set, and the child is queued.
   */
  ghost predicate MergedInto(w: World, c: Id, ms: seq<Id>, pname: string, r: World)
    requires c in w.nodes && |ms| > 1 && forall x :: x in ms ==> x in w.nodes
  {
    var last := ms[|ms| - 1];
    c in r.nodes && r.nodes[c] == w.nodes[c] &&
    last in r.nodes && r.nodes[last] == w.nodes[last].(name := pname, parent := None, marked := true) &&
    (forall x :: x in ms && x != last ==> x !in r.nodes && x !in r.removed) &&
    c in r.work && last !in r.work
  }

  /**
   * `.mesh` with at most one drawable model: the child keeps its record and is
   * not queued; each model is renamed to `pname`, marked, kept in place and queued.
   */
  ghost predicate PromotedEach(w: World, c: Id, ms: seq<Id>, pname: string, r: World)
    requires c in w.nodes && forall x :: x in ms ==> x in w.nodes
  {
    c in r.nodes && r.nodes[c] == w.nodes[c] &&
    (forall x :: x in ms ==> x in r.nodes && r.nodes[x] == w.nodes[x].(name := pname, marked := true) && x in r.work) &&
    c !in r.work
  }

  /** Neither suffix: the subtree keeps its records and none of it is queued. */
  ghost predicate LeftAlone(w: World, sub: set<Id>, r: World)
  {
    Untouched(w.nodes, r.nodes, sub) && forall x :: x in sub ==> x !in r.work
  }

  /**
   * What child `c` of a fragment first parent named `pname` ends as, judged
   * from the state `w` before the rule, by the suffix of its name; `.col` is
   * tested first.
   */
  ghost predicate KidOutcome(w: World, rank: map<Id, nat>, c: Id, pname: string, r: World)
    requires Ranked(w.nodes, rank) && c in w.nodes
  {
    var sub := Subtree(w.nodes, rank, c);
    var ms := DrawableModels(w.nodes, ChildrenIn(w.nodes, w.order, c));
    if EndsWith(w.nodes[c].name, ".col") then SubtreeGone(sub, r)
    else if EndsWith(w.nodes[c].name, ".mesh") then
      if |ms| > 1 then MergedInto(w, c, ms, pname, r) else PromotedEach(w, c, ms, pname, r)
    else LeftAlone(w, sub, r)
  }

  lemma ColNow(w: World, rank: map<Id, nat>, c: Id)
    requires Sound(w, rank) && c in w.nodes
    ensures SubtreeGone(Subtree(w.nodes, rank, c), RemovedSubtree(w, rank, c))
  {
  }

  lemma MergeNow(w: World, rank: map<Id, nat>, c: Id, pname: string)
    requires Sound(w, rank) && c in w.nodes
    requires forall e :: e in w.work ==> e !in Subtree(w.nodes, rank, c)
    requires |DrawableModels(w.nodes, ChildrenIn(w.nodes, w.order, c))| > 1
    ensures var ms := DrawableModels(w.nodes, ChildrenIn(w.nodes, w.order, c));
      MergedInto(w, c, ms, pname,
        World(Merged(w.nodes, ms, pname), Without(w.order, Consumed(ms, ms[|ms| - 1])), w.removed, w.work + [c]))
  {
    ModelsBelow(w, rank, c);
    NotOwnParent(w.nodes, rank, c);
  }

  lemma PromoteNow(w: World, rank: map<Id, nat>, c: Id, pname: string)
    requires Sound(w, rank) && c in w.nodes
    requires forall e :: e in w.work ==> e !in Subtree(w.nodes, rank, c)
    ensures var ms := DrawableModels(w.nodes, ChildrenIn(w.nodes, w.order, c));
      PromotedEach(w, c, ms, pname, World(PromoteAll(w.nodes, ms, pname), w.order, w.removed, w.work + ms))
  {
    var ms := DrawableModels(w.nodes, ChildrenIn(w.nodes, w.order, c));
    assert Reaches(w.nodes, rank, c, c);
    ModelsBelow(w, rank, c);
    NotOwnParent(w.nodes, rank, c);
    PromoteAllAt(w.nodes, ms, pname);
  }

  /** One child, with nothing queued in its subtree, ends as `KidOutcome` says right after its turn. */
  lemma KidOutcomeNow(w: World, rank: map<Id, nat>, c: Id, pname: string)
    requires Sound(w, rank) && c in w.nodes
    requires forall e :: e in w.work ==> e !in Subtree(w.nodes, rank, c)
    ensures KidOutcome(w, rank, c, pname, KidEffect(w, rank, c, pname))
  {
    if EndsWith(w.nodes[c].name, ".col") {
      ColNow(w, rank, c);
    } else if EndsWith(w.nodes[c].name, ".mesh") {
      if |DrawableModels(w.nodes, ChildrenIn(w.nodes, w.order, c))| > 1 {
        MergeNow(w, rank, c, pname);
      } else {
        PromoteNow(w, rank, c, pname);
      }
    }
  }

  /** The outcome of a child survives any later steps that leave its subtree settled. */
  lemma KidOutcomePersists(w: World, rank: map<Id, nat>, c: Id, pname: string, r1: World, r2: World)
    requires Ranked(w.nodes, rank) && c in w.nodes && KidOutcome(w, rank, c, pname, r1)
    requires Settled(r1, r2, Subtree(w.nodes, rank, c))
    ensures KidOutcome(w, rank, c, pname, r2)
  {
    var sub := Subtree(w.nodes, rank, c);
    var ms := DrawableModels(w.nodes, ChildrenIn(w.nodes, w.order, c));
    assert Reaches(w.nodes, rank, c, c);
    ModelsBelow(w, rank, c);
    if EndsWith(w.nodes[c].name, ".col") {
    } else if EndsWith(w.nodes[c].name, ".mesh") {
      if |ms| > 1 {
        MergedPersists(w, c, ms, pname, sub, r1, r2);
      } else {
        PromotedPersists(w, c, ms, pname, sub, r1, r2);
      }
    }
  }

  lemma MergedPersists(w: World, c: Id, ms: seq<Id>, pname: string, sub: set<Id>, r1: World, r2: World)
    requires c in w.nodes && |ms| > 1 && forall x :: x in ms ==> x in w.nodes
    requires c in sub && (forall x :: x in ms ==> x in sub) && MergedInto(w, c, ms, pname, r1) && Settled(r1, r2, sub)
    ensures MergedInto(w, c, ms, pname, r2)
  {
    forall i | 0 <= i < |r2.work| ensures r2.work[i] != ms[|ms| - 1] {
      if i < |r1.work| {
        assert r2.work[i] == r1.work[i];
      }
    }
  }

  lemma PromotedPersists(w: World, c: Id, ms: seq<Id>, pname: string, sub: set<Id>, r1: World, r2: World)
    requires c in w.nodes && forall x :: x in ms ==> x in w.nodes
    requires c in sub && (forall x :: x in ms ==> x in sub) && PromotedEach(w, c, ms, pname, r1) && Settled(r1, r2, sub)
    ensures PromotedEach(w, c, ms, pname, r2)
  {
    forall x | x in ms ensures x in r2.work {
      var i :| 0 <= i < |r1.work| && r1.work[i] == x;
      assert r2.work[i] == x;
    }
  }

  /** The drawable models of children whose records agree are the same. */
  lemma {:induction false} DrawableModelsSame(m0: Nodes, m1: Nodes, ks: seq<Id>)
    requires forall k :: k in ks ==> k in m0 && k in m1 && m1[k] == m0[k]
    ensures DrawableModels(m1, ks) == DrawableModels(m0, ks)
  {
    if ks != [] {
      DrawableModelsSame(m0, m1, ks[..|ks| - 1]);
    }
  }

  /**
   * `KidOutcome` reads the starting state only inside the child's subtree, so
   * a state that agrees there (same records, same child lists) gives the same
   * verdict.
   */
  lemma KidOutcomeTransfer(w: World, w0: World, rank: map<Id, nat>, c: Id, pname: string, r: World)
    requires Ranked(w.nodes, rank) && Ranked(w0.nodes, rank) && c in w.nodes
    requires Untouched(w.nodes, w0.nodes, Subtree(w.nodes, rank, c))
    requires Subtree(w0.nodes, rank, c) == Subtree(w.nodes, rank, c)
    requires forall x :: x in Subtree(w.nodes, rank, c) ==> ChildrenIn(w0.nodes, w0.order, x) == ChildrenIn(w.nodes, w.order, x)
    requires KidOutcome(w0, rank, c, pname, r)
    ensures KidOutcome(w, rank, c, pname, r)
  {
    var sub := Subtree(w.nodes, rank, c);
    assert Reaches(w.nodes, rank, c, c);
    var ks := ChildrenIn(w.nodes, w.order, c);
    assert ChildrenIn(w0.nodes, w0.order, c) == ks;
    forall k | k in ks ensures k in w.nodes && k in w0.nodes && w0.nodes[k] == w.nodes[k] {
      ChildInSubtree(w.nodes, rank, k, c);
    }
    DrawableModelsSame(w.nodes, w0.nodes, ks);
    var ms := DrawableModels(w.nodes, ks);
    if EndsWith(w.nodes[c].name, ".col") {
    } else if EndsWith(w.nodes[c].name, ".mesh") {
      if |ms| > 1 {
        MergedTransfer(w, w0, c, ms, pname, r);
      } else {
        PromotedTransfer(w, w0, c, ms, pname, r);
      }
    } else {
      LeftAloneTransfer(w, w0, sub, r);
    }
  }

  lemma MergedTransfer(w: World, w0: World, c: Id, ms: seq<Id>, pname: string, r: World)
    requires c in w.nodes && c in w0.nodes && w0.nodes[c] == w.nodes[c] && |ms| > 1
    requires forall x :: x in ms ==> x in w.nodes && x in w0.nodes && w0.nodes[x] == w.nodes[x]
    requires MergedInto(w0, c, ms, pname, r)
    ensures MergedInto(w, c, ms, pname, r)
  {
    assert ms[|ms| - 1] in ms;
  }

  lemma PromotedTransfer(w: World, w0: World, c: Id, ms: seq<Id>, pname: string, r: World)
    requires c in w.nodes && c in w0.nodes && w0.nodes[c] == w.nodes[c]
    requires forall x :: x in ms ==> x in w.nodes && x in w0.nodes && w0.nodes[x] == w.nodes[x]
    requires PromotedEach(w0, c, ms, pname, r)
    ensures PromotedEach(w, c, ms, pname, r)
  {
  }

  lemma LeftAloneTransfer(w: World, w0: World, sub: set<Id>, r: World)
    requires Untouched(w.nodes, w0.nodes, sub) && LeftAlone(w0, sub, r)
    ensures LeftAlone(w, sub, r)
  {
  }

  /** The children of `p` from index `k + 1` on leave the subtree of child `ks[k]` settled. */
  lemma {:induction false} KidsAfterTurn(w: World, rank: map<Id, nat>, ks: seq<Id>, k: nat, n: nat, pname: string, p: Id)
    requires Sound(w, rank) && KidsOf(w, ks, p) && k < n <= |ks|
    ensures Settled(KidsEffect(w, rank, ks[..k + 1], pname), KidsEffect(w, rank, ks[..n], pname), Subtree(w.nodes, rank, ks[k]))
  {
    if n == k + 1 {
      SettledSame(KidsEffect(w, rank, ks[..n], pname), Subtree(w.nodes, rank, ks[k]));
    } else {
      KidsAfterTurn(w, rank, ks, k, n - 1, pname, p);
      KidTurnSettles(w, rank, ks, k, n, pname, p);
      SettledTrans(KidsEffect(w, rank, ks[..k + 1], pname), KidsEffect(w, rank, ks[..n - 1], pname),
                   KidsEffect(w, rank, ks[..n], pname), Subtree(w.nodes, rank, ks[k]));
    }
  }

  /** The turn of child `ks[n - 1]` leaves the subtree of an earlier child `ks[k]` settled. */
  lemma KidTurnSettles(w: World, rank: map<Id, nat>, ks: seq<Id>, k: nat, n: nat, pname: string, p: Id)
    requires Sound(w, rank) && KidsOf(w, ks, p) && k + 1 < n <= |ks|
    ensures Settled(KidsEffect(w, rank, ks[..n - 1], pname), KidsEffect(w, rank, ks[..n], pname), Subtree(w.nodes, rank, ks[k]))
  {
    var w0 := KidsEffect(w, rank, ks[..n - 1], pname);
    var c := ks[n - 1];
    KidsEffectStep(w, rank, ks, n - 1, pname);
    if c in w0.nodes {
      KidEffectEvolved(w0, rank, c, pname);
      SubtreeShrunk(w.nodes, w0.nodes, rank, c);
      assert ks[k] != c && ks[k] in ks && c in ks;
      SiblingsDisjoint(w.nodes, rank, c, ks[k]);
      EvolvedSettled(w0, KidEffect(w0, rank, c, pname), Subtree(w0.nodes, rank, c), Subtree(w.nodes, rank, ks[k]));
    } else {
      SettledSame(w0, Subtree(w.nodes, rank, ks[k]));
    }
  }

  /** Child `ks[k]` ends as its outcome says right after its own turn. */
  lemma KidOutcomeAtTurn(w: World, rank: map<Id, nat>, ks: seq<Id>, k: nat, pname: string, p: Id)
    requires Sound(w, rank) && KidsOf(w, ks, p) && k < |ks| && p in w.nodes && Tracked(w)
    requires forall e :: e in w.work ==> e !in Subtree(w.nodes, rank, p)
    ensures KidOutcome(w, rank, ks[k], pname, KidsEffect(w, rank, ks[..k + 1], pname))
  {
    var wk := KidsEffect(w, rank, ks[..k], pname);
    var c := ks[k];
    KidsEffectTracked(w, rank, ks, k, pname, p);
    forall k' | k' in ks {
      KidSubtree(w.nodes, rank, k', p);
    }
    KidsEffectEvolved(w, rank, ks, k, pname, Subtree(w.nodes, rank, p));
    RegionSeen(w, wk, rank, Subtree(w.nodes, rank, p), c);
    assert c in ks;
    assert Reaches(w.nodes, rank, c, c);
    forall e | e in wk.work ensures e !in Subtree(wk.nodes, rank, c) {
      var i :| 0 <= i < |wk.work| && wk.work[i] == e;
    }
    KidOutcomeNow(wk, rank, c, pname);
    KidsEffectStep(w, rank, ks, k, pname);
    KidOutcomeTransfer(w, wk, rank, c, pname, KidsEffect(w, rank, ks[..k + 1], pname));
  }

  /** Once child `kids[k]` has had its turn, the later children and the final enqueue of `p` leave its subtree settled. */
  lemma FragmentKidSettled(w: World, rank: map<Id, nat>, p: Id, k: nat)
    requires Sound(w, rank) && NoDup(w.order) && p in w.nodes
    requires k < |ChildrenIn(w.nodes, w.order, p)|
    ensures var kids := ChildrenIn(w.nodes, w.order, p);
      Settled(KidsEffect(w, rank, kids[..k + 1], w.nodes[p].name), FragmentEffect(w, rank, p), Subtree(w.nodes, rank, kids[k]))
  {
    var kids := ChildrenIn(w.nodes, w.order, p);
    var pname := w.nodes[p].name;
    var sub := Subtree(w.nodes, rank, kids[k]);
    assert kids[k] in kids;
    KidsAfterTurn(w, rank, kids, k, |kids|, pname, p);
    assert kids[..|kids|] == kids;
    var r0 := KidsEffect(w, rank, kids, pname);
    KidSubtree(w.nodes, rank, kids[k], p);
    assert Settled(r0, FragmentEffect(w, rank, p), sub);
    SettledTrans(KidsEffect(w, rank, kids[..k + 1], pname), r0, FragmentEffect(w, rank, p), sub);
  }

  /**
   * The fragment rule for first parent `p`, with nothing queued in `p`'s
   * subtree beforehand: every child in the snapshot ends as `KidOutcome` says.
   */
  lemma FragmentKidOutcome(w: World, rank: map<Id, nat>, p: Id, k: nat)
    requires Sound(w, rank) && NoDup(w.order) && p in w.nodes && Tracked(w)
    requires forall e :: e in w.work ==> e !in Subtree(w.nodes, rank, p)
    requires k < |ChildrenIn(w.nodes, w.order, p)|
    ensures var kids := ChildrenIn(w.nodes, w.order, p);
      kids[k] in w.nodes && KidOutcome(w, rank, kids[k], w.nodes[p].name, FragmentEffect(w, rank, p))
  {
    var kids := ChildrenIn(w.nodes, w.order, p);
    var pname := w.nodes[p].name;
    assert kids[k] in kids;
    KidOutcomeAtTurn(w, rank, kids, k, pname, p);
    FragmentKidSettled(w, rank, p, k);
    KidOutcomePersists(w, rank, kids[k], pname, KidsEffect(w, rank, kids[..k + 1], pname), FragmentEffect(w, rank, p));
  }

  /** The fragment rule only appends to the worklist, and `p` comes last. */
  lemma FragmentQueuesLast(w: World, rank: map<Id, nat>, p: Id)
    requires Sound(w, rank) && p in w.nodes
    ensures var r := FragmentEffect(w, rank, p);
      w.work <= r.work && |r.work| > |w.work| && r.work[|r.work| - 1] == p
  {
    var kids := ChildrenIn(w.nodes, w.order, p);
    var pname := w.nodes[p].name;
    forall k | k in kids ensures k in w.nodes && Subtree(w.nodes, rank, k) <= Subtree(w.nodes, rank, p) {
      KidSubtree(w.nodes, rank, k, p);
    }
    KidsEffectEvolved(w, rank, kids, |kids|, pname, Subtree(w.nodes, rank, p));
    assert kids[..|kids|] == kids;
    var r0 := KidsEffect(w, rank, kids, pname);
    assert FragmentEffect(w, rank, p).work == r0.work + [p];
  }
}
