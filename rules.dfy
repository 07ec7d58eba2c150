/**
 * What each rule may touch: a child of a fragment changes only its own
 * subtree, and a whole rule only the subtree of its first parent. Given that
 * no queued object lies in that subtree beforehand, a rule also keeps every
 * queued object in the scene or in the removed set.
 */
module RuleFrames {
  import opened Forest
  import opened Names
  import opened SceneGraph
  import opened DrawableRule
  import opened FragmentRule
  import opened Conversion
  import opened Regions

  /** Promotion renames and marks exactly the listed models and keeps every object. */
  lemma {:induction false} PromoteAllAt(m: Nodes, ms: seq<Id>, name: string)
    requires forall x :: x in ms ==> x in m
    ensures forall y :: y in m ==> PromoteAll(m, ms, name)[y] == if y in ms then Promoted(m[y], name) else m[y]
  {
    if ms != [] {
      PromoteAllAt(m, ms[..|ms| - 1], name);
      assert ms == ms[..|ms| - 1] + [ms[|ms| - 1]];
    }
  }

  /** The drawable models of a child are its children, so they lie in its subtree. */
  lemma ModelsBelow(w: World, rank: map<Id, nat>, c: Id)
    requires Ranked(w.nodes, rank) && c in w.nodes
    ensures forall x :: x in DrawableModels(w.nodes, ChildrenIn(w.nodes, w.order, c)) ==>
      x in w.nodes && w.nodes[x].parent == Some(c) && x in Subtree(w.nodes, rank, c)
  {
    assert Reaches(w.nodes, rank, c, c);
  }

  /** Merging models that lie in a down-closed region `sub` changes nothing outside `sub`. */
  lemma MergedIn(w: World, rank: map<Id, nat>, ms: seq<Id>, c: Id, name: string, sub: set<Id>)
    requires Ranked(w.nodes, rank) && |ms| > 1 && (forall x :: x in ms ==> x in w.nodes && x in sub)
    requires DownClosed(w.nodes, sub) && c in sub
    ensures Evolved(w, World(Merged(w.nodes, ms, name), Without(w.order, Consumed(ms, ms[|ms| - 1])), w.removed, w.work + [c]), sub)
  {
    var r := Merged(w.nodes, ms, name);
    forall x | x in w.nodes && x !in sub ensures x in r && r[x] == w.nodes[x] {
      assert x !in ms;
    }
    MergedRanked(w.nodes, rank, ms, name);
    assert w.nodes.Keys - r.Keys == Consumed(ms, ms[|ms| - 1]);
  }

  /** The merge branch changes nothing outside the subtree of the `.mesh` child. */
  lemma MergeEvolved(w: World, rank: map<Id, nat>, c: Id, pname: string)
    requires Sound(w, rank) && c in w.nodes
    requires |DrawableModels(w.nodes, ChildrenIn(w.nodes, w.order, c))| > 1
    ensures var ms := DrawableModels(w.nodes, ChildrenIn(w.nodes, w.order, c));
      Evolved(w, World(Merged(w.nodes, ms, pname), Without(w.order, Consumed(ms, ms[|ms| - 1])), w.removed, w.work + [c]),
              Subtree(w.nodes, rank, c))
  {
    var ms := DrawableModels(w.nodes, ChildrenIn(w.nodes, w.order, c));
    ModelsBelow(w, rank, c);
    SubtreeDownClosed(w.nodes, rank, c);
    assert Reaches(w.nodes, rank, c, c);
    MergedIn(w, rank, ms, c, pname, Subtree(w.nodes, rank, c));
  }

  /** The promotion branch changes nothing outside the subtree of the `.mesh` child. */
  lemma PromoteEvolved(w: World, rank: map<Id, nat>, c: Id, pname: string)
    requires Sound(w, rank) && c in w.nodes
    ensures var ms := DrawableModels(w.nodes, ChildrenIn(w.nodes, w.order, c));
      Evolved(w, World(PromoteAll(w.nodes, ms, pname), w.order, w.removed, w.work + ms), Subtree(w.nodes, rank, c))
  {
    var ms := DrawableModels(w.nodes, ChildrenIn(w.nodes, w.order, c));
    ModelsBelow(w, rank, c);
    PromoteAllAt(w.nodes, ms, pname);
    PromoteAllRanked(w.nodes, rank, ms, pname);
    SameKeysEvolved(w, PromoteAll(w.nodes, ms, pname), ms, Subtree(w.nodes, rank, c));
  }

  /** One child of a fragment changes only its own subtree. */
  lemma KidEffectEvolved(w: World, rank: map<Id, nat>, c: Id, pname: string)
    requires Sound(w, rank) && c in w.nodes
    ensures Evolved(w, KidEffect(w, rank, c, pname), Subtree(w.nodes, rank, c))
  {
    if EndsWith(w.nodes[c].name, ".col") {
      RemovedSubtreeEvolved(w, rank, c);
    } else if EndsWith(w.nodes[c].name, ".mesh") {
      if |DrawableModels(w.nodes, ChildrenIn(w.nodes, w.order, c))| > 1 {
        MergeEvolved(w, rank, c, pname);
      } else {
        PromoteEvolved(w, rank, c, pname);
      }
    } else {
      EvolvedSame(w, Subtree(w.nodes, rank, c));
    }
  }

  /**
   * One child keeps the worklist invariant when nothing queued lies in its
   * subtree: the merge consumes only models below the child.
   */
  lemma KidEffectTracked(w: World, rank: map<Id, nat>, c: Id, pname: string)
    requires Sound(w, rank) && c in w.nodes && Tracked(w)
    requires forall e :: e in w.work ==> e !in Subtree(w.nodes, rank, c)
    ensures Tracked(KidEffect(w, rank, c, pname))
  {
    var r := KidEffect(w, rank, c, pname);
    KidEffectEvolved(w, rank, c, pname);
    if EndsWith(w.nodes[c].name, ".col") {
      RemovedSubtreeEvolved(w, rank, c);
    } else if EndsWith(w.nodes[c].name, ".mesh") {
      var ms := DrawableModels(w.nodes, ChildrenIn(w.nodes, w.order, c));
      ModelsBelow(w, rank, c);
      if |ms| > 1 {
        NotOwnParent(w.nodes, rank, c);
        assert c in r.nodes;
      }
      forall e | e in r.work ensures e in r.nodes || e in r.removed {
        if e in w.work {
          assert e !in Subtree(w.nodes, rank, c);
        }
      }
    }
  }

  /** The fragment rule's children, each still a child of `p` in `w`. */
  ghost predicate KidsOf(w: World, ks: seq<Id>, p: Id)
  {
    NoDup(ks) && forall k :: k in ks ==> k in w.nodes && w.nodes[k].parent == Some(p)
  }

  /** `Evolved` regions compose: a step inside a part of the region keeps the whole. */
  lemma EvolvedChain(w0: World, w1: World, w2: World, r1: set<Id>, r: set<Id>)
    requires Evolved(w0, w1, r) && Evolved(w1, w2, r1) && r1 <= r
    ensures Evolved(w0, w2, r)
  {
    EvolvedWider(w1, w2, r1, r);
    EvolvedTrans(w0, w1, w2, r);
  }

  /** One more child, handled in a state that evolved from `w` inside a region holding the child's subtree. */
  lemma KidStepEvolved(w: World, w0: World, rank: map<Id, nat>, c: Id, pname: string, sp: set<Id>)
    requires Sound(w, rank) && Sound(w0, rank) && c in w.nodes && Subtree(w.nodes, rank, c) <= sp
    requires Evolved(w, w0, sp)
    ensures Evolved(w, KidEffect(w0, rank, c, pname), sp)
  {
    var w1 := KidEffect(w0, rank, c, pname);
    if c in w0.nodes {
      KidEffectEvolved(w0, rank, c, pname);
      SubtreeShrunk(w.nodes, w0.nodes, rank, c);
      EvolvedChain(w, w0, w1, Subtree(w0.nodes, rank, c), sp);
    }
  }

  lemma KidsPrefixEvolved(w: World, rank: map<Id, nat>, ks: seq<Id>, n: nat, pname: string, sp: set<Id>)
    requires Sound(w, rank) && 0 < n <= |ks| && ks[n - 1] in w.nodes && Subtree(w.nodes, rank, ks[n - 1]) <= sp
    requires Evolved(w, KidsEffect(w, rank, ks[..n - 1], pname), sp)
    ensures Evolved(w, KidsEffect(w, rank, ks[..n], pname), sp)
  {
    KidsEffectStep(w, rank, ks, n - 1, pname);
    KidStepEvolved(w, KidsEffect(w, rank, ks[..n - 1], pname), rank, ks[n - 1], pname, sp);
  }

  /** The first `n` children change only a region `sp` that holds each of their subtrees. */
  lemma {:induction false} KidsEffectEvolved(w: World, rank: map<Id, nat>, ks: seq<Id>, n: nat, pname: string, sp: set<Id>)
    requires Sound(w, rank) && n <= |ks|
    requires forall k :: k in ks ==> k in w.nodes && Subtree(w.nodes, rank, k) <= sp
    ensures Evolved(w, KidsEffect(w, rank, ks[..n], pname), sp)
  {
    if n == 0 {
      assert ks[..n] == [];
      EvolvedSame(w, sp);
    } else {
      KidsEffectEvolved(w, rank, ks, n - 1, pname, sp);
      assert ks[n - 1] in ks;
      KidsPrefixEvolved(w, rank, ks, n, pname, sp);
    }
  }

  /**
   * The invariant after the first `n` children: the worklist invariant holds,
   * the first parent is untouched, and nothing queued lies in the subtree of a
   * child still to come.
   */
  ghost predicate KidsInv(w: World, rank: map<Id, nat>, ks: seq<Id>, n: nat, p: Id, r: World)
    requires Ranked(w.nodes, rank)
  {
    Tracked(r) && p in r.nodes && p in w.nodes && r.nodes[p] == w.nodes[p] &&
    (forall i, j :: 0 <= i < |r.work| && n <= j < |ks| ==> r.work[i] !in Subtree(w.nodes, rank, ks[j])) &&
    forall j :: n <= j < |ks| ==> Untouched(w.nodes, r.nodes, Subtree(w.nodes, rank, ks[j]))
  }

  /** Handling child `ks[n - 1]` in state `w0` keeps the invariant. */
  lemma KidStepTracked(w: World, w0: World, rank: map<Id, nat>, ks: seq<Id>, n: nat, pname: string, p: Id)
    requires Sound(w, rank) && Sound(w0, rank) && Shrunk(w.nodes, w0.nodes) && KidsOf(w, ks, p) && 0 < n <= |ks|
    requires KidsInv(w, rank, ks, n - 1, p, w0)
    ensures KidsInv(w, rank, ks, n, p, KidEffect(w0, rank, ks[n - 1], pname))
  {
    var c := ks[n - 1];
    if c in w0.nodes {
      var w1 := KidEffect(w0, rank, c, pname);
      SubtreeShrunk(w.nodes, w0.nodes, rank, c);
      KidEffectTracked(w0, rank, c, pname);
      KidEffectEvolved(w0, rank, c, pname);
      KidSubtree(w.nodes, rank, c, p);
      forall i, j | 0 <= i < |w1.work| && n <= j < |ks| ensures w1.work[i] !in Subtree(w.nodes, rank, ks[j]) {
        if i >= |w0.work| {
          assert ks[j] != c;
          SiblingsDisjoint(w.nodes, rank, c, ks[j]);
        } else {
          assert w1.work[i] == w0.work[i];
        }
      }
      forall j | n <= j < |ks| ensures Untouched(w.nodes, w1.nodes, Subtree(w.nodes, rank, ks[j])) {
        assert ks[j] != c;
        SiblingsDisjoint(w.nodes, rank, c, ks[j]);
      }
    }
  }

  lemma KidsPrefixTracked(w: World, rank: map<Id, nat>, ks: seq<Id>, n: nat, pname: string, p: Id)
    requires Sound(w, rank) && KidsOf(w, ks, p) && 0 < n <= |ks|
    requires KidsInv(w, rank, ks, n - 1, p, KidsEffect(w, rank, ks[..n - 1], pname))
    ensures KidsInv(w, rank, ks, n, p, KidsEffect(w, rank, ks[..n], pname))
  {
    KidsEffectStep(w, rank, ks, n - 1, pname);
    KidStepTracked(w, KidsEffect(w, rank, ks[..n - 1], pname), rank, ks, n, pname, p);
  }

  /** The invariant holds after every prefix of the children. */
  lemma {:induction false} KidsEffectTracked(w: World, rank: map<Id, nat>, ks: seq<Id>, n: nat, pname: string, p: Id)
    requires Sound(w, rank) && KidsOf(w, ks, p) && n <= |ks| && p in w.nodes && Tracked(w)
    requires forall e :: e in w.work ==> e !in Subtree(w.nodes, rank, p)
    ensures KidsInv(w, rank, ks, n, p, KidsEffect(w, rank, ks[..n], pname))
  {
    if n == 0 {
      assert ks[..n] == [];
      forall j | 0 <= j < |ks|
        ensures Subtree(w.nodes, rank, ks[j]) <= Subtree(w.nodes, rank, p) && Untouched(w.nodes, w.nodes, Subtree(w.nodes, rank, ks[j]))
      {
        KidSubtree(w.nodes, rank, ks[j], p);
      }
    } else {
      KidsEffectTracked(w, rank, ks, n - 1, pname, p);
      KidsPrefixTracked(w, rank, ks, n, pname, p);
    }
  }

  /** The whole fragment rule changes only the subtree of `p` and keeps the worklist invariant. */
  lemma FragmentEffectSafe(w: World, rank: map<Id, nat>, p: Id)
    requires Sound(w, rank) && NoDup(w.order) && p in w.nodes && Tracked(w)
    requires forall e :: e in w.work ==> e !in Subtree(w.nodes, rank, p)
    ensures Evolved(w, FragmentEffect(w, rank, p), Subtree(w.nodes, rank, p))
    ensures Tracked(FragmentEffect(w, rank, p))
  {
    var kids := ChildrenIn(w.nodes, w.order, p);
    assert kids[..|kids|] == kids;
    forall k | k in kids {
      KidSubtree(w.nodes, rank, k, p);
    }
    KidsEffectEvolved(w, rank, kids, |kids|, w.nodes[p].name, Subtree(w.nodes, rank, p));
    KidsEffectTracked(w, rank, kids, |kids|, w.nodes[p].name, p);
    assert Reaches(w.nodes, rank, p, p);
  }

  /** Flattening children that lie in `sub` keeps every record outside `sub` and every object. */
  lemma FlattenFramed(m: Nodes, rank: map<Id, nat>, ks: seq<Id>, name: string, sub: set<Id>)
    requires Ranked(m, rank) && forall k :: k in ks ==> k in m && k in sub
    ensures Framed(m, FlattenAll(m, ks, name), sub) && Shrunk(m, FlattenAll(m, ks, name))
    ensures FlattenAll(m, ks, name).Keys == m.Keys && m.Keys - FlattenAll(m, ks, name).Keys == {}
  {
    FlattenAllAt(m, ks, name);
    FlattenAllRanked(m, rank, ks, name);
  }

  /** What the drawable rule queues is `p` or one of its children. */
  lemma DrawableQueued(w: World, p: Id)
    requires p in w.nodes
    ensures forall e :: e in DrawableQueue(w.nodes, ChildrenIn(w.nodes, w.order, p)) + [p] ==>
      e == p || e in ChildrenIn(w.nodes, w.order, p)
  {
    DrawableQueueInKids(w.nodes, ChildrenIn(w.nodes, w.order, p));
  }

  /** The drawable rule queues only objects still in the scene. */
  lemma DrawableTracked(w: World, p: Id)
    requires p in w.nodes && Tracked(w)
    ensures Tracked(DrawableEffect(w, p))
  {
    var kids := ChildrenIn(w.nodes, w.order, p);
    FlattenAllAt(w.nodes, kids, w.nodes[p].name);
    DrawableQueued(w, p);
  }

  /** The drawable rule changes only records in a region `sub` holding `p` and its children. */
  lemma DrawableIn(w: World, rank: map<Id, nat>, p: Id, sub: set<Id>)
    requires Ranked(w.nodes, rank) && p in w.nodes && p in sub
    requires forall k :: k in ChildrenIn(w.nodes, w.order, p) ==> k in sub
    ensures Evolved(w, DrawableEffect(w, p), sub)
  {
    var kids := ChildrenIn(w.nodes, w.order, p);
    FlattenFramed(w.nodes, rank, kids, w.nodes[p].name, sub);
    DrawableQueued(w, p);
    SameKeysEvolved(w, FlattenAll(w.nodes, kids, w.nodes[p].name), DrawableQueue(w.nodes, kids) + [p], sub);
    assert w.work + DrawableQueue(w.nodes, kids) + [p] == w.work + (DrawableQueue(w.nodes, kids) + [p]);
  }

  /** The drawable rule changes only `p`'s children and queues only them and `p`. */
  lemma DrawableEffectSafe(w: World, rank: map<Id, nat>, p: Id)
    requires Sound(w, rank) && p in w.nodes
    ensures Evolved(w, DrawableEffect(w, p), Subtree(w.nodes, rank, p))
    ensures Tracked(w) ==> Tracked(DrawableEffect(w, p))
  {
    forall k | k in ChildrenIn(w.nodes, w.order, p) {
      KidSubtree(w.nodes, rank, k, p);
    }
    assert Reaches(w.nodes, rank, p, p);
    DrawableIn(w, rank, p, Subtree(w.nodes, rank, p));
    if Tracked(w) {
      DrawableTracked(w, p);
    }
  }

  /**
   * One first parent, present and with nothing queued in its subtree: the pass
   * goes on, only that subtree changes, and the worklist invariant holds.
   */
  lemma RuleEffectSafe(w: World, rank: map<Id, nat>, q: Id)
    requires Sound(w, rank) && NoDup(w.order) && q in w.nodes && Tracked(w)
    requires forall e :: e in w.work ==> e !in Subtree(w.nodes, rank, q)
    ensures RuleEffect(w, rank, q).1
    ensures Evolved(w, RuleEffect(w, rank, q).0, Subtree(w.nodes, rank, q))
    ensures Tracked(RuleEffect(w, rank, q).0)
  {
    if w.nodes[q].tag == Some(Drawable) {
      DrawableEffectSafe(w, rank, q);
    } else if w.nodes[q].tag == Some(Fragment) {
      FragmentEffectSafe(w, rank, q);
    } else {
      EvolvedSame(w, Subtree(w.nodes, rank, q));
    }
  }
}
