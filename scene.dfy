/**
 * The host scene as a mutable store, with the host operations the add-on
 * calls (reparent, rename, `asset_mark`, `bpy.data.objects.remove`,
 * `bpy.ops.object.join`) and the two helpers of `init.py` built on them:
 * the recursive subtree removal and the merge.
 */
module SceneGraph {
  import opened Forest

  /** The objects of the join other than the active one: they leave the scene. */
  function Consumed(selected: seq<Id>, active: Id): (c: set<Id>)
    ensures forall x :: x in c <==> x in selected && x != active
  {
    set x | x in selected && x != active
  }

  class Scene {
    /** Every object of the scene, keyed by identity. */
    var nodes: Nodes
    /** Scene enumeration order; a child list is this order filtered by parent. */
    var order: seq<Id>
    /** Witness that the parent relation is a forest; no operation changes it. */
    ghost var rank: map<Id, nat>
    /** Every object handed to `bpy.data.objects.remove`, in call order. */
    ghost var removals: seq<Id>

    ghost predicate Valid()
      reads this
    {
      Ranked(nodes, rank) && NoDup(order) && (forall x :: x in order <==> x in nodes) &&
      NoDup(removals) && (forall x :: x in removals ==> x !in nodes)
    }

    constructor (m: Nodes, o: seq<Id>, ghost r: map<Id, nat>)
      requires Ranked(m, r) && NoDup(o) && forall x :: x in o <==> x in m
      ensures Valid() && nodes == m && order == o && rank == r && removals == []
    {
      nodes, order, rank, removals := m, o, r, [];
    }

    /** `obj.children`: the present objects whose parent is `x`, in scene order. */
    function Children(x: Id): (r: seq<Id>)
      reads this
      requires Valid()
      ensures NoDup(r)
      ensures forall y :: y in r <==> y in nodes && nodes[y].parent == Some(x)
    {
      ChildrenIn(nodes, order, x)
    }

    /** The objects of the subtree rooted at `a`. */
    ghost function Sub(a: Id): set<Id>
      reads this
      requires Valid()
    {
      Subtree(nodes, rank, a)
    }

    // ----- host operations -----

    /** `obj.parent = None`. */
    method Unparent(x: Id)
      requires Valid() && x in nodes
      modifies this
      ensures Valid() && rank == old(rank) && order == old(order) && removals == old(removals)
      ensures nodes == old(nodes)[x := old(nodes)[x].(parent := None)]
    {
      nodes := nodes[x := nodes[x].(parent := None)];
    }

    /** `obj.name = name`. Names need not be unique. */
    method Rename(x: Id, name: string)
      requires Valid() && x in nodes
      modifies this
      ensures Valid() && rank == old(rank) && order == old(order) && removals == old(removals)
      ensures nodes == old(nodes)[x := old(nodes)[x].(name := name)]
    {
      nodes := nodes[x := nodes[x].(name := name)];
    }

    /** `obj.asset_mark()`. */
    method AssetMark(x: Id)
      requires Valid() && x in nodes
      modifies this
      ensures Valid() && rank == old(rank) && order == old(order) && removals == old(removals)
      ensures nodes == old(nodes)[x := old(nodes)[x].(marked := true)]
    {
      nodes := nodes[x := nodes[x].(marked := true)];
    }

    /** `bpy.data.objects.remove(x, do_unlink=True)`: children left behind become roots. */
    method Delete(x: Id)
      requires Valid() && x in nodes
      modifies this
      ensures Valid() && rank == old(rank)
      ensures nodes == Unlinked(old(nodes), {x})
      ensures order == Without(old(order), {x})
      ensures removals == old(removals) + [x]
    {
      UnlinkedRanked(nodes, rank, {x});
      nodes := Unlinked(nodes, {x});
      order := Without(order, {x});
      removals := removals + [x];
    }

    /**
     * `bpy.ops.object.join()` on the selected objects: the active one survives,
     * the others leave the scene; their own children become roots.
     */
    method Join(selected: seq<Id>, active: Id)
      requires Valid() && active in selected && forall x :: x in selected ==> x in nodes
      modifies this
      ensures Valid() && rank == old(rank) && removals == old(removals)
      ensures nodes == Unlinked(old(nodes), Consumed(selected, active))
      ensures order == Without(old(order), Consumed(selected, active))
    {
      var gone := Consumed(selected, active);
      UnlinkedRanked(nodes, rank, gone);
      nodes := Unlinked(nodes, gone);
      order := Without(order, gone);
    }

    // ----- init.py helpers -----

    /**
     * `remove_object_and_children(obj, removed_objects)`: removes the whole
     * subtree of `obj`, children first, each object exactly once.
     */
    method RemoveSubtree(obj: Id, removed: set<Id>) returns (removed': set<Id>)
      requires Valid() && obj in nodes && removed !! nodes.Keys
      modifies this
      ensures Valid() && rank == old(rank)
      ensures removed' == removed + old(Sub(obj))
      ensures nodes == old(nodes) - old(Sub(obj))
      ensures order == Without(old(order), old(Sub(obj)))
      ensures old(removals) <= removals
      ensures forall x :: x in removals <==> x in old(removals) || x in old(Sub(obj))
      decreases Sub(obj), 2
    {
      ghost var m0, o0, s0 := nodes, order, Sub(obj);
      var kids := Children(obj);
      ghost var done;
      removed', done := RemoveChildren(obj, kids, removed);
      KidsCoverSubtree(m0, rank, obj, kids, done);
      // The guard at init.py:17 always holds: the children loop never removes `obj` itself.
      assert obj !in removed';
      if obj !in removed' {
        ghost var m1, log1 := nodes, removals;
        Delete(obj);
        FinishSubtree(m0, rank, obj, done, m1, nodes, o0, order, old(removals), log1, removals, removed, removed');
        removed' := removed' + {obj};
      }
    }

    /** The loop of `remove_object_and_children` over `list(obj.children)`. */
    method RemoveChildren(obj: Id, kids: seq<Id>, removed: set<Id>) returns (removed': set<Id>, ghost done: set<Id>)
      requires Valid() && obj in nodes && removed !! nodes.Keys
      requires kids == Children(obj)
      modifies this
      ensures Valid() && rank == old(rank)
      ensures done <= old(Sub(obj)) - {obj} && Covered(old(nodes), rank, kids, done)
      ensures removed' == removed + done
      ensures nodes == old(nodes) - done
      ensures order == Without(old(order), done)
      ensures old(removals) <= removals
      ensures forall x :: x in removals <==> x in old(removals) || x in done
      decreases Sub(obj), 1
    {
      ghost var m0, o0, log0 := nodes, order, removals;
      ghost var s0 := Sub(obj);
      removed' := removed;
      done := {};
      WithoutNothing(o0);
      var i := 0;
      while i < |kids|
        invariant 0 <= i <= |kids|
        invariant Valid() && rank == old(rank)
        invariant done <= s0 - {obj} && DownClosed(m0, done)
        invariant Covered(m0, rank, kids[..i], done)
        invariant removed' == removed + done
        invariant nodes == m0 - done
        invariant order == Without(o0, done)
        invariant log0 <= removals
        invariant forall x :: x in removals <==> x in log0 || x in done
      {
        ghost var d0 := done;
        removed', done := RemoveChild(obj, kids[i], removed', m0, o0, log0, s0, removed, done);
        CoveredStep(m0, rank, kids, i, d0, done);
        i := i + 1;
      }
      assert kids[..|kids|] == kids;
    }

    /** One turn of that loop: `if child not in removed_objects: remove_object_and_children(child, ...)`. */
    method RemoveChild(obj: Id, c: Id, removed: set<Id>, ghost m0: Nodes, ghost o0: seq<Id>,
                       ghost log0: seq<Id>, ghost s0: set<Id>, ghost r0: set<Id>, ghost d0: set<Id>)
      returns (removed': set<Id>, ghost done: set<Id>)
      requires Valid() && Ranked(m0, rank) && s0 == Subtree(m0, rank, obj)
      requires c in m0 && m0[c].parent == Some(obj) && r0 !! m0.Keys && removed == r0 + d0
      requires d0 <= s0 - {obj} && DownClosed(m0, d0)
      requires nodes == m0 - d0 && order == Without(o0, d0)
      requires log0 <= removals && forall x :: x in removals <==> x in log0 || x in d0
      modifies this
      ensures Valid() && rank == old(rank)
      ensures d0 <= done <= s0 - {obj} && DownClosed(m0, done) && Subtree(m0, rank, c) <= done
      ensures removed' == r0 + done
      ensures nodes == m0 - done && order == Without(o0, done)
      ensures log0 <= removals && forall x :: x in removals <==> x in log0 || x in done
      decreases s0, 0
    {
      removed' := removed;
      done := d0;
      if c !in removed' {
        ghost var sc := ChildStep(m0, rank, obj, c, d0);
        ghost var log1 := removals;
        removed' := RemoveSubtree(c, removed');
        done := d0 + sc;
        UnionSteps(log0, log1, removals, r0, d0, sc, removed');
        MinusTwice(m0, d0, sc);
        WithoutTwice(o0, d0, sc, done);
      } else {
        SubtreeDownClosed(m0, rank, c);
        DownClosedSubtree(m0, rank, done, c);
      }
    }

    /**
     * `merge_objects(objects_to_merge, new_name)`: selects the objects, makes the
     * last one active, joins them and gives the result the new name and no parent.
     */
    method MergeObjects(objs: seq<Id>, newName: string) returns (r: Option<Id>)
      requires Valid() && forall x :: x in objs ==> x in nodes
      modifies this
      ensures Valid() && rank == old(rank) && removals == old(removals)
      ensures |objs| <= 1 ==> r == None && nodes == old(nodes) && order == old(order)
      ensures |objs| > 1 ==>
        var last := objs[|objs| - 1];
        r == Some(last) &&
        nodes == Unlinked(old(nodes), Consumed(objs, last))[last := old(nodes)[last].(name := newName, parent := None)] &&
        order == Without(old(order), Consumed(objs, last))
    {
      var active: Option<Id> := None;
      for i := 0 to |objs|
        invariant active == if i == 0 then None else Some(objs[i - 1])
      {
        active := Some(objs[i]);
      }
      if |objs| > 1 {
        var a := active.value;
        ghost var m0 := nodes;
        Join(objs, a);
        ghost var u := nodes;
        Rename(a, newName);
        ghost var n1 := nodes;
        Unparent(a);
        MergedNodes(m0, Consumed(objs, a), a, newName, u, n1, nodes);
        return Some(a);
      }
      return None;
    }
  }

  /** Once every child's subtree is gone, the subtree of `obj` is gone but for `obj`, which is now a leaf. */
  lemma KidsCoverSubtree(m0: Nodes, rank: map<Id, nat>, obj: Id, kids: seq<Id>, done: set<Id>)
    requires Ranked(m0, rank) && obj in m0
    requires forall y :: y in kids <==> y in m0 && m0[y].parent == Some(obj)
    requires Covered(m0, rank, kids, done)
    requires done <= Subtree(m0, rank, obj) - {obj}
    ensures done == Subtree(m0, rank, obj) - {obj}
    ensures forall y :: y in m0 && m0[y].parent == Some(obj) ==> y in done
  {
    forall x | x in Subtree(m0, rank, obj) && x != obj ensures x in done {
      var c := ReachesViaChild(m0, rank, x, obj);
      assert c in kids;
      var k :| 0 <= k < |kids| && kids[k] == c;
      assert x in Subtree(m0, rank, kids[k]);
    }
    forall y | y in m0 && m0[y].parent == Some(obj) ensures y in done {
      assert y in kids;
      var k :| 0 <= k < |kids| && kids[k] == y;
      assert y in Subtree(m0, rank, kids[k]);
    }
  }

  /**
   * What removing the subtree of child `c` of `obj` does, once the down-closed
   * set `d0` is already gone: it removes `sc`, the rest of `c`'s subtree.
   */
  lemma ChildStep(m0: Nodes, rank: map<Id, nat>, obj: Id, c: Id, d0: set<Id>) returns (sc: set<Id>)
    requires Ranked(m0, rank) && DownClosed(m0, d0) && d0 <= Subtree(m0, rank, obj) - {obj}
    requires c in m0 && m0[c].parent == Some(obj) && c !in d0
    ensures Ranked(m0 - d0, rank)
    ensures sc == Subtree(m0 - d0, rank, c) && sc == Subtree(m0, rank, c) - d0
    ensures sc < Subtree(m0, rank, obj)
    ensures c in sc
    ensures DownClosed(m0, d0 + sc) && d0 + sc <= Subtree(m0, rank, obj) - {obj}
    ensures d0 + sc == d0 + Subtree(m0, rank, c)
  {
    assert Reaches(m0, rank, c, obj);
    SubtreeNested(m0, rank, c, obj);
    SubtreeDownClosed(m0, rank, c);
    SubtreeMinusDown(m0, rank, d0, c);
    sc := Subtree(m0, rank, c) - d0;
    assert obj !in Subtree(m0, rank, c) by {
      if Reaches(m0, rank, obj, c) {
        ReachesRank(m0, rank, obj, c);
      }
    }
    assert Reaches(m0, rank, obj, obj);
    assert Reaches(m0, rank, c, c);
    assert obj in Subtree(m0, rank, obj) && obj !in sc && sc <= Subtree(m0, rank, obj);
  }

  /** The survivor of a join, renamed and unparented, keeps the rest of its record. */
  lemma MergedNodes(m0: Nodes, gone: set<Id>, a: Id, newName: string, u: Nodes, n1: Nodes, n2: Nodes)
    requires a in m0 && a !in gone && u == Unlinked(m0, gone)
    requires n1 == u[a := u[a].(name := newName)] && n2 == n1[a := n1[a].(parent := None)]
    ensures n2 == Unlinked(m0, gone)[a := m0[a].(name := newName, parent := None)]
  {
    assert u[a].(name := newName).(parent := None) == m0[a].(name := newName, parent := None);
    assert n2 == u[a := m0[a].(name := newName, parent := None)];
  }

  /** Deleting `obj` last, once the rest of its subtree `done` is gone, leaves its whole subtree gone. */
  lemma FinishSubtree(m0: Nodes, rank: map<Id, nat>, obj: Id, done: set<Id>, m1: Nodes, m2: Nodes,
                      o0: seq<Id>, o2: seq<Id>, log0: seq<Id>, log1: seq<Id>, log2: seq<Id>,
                      r0: set<Id>, r1: set<Id>)
    requires Ranked(m0, rank) && obj in m0 && done == Subtree(m0, rank, obj) - {obj}
    requires forall y :: y in m0 && m0[y].parent == Some(obj) ==> y in done
    requires m1 == m0 - done && m2 == Unlinked(m1, {obj}) && o2 == Without(Without(o0, done), {obj})
    requires log0 <= log1 && (forall x :: x in log1 <==> x in log0 || x in done) && log2 == log1 + [obj]
    requires r1 == r0 + done
    ensures m2 == m0 - Subtree(m0, rank, obj) && o2 == Without(o0, Subtree(m0, rank, obj))
    ensures log0 <= log2 && forall x :: x in log2 <==> x in log0 || x in Subtree(m0, rank, obj)
    ensures r1 + {obj} == r0 + Subtree(m0, rank, obj)
  {
    var s0 := Subtree(m0, rank, obj);
    assert Reaches(m0, rank, obj, obj);
    LastOfSubtree(s0, obj, done, log0, log1, log2, r0, r1);
    LeafUnlinked(m1, obj);
    MinusTwice(m0, done, {obj});
    WithoutTwice(o0, done, {obj}, s0);
  }

  lemma LastOfSubtree(s0: set<Id>, obj: Id, done: set<Id>, log0: seq<Id>, log1: seq<Id>, log2: seq<Id>,
                      r0: set<Id>, r1: set<Id>)
    requires obj in s0 && done == s0 - {obj}
    requires log0 <= log1 && (forall x :: x in log1 <==> x in log0 || x in done) && log2 == log1 + [obj]
    requires r1 == r0 + done
    ensures done + {obj} == s0
    ensures log0 <= log2 && forall x :: x in log2 <==> x in log0 || x in s0
    ensures r1 + {obj} == r0 + s0
  {
  }

  lemma UnionSteps(log0: seq<Id>, log1: seq<Id>, log2: seq<Id>, r0: set<Id>, d0: set<Id>, sc: set<Id>, r2: set<Id>)
    requires log0 <= log1 && (forall x :: x in log1 <==> x in log0 || x in d0)
    requires log1 <= log2 && (forall x :: x in log2 <==> x in log1 || x in sc)
    requires r2 == r0 + d0 + sc
    ensures log0 <= log2 && (forall x :: x in log2 <==> x in log0 || x in d0 + sc)
    ensures r2 == r0 + (d0 + sc)
  {
  }

  lemma LeafUnlinked(m: Nodes, x: Id)
    requires forall y :: y in m && m[y].parent.Some? ==> m[y].parent.value != x
    ensures Unlinked(m, {x}) == m - {x}
  {
  }

  lemma MinusTwice(m: Nodes, a: set<Id>, b: set<Id>)
    ensures (m - a) - b == m - (a + b)
  {
  }

  /** Every subtree rooted in `ks` lies inside `d`. */
  ghost predicate Covered(m0: Nodes, rank: map<Id, nat>, ks: seq<Id>, d: set<Id>)
    requires Ranked(m0, rank)
  {
    forall k :: 0 <= k < |ks| ==> Subtree(m0, rank, ks[k]) <= d
  }

  lemma CoveredStep(m0: Nodes, rank: map<Id, nat>, ks: seq<Id>, i: int, d0: set<Id>, d1: set<Id>)
    requires Ranked(m0, rank) && 0 <= i < |ks|
    requires Covered(m0, rank, ks[..i], d0) && d0 <= d1 && Subtree(m0, rank, ks[i]) <= d1
    ensures Covered(m0, rank, ks[..i + 1], d1)
  {
    var next := ks[..i + 1];
    forall k | 0 <= k < |next| ensures Subtree(m0, rank, next[k]) <= d1 {
      if k < i {
        assert next[k] == ks[..i][k];
      }
    }
  }

  lemma {:induction false} WithoutNothing(s: seq<Id>)
    ensures Without(s, {}) == s
  {
    if s != [] {
      WithoutNothing(s[1..]);
    }
  }

  lemma {:induction false} WithoutTwice(s: seq<Id>, a: set<Id>, b: set<Id>, c: set<Id>)
    requires a + b == c
    ensures Without(Without(s, a), b) == Without(s, c)
  {
    if s != [] {
      WithoutTwice(s[1..], a, b, c);
      if s[0] in a {
        assert Without(s, a) == Without(s[1..], a);
      } else {
        assert Without(s, a) == [s[0]] + Without(s[1..], a);
        assert Without(s, a)[1..] == Without(s[1..], a);
      }
    }
  }
}
