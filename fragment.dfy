/**
 * `process_fragment_objects`: for each child of a fragment first parent, a
 * `.col` child loses its whole subtree at once, the drawable models of a
 * `.mesh` child are merged into one asset (or, when there is at most one,
 * marked and queued), and the first parent is queued last.
 */
module FragmentRule {
  import opened Forest
  import opened Names
  import opened SceneGraph

  /** `[c for c in child.children if c.sollum_type == "sollumz_drawable_model"]`. */
  function DrawableModels(m: Nodes, ks: seq<Id>): (r: seq<Id>)
    requires forall k :: k in ks ==> k in m
    ensures forall x :: x in r <==> x in ks && m[x].tag == Some(DrawableModel)
    ensures |r| <= |ks|
  {
    if ks == [] then []
    else
      var last := ks[|ks| - 1];
      DrawableModels(m, ks[..|ks| - 1]) + (if m[last].tag == Some(DrawableModel) then [last] else [])
  }

  /** The record of an object after it is renamed to `name` and asset-marked in place. */
  function Promoted(n: Node, name: string): (r: Node)
    ensures r.name == name && r.marked && r.parent == n.parent && r.tag == n.tag
  {
    n.(name := name, marked := true)
  }

  /**
   * The scene after merging `ms` (init.py:119-123): the last model survives with
   * no parent, the first parent's name and an asset mark; the others leave.
   */
  function Merged(m: Nodes, ms: seq<Id>, name: string): (r: Nodes)
    requires |ms| > 1 && forall x :: x in ms ==> x in m
    ensures r.Keys == m.Keys - Consumed(ms, ms[|ms| - 1])
    ensures r[ms[|ms| - 1]] == m[ms[|ms| - 1]].(name := name, parent := None, marked := true)
  {
    var last := ms[|ms| - 1];
    Unlinked(m, Consumed(ms, last))[last := m[last].(name := name, parent := None, marked := true)]
  }

  /** The scene after each model of `ms`, in turn, is renamed and marked (init.py:126-130). */
  function PromoteAll(m: Nodes, ms: seq<Id>, name: string): (r: Nodes)
    requires forall x :: x in ms ==> x in m
    ensures r.Keys == m.Keys
  {
    if ms == [] then m
    else
      var r0 := PromoteAll(m, ms[..|ms| - 1], name);
      r0[ms[|ms| - 1] := Promoted(r0[ms[|ms| - 1]], name)]
  }

  lemma {:induction false} PromoteAllRanked(m: Nodes, rank: map<Id, nat>, ms: seq<Id>, name: string)
    requires Ranked(m, rank) && forall x :: x in ms ==> x in m
    ensures Ranked(PromoteAll(m, ms, name), rank) && Shrunk(m, PromoteAll(m, ms, name))
  {
    if ms != [] {
      var r0 := PromoteAll(m, ms[..|ms| - 1], name);
      PromoteAllRanked(m, rank, ms[..|ms| - 1], name);
      RankedUpdate(r0, rank, ms[|ms| - 1], Promoted(r0[ms[|ms| - 1]], name));
    }
  }

  lemma MergedRanked(m: Nodes, rank: map<Id, nat>, ms: seq<Id>, name: string)
    requires Ranked(m, rank) && |ms| > 1 && forall x :: x in ms ==> x in m
    ensures Ranked(Merged(m, ms, name), rank) && Shrunk(m, Merged(m, ms, name))
  {
    var last := ms[|ms| - 1];
    var u := Unlinked(m, Consumed(ms, last));
    UnlinkedRanked(m, rank, Consumed(ms, last));
    RankedUpdate(u, rank, last, m[last].(name := name, parent := None, marked := true));
  }

  /** What one child `c` of the first parent named `pname` does to the pass state. */
  ghost function KidEffect(w: World, rank: map<Id, nat>, c: Id, pname: string): (r: World)
    requires Sound(w, rank)
    ensures Sound(r, rank) && Shrunk(w.nodes, r.nodes)
  {
    if c !in w.nodes then w
    else if EndsWith(w.nodes[c].name, ".col") then RemovedSubtree(w, rank, c)
    else if EndsWith(w.nodes[c].name, ".mesh") then
      var ms := DrawableModels(w.nodes, ChildrenIn(w.nodes, w.order, c));
      if |ms| > 1 then
        MergedRanked(w.nodes, rank, ms, pname);
        World(Merged(w.nodes, ms, pname), Without(w.order, Consumed(ms, ms[|ms| - 1])), w.removed, w.work + [c])
      else
        PromoteAllRanked(w.nodes, rank, ms, pname);
        World(PromoteAll(w.nodes, ms, pname), w.order, w.removed, w.work + ms)
    else w
  }

  /** The children `ks`, handled in order. */
  ghost function KidsEffect(w: World, rank: map<Id, nat>, ks: seq<Id>, pname: string): (r: World)
    requires Sound(w, rank)
    ensures Sound(r, rank) && Shrunk(w.nodes, r.nodes)
  {
    if ks == [] then w
    else
      var w0 := KidsEffect(w, rank, ks[..|ks| - 1], pname);
      var r := KidEffect(w0, rank, ks[|ks| - 1], pname);
      ShrunkTrans(w.nodes, w0.nodes, r.nodes);
      r
  }

  /** The whole rule for first parent `p`: its children in snapshot order, then `p` is queued. */
  ghost function FragmentEffect(w: World, rank: map<Id, nat>, p: Id): (r: World)
    requires Sound(w, rank) && p in w.nodes
    ensures Sound(r, rank) && Shrunk(w.nodes, r.nodes)
  {
    var r := KidsEffect(w, rank, ChildrenIn(w.nodes, w.order, p), w.nodes[p].name);
    r.(work := r.work + [p])
  }

  /** The merge, then the rename and the mark of the merged object (init.py:119-123). */
  lemma MergedUpdates(m0: Nodes, ms: seq<Id>, childName: string, pname: string, u: Nodes, n1: Nodes, n2: Nodes)
    requires |ms| > 1 && forall x :: x in ms ==> x in m0
    requires u == Unlinked(m0, Consumed(ms, ms[|ms| - 1]))[ms[|ms| - 1] := m0[ms[|ms| - 1]].(name := childName, parent := None)]
    requires n1 == u[ms[|ms| - 1] := u[ms[|ms| - 1]].(name := pname)]
    requires n2 == n1[ms[|ms| - 1] := n1[ms[|ms| - 1]].(marked := true)]
    ensures n2 == Merged(m0, ms, pname)
  {
    var last := ms[|ms| - 1];
    assert n1[last].(marked := true) == m0[last].(name := pname, parent := None, marked := true);
  }

  /** `model.name = first_parent.name` and `model.asset_mark()`. */
  method Promote(s: Scene, x: Id, pname: string)
    requires s.Valid() && x in s.nodes
    modifies s
    ensures s.Valid() && s.rank == old(s.rank) && s.order == old(s.order) && s.removals == old(s.removals)
    ensures s.nodes == old(s.nodes)[x := Promoted(old(s.nodes)[x], pname)]
  {
    s.Rename(x, pname);
    s.AssetMark(x);
  }

  lemma PromoteStep(m0: Nodes, ms: seq<Id>, j: int, pname: string)
    requires 0 <= j < |ms| && forall x :: x in ms ==> x in m0
    ensures ms[..j + 1] == ms[..j] + [ms[j]]
    ensures PromoteAll(m0, ms[..j + 1], pname) ==
      PromoteAll(m0, ms[..j], pname)[ms[j] := Promoted(PromoteAll(m0, ms[..j], pname)[ms[j]], pname)]
  {
    assert ms[..j + 1][..j] == ms[..j];
  }

  /** `for model in drawable_models:` rename, mark and queue each one (init.py:126-130). */
  method PromoteModels(s: Scene, ms: seq<Id>, pname: string, work: seq<Id>) returns (work': seq<Id>)
    requires s.Valid() && forall x :: x in ms ==> x in s.nodes
    modifies s
    ensures s.Valid() && s.rank == old(s.rank) && s.order == old(s.order) && s.removals == old(s.removals)
    ensures s.nodes == PromoteAll(old(s.nodes), ms, pname)
    ensures work' == work + ms
  {
    ghost var m0 := s.nodes;
    work' := work;
    for j := 0 to |ms|
      invariant s.Valid() && s.rank == old(s.rank) && s.order == old(s.order) && s.removals == old(s.removals)
      invariant s.nodes == PromoteAll(m0, ms[..j], pname)
      invariant work' == work + ms[..j]
    {
      PromoteStep(m0, ms, j, pname);
      Promote(s, ms[j], pname);
      work' := work' + [ms[j]];
    }
    assert ms[..|ms|] == ms;
  }

  /** The merge branch (init.py:118-124). */
  method MergeModels(s: Scene, c: Id, ms: seq<Id>, pname: string, work: seq<Id>) returns (work': seq<Id>)
    requires s.Valid() && c in s.nodes && |ms| > 1 && forall x :: x in ms ==> x in s.nodes
    modifies s
    ensures s.Valid() && s.rank == old(s.rank) && s.removals == old(s.removals)
    ensures s.nodes == Merged(old(s.nodes), ms, pname)
    ensures s.order == Without(old(s.order), Consumed(ms, ms[|ms| - 1]))
    ensures work' == work + [c]
  {
    ghost var m0 := s.nodes;
    var merged := s.MergeObjects(ms, s.nodes[c].name);
    if merged.Some? {
      ghost var u := s.nodes;
      s.Rename(merged.value, pname);
      ghost var n1 := s.nodes;
      s.AssetMark(merged.value);
      MergedUpdates(m0, ms, m0[c].name, pname, u, n1, s.nodes);
    }
    work' := work + [c];
  }

  /** One turn of the loop of `process_fragment_objects` (init.py:112-131). */
  method FragmentChild(s: Scene, c: Id, pname: string, work: seq<Id>, removed: set<Id>)
    returns (work': seq<Id>, removed': set<Id>)
    requires s.Valid() && Sound(World(s.nodes, s.order, removed, work), s.rank)
    modifies s
    ensures s.Valid() && s.rank == old(s.rank)
    ensures World(s.nodes, s.order, removed', work') == KidEffect(World(old(s.nodes), old(s.order), removed, work), s.rank, c, pname)
  {
    work', removed' := work, removed;
    if c !in s.nodes {
      // `child.name` raises on an object no longer in the scene; the handler skips the child.
      return;
    }
    if EndsWith(s.nodes[c].name, ".col") {
      removed' := s.RemoveSubtree(c, removed);
    } else if EndsWith(s.nodes[c].name, ".mesh") {
      var ms := DrawableModels(s.nodes, s.Children(c));
      if |ms| > 1 {
        work' := MergeModels(s, c, ms, pname, work);
      } else {
        work' := PromoteModels(s, ms, pname, work);
      }
    }
  }

  /** One loop turn of `ProcessFragment` on the value side. */
  lemma KidsEffectStep(w: World, rank: map<Id, nat>, ks: seq<Id>, i: int, pname: string)
    requires Sound(w, rank) && 0 <= i < |ks|
    ensures KidsEffect(w, rank, ks[..i + 1], pname) == KidEffect(KidsEffect(w, rank, ks[..i], pname), rank, ks[i], pname)
  {
    assert ks[..i + 1][..i] == ks[..i];
  }

  /**
   * `process_fragment_objects(first_parent, objects_to_remove, removed_objects)`
   * over the snapshot `list(first_parent.children)`.
   */
  method ProcessFragment(s: Scene, p: Id, work: seq<Id>, removed: set<Id>) returns (work': seq<Id>, removed': set<Id>)
    requires s.Valid() && Sound(World(s.nodes, s.order, removed, work), s.rank) && p in s.nodes
    modifies s
    ensures s.Valid() && s.rank == old(s.rank)
    ensures World(s.nodes, s.order, removed', work') == FragmentEffect(World(old(s.nodes), old(s.order), removed, work), s.rank, p)
  {
    ghost var w0 := World(s.nodes, s.order, removed, work);
    var kids := s.Children(p);
    var pname := s.nodes[p].name;
    work', removed' := work, removed;
    for i := 0 to |kids|
      invariant s.Valid() && s.rank == old(s.rank)
      invariant World(s.nodes, s.order, removed', work') == KidsEffect(w0, s.rank, kids[..i], pname)
    {
      KidsEffectStep(w0, s.rank, kids, i, pname);
      work', removed' := FragmentChild(s, kids[i], pname, work', removed');
    }
    assert kids[..|kids|] == kids;
    work' := work' + [p];
  }
}
