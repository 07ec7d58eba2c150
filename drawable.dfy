/**
 * `process_drawable_objects`: every child of a drawable first parent is moved
 * to the scene root, named after the parent and marked as an asset; bound boxes
 * and children that got no asset data are queued for removal, then the parent.
 */
module DrawableRule {
  import opened Forest
  import opened SceneGraph
  import opened Names

  /** A child after the rule: no parent, the first parent's name, marked. */
  function Flattened(n: Node, name: string): (r: Node)
    ensures r.parent.None? && r.name == name && r.marked
    ensures r.tag == n.tag && r.attachesAsset == n.attachesAsset
  {
    n.(parent := None, name := name, marked := true)
  }

  /** What one child contributes to the removal list: itself if a bound box, and itself if no asset data. */
  function ChildQueue(n: Node, c: Id): seq<Id>
  {
    (if n.tag == Some(BoundBox) then [c] else []) + (if !n.attachesAsset then [c] else [])
  }

  /** The removal entries contributed by the children `ks`, in order. */
  function DrawableQueue(m: Nodes, ks: seq<Id>): seq<Id>
    requires forall k :: k in ks ==> k in m
  {
    if ks == [] then [] else DrawableQueue(m, ks[..|ks| - 1]) + ChildQueue(m[ks[|ks| - 1]], ks[|ks| - 1])
  }

  /** A child is queued exactly when it is a bound box or got no asset data; a bound box without asset data twice. */
  lemma {:induction false} DrawableQueueMembers(m: Nodes, ks: seq<Id>)
    requires forall k :: k in ks ==> k in m
    ensures forall x :: x in DrawableQueue(m, ks) <==>
      x in ks && (m[x].tag == Some(BoundBox) || !m[x].attachesAsset)
  {
    if ks != [] {
      DrawableQueueMembers(m, ks[..|ks| - 1]);
      assert ks == ks[..|ks| - 1] + [ks[|ks| - 1]];
    }
  }

  /** The queue only ever holds children. */
  lemma DrawableQueueInKids(m: Nodes, ks: seq<Id>)
    requires forall k :: k in ks ==> k in m
    ensures forall x :: x in DrawableQueue(m, ks) ==> x in ks
  {
    DrawableQueueMembers(m, ks);
  }

  /** The body shared by the `.model` branch and the `else` branch (init.py:92-97 and 99-104). */
  method FlattenChild(s: Scene, obj: Id, name: string, work: seq<Id>) returns (work': seq<Id>)
    requires s.Valid() && obj in s.nodes
    modifies s
    ensures s.Valid() && s.rank == old(s.rank) && s.order == old(s.order) && s.removals == old(s.removals)
    ensures s.nodes == old(s.nodes)[obj := Flattened(old(s.nodes)[obj], name)]
    ensures work' == work + (if old(s.nodes)[obj].attachesAsset then [] else [obj])
  {
    ghost var m0 := s.nodes;
    s.Unparent(obj);
    ghost var m1 := s.nodes;
    s.Rename(obj, name);
    ghost var m2 := s.nodes;
    s.AssetMark(obj);
    FlattenedUpdates(m0, m1, m2, s.nodes, obj, name);
    work' := work;
    if !s.nodes[obj].attachesAsset {
      work' := work' + [obj];
    }
  }

  /** The three host updates of one child amount to one `Flattened` record. */
  lemma FlattenedUpdates(m0: Nodes, m1: Nodes, m2: Nodes, m3: Nodes, obj: Id, name: string)
    requires obj in m0
    requires m1 == m0[obj := m0[obj].(parent := None)]
    requires m2 == m1[obj := m1[obj].(name := name)]
    requires m3 == m2[obj := m2[obj].(marked := true)]
    ensures m3 == m0[obj := Flattened(m0[obj], name)] && m3[obj].attachesAsset == m0[obj].attachesAsset
  {
    assert m3 == m0[obj := m2[obj].(marked := true)];
  }

  /** One turn of the loop (init.py:88-104): the bound-box test, then either branch. */
  method DrawableChild(s: Scene, obj: Id, name: string, work: seq<Id>) returns (work': seq<Id>)
    requires s.Valid() && obj in s.nodes
    modifies s
    ensures s.Valid() && s.rank == old(s.rank) && s.order == old(s.order) && s.removals == old(s.removals)
    ensures s.nodes == old(s.nodes)[obj := Flattened(old(s.nodes)[obj], name)]
    ensures work' == work + ChildQueue(old(s.nodes)[obj], obj)
  {
    work' := work;
    if s.nodes[obj].tag == Some(BoundBox) {
      work' := work' + [obj];
    }
    if EndsWith(s.nodes[obj].name, ".model") {
      work' := FlattenChild(s, obj, name, work');
    } else {
      work' := FlattenChild(s, obj, name, work');
    }
  }

  /** A node is never its own child. */
  lemma NotOwnParent(m: Nodes, rank: map<Id, nat>, p: Id)
    requires Ranked(m, rank) && p in m
    ensures m[p].parent != Some(p)
  {
  }

  /** The scene after flattening the children `ks` of a parent named `name`. */
  function FlattenAll(m: Nodes, ks: seq<Id>, name: string): Nodes
    requires forall k :: k in ks ==> k in m
  {
    if ks == [] then m
    else FlattenAll(m, ks[..|ks| - 1], name)[ks[|ks| - 1] := Flattened(m[ks[|ks| - 1]], name)]
  }

  /** Flattening touches the listed children and nothing else, and keeps every object present. */
  lemma {:induction false} FlattenAllAt(m: Nodes, ks: seq<Id>, name: string)
    requires forall k :: k in ks ==> k in m
    ensures FlattenAll(m, ks, name).Keys == m.Keys
    ensures forall y :: y in m ==> FlattenAll(m, ks, name)[y] == if y in ks then Flattened(m[y], name) else m[y]
  {
    if ks != [] {
      FlattenAllAt(m, ks[..|ks| - 1], name);
      assert ks == ks[..|ks| - 1] + [ks[|ks| - 1]];
    }
  }

  lemma {:induction false} FlattenAllRanked(m: Nodes, rank: map<Id, nat>, ks: seq<Id>, name: string)
    requires Ranked(m, rank) && forall k :: k in ks ==> k in m
    ensures Ranked(FlattenAll(m, ks, name), rank) && Shrunk(m, FlattenAll(m, ks, name))
  {
    if ks != [] {
      var r0 := FlattenAll(m, ks[..|ks| - 1], name);
      FlattenAllRanked(m, rank, ks[..|ks| - 1], name);
      FlattenAllAt(m, ks[..|ks| - 1], name);
      RankedUpdate(r0, rank, ks[|ks| - 1], Flattened(m[ks[|ks| - 1]], name));
      ShrunkTrans(m, r0, FlattenAll(m, ks, name));
    }
  }

  /** The whole rule for drawable first parent `p`, on the pass state. */
  function DrawableEffect(w: World, p: Id): (r: World)
    requires p in w.nodes
    ensures r.nodes.Keys == w.nodes.Keys && r.removed == w.removed
  {
    var kids := ChildrenIn(w.nodes, w.order, p);
    FlattenAllAt(w.nodes, kids, w.nodes[p].name);
    World(FlattenAll(w.nodes, kids, w.nodes[p].name), w.order, w.removed, w.work + DrawableQueue(w.nodes, kids) + [p])
  }

  lemma DrawableEffectSound(w: World, rank: map<Id, nat>, p: Id)
    requires Sound(w, rank) && p in w.nodes
    ensures Sound(DrawableEffect(w, p), rank) && Shrunk(w.nodes, DrawableEffect(w, p).nodes)
  {
    var kids := ChildrenIn(w.nodes, w.order, p);
    FlattenAllRanked(w.nodes, rank, kids, w.nodes[p].name);
    FlattenAllAt(w.nodes, kids, w.nodes[p].name);
  }

  /** One loop turn: the queue and the flattened scene both grow by the next child. */
  lemma FlattenStep(m0: Nodes, ks: seq<Id>, i: int, name: string, work: seq<Id>, w: seq<Id>)
    requires 0 <= i < |ks| && forall k :: k in ks ==> k in m0
    requires w == work + DrawableQueue(m0, ks[..i])
    ensures FlattenAll(m0, ks[..i + 1], name) == FlattenAll(m0, ks[..i], name)[ks[i] := Flattened(m0[ks[i]], name)]
    ensures w + ChildQueue(m0[ks[i]], ks[i]) == work + DrawableQueue(m0, ks[..i + 1])
  {
    assert ks[..i + 1][..i] == ks[..i];
    assert DrawableQueue(m0, ks[..i + 1]) == DrawableQueue(m0, ks[..i]) + ChildQueue(m0[ks[i]], ks[i]);
  }

  /**
   * `process_drawable_objects(first_parent, objects_to_remove)` over the
   * snapshot `list(first_parent.children)`.
   */
  method ProcessDrawable(s: Scene, p: Id, work: seq<Id>) returns (work': seq<Id>)
    requires s.Valid() && p in s.nodes
    modifies s
    ensures s.Valid() && s.rank == old(s.rank) && s.order == old(s.order) && s.removals == old(s.removals)
    ensures s.nodes == FlattenAll(old(s.nodes), old(s.Children(p)), old(s.nodes)[p].name)
    ensures work' == work + DrawableQueue(old(s.nodes), old(s.Children(p))) + [p]
  {
    ghost var m0 := s.nodes;
    var kids := s.Children(p);
    NotOwnParent(s.nodes, s.rank, p);
    var name := s.nodes[p].name;
    work' := work;
    var i := 0;
    while i < |kids|
      invariant 0 <= i <= |kids|
      invariant s.Valid() && s.rank == old(s.rank) && s.order == old(s.order) && s.removals == old(s.removals)
      invariant s.nodes == FlattenAll(m0, kids[..i], name)
      invariant work' == work + DrawableQueue(m0, kids[..i])
    {
      var obj := kids[i];
      assert obj !in kids[..i];
      FlattenAllAt(m0, kids[..i], name);
      FlattenStep(m0, kids, i, name, work, work');
      work' := DrawableChild(s, obj, name, work');
      i := i + 1;
    }
    assert kids[..|kids|] == kids;
    work' := work' + [p];
  }
}
