/**
 * The three loops of `cuco_convert_to_asset`: dispatch each first parent to
 * its rule, drain the removal list, and (`cuco_asset_remove_suffix`) strip
 * the numeric suffix from every name. A Python exception that escapes to the
 * outer handler ends the pass early; the flag `ok` reports whether the loop
 * ran to the end.
 */
module Conversion {
  import opened Forest
  import opened Names
  import opened SceneGraph
  import opened Classify
  import opened DrawableRule
  import opened FragmentRule

  // ----- dispatch (init.py:56-61) -----

  /**
   * One first parent: a drawable or a fragment goes to its rule, any other
   * tag is skipped; reading the tag of an object no longer in the scene raises
   * outside every per-object handler, so the pass stops (`false`).
   */
  ghost function RuleEffect(w: World, rank: map<Id, nat>, q: Id): (r: (World, bool))
    requires Sound(w, rank)
    ensures Sound(r.0, rank) && Shrunk(w.nodes, r.0.nodes)
  {
    if q !in w.nodes then (w, false)
    else if w.nodes[q].tag == Some(Drawable) then
      DrawableEffectSound(w, rank, q);
      (DrawableEffect(w, q), true)
    else if w.nodes[q].tag == Some(Fragment) then (FragmentEffect(w, rank, q), true)
    else (w, true)
  }

  /** The first `n` first parents of `qs` in order, up to the first that stops the pass. */
  ghost function Dispatched(w: World, rank: map<Id, nat>, qs: seq<Id>, n: nat): (r: (World, bool))
    requires Sound(w, rank) && n <= |qs|
    ensures Sound(r.0, rank) && Shrunk(w.nodes, r.0.nodes)
  {
    if n == 0 then (w, true)
    else
      var r0 := Dispatched(w, rank, qs, n - 1);
      if !r0.1 then r0
      else
        var r := RuleEffect(r0.0, rank, qs[n - 1]);
        ShrunkTrans(w.nodes, r0.0.nodes, r.0.nodes);
        r
  }

  /** Once the pass has stopped, the remaining items change nothing. */
  lemma {:induction false} DispatchedStopped(w: World, rank: map<Id, nat>, qs: seq<Id>, i: nat)
    requires Sound(w, rank) && i <= |qs| && !Dispatched(w, rank, qs, i).1
    ensures Dispatched(w, rank, qs, |qs|) == Dispatched(w, rank, qs, i)
    decreases |qs| - i
  {
    if i < |qs| {
      DispatchedStopped(w, rank, qs, i + 1);
    }
  }

  /** One more first parent, while the pass is still going. */
  lemma DispatchedNext(w: World, rank: map<Id, nat>, qs: seq<Id>, n: nat)
    requires Sound(w, rank) && n < |qs| && Dispatched(w, rank, qs, n).1
    ensures Dispatched(w, rank, qs, n + 1) == RuleEffect(Dispatched(w, rank, qs, n).0, rank, qs[n])
  {
  }

  /** One turn of the dispatch loop: the rule for the tag of `q`, or nothing. */
  method DispatchOne(s: Scene, q: Id, work: seq<Id>, removed: set<Id>) returns (work': seq<Id>, removed': set<Id>, ok: bool)
    requires s.Valid() && Sound(World(s.nodes, s.order, removed, work), s.rank)
    modifies s
    ensures s.Valid() && s.rank == old(s.rank)
    ensures (World(s.nodes, s.order, removed', work'), ok) == RuleEffect(World(old(s.nodes), old(s.order), removed, work), s.rank, q)
  {
    work', removed', ok := work, removed, true;
    if q !in s.nodes {
      ok := false;
    } else if s.nodes[q].tag == Some(Drawable) {
      work' := ProcessDrawable(s, q, work);
    } else if s.nodes[q].tag == Some(Fragment) {
      work', removed' := ProcessFragment(s, q, work, removed);
    }
  }

  /** The dispatch loop of `cuco_convert_to_asset` over `first_parents`. */
  method Dispatch(s: Scene, fps: seq<Id>) returns (work: seq<Id>, removed: set<Id>, ok: bool)
    requires s.Valid()
    modifies s
    ensures s.Valid() && s.rank == old(s.rank)
    ensures (World(s.nodes, s.order, removed, work), ok) == Dispatched(World(old(s.nodes), old(s.order), {}, []), s.rank, fps, |fps|)
  {
    ghost var w0 := World(s.nodes, s.order, {}, []);
    work, removed, ok := [], {}, true;
    var i := 0;
    while i < |fps| && ok
      invariant 0 <= i <= |fps|
      invariant s.Valid() && s.rank == old(s.rank)
      invariant (World(s.nodes, s.order, removed, work), ok) == Dispatched(w0, s.rank, fps, i)
    {
      DispatchedNext(w0, s.rank, fps, i);
      work, removed, ok := DispatchOne(s, fps[i], work, removed);
      i := i + 1;
    }
    if i < |fps| {
      DispatchedStopped(w0, s.rank, fps, i);
    }
  }

  // ----- the removal list (init.py:63-65) -----

  /**
   * The entries `es` in order: an entry already removed is skipped, a present
   * one loses its subtree, and one that left the scene some other way (a join)
   * makes `obj.children` raise, which stops the pass.
   */
  ghost function Drained(w: World, rank: map<Id, nat>, es: seq<Id>, n: nat): (r: (World, bool))
    requires Sound(w, rank) && n <= |es|
    ensures Sound(r.0, rank) && Shrunk(w.nodes, r.0.nodes)
  {
    if n == 0 then (w, true)
    else
      var r0 := Drained(w, rank, es, n - 1);
      var e := es[n - 1];
      if !r0.1 || e in r0.0.removed then r0
      else if e !in r0.0.nodes then (r0.0, false)
      else
        var r := RemovedSubtree(r0.0, rank, e);
        ShrunkTrans(w.nodes, r0.0.nodes, r.nodes);
        (r, true)
  }

  lemma {:induction false} DrainedStopped(w: World, rank: map<Id, nat>, es: seq<Id>, i: nat)
    requires Sound(w, rank) && i <= |es| && !Drained(w, rank, es, i).1
    ensures Drained(w, rank, es, |es|) == Drained(w, rank, es, i)
    decreases |es| - i
  {
    if i < |es| {
      DrainedStopped(w, rank, es, i + 1);
    }
  }

  /** `for obj in objects_to_remove: if obj not in removed_objects: remove_object_and_children(...)`. */
  method Drain(s: Scene, work: seq<Id>, removed: set<Id>) returns (removed': set<Id>, ok: bool)
    requires s.Valid() && removed !! s.nodes.Keys
    modifies s
    ensures s.Valid() && s.rank == old(s.rank)
    ensures (World(s.nodes, s.order, removed', work), ok) == Drained(World(old(s.nodes), old(s.order), removed, work), s.rank, work, |work|)
  {
    ghost var w0 := World(s.nodes, s.order, removed, work);
    removed', ok := removed, true;
    var i := 0;
    while i < |work| && ok
      invariant 0 <= i <= |work|
      invariant s.Valid() && s.rank == old(s.rank)
      invariant (World(s.nodes, s.order, removed', work), ok) == Drained(w0, s.rank, work, i)
    {
      var obj := work[i];
      if obj !in removed' {
        if obj !in s.nodes {
          ok := false;
        } else {
          removed' := s.RemoveSubtree(obj, removed');
        }
      }
      i := i + 1;
    }
    if i < |work| {
      DrainedStopped(w0, s.rank, work, i);
    }
  }

  // ----- suffix normalisation (init.py:74-82) -----

  /** Every object of `xs` with its name passed through `re.sub(r"\.\d+$", "", name)`. */
  function Normalized(m: Nodes, xs: seq<Id>): (r: Nodes)
    requires forall x :: x in xs ==> x in m
    ensures r.Keys == m.Keys
  {
    if xs == [] then m
    else
      var x := xs[|xs| - 1];
      Normalized(m, xs[..|xs| - 1])[x := m[x].(name := StripSuffix(m[x].name))]
  }

  /** Normalisation renames the listed objects and nothing else; no object appears or leaves. */
  lemma {:induction false} NormalizedAt(m: Nodes, xs: seq<Id>)
    requires forall x :: x in xs ==> x in m
    ensures forall y :: y in m ==>
      Normalized(m, xs)[y] == if y in xs then m[y].(name := StripSuffix(m[y].name)) else m[y]
  {
    if xs != [] {
      NormalizedAt(m, xs[..|xs| - 1]);
      assert xs == xs[..|xs| - 1] + [xs[|xs| - 1]];
    }
  }

  lemma NormalizedStep(m: Nodes, xs: seq<Id>, i: int)
    requires 0 <= i < |xs| && NoDup(xs) && forall x :: x in xs ==> x in m
    ensures Normalized(m, xs[..i])[xs[i]] == m[xs[i]]
    ensures Normalized(m, xs[..i + 1]) ==
      Normalized(m, xs[..i])[xs[i] := Normalized(m, xs[..i])[xs[i]].(name := StripSuffix(Normalized(m, xs[..i])[xs[i]].name))]
    ensures xs[..i + 1] == xs[..i] + [xs[i]]
  {
    assert xs[..i + 1][..i] == xs[..i];
    NormalizedAt(m, xs[..i]);
    assert xs[i] !in xs[..i];
  }

  /** The loop body: the rename happens only when the stripped name differs. */
  method NormalizeOne(s: Scene, obj: Id) returns (ghost changed: bool)
    requires s.Valid() && obj in s.nodes
    modifies s
    ensures s.Valid() && s.rank == old(s.rank) && s.order == old(s.order) && s.removals == old(s.removals)
    ensures s.nodes == old(s.nodes)[obj := old(s.nodes)[obj].(name := StripSuffix(old(s.nodes)[obj].name))]
    ensures changed <==> StripSuffix(old(s.nodes)[obj].name) != old(s.nodes)[obj].name
  {
    var newName := StripSuffix(s.nodes[obj].name);
    changed := newName != s.nodes[obj].name;
    if newName != s.nodes[obj].name {
      s.Rename(obj, newName);
    } else {
      assert s.nodes[obj].(name := newName) == s.nodes[obj];
    }
  }

  /** `cuco_asset_remove_suffix()`: every object of the scene, in scene order. */
  method RemoveSuffixes(s: Scene) returns (ghost renamed: seq<Id>)
    requires s.Valid()
    modifies s
    ensures s.Valid() && s.rank == old(s.rank) && s.order == old(s.order) && s.removals == old(s.removals)
    ensures s.nodes == Normalized(old(s.nodes), old(s.order))
    ensures forall x :: x in renamed <==> x in old(s.nodes) && StripSuffix(old(s.nodes)[x].name) != old(s.nodes)[x].name
  {
    ghost var m0 := s.nodes;
    var objects := s.order;
    renamed := [];
    for i := 0 to |objects|
      invariant s.Valid() && s.rank == old(s.rank) && s.order == old(s.order) && s.removals == old(s.removals)
      invariant s.nodes == Normalized(m0, objects[..i])
      invariant forall x :: x in renamed <==> x in objects[..i] && StripSuffix(m0[x].name) != m0[x].name
    {
      var obj := objects[i];
      NormalizedStep(m0, objects, i);
      var changed := NormalizeOne(s, obj);
      if changed {
        renamed := renamed + [obj];
      }
    }
    assert objects[..|objects|] == objects;
  }
}
