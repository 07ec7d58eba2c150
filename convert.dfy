/**
 * `cuco_convert_to_asset()` as a whole: classify, dispatch, drain, normalise
 * names. On every scene the pass runs to the end.
 */
module Pass {
  import opened Forest
  import opened SceneGraph
  import opened Classify
  import opened Conversion
  import opened Regions
  import opened PassFacts

  /** The pass state after the dispatch loop, and whether that loop ran to the end. */
  ghost function DispatchedScene(m: Nodes, o: seq<Id>, rank: map<Id, nat>): (r: (World, bool))
    requires Ranked(m, rank)
    ensures Sound(r.0, rank) && Shrunk(m, r.0.nodes)
  {
    var fps := FirstParentsIn(m, o, o);
    Dispatched(Start(m, o), rank, fps, |fps|)
  }

  /** The final scene of the pass from objects `m` in order `o`, and whether it ran to the end. */
  ghost function Converted(m: Nodes, o: seq<Id>, rank: map<Id, nat>): (r: (Nodes, bool))
    requires Ranked(m, rank)
    ensures r.0.Keys <= m.Keys
  {
    var d := DispatchedScene(m, o, rank);
    if !d.1 then (d.0.nodes, false)
    else
      var e := Drained(d.0, rank, d.0.work, |d.0.work|);
      if !e.1 then (e.0.nodes, false)
      else if forall x :: x in e.0.order ==> x in e.0.nodes then (Normalized(e.0.nodes, e.0.order), true)
      else (e.0.nodes, false)
  }

  /**
   * The dispatch loop on a well-formed scene runs to the end, keeps every
   * queued object in the scene or the removed set, and keeps the scene order
   * listing exactly the objects present.
   */
  lemma DispatchCompletes(m: Nodes, o: seq<Id>, rank: map<Id, nat>)
    requires Ranked(m, rank) && NoDup(o) && forall x :: x in o <==> x in m
    ensures var d := DispatchedScene(m, o, rank);
      d.1 && Tracked(d.0) && d.0.nodes.Keys <= m.Keys && forall x :: x in d.0.order <==> x in d.0.nodes
  {
    var fps := FirstParentsIn(m, o, o);
    FirstParentsInMembers(m, o, o);
    FirstParentsInNoDup(m, o, o);
    DispatchSafe(m, o, rank, fps, |fps|);
  }

  /** The final scene: the scene after dispatch minus the subtrees of every queued object, every name normalised. */
  lemma PassResult(m: Nodes, o: seq<Id>, rank: map<Id, nat>)
    requires Ranked(m, rank) && NoDup(o) && forall x :: x in o <==> x in m
    ensures var d := DispatchedScene(m, o, rank).0;
      var q := QueuedSubtrees(d, rank, d.work, |d.work|);
      (forall x :: x in Without(d.order, q) ==> x in d.nodes - q) &&
      Converted(m, o, rank) == (Normalized(d.nodes - q, Without(d.order, q)), true)
  {
    DispatchCompletes(m, o, rank);
    var d := DispatchedScene(m, o, rank).0;
    DrainExact(d, rank, d.work, |d.work|);
  }

  /** On a well-formed scene the pass never stops early. */
  lemma PassCompletes(m: Nodes, o: seq<Id>, rank: map<Id, nat>)
    requires Ranked(m, rank) && NoDup(o) && forall x :: x in o <==> x in m
    ensures Converted(m, o, rank).1
  {
    PassResult(m, o, rank);
  }

  /** `cuco_convert_to_asset()`. */
  method Convert(s: Scene) returns (ok: bool)
    requires s.Valid()
    modifies s
    ensures s.Valid() && s.rank == old(s.rank)
    ensures (s.nodes, ok) == Converted(old(s.nodes), old(s.order), s.rank)
    ensures ok
  {
    ghost var m0, o0 := s.nodes, s.order;
    PassCompletes(m0, o0, s.rank);
    var fps := FirstParents(s);
    assert fps == FirstParentsIn(m0, o0, o0);
    var work, removed;
    work, removed, ok := Dispatch(s, fps);
    if !ok {
      return;
    }
    removed, ok := Drain(s, work, removed);
    if !ok {
      return;
    }
    ghost var renamed := RemoveSuffixes(s);
  }
}
