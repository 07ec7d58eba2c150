/**
 * The classifier of `cuco_convert_to_asset`: the scan that collects potential
 * parents (tagged objects with children) and the comprehension that keeps the
 * ones at the scene root, in scene order.
 */
module Classify {
  import opened Forest
  import opened SceneGraph

  /** `obj.sollum_type and len(obj.children) > 0`, with child lists taken from order `o`. */
  predicate Potential(m: Nodes, o: seq<Id>, x: Id)
  {
    x in m && m[x].tag.Some? && |ChildrenIn(m, o, x)| > 0
  }

  /** The ids of `s` that are potential parents, in the order of `s`. */
  function Potentials(m: Nodes, o: seq<Id>, s: seq<Id>): (r: seq<Id>)
    ensures forall x :: x in r <==> x in s && Potential(m, o, x)
  {
    if s == [] then []
    else Potentials(m, o, s[..|s| - 1]) + (if Potential(m, o, s[|s| - 1]) then [s[|s| - 1]] else [])
  }

  /** `[obj for obj in pp if obj.parent is None]`. */
  function Roots(m: Nodes, pp: seq<Id>): (r: seq<Id>)
    requires forall x :: x in pp ==> x in m
    ensures forall x :: x in r <==> x in pp && m[x].parent.None?
  {
    if pp == [] then []
    else Roots(m, pp[..|pp| - 1]) + (if m[pp[|pp| - 1]].parent.None? then [pp[|pp| - 1]] else [])
  }

  /** A first parent: a tagged object with at least one child and no parent. */
  predicate IsFirstParent(m: Nodes, o: seq<Id>, x: Id)
  {
    x in m && m[x].tag.Some? && m[x].parent.None? && |ChildrenIn(m, o, x)| > 0
  }

  /** Reference definition: the first parents among `s`, in the order of `s`. */
  function FirstParentsIn(m: Nodes, o: seq<Id>, s: seq<Id>): seq<Id>
  {
    if s == [] then []
    else FirstParentsIn(m, o, s[..|s| - 1]) + (if IsFirstParent(m, o, s[|s| - 1]) then [s[|s| - 1]] else [])
  }

  /** The scan followed by the comprehension is the single filter by `IsFirstParent`. */
  lemma {:induction false} RootsOfPotentials(m: Nodes, o: seq<Id>, s: seq<Id>)
    ensures Roots(m, Potentials(m, o, s)) == FirstParentsIn(m, o, s)
  {
    if s != [] {
      var init, x := s[..|s| - 1], s[|s| - 1];
      RootsOfPotentials(m, o, init);
      var pp := Potentials(m, o, init);
      if Potential(m, o, x) {
        assert Potentials(m, o, s) == pp + [x];
        assert (pp + [x])[..|pp + [x]| - 1] == pp;
      } else {
        assert Potentials(m, o, s) == pp;
      }
    }
  }

  /** Membership in the filter is exactly the first-parent test. */
  lemma {:induction false} FirstParentsInMembers(m: Nodes, o: seq<Id>, s: seq<Id>)
    ensures forall x :: x in FirstParentsIn(m, o, s) <==> x in s && IsFirstParent(m, o, x)
  {
    if s != [] {
      FirstParentsInMembers(m, o, s[..|s| - 1]);
      assert s == s[..|s| - 1] + [s[|s| - 1]];
    }
  }

  /** The filter never lists an object twice when `s` does not. */
  lemma {:induction false} FirstParentsInNoDup(m: Nodes, o: seq<Id>, s: seq<Id>)
    requires NoDup(s)
    ensures NoDup(FirstParentsIn(m, o, s))
  {
    if s != [] {
      var init := s[..|s| - 1];
      assert NoDup(init) by {
        forall i, j | 0 <= i < j < |init| ensures init[i] != init[j] {
          assert init[i] == s[i] && init[j] == s[j];
        }
      }
      FirstParentsInNoDup(m, o, init);
      FirstParentsInMembers(m, o, init);
      assert s[|s| - 1] !in init by {
        forall k | 0 <= k < |init| ensures init[k] != s[|s| - 1] {
          assert init[k] == s[k];
        }
      }
    }
  }

  /** Having a child in the scene order is having a present object whose parent is `x`. */
  lemma HasChild(m: Nodes, o: seq<Id>, x: Id)
    requires forall y :: y in m ==> y in o
    ensures |ChildrenIn(m, o, x)| > 0 <==> exists y :: y in m && m[y].parent == Some(x)
  {
    var r := ChildrenIn(m, o, x);
    if |r| > 0 {
      assert r[0] in r;
    }
    if y :| y in m && m[y].parent == Some(x) {
      assert y in r;
    }
  }

  /**
   * The first parents of the scene (init.py, `potential_parents` and
   * `first_parents`): exactly the tagged, childful root objects, in scene order.
   */
  method FirstParents(s: Scene) returns (fp: seq<Id>)
    requires s.Valid()
    ensures fp == FirstParentsIn(s.nodes, s.order, s.order)
    ensures NoDup(fp)
    ensures forall x :: x in fp <==>
      x in s.nodes && s.nodes[x].tag.Some? && s.nodes[x].parent.None? &&
      exists y :: y in s.nodes && s.nodes[y].parent == Some(x)
  {
    var objects := s.order;
    var pp: seq<Id> := [];
    for i := 0 to |objects|
      invariant pp == Potentials(s.nodes, s.order, objects[..i])
    {
      var obj := objects[i];
      assert objects[..i + 1][..i] == objects[..i];
      if s.nodes[obj].tag.Some? && |s.Children(obj)| > 0 {
        pp := pp + [obj];
      }
    }
    assert objects[..|objects|] == objects;
    fp := Roots(s.nodes, pp);
    RootsOfPotentials(s.nodes, s.order, s.order);
    FirstParentsInMembers(s.nodes, s.order, s.order);
    FirstParentsInNoDup(s.nodes, s.order, s.order);
    forall x | x in s.nodes {
      HasChild(s.nodes, s.order, x);
    }
  }
}
