/**
 * The scene forest as values: node records keyed by a stable id, the parent
 * relation, derived child lists and subtrees, and the facts about them that
 * the conversion pass relies on.
 */
module Forest {

  /** Stable identity of a scene object (names are not unique). */
  type Id = nat

  datatype Option<T> = None | Some(value: T)

  /**
   * A non-empty `sollum_type` value other than the four the add-on names. The
   * empty string is falsy in Python, and it is the `None` of `Node.tag`.
   */
  type OtherName = s: string | s != "" && s != "sollumz_drawable" && s != "sollumz_fragment" &&
    s != "sollumz_bound_box" && s != "sollumz_drawable_model" witness "sollumz_none"

  /**
   * The `sollum_type` tag of a tagged object: `sollumz_drawable`,
   * `sollumz_fragment`, `sollumz_bound_box`, `sollumz_drawable_model`, or
   * another value. Every `Tag` is truthy.
   */
  datatype Tag = Drawable | Fragment | BoundBox | DrawableModel | OtherTag(value: OtherName)

  /** The string `obj.sollum_type` holds for a tag. */
  function TagValue(t: Tag): (v: string)
    ensures v != ""
  {
    match t
    case Drawable => "sollumz_drawable"
    case Fragment => "sollumz_fragment"
    case BoundBox => "sollumz_bound_box"
    case DrawableModel => "sollumz_drawable_model"
    case OtherTag(s) => s
  }

  /**
   * Comparing `obj.sollum_type` with a tag string is comparing tags, and
   * `if obj.sollum_type` holds for every tag.
   */
  lemma TagValueInjective(t: Tag, u: Tag)
    ensures TagValue(t) == TagValue(u) <==> t == u
    ensures TagValue(t) != ""
  {
  }

  /**
   * One scene object. `marked` is set by `asset_mark`; `attachesAsset` is the
   * host's opaque answer to "is asset_data present after marking this object".
   */
  datatype Node = Node(name: string, tag: Option<Tag>, parent: Option<Id>, marked: bool, attachesAsset: bool)

  type Nodes = map<Id, Node>

  predicate NoDup<T(==)>(s: seq<T>)
  {
    forall i, j :: 0 <= i < j < |s| ==> s[i] != s[j]
  }

  /** The forest invariant: every parent is present and ranks strictly above its child. */
  ghost predicate Ranked(m: Nodes, rank: map<Id, nat>)
  {
    (forall x :: x in m ==> x in rank) &&
    (forall x {:trigger m[x]} :: x in m && m[x].parent.Some? ==>
       m[x].parent.value in m && m[x].parent.value in rank && x in rank && rank[m[x].parent.value] < rank[x])
  }

  /** `a` is `x` or an ancestor of `x`. */
  ghost predicate Reaches(m: Nodes, rank: map<Id, nat>, x: Id, a: Id)
    requires Ranked(m, rank)
    decreases if x in rank then rank[x] else 0
  {
    x in m && (x == a || (m[x].parent.Some? && Reaches(m, rank, m[x].parent.value, a)))
  }

  /** The present nodes of the subtree rooted at `a` (including `a`). */
  ghost function Subtree(m: Nodes, rank: map<Id, nat>, a: Id): set<Id>
    requires Ranked(m, rank)
  {
    set x | x in m && Reaches(m, rank, x, a)
  }

  /** A set that contains every present child of each of its members. */
  ghost predicate DownClosed(m: Nodes, d: set<Id>)
  {
    forall y {:trigger m[y]} :: y in m && m[y].parent.Some? && m[y].parent.value in d ==> y in d
  }

  /** `m1` arises from `m0` by dropping nodes and clearing parents, nothing else structural. */
  ghost predicate Shrunk(m0: Nodes, m1: Nodes)
  {
    forall y {:trigger m1[y]} :: y in m1 ==> y in m0 && (m1[y].parent == m0[y].parent || m1[y].parent.None?)
  }

  /** The ids of `s` not in `d`, in order. */
  function Without(s: seq<Id>, d: set<Id>): (r: seq<Id>)
    ensures forall y :: y in r <==> y in s && y !in d
    ensures NoDup(s) ==> NoDup(r)
  {
    if s == [] then []
    else (if s[0] in d then [] else [s[0]]) + Without(s[1..], d)
  }

  /** The present children of `x`, in the order of `s`. */
  function ChildrenIn(m: Nodes, s: seq<Id>, x: Id): (r: seq<Id>)
    ensures forall y :: y in r <==> y in s && y in m && m[y].parent == Some(x)
    ensures NoDup(s) ==> NoDup(r)
  {
    if s == [] then []
    else (if s[0] in m && m[s[0]].parent == Some(x) then [s[0]] else []) + ChildrenIn(m, s[1..], x)
  }

  /** The map after the host deletes the objects of `d`: they go, and their children become roots. */
  function Unlinked(m: Nodes, d: set<Id>): (r: Nodes)
    ensures r.Keys == m.Keys - d
    ensures forall y {:trigger r[y]} :: y in r ==> r[y] == (if m[y].parent.Some? && m[y].parent.value in d then m[y].(parent := None) else m[y])
  {
    map y | y in m && y !in d :: if m[y].parent.Some? && m[y].parent.value in d then m[y].(parent := None) else m[y]
  }

  // ----- Facts about Reaches -----

  lemma {:induction false} ReachesRank(m: Nodes, rank: map<Id, nat>, x: Id, a: Id)
    requires Ranked(m, rank) && Reaches(m, rank, x, a)
    ensures a in m && a in rank && x in rank && rank[a] <= rank[x]
    ensures x != a ==> rank[a] < rank[x]
    decreases rank[x]
  {
    if x != a {
      ReachesRank(m, rank, m[x].parent.value, a);
    }
  }

  lemma {:induction false} ReachesTrans(m: Nodes, rank: map<Id, nat>, x: Id, a: Id, b: Id)
    requires Ranked(m, rank) && Reaches(m, rank, x, a) && Reaches(m, rank, a, b)
    ensures Reaches(m, rank, x, b)
    decreases rank[x]
  {
    if x != a {
      ReachesTrans(m, rank, m[x].parent.value, a, b);
    }
  }

  /** The ancestors of a node form a chain. */
  lemma {:induction false} ReachesLinear(m: Nodes, rank: map<Id, nat>, y: Id, a: Id, b: Id)
    requires Ranked(m, rank) && Reaches(m, rank, y, a) && Reaches(m, rank, y, b)
    ensures Reaches(m, rank, a, b) || Reaches(m, rank, b, a)
    decreases rank[y]
  {
    if y != a && y != b {
      ReachesLinear(m, rank, m[y].parent.value, a, b);
    }
  }

  /** A proper descendant of `a` lies below one of `a`'s children. */
  lemma {:induction false} ReachesViaChild(m: Nodes, rank: map<Id, nat>, x: Id, a: Id) returns (c: Id)
    requires Ranked(m, rank) && Reaches(m, rank, x, a) && x != a
    ensures c in m && m[c].parent == Some(a) && Reaches(m, rank, x, c)
    decreases rank[x]
  {
    var p := m[x].parent.value;
    if p == a {
      c := x;
    } else {
      c := ReachesViaChild(m, rank, p, a);
      assert Reaches(m, rank, x, p);
      ReachesTrans(m, rank, x, p, c);
    }
  }

  /** Two different nodes with the same parent (or both roots) have disjoint subtrees. */
  lemma SiblingsDisjoint(m: Nodes, rank: map<Id, nat>, a: Id, b: Id)
    requires Ranked(m, rank) && a in m && b in m && a != b && m[a].parent == m[b].parent
    ensures Subtree(m, rank, a) !! Subtree(m, rank, b)
  {
    forall y | y in Subtree(m, rank, a) && y in Subtree(m, rank, b)
      ensures false
    {
      ReachesLinear(m, rank, y, a, b);
      if Reaches(m, rank, a, b) {
        BelowSibling(m, rank, a, b);
      } else {
        BelowSibling(m, rank, b, a);
      }
    }
  }

  lemma BelowSibling(m: Nodes, rank: map<Id, nat>, a: Id, b: Id)
    requires Ranked(m, rank) && a in m && b in m && a != b && m[a].parent == m[b].parent
    ensures !Reaches(m, rank, a, b)
  {
    if Reaches(m, rank, a, b) {
      var p := m[a].parent.value;
      ReachesRank(m, rank, p, b);
    }
  }

  lemma SubtreeDownClosed(m: Nodes, rank: map<Id, nat>, a: Id)
    requires Ranked(m, rank)
    ensures DownClosed(m, Subtree(m, rank, a))
  {
  }

  lemma SubtreeNested(m: Nodes, rank: map<Id, nat>, c: Id, a: Id)
    requires Ranked(m, rank) && Reaches(m, rank, c, a)
    ensures Subtree(m, rank, c) <= Subtree(m, rank, a)
  {
    forall y | y in Subtree(m, rank, c) ensures y in Subtree(m, rank, a) {
      ReachesTrans(m, rank, y, c, a);
    }
  }

  /** A down-closed set holding `a` holds all of `a`'s subtree. */
  lemma {:induction false} DownClosedReaches(m: Nodes, rank: map<Id, nat>, d: set<Id>, x: Id, a: Id)
    requires Ranked(m, rank) && DownClosed(m, d) && a in d && Reaches(m, rank, x, a)
    ensures x in d
    decreases rank[x]
  {
    if x != a {
      DownClosedReaches(m, rank, d, m[x].parent.value, a);
    }
  }

  lemma DownClosedSubtree(m: Nodes, rank: map<Id, nat>, d: set<Id>, a: Id)
    requires Ranked(m, rank) && DownClosed(m, d) && a in d
    ensures Subtree(m, rank, a) <= d
  {
    forall x | x in Subtree(m, rank, a) ensures x in d {
      DownClosedReaches(m, rank, d, x, a);
    }
  }

  // ----- Frame facts: how subtrees behave when the forest shrinks -----

  lemma {:induction false} ReachesShrunk(m0: Nodes, m1: Nodes, rank: map<Id, nat>, x: Id, a: Id)
    requires Ranked(m0, rank) && Ranked(m1, rank) && Shrunk(m0, m1)
    requires Reaches(m1, rank, x, a)
    ensures Reaches(m0, rank, x, a)
    decreases rank[x]
  {
    if x != a {
      ReachesShrunk(m0, m1, rank, m1[x].parent.value, a);
    }
  }

  /** Shrinking a forest can only shrink a subtree. */
  lemma SubtreeShrunk(m0: Nodes, m1: Nodes, rank: map<Id, nat>, a: Id)
    requires Ranked(m0, rank) && Ranked(m1, rank) && Shrunk(m0, m1)
    ensures Subtree(m1, rank, a) <= Subtree(m0, rank, a)
  {
    forall x | x in Subtree(m1, rank, a) ensures x in Subtree(m0, rank, a) {
      ReachesShrunk(m0, m1, rank, x, a);
    }
  }

  lemma {:induction false} ReachesKept(m0: Nodes, m1: Nodes, rank: map<Id, nat>, x: Id, a: Id)
    requires Ranked(m0, rank) && Ranked(m1, rank) && Reaches(m0, rank, x, a)
    requires forall y :: y in Subtree(m0, rank, a) ==> y in m1 && m1[y].parent == m0[y].parent
    ensures Reaches(m1, rank, x, a)
    decreases rank[x]
  {
    if x != a {
      var p := m0[x].parent.value;
      assert x in Subtree(m0, rank, a);
      ReachesKept(m0, m1, rank, p, a);
    }
  }

  /** A subtree whose nodes keep their parents is the same subtree afterwards. */
  lemma SubtreeKept(m0: Nodes, m1: Nodes, rank: map<Id, nat>, a: Id)
    requires Ranked(m0, rank) && Ranked(m1, rank) && Shrunk(m0, m1)
    requires forall y :: y in Subtree(m0, rank, a) ==> y in m1 && m1[y].parent == m0[y].parent
    ensures Subtree(m1, rank, a) == Subtree(m0, rank, a)
  {
    SubtreeShrunk(m0, m1, rank, a);
    forall x | x in Subtree(m0, rank, a) ensures x in Subtree(m1, rank, a) {
      ReachesKept(m0, m1, rank, x, a);
    }
  }

  /** Removing a down-closed set leaves the other nodes' ancestry unchanged. */
  lemma {:induction false} ReachesMinusDown(m: Nodes, rank: map<Id, nat>, d: set<Id>, x: Id, a: Id)
    requires Ranked(m, rank) && Ranked(m - d, rank) && DownClosed(m, d) && x in m && x !in d
    ensures Reaches(m - d, rank, x, a) <==> Reaches(m, rank, x, a)
    decreases rank[x]
  {
    if x != a && m[x].parent.Some? {
      ReachesMinusDown(m, rank, d, m[x].parent.value, a);
    }
  }

  lemma SubtreeMinusDown(m: Nodes, rank: map<Id, nat>, d: set<Id>, a: Id)
    requires Ranked(m, rank) && DownClosed(m, d)
    ensures Ranked(m - d, rank)
    ensures Subtree(m - d, rank, a) == Subtree(m, rank, a) - d
  {
    forall x | x in m - d ensures Reaches(m - d, rank, x, a) <==> Reaches(m, rank, x, a) {
      ReachesMinusDown(m, rank, d, x, a);
    }
  }

  lemma UnlinkedRanked(m: Nodes, rank: map<Id, nat>, d: set<Id>)
    requires Ranked(m, rank)
    ensures Ranked(Unlinked(m, d), rank)
    ensures Shrunk(m, Unlinked(m, d))
  {
  }

  /** Replacing one record by one with no parent or the same parent keeps the forest. */
  lemma RankedUpdate(m: Nodes, rank: map<Id, nat>, x: Id, n: Node)
    requires Ranked(m, rank) && x in m && (n.parent.None? || n.parent == m[x].parent)
    ensures Ranked(m[x := n], rank) && Shrunk(m, m[x := n])
  {
  }

  lemma ShrunkTrans(m0: Nodes, m1: Nodes, m2: Nodes)
    requires Shrunk(m0, m1) && Shrunk(m1, m2)
    ensures Shrunk(m0, m2)
  {
  }

  /** The children of `x` do not change when the only changes are away from them. */
  lemma {:induction false} ChildrenAfter(m0: Nodes, m1: Nodes, s: seq<Id>, g: set<Id>, x: Id)
    requires forall y :: y in s && y !in g ==> ((y in m1 && m1[y].parent == Some(x)) <==> (y in m0 && m0[y].parent == Some(x)))
    requires forall y :: y in s && y in g ==> !(y in m0 && m0[y].parent == Some(x))
    ensures ChildrenIn(m1, Without(s, g), x) == ChildrenIn(m0, s, x)
  {
    if s != [] {
      ChildrenAfter(m0, m1, s[1..], g, x);
      if s[0] in g {
        assert Without(s, g) == Without(s[1..], g);
      } else {
        assert Without(s, g) == [s[0]] + Without(s[1..], g);
        assert Without(s, g)[1..] == Without(s[1..], g);
      }
    }
  }

  // ----- The state of one conversion pass, as a value -----

  /**
   * The scene (objects and enumeration order) together with the pass-local
   * `removed_objects` set and `objects_to_remove` list.
   */
  datatype World = World(nodes: Nodes, order: seq<Id>, removed: set<Id>, work: seq<Id>)

  /** The removed set never names an object still in the scene. */
  ghost predicate Sound(w: World, rank: map<Id, nat>)
  {
    Ranked(w.nodes, rank) && w.removed !! w.nodes.Keys
  }

  /** `remove_object_and_children(x, removed)` on a value: the subtree of `x` leaves the scene for the removed set. */
  ghost function RemovedSubtree(w: World, rank: map<Id, nat>, x: Id): (r: World)
    requires Sound(w, rank)
    ensures Sound(r, rank) && Shrunk(w.nodes, r.nodes)
  {
    var d := Subtree(w.nodes, rank, x);
    SubtreeDownClosed(w.nodes, rank, x);
    SubtreeMinusDown(w.nodes, rank, d, x);
    World(w.nodes - d, Without(w.order, d), w.removed + d, w.work)
  }
}
