/** The conversation tree: nodes, each below one parent, and what a path and a walk find in it (core/tree.go). */
module Trees {
  import opened Wrappers
  import opened Nodes

  /** Every node joined after its parent; None is the root sentinel. */
  predicate Grown(parents: seq<Option<Ref>>) {
    forall r :: 0 <= r < |parents| && parents[r].Some? ==> parents[r].value < r
  }

  predicate Within(leaf: Option<Ref>, n: nat) {
    leaf.Some? ==> leaf.value < n
  }

  /** The refs from the first below the root down to leaf; none for None. */
  function PathRefs(parents: seq<Option<Ref>>, leaf: Option<Ref>): seq<Ref>
    requires Grown(parents) && Within(leaf, |parents|)
    decreases if leaf.Some? then leaf.value + 1 else 0
  {
    if leaf.None? then [] else PathRefs(parents, parents[leaf.value]) + [leaf.value]
  }

  function Before(p: seq<Ref>, i: nat): Option<Ref>
    requires i < |p|
  {
    if i == 0 then None else Some(p[i - 1])
  }

  /** What a path is: it starts under the root, each node is the parent of the next, and it ends at leaf. */
  predicate IsPath(parents: seq<Option<Ref>>, p: seq<Ref>, leaf: Option<Ref>) {
    && (forall i :: 0 <= i < |p| ==> p[i] < |parents|)
    && (forall i :: 0 <= i < |p| ==> parents[p[i]] == Before(p, i))
    && leaf == if p == [] then None else Some(p[|p| - 1])
  }

  lemma PathSnoc(parents: seq<Option<Ref>>, p: seq<Ref>, r: Ref)
    requires r < |parents|
    ensures IsPath(parents, p + [r], Some(r)) <==> IsPath(parents, p, parents[r])
  {
    var whole := p + [r];
    assert forall i :: 0 <= i < |p| ==> whole[i] == p[i] && Before(whole, i) == Before(p, i);
    assert whole[|p|] == r;
  }

  lemma {:induction false} PathRefsIsPath(parents: seq<Option<Ref>>, leaf: Option<Ref>)
    requires Grown(parents) && Within(leaf, |parents|)
    ensures IsPath(parents, PathRefs(parents, leaf), leaf)
    decreases if leaf.Some? then leaf.value + 1 else 0
  {
    if leaf.Some? {
      hide IsPath;
      PathRefsIsPath(parents, parents[leaf.value]);
      PathSnoc(parents, PathRefs(parents, parents[leaf.value]), leaf.value);
    }
  }

  lemma {:induction false} PathIsRefs(parents: seq<Option<Ref>>, p: seq<Ref>, leaf: Option<Ref>)
    requires Grown(parents) && Within(leaf, |parents|) && IsPath(parents, p, leaf)
    ensures p == PathRefs(parents, leaf)
    decreases if leaf.Some? then leaf.value + 1 else 0
  {
    if leaf.Some? {
      hide IsPath;
      PathEnds(parents, p, leaf);
      var init := p[..|p| - 1];
      assert p == init + [leaf.value];
      PathSnoc(parents, init, leaf.value);
      PathIsRefs(parents, init, parents[leaf.value]);
    }
  }

  /** There is one path to each node, and it is this one. */
  lemma PathIsUnique(parents: seq<Option<Ref>>, p: seq<Ref>, leaf: Option<Ref>)
    requires Grown(parents) && Within(leaf, |parents|)
    ensures IsPath(parents, p, leaf) <==> p == PathRefs(parents, leaf)
  {
    hide *;
    PathRefsIsPath(parents, leaf);
    if IsPath(parents, p, leaf) {
      PathIsRefs(parents, p, leaf);
    }
  }

  lemma PathEnds(parents: seq<Option<Ref>>, p: seq<Ref>, leaf: Option<Ref>)
    requires IsPath(parents, p, leaf) && leaf.Some?
    ensures p != [] && p[|p| - 1] == leaf.value
  {
  }

  lemma {:induction false} PathRefsGrow(parents: seq<Option<Ref>>, parents': seq<Option<Ref>>, leaf: Option<Ref>)
    requires Grown(parents) && Grown(parents') && parents <= parents' && Within(leaf, |parents|)
    ensures PathRefs(parents', leaf) == PathRefs(parents, leaf)
    decreases if leaf.Some? then leaf.value + 1 else 0
  {
    if leaf.Some? {
      PathRefsGrow(parents, parents', parents[leaf.value]);
    }
  }

  predicate Increasing(p: seq<Ref>, bound: nat) {
    && (forall i :: 0 <= i < |p| ==> p[i] < bound)
    && (forall i, j :: 0 <= i < j < |p| ==> p[i] < p[j])
  }

  lemma {:induction false} PathIncreases(parents: seq<Option<Ref>>, leaf: Option<Ref>)
    requires Grown(parents) && Within(leaf, |parents|)
    ensures Increasing(PathRefs(parents, leaf), if leaf.Some? then leaf.value + 1 else 0)
    decreases if leaf.Some? then leaf.value + 1 else 0
  {
    if leaf.Some? {
      PathIncreases(parents, parents[leaf.value]);
    }
  }

  function Reversed(s: seq<Ref>): (r: seq<Ref>)
    ensures |r| == |s|
    ensures forall i :: 0 <= i < |s| ==> r[i] == s[|s| - 1 - i]
  {
    if s == [] then [] else [s[|s| - 1]] + Reversed(s[..|s| - 1])
  }

  // --- the whole tree, depth first

  /** Slot 0 holds the root's children and slot r + 1 those of node r; a child joined after its parent. */
  predicate Kids(children: seq<seq<Ref>>) {
    forall p, i :: 0 <= p < |children| && 0 <= i < |children[p]| ==> p <= children[p][i] < |children| - 1
  }

  /** The first n children under slot p, each followed by its own subtree. */
  function Walk(children: seq<seq<Ref>>, p: nat, n: nat): seq<Ref>
    requires Kids(children) && p < |children| && n <= |children[p]|
    decreases |children| - p, n
  {
    if n == 0 then []
    else
      var k := children[p][n - 1];
      Walk(children, p, n - 1) + [k] + Walk(children, k + 1, |children[k + 1]|)
  }

  lemma {:induction false} WalkHasChildren(children: seq<seq<Ref>>, p: nat, n: nat, i: nat)
    requires Kids(children) && p < |children| && i < n <= |children[p]|
    ensures children[p][i] in Walk(children, p, n)
    decreases n
  {
    if i < n - 1 {
      WalkHasChildren(children, p, n - 1, i);
    }
  }

  lemma {:induction false} WalkHasSubtree(children: seq<seq<Ref>>, p: nat, n: nat, q: Ref, x: Ref)
    requires Kids(children) && p < |children| && n <= |children[p]| && q < |children| - 1
    requires q in Walk(children, p, n) && x in Walk(children, q + 1, |children[q + 1]|)
    ensures x in Walk(children, p, n)
    decreases |children| - p, n
  {
    var k := children[p][n - 1];
    if q in Walk(children, p, n - 1) {
      WalkHasSubtree(children, p, n - 1, q, x);
    } else if q != k {
      WalkHasSubtree(children, k + 1, |children[k + 1]|, q, x);
    }
  }

  function Slot(parent: Option<Ref>): nat {
    if parent.None? then 0 else parent.value + 1
  }

  /** Every node is among the children of its parent. */
  predicate Listed(parents: seq<Option<Ref>>, children: seq<seq<Ref>>) {
    && |children| == |parents| + 1 && Grown(parents)
    && forall r :: 0 <= r < |parents| ==> r in children[Slot(parents[r])]
  }

  function WithChild(children: seq<seq<Ref>>, parent: Option<Ref>): seq<seq<Ref>>
    requires Slot(parent) < |children|
  {
    children[Slot(parent) := children[Slot(parent)] + [|children| - 1]] + [[]]
  }

  lemma ListedGrows(parents: seq<Option<Ref>>, children: seq<seq<Ref>>, parent: Option<Ref>)
    requires Listed(parents, children) && Kids(children) && Within(parent, |parents|)
    ensures Listed(parents + [parent], WithChild(children, parent)) && Kids(WithChild(children, parent))
  {
    var after := WithChild(children, parent);
    forall r | 0 <= r <= |parents| ensures r in after[Slot((parents + [parent])[r])] {
      if r == |parents| {
        assert after[Slot(parent)][|children[Slot(parent)]|] == r;
      } else {
        var i :| 0 <= i < |children[Slot(parents[r])]| && children[Slot(parents[r])][i] == r;
        assert after[Slot(parents[r])][i] == r;
      }
    }
  }

  predicate Placed(nodes: seq<Node>) {
    forall r :: 0 <= r < |nodes| ==> nodes[r].ref == r
  }

  /** Node r lives at r, and the id index finds exactly the nodes there are. */
  predicate Named(nodes: seq<Node>, byId: map<string, Ref>) {
    && (forall r :: 0 <= r < |nodes| ==> nodes[r].ref == r && nodes[r].id in byId && byId[nodes[r].id] == r)
    && (forall id :: id in byId ==> byId[id] < |nodes| && nodes[byId[id]].id == id != "")
  }

  lemma NamedGrows(nodes: seq<Node>, byId: map<string, Ref>, b: Node)
    requires Named(nodes, byId) && b.ref == |nodes| && b.id !in byId && b.id != ""
    ensures Named(nodes + [b], byId[b.id := b.ref])
  {
  }

  class Tree {
    var nodes: seq<Node>
    var parents: seq<Option<Ref>>
    var children: seq<seq<Ref>>
    var byId: map<string, Ref>

    ghost predicate Valid()
      reads this
    {
      && |parents| == |nodes| && |children| == |nodes| + 1
      && Grown(parents) && Kids(children)
      && Named(nodes, byId) && Listed(parents, children)
    }

    constructor ()
      ensures Valid() && nodes == []
    {
      nodes, parents, children, byId := [], [], [[]], map[];
    }

    /** An id no caller can predict. */
    method NewId() returns (id: string)
      ensures |id| == 32
    {
      assert |seq(32, i => '0')| == 32;
      id :| |id| == 32;
    }

    /** Links msg under parent and gives it its place. Nothing else in the tree changes. */
    method Add(msg: Node, parent: Option<Ref>) returns (r: Option<Node>)
      requires Valid() && !msg.generatedId
      modifies this
      ensures Valid()
      ensures r.None? ==> nodes == old(nodes) && parents == old(parents)
      ensures !Within(parent, |old(nodes)|) || (msg.id != "" && msg.id in old(byId)) ==> r.None?
      ensures r.Some? ==> Alike(r.value, msg) && r.value.ref == |old(nodes)|
      ensures r.Some? ==> r.value.id != "" && (msg.id != "" ==> r.value.id == msg.id) && r.value.id !in old(byId)
      ensures r.Some? ==> nodes == old(nodes) + [r.value] && parents == old(parents) + [parent]
      ensures r.Some? ==> children == WithChild(old(children), parent)
      ensures r.Some? ==> byId == old(byId)[r.value.id := r.value.ref]
      ensures msg.id != "" && msg.id !in old(byId) && Within(parent, |old(nodes)|) ==> r.Some?
    {
      hide Kids, Listed, Named;
      if parent.Some? && parent.value >= |nodes| {
        return None;
      }
      var b := msg.(ref := |nodes|);
      if b.id == "" {
        var id := NewId();
        b := b.(id := id, generatedId := true);
      }
      if b.id in byId {
        return None;
      }
      ListedGrows(parents, children, parent);
      NamedGrows(nodes, byId, b);
      children := children[Slot(parent) := children[Slot(parent)] + [b.ref]] + [[]];
      parents := parents + [parent];
      nodes := nodes + [b];
      byId := byId[b.id := b.ref];
      return Some(b);
    }

    /** Changes what node r holds, never its id or its place. */
    method Rewrite(r: Ref, n: Node)
      requires Valid() && r < |nodes| && n.ref == r && n.id == nodes[r].id
      modifies this`nodes
      ensures Valid() && nodes == old(nodes)[r := n]
    {
      nodes := nodes[r := n];
    }

    lemma IsPlaced()
      requires Valid()
      ensures Placed(nodes) && |parents| == |nodes| && Grown(parents)
    {
    }

    method PathTo(leaf: Option<Ref>) returns (out: seq<Ref>)
      requires Valid() && Within(leaf, |nodes|)
      ensures out == PathRefs(parents, leaf)
    {
      var rev: seq<Ref> := [];
      var n := leaf;
      while n.Some?
        invariant Within(n, |nodes|)
        invariant PathRefs(parents, leaf) == PathRefs(parents, n) + Reversed(rev)
        decreases if n.Some? then n.value + 1 else 0
      {
        assert (rev + [n.value])[..|rev|] == rev;
        rev := rev + [n.value];
        n := parents[n.value];
      }
      out := seq(|rev|, i requires 0 <= i < |rev| => rev[|rev| - 1 - i]);
    }

    method WalkFrom(p: nat, order: seq<Ref>) returns (out: seq<Ref>)
      requires Valid() && p < |children|
      ensures out == order + Walk(children, p, |children[p]|)
      decreases |children| - p
    {
      out := order;
      for i := 0 to |children[p]|
        invariant out == order + Walk(children, p, i)
      {
        var c := children[p][i];
        out := out + [c];
        out := WalkFrom(c + 1, out);
      }
    }

    /** The refs that a walk over the children lists meets, parents first. */
    method AllNodes() returns (order: seq<Ref>)
      requires Valid()
      ensures forall r :: r in order <==> 0 <= r < |nodes|
    {
      order := WalkFrom(0, []);
      WalkIsWhole();
    }

    lemma WalkIsWhole()
      requires Valid()
      ensures forall r :: r in Walk(children, 0, |children[0]|) <==> 0 <= r < |nodes|
    {
      forall r | 0 <= r < |nodes| ensures r in Walk(children, 0, |children[0]|) {
        WalkReaches(r);
      }
      WalkWithin(0, |children[0]|);
    }

    lemma {:induction false} WalkReaches(r: Ref)
      requires Valid() && r < |nodes|
      ensures r in Walk(children, 0, |children[0]|)
    {
      var p := Slot(parents[r]);
      var i :| 0 <= i < |children[p]| && children[p][i] == r;
      WalkHasChildren(children, p, |children[p]|, i);
      if parents[r].Some? {
        WalkReaches(parents[r].value);
        WalkHasSubtree(children, 0, |children[0]|, parents[r].value, r);
      }
    }

    lemma {:induction false} WalkWithin(p: nat, n: nat)
      requires Valid() && p < |children| && n <= |children[p]|
      ensures forall r :: r in Walk(children, p, n) ==> 0 <= r < |nodes|
      decreases |children| - p, n
    {
      if n > 0 {
        WalkWithin(p, n - 1);
        WalkWithin(children[p][n - 1] + 1, |children[children[p][n - 1] + 1]|);
      }
    }
  }
}
