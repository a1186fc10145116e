/** The scene-node hierarchy. Nodes are named by ids in a map; each records
    its parent, the parent its transform hangs from (the node whose
    transform its Transform points to), its ordered child list and its
    visible and active flags. `Hierarchy` holds the map and performs
    addChild, removeChild and setParent step by step, as the nodes do on
    their own fields; the functions Attach, Detach and Reparent state the
    resulting maps. */
module SceneGraph {

  datatype Option<T> = None | Some(value: T)

  type Id = nat

  datatype Node = Node(
    name: string,
    parent: Option<Id>,
    transformParent: Option<Id>,
    children: seq<Id>,
    visible: bool,
    active: bool)

  /** SceneNode(name): no parent, no children, visible and active. */
  function NewNode(name: string): Node {
    Node(name, None, None, [], true, true)
  }

  predicate NoDuplicates(s: seq<Id>) {
    forall i, j :: 0 <= i < j < |s| ==> s[i] != s[j]
  }

  /** Every id `node` mentions is in `keys`. */
  predicate LinksIn(node: Node, keys: set<Id>) {
    && (node.parent.Some? ==> node.parent.value in keys)
    && (node.transformParent.Some? ==> node.transformParent.value in keys)
    && (forall c :: c in node.children ==> c in keys)
  }

  /** Every id a node mentions names a node of the graph. */
  predicate Closed(g: map<Id, Node>) {
    forall n :: n in g ==> LinksIn(g[n], g.Keys)
  }

  /** Replacing one node by one whose links stay in the graph keeps it
      closed. */
  lemma ClosedUpdate(g: map<Id, Node>, n: Id, node: Node)
    requires Closed(g) && n in g && LinksIn(node, g.Keys)
    ensures Closed(g[n := node]) && g[n := node].Keys == g.Keys
  {
    assert g[n := node].Keys == g.Keys;
  }

  /** Both graphs have the same nodes, with the same names and the same
      visible and active flags. */
  predicate SameLabels(g: map<Id, Node>, g': map<Id, Node>) {
    g'.Keys == g.Keys &&
    forall n :: n in g ==>
      g'[n].name == g[n].name && g'[n].visible == g[n].visible && g'[n].active == g[n].active
  }

  /** Every node other than `moved` keeps both of its parent links. */
  predicate LinksKept(g: map<Id, Node>, g': map<Id, Node>, moved: Id)
    requires g'.Keys == g.Keys
  {
    forall n :: n in g && n != moved ==>
      g'[n].parent == g[n].parent && g'[n].transformParent == g[n].transformParent
  }

  /** Every node outside `touched` keeps its list of children. */
  predicate ListsKept(g: map<Id, Node>, g': map<Id, Node>, touched: set<Id>)
    requires g'.Keys == g.Keys
  {
    forall n :: n in g && n !in touched ==> g'[n].children == g[n].children
  }

  /** c is among p's children exactly when c's parent is p. */
  predicate ParentLinks(g: map<Id, Node>) {
    forall p, c :: p in g && c in g ==> (c in g[p].children <==> g[c].parent == Some(p))
  }

  /** No child is listed twice. */
  predicate UniqueChildren(g: map<Id, Node>) {
    forall p :: p in g ==> NoDuplicates(g[p].children)
  }

  /** Every node's transform hangs from its parent node's transform. */
  predicate TransformsFollow(g: map<Id, Node>) {
    forall n :: n in g ==> g[n].transformParent == g[n].parent
  }

  /** The links agree: parent pointers and child lists describe the same
      edges, child lists have no repeats, and transforms follow nodes. */
  predicate Consistent(g: map<Id, Node>) {
    Closed(g) && ParentLinks(g) && UniqueChildren(g) && TransformsFollow(g)
  }

  /** std::find: the first position of `x`. */
  function IndexOf(s: seq<Id>, x: Id): (i: nat)
    requires x in s
    ensures i < |s| && s[i] == x
    ensures forall j :: 0 <= j < i ==> s[j] != x
  {
    if s[0] == x then 0 else 1 + IndexOf(s[1..], x)
  }

  /** vector::erase at position i: the other elements keep their order. */
  function RemoveAt(s: seq<Id>, i: nat): (r: seq<Id>)
    requires i < |s|
    ensures |r| == |s| - 1
    ensures forall j :: 0 <= j < i ==> r[j] == s[j]
    ensures forall j :: i <= j < |r| ==> r[j] == s[j + 1]
    ensures forall x :: x in r ==> x in s
  {
    s[..i] + s[i + 1..]
  }

  /** Erasing one occurrence of a value that occurs once leaves no
      occurrence of it and keeps every other element. */
  lemma RemoveAtUnique(s: seq<Id>, i: nat)
    requires i < |s| && NoDuplicates(s)
    ensures NoDuplicates(RemoveAt(s, i))
    ensures forall x :: x in RemoveAt(s, i) <==> x in s && x != s[i]
  {
    var r := RemoveAt(s, i);
    forall x
      ensures x in r <==> x in s && x != s[i]
    {
      if x in r {
        var k :| 0 <= k < |r| && r[k] == x;
        if k < i {
          assert s[k] == x;
        } else {
          assert s[k + 1] == x;
        }
      }
      if x in s && x != s[i] {
        var k :| 0 <= k < |s| && s[k] == x;
        if k < i {
          assert r[k] == x;
        } else {
          assert r[k - 1] == x;
        }
      }
    }
  }

  /** Replaces p's list of children by `kids` and changes nothing else. */
  function SetChildren(g: map<Id, Node>, p: Id, kids: seq<Id>): (g': map<Id, Node>)
    requires Closed(g) && p in g && forall x :: x in kids ==> x in g
    ensures Closed(g') && SameLabels(g, g')
    ensures g'[p].children == kids
    ensures g'[p].parent == g[p].parent && g'[p].transformParent == g[p].transformParent
    ensures forall m :: m in g && m != p ==> g'[m] == g[m]
  {
    var node := g[p].(children := kids);
    ClosedUpdate(g, p, node);
    g[p := node]
  }

  /** removeChild(c) on p: a listed child is erased from p's list and loses
      both parent links; an unlisted one leaves the graph as it is. */
  function Detach(g: map<Id, Node>, p: Id, c: Id): (g': map<Id, Node>)
    requires Closed(g) && p in g && c in g
    ensures Closed(g') && g'.Keys == g.Keys
    ensures c !in g[p].children ==> g' == g
    ensures c in g[p].children ==>
      && g'[c].parent == None && g'[c].transformParent == None
      && g'[p].children == RemoveAt(g[p].children, IndexOf(g[p].children, c))
    ensures forall n :: n in g && n != p && n != c ==> g'[n] == g[n]
    ensures SameLabels(g, g') && LinksKept(g, g', c) && ListsKept(g, g', {p})
  {
    if c !in g[p].children then g
    else
      var g1 := Relink(g, c, None);
      SetChildren(g1, p, RemoveAt(g[p].children, IndexOf(g[p].children, c)))
  }

  /** The first step of addChild and setParent: c leaves the list of its
      current parent, if it has one. */
  function Release(g: map<Id, Node>, c: Id): (g': map<Id, Node>)
    requires Closed(g) && c in g
    ensures Closed(g') && SameLabels(g, g')
    ensures g[c].parent.Some? && c in g[g[c].parent.value].children ==>
      g'[c].parent == None && g'[c].transformParent == None
    ensures g[c].parent.None? ==> g' == g
    ensures g[c].parent.Some? ==>
      var L := g[g[c].parent.value].children;
      && (c in L ==> g'[g[c].parent.value].children == RemoveAt(L, IndexOf(L, c)))
      && (c !in L ==> g' == g)
    ensures forall n :: n in g && n != c && Some(n) != g[c].parent ==> g'[n] == g[n]
    ensures LinksKept(g, g', c)
    ensures ListsKept(g, g', if g[c].parent.Some? then {g[c].parent.value} else {})
  {
    if g[c].parent.Some? then Detach(g, g[c].parent.value, c) else g
  }

  /** The second step of addChild: c is appended to p's list and both of
      its parent links are set to p. */
  function Link(g: map<Id, Node>, p: Id, c: Id): (g': map<Id, Node>)
    requires Closed(g) && p in g && c in g
    ensures Closed(g') && SameLabels(g, g')
    ensures g'[c].parent == Some(p) && g'[c].transformParent == Some(p)
    ensures g'[p].children == g[p].children + [c]
    ensures forall n :: n in g && n != p && n != c ==> g'[n] == g[n]
    ensures LinksKept(g, g', c) && ListsKept(g, g', {p})
  {
    Relink(SetChildren(g, p, g[p].children + [c]), c, Some(p))
  }

  /** addChild(c) on p: c is first detached from its previous parent, then
      appended to p's list, and both of its parent links are set to p. */
  function Attach(g: map<Id, Node>, p: Id, c: Id): (g': map<Id, Node>)
    requires Closed(g) && p in g && c in g
    ensures Closed(g') && SameLabels(g, g')
    ensures g'[c].parent == Some(p) && g'[c].transformParent == Some(p)
    ensures |g'[p].children| > 0 && g'[p].children[|g'[p].children| - 1] == c
    ensures g'[p].children == Release(g, c)[p].children + [c]
    ensures g[c].parent.Some? && c in g[g[c].parent.value].children ==>
      var L := g[g[c].parent.value].children;
      && (g[c].parent != Some(p) ==> g'[g[c].parent.value].children == RemoveAt(L, IndexOf(L, c)))
      && (g[c].parent == Some(p) ==> g'[p].children == RemoveAt(L, IndexOf(L, c)) + [c])
    ensures g[c].parent.None? || c !in g[g[c].parent.value].children ==> g'[p].children == g[p].children + [c]
    ensures g[c].parent.Some? && g[c].parent != Some(p) && c !in g[g[c].parent.value].children ==>
      g'[g[c].parent.value].children == g[g[c].parent.value].children
    ensures forall n :: n in g && n != p && n != c && Some(n) != g[c].parent ==> g'[n] == g[n]
    ensures LinksKept(g, g', c)
    ensures ListsKept(g, g', if g[c].parent.Some? then {p, g[c].parent.value} else {p})
  {
    Link(Release(g, c), p, c)
  }

  /** setParent(q) on n: nothing when q is already the parent; otherwise n
      is removed from its old parent's list (if it is listed there) and
      both links are set to q, but n is not added to q's list. */
  function Reparent(g: map<Id, Node>, n: Id, q: Option<Id>): (g': map<Id, Node>)
    requires Closed(g) && n in g && (q.Some? ==> q.value in g)
    ensures Closed(g') && g'.Keys == g.Keys
    ensures g[n].parent == q ==> g' == g
    ensures g'[n].parent == q
    ensures g[n].parent != q ==> g'[n].transformParent == q
    ensures g[n].parent != q && g[n].parent.Some? && n in g[g[n].parent.value].children ==>
      var L := g[g[n].parent.value].children;
      g'[g[n].parent.value].children == RemoveAt(L, IndexOf(L, n))
    ensures g[n].parent != q && (g[n].parent.None? || n !in g[g[n].parent.value].children) ==>
      g' == g[n := g[n].(parent := q, transformParent := q)]
    ensures forall m :: m in g && m != n && Some(m) != g[n].parent ==> g'[m] == g[m]
    ensures SameLabels(g, g') && LinksKept(g, g', n)
    ensures ListsKept(g, g', if g[n].parent.Some? then {g[n].parent.value} else {})
  {
    if g[n].parent == q then g else Relink(Release(g, n), n, q)
  }

  /** The last step of setParent: both of n's links are set to q and
      nothing else changes. */
  function Relink(g: map<Id, Node>, n: Id, q: Option<Id>): (g': map<Id, Node>)
    requires Closed(g) && n in g && (q.Some? ==> q.value in g)
    ensures Closed(g') && SameLabels(g, g')
    ensures g'[n].parent == q && g'[n].transformParent == q
    ensures g'[n].children == g[n].children
    ensures forall m :: m in g && m != n ==> g'[m] == g[m]
  {
    var moved := g[n].(parent := q, transformParent := q);
    ClosedUpdate(g, n, moved);
    g[n := moved]
  }

  /** removeChild keeps the links consistent; afterwards c is neither
      listed under p nor linked to a parent, and p's other children keep
      their order. */
  lemma DetachConsistent(g: map<Id, Node>, p: Id, c: Id)
    requires Consistent(g) && p in g && c in g
    ensures Consistent(Detach(g, p, c))
    ensures c !in Detach(g, p, c)[p].children
    ensures forall x :: x in Detach(g, p, c)[p].children <==> x in g[p].children && x != c
  {
    if c in g[p].children {
      RemoveAtUnique(g[p].children, IndexOf(g[p].children, c));
      DetachKeepsParentLinks(g, p, c);
      DetachKeepsUnique(g, p, c);
    }
  }

  lemma DetachKeepsParentLinks(g: map<Id, Node>, p: Id, c: Id)
    requires Consistent(g) && p in g && c in g && c in g[p].children
    ensures ParentLinks(Detach(g, p, c))
  {
    var g' := Detach(g, p, c);
    RemoveAtUnique(g[p].children, IndexOf(g[p].children, c));
    forall a, b | a in g' && b in g'
      ensures b in g'[a].children <==> g'[b].parent == Some(a)
    {
      if a == p {
        if b != c {
          assert b in g'[a].children <==> b in g[a].children;
        }
      } else {
        assert g'[a].children == g[a].children;
        if b == c {
          assert g[c].parent == Some(p);
        }
      }
    }
  }

  lemma DetachKeepsUnique(g: map<Id, Node>, p: Id, c: Id)
    requires Consistent(g) && p in g && c in g && c in g[p].children
    ensures UniqueChildren(Detach(g, p, c))
  {
    var g' := Detach(g, p, c);
    RemoveAtUnique(g[p].children, IndexOf(g[p].children, c));
    forall a | a in g'
      ensures NoDuplicates(g'[a].children)
    {
      if a != p {
        assert g'[a].children == g[a].children;
      }
    }
  }

  /** addChild keeps the links consistent, and the child then occurs
      exactly once in p's list, at its end. The child must not be p itself
      nor an ancestor of p for the hierarchy to stay a tree; the links stay
      consistent either way. */
  lemma AttachConsistent(g: map<Id, Node>, p: Id, c: Id)
    requires Consistent(g) && p in g && c in g
    ensures Consistent(Attach(g, p, c))
    ensures var ch := Attach(g, p, c)[p].children; c !in ch[..|ch| - 1]
  {
    var g1 := Release(g, c);
    if g[c].parent.Some? {
      DetachConsistent(g, g[c].parent.value, c);
    }
    assert Consistent(g1) && g1[c].parent == None;
    LinkConsistent(g1, p, c);
  }

  /** Appending a child that is listed nowhere and has no parent keeps the
      links consistent. */
  lemma LinkConsistent(g: map<Id, Node>, p: Id, c: Id)
    requires Consistent(g) && p in g && c in g && g[c].parent == None
    ensures Consistent(Link(g, p, c))
    ensures var ch := Link(g, p, c)[p].children; c !in ch[..|ch| - 1]
  {
    var ch := Link(g, p, c)[p].children;
    assert ch[..|ch| - 1] == g[p].children;
    LinkKeepsParentLinks(g, p, c);
    LinkKeepsUnique(g, p, c);
  }

  lemma LinkKeepsParentLinks(g: map<Id, Node>, p: Id, c: Id)
    requires Consistent(g) && p in g && c in g && g[c].parent == None
    ensures ParentLinks(Link(g, p, c))
  {
    var g' := Link(g, p, c);
    forall a, b | a in g' && b in g'
      ensures b in g'[a].children <==> g'[b].parent == Some(a)
    {
      if a == p {
        assert b in g'[a].children <==> b in g[p].children || b == c;
      } else {
        assert g'[a].children == g[a].children;
      }
    }
  }

  lemma LinkKeepsUnique(g: map<Id, Node>, p: Id, c: Id)
    requires Consistent(g) && p in g && c in g && g[c].parent == None
    ensures UniqueChildren(Link(g, p, c))
  {
    var g' := Link(g, p, c);
    assert c !in g[p].children;
    forall a | a in g'
      ensures NoDuplicates(g'[a].children)
    {
      if a == p {
        var ch := g'[p].children;
        forall i, j | 0 <= i < j < |ch|
          ensures ch[i] != ch[j]
        {
          if j == |ch| - 1 {
            assert ch[i] in g[p].children;
          }
        }
      } else {
        assert g'[a].children == g[a].children;
      }
    }
  }

  /** setParent alone does not list the node under its new parent: from a
      consistent graph, moving n to a different parent q leaves n off q's
      list, so the links are no longer consistent until addChild runs. */
  lemma ReparentLeavesUnlisted(g: map<Id, Node>, n: Id, q: Id)
    requires Consistent(g) && n in g && q in g && g[n].parent != Some(q)
    ensures n !in Reparent(g, n, Some(q))[q].children
    ensures !Consistent(Reparent(g, n, Some(q)))
  {
    var g' := Reparent(g, n, Some(q));
    assert n !in g[q].children;
    if g[n].parent.Some? {
      var prev := g[n].parent.value;
      DetachConsistent(g, prev, n);
      if q == prev {
      } else {
        assert g'[q].children == Detach(g, prev, n)[q].children;
      }
    }
    assert g'[n].parent == Some(q);
  }

  // ------------------------------------------------------------ traversal

  /** Which flag gates a recursive pass: `active` for updateRecursive,
      `visible` for renderRecursive. */
  datatype Pass = UpdatePass | RenderPass

  predicate Enabled(node: Node, pass: Pass) {
    match pass
    case UpdatePass => node.active
    case RenderPass => node.visible
  }

  /** A rank that strictly decreases from every node to each of its
      children: a witness that the child lists contain no cycle. */
  predicate Ranked(g: map<Id, Node>, rank: map<Id, nat>) {
    forall p :: p in g ==> p in rank && forall c :: c in g[p].children ==> c in rank && rank[c] < rank[p]
  }

  /** The nodes a recursive pass from n visits, in visiting order: nothing
      when n's flag is off, else n followed by the passes of its children
      in list order. Every visited node has its flag on. */
  function PreOrder(g: map<Id, Node>, rank: map<Id, nat>, pass: Pass, n: Id): (r: seq<Id>)
    requires Closed(g) && Ranked(g, rank) && n in g
    ensures !Enabled(g[n], pass) ==> r == []
    ensures Enabled(g[n], pass) ==> |r| > 0 && r[0] == n
    ensures forall x :: x in r ==> x in g && Enabled(g[x], pass)
    decreases rank[n], 1, 0
  {
    if !Enabled(g[n], pass) then []
    else [n] + Forest(g, rank, pass, g[n].children, rank[n])
  }

  /** The passes of the nodes in `cs`, one after the other. */
  function Forest(g: map<Id, Node>, rank: map<Id, nat>, pass: Pass, cs: seq<Id>, bound: nat): (r: seq<Id>)
    requires Closed(g) && Ranked(g, rank)
    requires forall c :: c in cs ==> c in g && c in rank && rank[c] < bound
    ensures forall x :: x in r ==> x in g && Enabled(g[x], pass)
    decreases bound, 0, |cs|
  {
    if |cs| == 0 then []
    else Forest(g, rank, pass, cs[..|cs| - 1], bound) + PreOrder(g, rank, pass, cs[|cs| - 1])
  }

  /** A pass that reaches an enabled node visits each enabled child of it:
      the gate closes a subtree only at a node whose own flag is off. */
  lemma EnabledChildVisited(g: map<Id, Node>, rank: map<Id, nat>, pass: Pass, n: Id, c: Id)
    requires Closed(g) && Ranked(g, rank) && n in g
    requires Enabled(g[n], pass) && c in g[n].children && Enabled(g[c], pass)
    ensures c in PreOrder(g, rank, pass, n)
  {
    ForestVisits(g, rank, pass, g[n].children, rank[n], c);
  }

  lemma {:induction false} ForestVisits(g: map<Id, Node>, rank: map<Id, nat>, pass: Pass, cs: seq<Id>, bound: nat, c: Id)
    requires Closed(g) && Ranked(g, rank)
    requires forall x :: x in cs ==> x in g && x in rank && rank[x] < bound
    requires c in cs && Enabled(g[c], pass)
    ensures c in Forest(g, rank, pass, cs, bound)
    decreases |cs|
  {
    var init := cs[..|cs| - 1];
    if c == cs[|cs| - 1] {
      assert PreOrder(g, rank, pass, c)[0] == c;
    } else {
      assert c in init;
      ForestVisits(g, rank, pass, init, bound, c);
    }
  }

  class Hierarchy {
    var nodes: map<Id, Node>

    ghost predicate Valid()
      reads this
    {
      Closed(nodes)
    }

    constructor()
      ensures nodes == map[] && Valid()
    {
      nodes := map[];
    }

    /** Creates the node `id` as SceneNode(name) does. */
    method CreateNode(id: Id, name: string)
      requires Valid() && id !in nodes
      modifies this
      ensures nodes == old(nodes)[id := NewNode(name)] && Valid()
      ensures Consistent(old(nodes)) ==> Consistent(nodes)
    {
      nodes := nodes[id := NewNode(name)];
    }

    /** addChild(child) on p; a null child (None) changes nothing. */
    method AddChild(p: Id, child: Option<Id>)
      requires Valid() && p in nodes && (child.Some? ==> child.value in nodes)
      modifies this
      ensures Valid()
      ensures child.None? ==> nodes == old(nodes)
      ensures child.Some? ==> nodes == Attach(old(nodes), p, child.value)
    {
      if child.None? {
        return;
      }
      var c := child.value;
      if nodes[c].parent.Some? {
        RemoveChild(nodes[c].parent.value, child);
      }
      ghost var released := nodes;
      assert released == Release(old(nodes), c);
      var grown := nodes[p].(children := nodes[p].children + [c]);
      ClosedUpdate(nodes, p, grown);
      nodes := nodes[p := grown];
      var linked := nodes[c].(parent := Some(p), transformParent := Some(p));
      ClosedUpdate(nodes, c, linked);
      nodes := nodes[c := linked];
      assert nodes == Link(released, p, c);
    }

    /** removeChild(child) on p: std::find, then clear the links and erase. */
    method RemoveChild(p: Id, child: Option<Id>)
      requires Valid() && p in nodes && (child.Some? ==> child.value in nodes)
      modifies this
      ensures Valid()
      ensures child.None? ==> nodes == old(nodes)
      ensures child.Some? ==> nodes == Detach(old(nodes), p, child.value)
    {
      if child.None? {
        return;
      }
      var c := child.value;
      var siblings := nodes[p].children;
      var i := 0;
      while i < |siblings| && siblings[i] != c
        invariant 0 <= i <= |siblings|
        invariant forall j :: 0 <= j < i ==> siblings[j] != c
      {
        i := i + 1;
      }
      if i < |siblings| {
        assert i == IndexOf(siblings, c);
        var freed := nodes[c].(parent := None, transformParent := None);
        ClosedUpdate(nodes, c, freed);
        nodes := nodes[c := freed];
        var shrunk := nodes[p].(children := RemoveAt(siblings, i));
        ClosedUpdate(nodes, p, shrunk);
        nodes := nodes[p := shrunk];
      } else {
        assert c !in siblings;
      }
    }

    /** setParent(q) on n. */
    method SetParent(n: Id, q: Option<Id>)
      requires Valid() && n in nodes && (q.Some? ==> q.value in nodes)
      modifies this
      ensures Valid()
      ensures nodes == Reparent(old(nodes), n, q)
    {
      if nodes[n].parent == q {
        return;
      }
      if nodes[n].parent.Some? {
        var prev := nodes[n].parent.value;
        var siblings := nodes[prev].children;
        var i := 0;
        while i < |siblings|
          invariant 0 <= i <= |siblings|
          invariant forall j :: 0 <= j < i ==> siblings[j] != n
          invariant nodes == old(nodes)
        {
          if siblings[i] == n {
            RemoveChild(prev, Some(n));
            break;
          }
          i := i + 1;
        }
      }
      assert nodes == Release(old(nodes), n);
      var moved := nodes[n].(parent := q, transformParent := q);
      ClosedUpdate(nodes, n, moved);
      nodes := nodes[n := moved];
    }

    method SetName(n: Id, name: string)
      requires Valid() && n in nodes
      modifies this
      ensures nodes == old(nodes)[n := old(nodes)[n].(name := name)] && Valid()
    {
      nodes := nodes[n := nodes[n].(name := name)];
    }

    method SetVisible(n: Id, visible: bool)
      requires Valid() && n in nodes
      modifies this
      ensures nodes == old(nodes)[n := old(nodes)[n].(visible := visible)] && Valid()
    {
      nodes := nodes[n := nodes[n].(visible := visible)];
    }

    method SetActive(n: Id, active: bool)
      requires Valid() && n in nodes
      modifies this
      ensures nodes == old(nodes)[n := old(nodes)[n].(active := active)] && Valid()
    {
      nodes := nodes[n := nodes[n].(active := active)];
    }

    /** A recursive pass from n; the result lists, in order, the nodes whose
        own update (or render) runs. */
    method Traverse(n: Id, pass: Pass, ghost rank: map<Id, nat>) returns (visited: seq<Id>)
      requires Valid() && Ranked(nodes, rank) && n in nodes
      ensures visited == PreOrder(nodes, rank, pass, n)
      decreases rank[n]
    {
      if !Enabled(nodes[n], pass) {
        return [];
      }
      visited := [n];
      var cs := nodes[n].children;
      var i := 0;
      while i < |cs|
        invariant 0 <= i <= |cs|
        invariant visited == [n] + Forest(nodes, rank, pass, cs[..i], rank[n])
      {
        var sub := Traverse(cs[i], pass, rank);
        assert cs[..i + 1][..i] == cs[..i];
        visited := visited + sub;
        i := i + 1;
      }
      assert cs[..|cs|] == cs;
    }

    /** updateRecursive: the active nodes reached from n through active
        nodes, pre-order. */
    method UpdateRecursive(n: Id, ghost rank: map<Id, nat>) returns (updated: seq<Id>)
      requires Valid() && Ranked(nodes, rank) && n in nodes
      ensures updated == PreOrder(nodes, rank, UpdatePass, n)
      ensures !nodes[n].active ==> updated == []
      ensures forall x :: x in updated ==> x in nodes && nodes[x].active
    {
      updated := Traverse(n, UpdatePass, rank);
    }

    /** renderRecursive: the visible nodes reached from n through visible
        nodes, pre-order. */
    method RenderRecursive(n: Id, ghost rank: map<Id, nat>) returns (rendered: seq<Id>)
      requires Valid() && Ranked(nodes, rank) && n in nodes
      ensures rendered == PreOrder(nodes, rank, RenderPass, n)
      ensures !nodes[n].visible ==> rendered == []
      ensures forall x :: x in rendered ==> x in nodes && nodes[x].visible
    {
      rendered := Traverse(n, RenderPass, rank);
    }
  }
}
