/** The batch scheduler: the sparse graph of last accessors, the depth-first search
    for its weakly connected components, and the routing plan. */
module Scheduler {
  import opened Types
  import opened Protocol
  import opened SerialExecution

  // ------------------------------------------------- connectedness

  type Relation = set<(nat, nat)>

  predicate Linked(rel: Relation, a: nat, b: nat)
  {
    (a, b) in rel || (b, a) in rel
  }

  /** `b` is `k` links away from `a`. */
  ghost predicate Reaches(rel: Relation, a: nat, b: nat, k: nat)
    decreases k
  {
    if k == 0 then a == b else exists m: nat :: Reaches(rel, a, m, k - 1) && Linked(rel, m, b)
  }

  /** The symmetric and transitive closure of the relation. */
  ghost predicate Connected(rel: Relation, a: nat, b: nat)
  {
    exists k: nat :: Reaches(rel, a, b, k)
  }

  lemma {:induction false} ConnectedToSelf(rel: Relation, a: nat)
    ensures Connected(rel, a, a)
  {
    assert Reaches(rel, a, a, 0);
  }

  lemma {:induction false} ConnectedThenLinked(rel: Relation, a: nat, b: nat, c: nat)
    requires Connected(rel, a, b) && Linked(rel, b, c)
    ensures Connected(rel, a, c)
  {
    var k: nat :| Reaches(rel, a, b, k);
    assert Reaches(rel, a, c, k + 1);
  }

  lemma {:induction false} ReachesTransitive(rel: Relation, a: nat, b: nat, c: nat, k: nat)
    requires Connected(rel, a, b) && Reaches(rel, b, c, k)
    ensures Connected(rel, a, c)
    decreases k
  {
    if k > 0 {
      var m: nat :| Reaches(rel, b, m, k - 1) && Linked(rel, m, c);
      ReachesTransitive(rel, a, b, m, k - 1);
      ConnectedThenLinked(rel, a, m, c);
    }
  }

  lemma {:induction false} ConnectedTransitive(rel: Relation, a: nat, b: nat, c: nat)
    requires Connected(rel, a, b) && Connected(rel, b, c)
    ensures Connected(rel, a, c)
  {
    var k: nat :| Reaches(rel, b, c, k);
    ReachesTransitive(rel, a, b, c, k);
  }

  lemma {:induction false} ReachesBack(rel: Relation, a: nat, b: nat, k: nat)
    requires Reaches(rel, a, b, k)
    ensures Connected(rel, b, a)
    decreases k
  {
    ConnectedToSelf(rel, b);
    if k > 0 {
      var m: nat :| Reaches(rel, a, m, k - 1) && Linked(rel, m, b);
      ReachesBack(rel, a, m, k - 1);
      ConnectedThenLinked(rel, b, b, m);
      ConnectedTransitive(rel, b, m, a);
    }
  }

  lemma {:induction false} ConnectedSymmetric(rel: Relation, a: nat, b: nat)
    requires Connected(rel, a, b)
    ensures Connected(rel, b, a)
  {
    var k: nat :| Reaches(rel, a, b, k);
    ReachesBack(rel, a, b, k);
  }

  /** When every link of `rel` is a connection of `rel'`, so is every connection. */
  lemma {:induction false} ReachesElsewhere(rel: Relation, rel': Relation, a: nat, b: nat, k: nat)
    requires forall x, y :: (x, y) in rel ==> Connected(rel', x, y)
    requires Reaches(rel, a, b, k)
    ensures Connected(rel', a, b)
    decreases k
  {
    if k == 0 {
      ConnectedToSelf(rel', a);
    } else {
      var m: nat :| Reaches(rel, a, m, k - 1) && Linked(rel, m, b);
      ReachesElsewhere(rel, rel', a, m, k - 1);
      if (m, b) !in rel {
        ConnectedSymmetric(rel', b, m);
      }
      ConnectedTransitive(rel', a, m, b);
    }
  }

  lemma {:induction false} ConnectedElsewhere(rel: Relation, rel': Relation, a: nat, b: nat)
    requires forall x, y :: (x, y) in rel ==> Connected(rel', x, y)
    requires Connected(rel, a, b)
    ensures Connected(rel', a, b)
  {
    var k: nat :| Reaches(rel, a, b, k);
    ReachesElsewhere(rel, rel', a, b, k);
  }

  // ------------------------------------------------- the sparse graph

  predicate Share(batch: seq<Txn>, a: nat, b: nat)
  {
    a < |batch| && b < |batch| && exists o :: o in batch[a].inputs && o in batch[b].inputs
  }

  /** The full conflict relation: transactions that share an object. */
  function Conflicts(batch: seq<Txn>): Relation
  {
    set a: nat, b: nat | a < |batch| && b < |batch| && Share(batch, a, b) :: (a, b)
  }

  /** The node that last accessed the `k`-th object of transaction `b` before it does, or -1. */
  function LastAccessor(batch: seq<Txn>, b: nat, k: nat): int
    requires b < |batch| && k < |batch[b].inputs|
  {
    var o := batch[b].inputs[k];
    if o in batch[b].inputs[..k] then b else LastToucher(batch, b, o)
  }

  /** An edge from the last accessor for each of the first `k` objects of transaction `b`. */
  function EdgesInto(batch: seq<Txn>, b: nat, k: nat): Relation
    requires b < |batch| && k <= |batch[b].inputs|
  {
    set m | 0 <= m < k && LastAccessor(batch, b, m) >= 0 :: (LastAccessor(batch, b, m) as nat, b)
  }

  lemma {:induction false} EdgesOneMore(batch: seq<Txn>, b: nat, k: nat)
    requires b < |batch| && k < |batch[b].inputs|
    ensures EdgesInto(batch, b, k + 1)
            == EdgesInto(batch, b, k)
               + if LastAccessor(batch, b, k) >= 0 then {(LastAccessor(batch, b, k) as nat, b)} else {}
  {
  }

  /** The edges into the first `n` transactions. */
  function SparseEdges(batch: seq<Txn>, n: nat): Relation
    requires n <= |batch|
  {
    if n == 0 then {} else SparseEdges(batch, n - 1) + EdgesInto(batch, n - 1, |batch[n - 1].inputs|)
  }

  lemma {:induction false} SparseEdgesShare(batch: seq<Txn>, n: nat, a: nat, b: nat)
    requires n <= |batch| && (a, b) in SparseEdges(batch, n)
    ensures Share(batch, a, b)
  {
    if (a, b) in SparseEdges(batch, n - 1) {
      SparseEdgesShare(batch, n - 1, a, b);
    } else {
      var m :| 0 <= m < |batch[n - 1].inputs| && LastAccessor(batch, n - 1, m) == a && b == n - 1;
      assert batch[n - 1].inputs[m] in batch[a].inputs;
    }
  }

  lemma {:induction false} EdgeFromLast(batch: seq<Txn>, n: nat, b: nat, o: ObjectId)
    requires b < n <= |batch| && o in batch[b].inputs && LastToucher(batch, b, o) >= 0
    ensures (LastToucher(batch, b, o) as nat, b) in SparseEdges(batch, n)
  {
    if b < n - 1 {
      EdgeFromLast(batch, n - 1, b, o);
    } else {
      var m := FirstPosition(batch[b].inputs, o);
      assert LastAccessor(batch, b, m) == LastToucher(batch, b, o);
      assert (LastAccessor(batch, b, m) as nat, b) in EdgesInto(batch, b, |batch[b].inputs|);
    }
  }

  lemma {:induction false} FirstPosition(inputs: seq<ObjectId>, o: ObjectId) returns (m: nat)
    requires o in inputs
    ensures m < |inputs| && inputs[m] == o && o !in inputs[..m]
  {
    var k :| 0 <= k < |inputs| && inputs[k] == o;
    if o in inputs[..k] {
      m := FirstPosition(inputs[..k], o);
      assert inputs[..k][..m] == inputs[..m];
    } else {
      m := k;
    }
  }

  /** Transactions sharing an object are connected through its accessors in between. */
  /** There is an edge between two transactions exactly if they share an object that none
      between them touches: each object is linked from its last accessor, no other. */
  lemma {:induction false} EdgeIsFromLastAccessor(batch: seq<Txn>, n: nat, a: nat, b: nat)
    requires n <= |batch| && a != b
    ensures (a, b) in SparseEdges(batch, n) <==>
              a < b < n && exists o :: o in batch[a].inputs && o in batch[b].inputs
                                       && forall k :: a < k < b ==> o !in batch[k].inputs
  {
    if (a, b) in SparseEdges(batch, n) {
      if (a, b) in SparseEdges(batch, n - 1) {
        EdgeIsFromLastAccessor(batch, n - 1, a, b);
      } else {
        var m :| 0 <= m < |batch[n - 1].inputs| && LastAccessor(batch, n - 1, m) == a && b == n - 1;
        assert batch[n - 1].inputs[m] in batch[a].inputs;
      }
    }
    if a < b < n {
      if o :| o in batch[a].inputs && o in batch[b].inputs && forall k :: a < k < b ==> o !in batch[k].inputs {
        assert LastToucher(batch, b, o) == a;
        EdgeFromLast(batch, n, b, o);
      }
    }
  }

  lemma {:induction false} SharersAreConnected(batch: seq<Txn>, a: nat, b: nat, o: ObjectId)
    requires a <= b < |batch| && o in batch[a].inputs && o in batch[b].inputs
    ensures Connected(SparseEdges(batch, |batch|), a, b)
    decreases b
  {
    var edges := SparseEdges(batch, |batch|);
    if a == b {
      ConnectedToSelf(edges, a);
    } else {
      var c := LastToucher(batch, b, o);
      SharersAreConnected(batch, a, c, o);
      EdgeFromLast(batch, |batch|, b, o);
      ConnectedThenLinked(edges, a, c, b);
    }
  }

  /** The sparse graph of last accessors has the same connected components as the full
      conflict relation. */
  lemma {:induction false} SparseGraphAgrees(batch: seq<Txn>, a: nat, b: nat)
    ensures Connected(SparseEdges(batch, |batch|), a, b) <==> Connected(Conflicts(batch), a, b)
  {
    var sparse, full := SparseEdges(batch, |batch|), Conflicts(batch);
    if Connected(sparse, a, b) {
      forall x, y | (x, y) in sparse ensures Connected(full, x, y) {
        SparseEdgesShare(batch, |batch|, x, y);
        ConnectedToSelf(full, x);
        ConnectedThenLinked(full, x, x, y);
      }
      ConnectedElsewhere(sparse, full, a, b);
    }
    if Connected(full, a, b) {
      forall x, y | (x, y) in full ensures Connected(sparse, x, y) {
        var o :| o in batch[x].inputs && o in batch[y].inputs;
        if x <= y {
          SharersAreConnected(batch, x, y, o);
        } else {
          SharersAreConnected(batch, y, x, o);
          ConnectedSymmetric(sparse, y, x);
        }
      }
      ConnectedElsewhere(full, sparse, a, b);
    }
  }

  // ------------------------------------------------- building and searching the graph

  function EdgeSet(edges: seq<(nat, nat)>): Relation
  {
    set e | e in edges
  }

  lemma {:induction false} UnionAssociative(a: Relation, b: Relation, c: Relation)
    ensures a + (b + c) == (a + b) + c
  {
  }

  lemma {:induction false} EdgeAdded(edges: seq<(nat, nat)>, e: (nat, nat))
    ensures EdgeSet(edges + [e]) == EdgeSet(edges) + {e}
  {
  }

  /** Nodes are the positions of the transactions in the batch. */
  class DependencyGraph {
    var nodes: nat
    var edges: seq<(nat, nat)>

    constructor ()
      ensures nodes == 0 && edges == []
    {
      nodes := 0;
      edges := [];
    }

    ghost function Edges(): Relation
      reads this
    {
      EdgeSet(edges)
    }

    /** Nodes at the other end of an edge, in either direction. */
    method NeighborsUndirected(node: nat) returns (neighbors: seq<nat>)
      ensures forall v :: v in neighbors <==> Linked(Edges(), node, v)
    {
      neighbors := [];
      var n := 0;
      while n < |edges|
        invariant 0 <= n <= |edges|
        invariant forall v: nat :: v in neighbors <==> (node, v) in edges[..n] || (v, node) in edges[..n]
      {
        if edges[n].0 == node {
          neighbors := neighbors + [edges[n].1];
        } else if edges[n].1 == node {
          neighbors := neighbors + [edges[n].0];
        }
        n := n + 1;
      }
      assert edges[..n] == edges;
    }

    method AddEdge(a: nat, b: nat)
      modifies this`edges
      ensures Edges() == old(Edges()) + {(a, b)}
    {
      EdgeAdded(edges, (a, b));
      edges := edges + [(a, b)];
    }

    /** Adds one edge per object of transaction `node` from the object's last accessor. */
    method AddEdges(batch: seq<Txn>, node: nat, accessors: map<ObjectId, nat>)
      returns (lastAccessor: map<ObjectId, nat>)
      requires node < |batch| && LastAccessors(batch, node, accessors)
      modifies this`edges
      ensures Edges() == old(Edges()) + EdgesInto(batch, node, |batch[node].inputs|)
      ensures LastAccessors(batch, node + 1, lastAccessor)
    {
      lastAccessor := accessors;
      var inputs := batch[node].inputs;
      var k := 0;
      while k < |inputs|
        invariant 0 <= k <= |inputs|
        invariant Edges() == old(Edges()) + EdgesInto(batch, node, k)
        invariant AccessorsDuring(batch, node, k, accessors, lastAccessor)
      {
        EdgesOneMore(batch, node, k);
        AccessorStep(batch, node, k, accessors, lastAccessor);
        if inputs[k] in lastAccessor {
          UnionAssociative(old(Edges()), EdgesInto(batch, node, k), {(lastAccessor[inputs[k]], node)});
          AddEdge(lastAccessor[inputs[k]], node);
        }
        lastAccessor := lastAccessor[inputs[k] := node];
        k := k + 1;
      }
      AccessorsDone(batch, node, accessors, lastAccessor);
    }

    /** Adds a node per transaction and an edge per object from its last accessor. */
    method BuildDependencyGraph(batch: seq<Txn>)
      requires nodes == 0 && edges == []
      modifies this
      ensures nodes == |batch| && Edges() == SparseEdges(batch, |batch|)
    {
      var lastAccessor: map<ObjectId, nat> := map[];
      while nodes < |batch|
        invariant 0 <= nodes <= |batch|
        invariant Edges() == SparseEdges(batch, nodes)
        invariant LastAccessors(batch, nodes, lastAccessor)
      {
        lastAccessor := AddEdges(batch, nodes, lastAccessor);
        nodes := nodes + 1;
      }
    }

    /** Pushes the neighbors of `node` that have not been visited. */
    method PushNeighbors(node: nat, seen: set<nat>, stack: seq<nat>) returns (visited: set<nat>, pushed: seq<nat>)
      ensures visited == seen + set v | v in pushed
      ensures AllDistinct(pushed) && forall v :: v in pushed ==> v !in seen && Linked(Edges(), node, v)
      ensures forall v: nat :: Linked(Edges(), node, v) ==> v in visited
    {
      var neighbors := NeighborsUndirected(node);
      visited := seen;
      pushed := [];
      var n := 0;
      while n < |neighbors|
        invariant 0 <= n <= |neighbors|
        invariant visited == seen + set v | v in pushed
        invariant AllDistinct(pushed) && forall v :: v in pushed ==> v !in seen && Linked(Edges(), node, v)
        invariant forall v :: v in neighbors[..n] ==> v in visited
      {
        assert neighbors[n] in neighbors;
        if neighbors[n] !in visited {
          visited := visited + {neighbors[n]};
          pushed := pushed + [neighbors[n]];
        }
        n := n + 1;
      }
      assert neighbors[..n] == neighbors;
    }

    /** The nodes reachable from `root`, by depth-first search with a stack. */
    method Search(root: nat, seen: set<nat>) returns (component: seq<nat>, visited: set<nat>)
      requires forall e :: e in edges ==> e.0 < nodes && e.1 < nodes
      requires root < nodes && root !in seen && IsClosed(seen, Edges())
      ensures visited == seen + set v | v in component
      ensures IsComponent(component, Edges(), nodes) && root in component && forall v :: v in component ==> v !in seen
    {
      component := [];
      var stack := [root];
      visited := seen + {root};
      ConnectedToSelf(Edges(), root);
      while stack != []
        invariant SearchState(seen, visited, component, stack, root, Edges(), nodes)
        decreases Below(nodes) - set v | v in component
      {
        var current := stack[|stack| - 1];
        var rest := stack[..|stack| - 1];
        assert rest + [current] == stack;
        var pushed;
        ghost var before := visited;
        visited, pushed := PushNeighbors(current, visited, rest);
        PopKeeps(seen, before, component, rest, current, root, Edges(), nodes, visited, pushed);
        ComponentGrows(component, current, nodes);
        component := component + [current];
        stack := rest + pushed;
      }
      SearchDone(seen, visited, component, root, Edges(), nodes);
    }

    /** The weakly connected components, found by searching from each node not visited yet. */
    method FindAllSubgraphs() returns (components: seq<seq<nat>>)
      requires forall e :: e in edges ==> e.0 < nodes && e.1 < nodes
      ensures ArePartition(components, nodes)
      ensures forall c :: 0 <= c < |components| ==> IsComponent(components[c], Edges(), nodes)
    {
      var visited: set<nat> := {};
      components := [];
      var root: nat := 0;
      while root < nodes
        invariant 0 <= root <= nodes
        invariant forall v: nat :: v in visited <==> IsCovered(components, v)
        invariant forall v: nat :: v < root ==> v in visited
        invariant IsClosed(visited, Edges())
        invariant forall c :: 0 <= c < |components| ==> IsComponent(components[c], Edges(), nodes)
        invariant AreDisjoint(components)
      {
        if root !in visited {
          var component;
          ghost var seen, found := visited, components;
          component, visited := Search(root, visited);
          components := components + [component];
          ComponentAdded(found, component, seen, visited, Edges(), nodes);
        }
        root := root + 1;
      }
    }
  }

  // ------------------------------------------------- why the search is right

  /** Every link out of `nodes` leads back into it. */
  ghost predicate IsClosed(nodes: set<nat>, rel: Relation)
  {
    forall a: nat, b: nat :: a in nodes && Linked(rel, a, b) ==> b in nodes
  }

  /** A connected component: its nodes are connected and nothing else is connected to them. */
  ghost predicate IsComponent(component: seq<nat>, rel: Relation, n: nat)
  {
    && component != [] && AllDistinct(component)
    && (forall v :: v in component ==> v < n)
    && forall a: nat, b: nat :: a in component ==> (b in component <==> Connected(rel, a, b))
  }

  ghost predicate SearchState(seen: set<nat>, visited: set<nat>, component: seq<nat>, stack: seq<nat>, root: nat,
      rel: Relation, n: nat)
  {
    && (forall v :: v in visited <==> v in seen || v in component || v in stack)
    && AllDistinct(component + stack)
    && (forall v :: v in component || v in stack ==> v !in seen && v < n && Connected(rel, root, v))
    && (forall a: nat, b: nat :: a in component && Linked(rel, a, b) ==> b in visited)
    && (root in component || root in stack)
  }

  function Below(n: nat): (s: set<nat>)
    ensures forall v: nat :: v in s <==> v < n
  {
    if n == 0 then {} else Below(n - 1) + {n - 1}
  }

  /** The search takes each node off the stack at most once, so it ends. */
  lemma {:induction false} ComponentGrows(component: seq<nat>, current: nat, n: nat)
    requires current !in component && current < n
    ensures (Below(n) - set v | v in component + [current]) < (Below(n) - set v | v in component)
  {
    assert current in Below(n) - set v | v in component;
  }

  lemma {:induction false} PopKeeps(seen: set<nat>, before: set<nat>, component: seq<nat>, rest: seq<nat>, current: nat,
      root: nat, rel: Relation, n: nat, visited: set<nat>, pushed: seq<nat>)
    requires SearchState(seen, before, component, rest + [current], root, rel, n)
    requires forall e :: e in rel ==> e.0 < n && e.1 < n
    requires visited == before + set v | v in pushed
    requires AllDistinct(pushed) && forall v :: v in pushed ==> v !in before && Linked(rel, current, v)
    requires forall v: nat :: Linked(rel, current, v) ==> v in visited
    ensures SearchState(seen, visited, component + [current], rest + pushed, root, rel, n)
    ensures current !in component && current < n
  {
    var old' := component + (rest + [current]);
    var new' := (component + [current]) + (rest + pushed);
    assert current in rest + [current];
    assert old'[|old'| - 1] == current;
    forall a, b | 0 <= a < b < |new'| ensures new'[a] != new'[b] {
      var k := |component|; var l := k + 1 + |rest|;
      if b >= l && a < l {
        assert new'[b] == pushed[b - l] && pushed[b - l] !in before;
        assert new'[a] == if a < k then old'[a] else if a == k then current else old'[a - 1];
      } else if b < l {
        assert new'[b] == if b < k then old'[b] else if b == k then current else old'[b - 1];
        assert new'[a] == if a < k then old'[a] else if a == k then current else old'[a - 1];
      } else {
        assert new'[a] == pushed[a - l] && new'[b] == pushed[b - l];
      }
    }
    forall v | v in pushed ensures v !in seen && v < n && Connected(rel, root, v) {
      ConnectedThenLinked(rel, root, current, v);
    }
    forall a | 0 <= a < |component| ensures component[a] != current {
      assert component[a] == old'[a] != old'[|old'| - 1];
    }
  }

  /** A connection never leaves a closed set. */
  lemma {:induction false} ClosedContainsReached(nodes: set<nat>, rel: Relation, a: nat, b: nat, k: nat)
    requires IsClosed(nodes, rel) && a in nodes && Reaches(rel, a, b, k)
    ensures b in nodes
    decreases k
  {
    if k > 0 {
      var m: nat :| Reaches(rel, a, m, k - 1) && Linked(rel, m, b);
      ClosedContainsReached(nodes, rel, a, m, k - 1);
    }
  }

  lemma {:induction false} SearchDone(seen: set<nat>, visited: set<nat>, component: seq<nat>, root: nat, rel: Relation,
      n: nat)
    requires SearchState(seen, visited, component, [], root, rel, n) && IsClosed(seen, rel)
    ensures IsComponent(component, rel, n) && visited == seen + set v | v in component
  {
    assert component + [] == component;
    var nodes := set v | v in component;
    forall a: nat, b: nat | a in nodes && Linked(rel, a, b) ensures b in nodes {
      if b in seen {
        assert Linked(rel, b, a);
        assert false;
      }
    }
    forall a: nat, b: nat | a in component ensures b in component <==> Connected(rel, a, b) {
      if b in component {
        ConnectedSymmetric(rel, root, a);
        ConnectedTransitive(rel, a, root, b);
      }
      if Connected(rel, a, b) {
        var k: nat :| Reaches(rel, a, b, k);
        ClosedContainsReached(nodes, rel, a, b, k);
      }
    }
  }

  lemma {:induction false} ComponentAdded(found: seq<seq<nat>>, component: seq<nat>, seen: set<nat>, visited: set<nat>,
      rel: Relation, n: nat)
    requires forall v: nat :: v in seen <==> IsCovered(found, v)
    requires visited == seen + set v | v in component
    requires IsClosed(seen, rel) && AreDisjoint(found) && IsComponent(component, rel, n)
    requires forall v :: v in component ==> v !in seen
    ensures AreDisjoint(found + [component]) && IsClosed(visited, rel)
    ensures forall v: nat :: v in visited <==> IsCovered(found + [component], v)
  {
    var all := found + [component];
    forall v: nat ensures v in visited <==> IsCovered(all, v) {
      if v in seen {
        assert IsCovered(found, v);
        var c :| 0 <= c < |found| && v in found[c];
        assert v in all[c];
      } else if v in component {
        assert v in all[|found|];
      }
    }
    forall a: nat, b: nat | a in visited && Linked(rel, a, b) ensures b in visited {
      if a in component {
        ConnectedToSelf(rel, a);
        ConnectedThenLinked(rel, a, a, b);
      }
    }
  }

  /** The last accessors after the first `k` objects of transaction `node`. */
  ghost predicate AccessorsDuring(batch: seq<Txn>, node: nat, k: nat, accessors: map<ObjectId, nat>,
      now: map<ObjectId, nat>)
    requires node < |batch| && k <= |batch[node].inputs|
  {
    && (forall o :: o in batch[node].inputs[..k] ==> o in now && now[o] == node)
    && (forall o :: o !in batch[node].inputs[..k] ==>
          (o in now <==> o in accessors) && (o in accessors ==> now[o] == accessors[o]))
  }

  lemma {:induction false} AccessorStep(batch: seq<Txn>, node: nat, k: nat, accessors: map<ObjectId, nat>,
      now: map<ObjectId, nat>)
    requires node < |batch| && k < |batch[node].inputs|
    requires LastAccessors(batch, node, accessors) && AccessorsDuring(batch, node, k, accessors, now)
    ensures var o := batch[node].inputs[k];
            && AccessorsDuring(batch, node, k + 1, accessors, now[o := node])
            && (o in now <==> LastAccessor(batch, node, k) >= 0)
            && (o in now ==> now[o] == LastAccessor(batch, node, k))
  {
    assert batch[node].inputs[..k + 1] == batch[node].inputs[..k] + [batch[node].inputs[k]];
  }

  lemma {:induction false} AccessorsDone(batch: seq<Txn>, node: nat, accessors: map<ObjectId, nat>,
      now: map<ObjectId, nat>)
    requires node < |batch| && LastAccessors(batch, node, accessors)
    requires AccessorsDuring(batch, node, |batch[node].inputs|, accessors, now)
    ensures LastAccessors(batch, node + 1, now)
  {
    assert batch[node].inputs[..|batch[node].inputs|] == batch[node].inputs;
  }

  ghost predicate LastAccessors(batch: seq<Txn>, n: nat, accessors: map<ObjectId, nat>)
    requires n <= |batch|
  {
    forall o ::
      && (o in accessors <==> LastToucher(batch, n, o) >= 0)
      && (o in accessors ==> accessors[o] == LastToucher(batch, n, o))
  }

  predicate AllDistinct(s: seq<nat>)
  {
    forall a, b :: 0 <= a < b < |s| ==> s[a] != s[b]
  }

  predicate AreDisjoint(components: seq<seq<nat>>)
  {
    forall a, b, v :: 0 <= a < b < |components| && v in components[a] ==> v !in components[b]
  }

  /** Every node below `n` is in exactly one component, once. */
  predicate ArePartition(components: seq<seq<nat>>, n: nat)
  {
    && AreDisjoint(components)
    && (forall c :: 0 <= c < |components| ==> components[c] != [] && AllDistinct(components[c]))
    && (forall c, v :: 0 <= c < |components| && v in components[c] ==> v < n)
    && (forall v: nat :: v < n ==> IsCovered(components, v))
  }

  predicate IsCovered(components: seq<seq<nat>>, v: nat)
  {
    exists c :: 0 <= c < |components| && v in components[c]
  }

  // ------------------------------------------------- the routing plan

  /** The components of a batch are the classes of the transitive closure of sharing an
      object: two transactions of the batch are in the same component exactly when a
      chain of shared objects connects them. */
  lemma {:induction false} ComponentsAreSharingClasses(batch: seq<Txn>, component: seq<nat>, a: nat, b: nat)
    requires IsComponent(component, SparseEdges(batch, |batch|), |batch|) && a in component
    ensures b in component <==> Connected(Conflicts(batch), a, b)
  {
    SparseGraphAgrees(batch, a, b);
  }

  /** Transactions of different components touch disjoint objects. */
  lemma {:induction false} SharersAreTogether(batch: seq<Txn>, component: seq<nat>, a: nat, b: nat)
    requires IsComponent(component, SparseEdges(batch, |batch|), |batch|) && a in component && Share(batch, a, b)
    ensures b in component
  {
    ConnectedToSelf(Conflicts(batch), a);
    ConnectedThenLinked(Conflicts(batch), a, a, b);
    ComponentsAreSharingClasses(batch, component, a, b);
  }

  /** The plan sends each component of two or more transactions to one proxy. */
  ghost predicate IsPlan(components: seq<seq<nat>>, plan: map<nat, ProxyId>, proxies: nat)
  {
    && (forall v :: v in plan <==> exists c :: 0 <= c < |components| && |components[c]| >= 2 && v in components[c])
    && (forall v :: v in plan ==> plan[v] < proxies)
    && (forall c, v, u ::
          0 <= c < |components| && v in components[c] && u in components[c] && v in plan && u in plan ==>
          plan[v] == plan[u])
  }

  /** The state of the plan after the first `n` components. */
  ghost predicate PlannedUpTo(components: seq<seq<nat>>, plan: map<nat, ProxyId>, choices: seq<ProxyId>, n: nat)
    requires n <= |components| == |choices|
  {
    && (forall v :: v in plan ==>
          exists c :: 0 <= c < n && |components[c]| >= 2 && v in components[c] && plan[v] == choices[c])
    && (forall c, v :: 0 <= c < n && |components[c]| >= 2 && v in components[c] ==> v in plan)
  }

  lemma {:induction false} PlanOneMore(components: seq<seq<nat>>, plan: map<nat, ProxyId>, after: map<nat, ProxyId>,
      choices: seq<ProxyId>, n: nat)
    requires n < |components| == |choices| && AreDisjoint(components) && PlannedUpTo(components, plan, choices, n)
    requires after == if |components[n]| >= 2 then plan + map v | v in components[n] :: choices[n] else plan
    ensures PlannedUpTo(components, after, choices, n + 1)
  {
    forall v | v in after
      ensures exists c :: 0 <= c < n + 1 && |components[c]| >= 2 && v in components[c] && after[v] == choices[c]
    {
      if v in plan {
        var c :| 0 <= c < n && |components[c]| >= 2 && v in components[c] && plan[v] == choices[c];
        assert v !in components[n];
      } else {
        assert v in components[n];
      }
    }
  }

  lemma {:induction false} PlannedIsPlan(components: seq<seq<nat>>, plan: map<nat, ProxyId>, choices: seq<ProxyId>,
      proxies: nat)
    requires |components| == |choices| && AreDisjoint(components)
    requires PlannedUpTo(components, plan, choices, |components|)
    requires forall c :: 0 <= c < |choices| ==> choices[c] < proxies
    ensures IsPlan(components, plan, proxies)
    ensures forall c, v :: 0 <= c < |components| && v in components[c] && v in plan ==> plan[v] == choices[c]
  {
    forall c, v | 0 <= c < |components| && v in components[c] && v in plan ensures plan[v] == choices[c] {
      var k :| 0 <= k < |components| && |components[k]| >= 2 && v in components[k] && plan[v] == choices[k];
      assert k == c;
    }
  }

  /** Assigns every large component to a proxy. `choices` stands for the scoring. */
  method HandleLargeSubgraphs(components: seq<seq<nat>>, choices: seq<ProxyId>, proxies: nat)
    returns (plan: map<nat, ProxyId>)
    requires AreDisjoint(components) && |choices| == |components|
    requires forall c :: 0 <= c < |choices| ==> choices[c] < proxies
    ensures IsPlan(components, plan, proxies)
    ensures forall c, v :: 0 <= c < |components| && v in components[c] && v in plan ==> plan[v] == choices[c]
  {
    plan := map[];
    var n := 0;
    while n < |components|
      invariant 0 <= n <= |components|
      invariant PlannedUpTo(components, plan, choices, n)
    {
      ghost var before := plan;
      if |components[n]| >= 2 {
        plan := plan + map v | v in components[n] :: choices[n];
      }
      PlanOneMore(components, before, plan, choices, n);
      n := n + 1;
    }
    PlannedIsPlan(components, plan, choices, proxies);
  }

  /** `at` says where the transactions of the batch are in the commit sequence; those
      without shared objects are never assigned versions and need not be there. They
      go where the batch's plan, installed beforehand, says. */
  ghost predicate FollowsPlan(w: Workload, batch: seq<Txn>, at: map<nat, nat>, plan: map<nat, ProxyId>)
  {
    && ValidWorkload(w)
    && (forall v: nat :: v < |batch| && batch[v].inputs != [] ==> v in at)
    && forall v :: v in at ==>
      && v < |batch| && at[v] < |w.txns| && w.txns[at[v]].inputs == batch[v].inputs
      && (v in plan ==> w.route[at[v]] == plan[v])
  }

  /** Every transaction of the batch that touches `o` goes to the proxy of batch member
      `b`, and `b` is not told to fetch a version of `o` that the batch produces: a
      reported owner's version was produced by a transaction outside the batch. */
  ghost predicate NothingMigrates(w: Workload, batch: seq<Txn>, at: map<nat, nat>, b: nat, o: ObjectId)
    requires b < |batch| && o in batch[b].inputs
  {
    && ValidWorkload(w) && b in at && at[b] < |w.txns| && o in w.txns[at[b]].inputs
    && (forall a :: a in at && a < |batch| && o in batch[a].inputs ==>
          at[a] < |w.txns| && w.route[at[a]] == w.route[at[b]])
    && (Owners(w.txns, w.route, at[b])[o].Some? ==>
          var j := LastToucher(w.txns, at[b], o);
          j >= 0 && forall a :: a in at ==> at[a] != j)
  }

  /** Transactions that share an object are planned for the same proxy. */
  ghost predicate KeepsSharersTogether(batch: seq<Txn>, plan: map<nat, ProxyId>)
  {
    forall a, b :: Share(batch, a, b) && a != b ==> a in plan && b in plan && plan[a] == plan[b]
  }

  /** If the plan is installed before the batch is forwarded, nothing migrates within it. */
  lemma {:induction false} NoIntraBatchMigration(w: Workload, batch: seq<Txn>, at: map<nat, nat>,
      plan: map<nat, ProxyId>, b: nat, o: ObjectId)
    requires FollowsPlan(w, batch, at, plan) && KeepsSharersTogether(batch, plan)
    requires b < |batch| && o in batch[b].inputs
    ensures NothingMigrates(w, batch, at, b, o)
  {
    forall a | a in at && o in batch[a].inputs ensures w.route[at[a]] == w.route[at[b]] {
      assert Share(batch, a, b);
    }
    var j := LastToucher(w.txns, at[b], o);
    if a :| a in at && at[a] == j {
      assert o in batch[a].inputs;
    }
  }

  lemma {:induction false} PlannedTogether(components: seq<seq<nat>>, plan: map<nat, ProxyId>, proxies: nat, c: nat,
      a: nat, b: nat)
    requires IsPlan(components, plan, proxies) && c < |components| && a in components[c] && b in components[c] && a != b
    ensures a in plan && b in plan && plan[a] == plan[b]
  {
    var x :| 0 <= x < |components[c]| && components[c][x] == a;
    var y :| 0 <= y < |components[c]| && components[c][y] == b;
    assert x != y;
  }

  lemma {:induction false} PlanKeepsSharersTogether(batch: seq<Txn>, components: seq<seq<nat>>, plan: map<nat, ProxyId>,
      proxies: nat)
    requires ArePartition(components, |batch|) && IsPlan(components, plan, proxies)
    requires forall c :: 0 <= c < |components| ==> IsComponent(components[c], SparseEdges(batch, |batch|), |batch|)
    ensures KeepsSharersTogether(batch, plan)
  {
    forall a, b | Share(batch, a, b) && a != b ensures a in plan && b in plan && plan[a] == plan[b] {
      assert IsCovered(components, a);
      var c :| 0 <= c < |components| && a in components[c];
      SharersAreTogether(batch, components[c], a, b);
      PlannedTogether(components, plan, proxies, c, a, b);
    }
  }

  /** `p` is what the scoring chose for the component of transaction `v`. */
  ghost predicate IsChosen(batch: seq<Txn>, choose: seq<nat> -> ProxyId, v: nat, p: ProxyId)
  {
    exists component :: IsComponent(component, SparseEdges(batch, |batch|), |batch|) && v in component
                        && p == choose(component)
  }

  lemma {:induction false} PlannedIsChosen(batch: seq<Txn>, components: seq<seq<nat>>, plan: map<nat, ProxyId>,
      choose: seq<nat> -> ProxyId, proxies: nat, v: nat)
    requires forall c :: 0 <= c < |components| ==> IsComponent(components[c], SparseEdges(batch, |batch|), |batch|)
    requires IsPlan(components, plan, proxies) && v in plan
    requires forall c, v :: 0 <= c < |components| && v in components[c] && v in plan ==>
               plan[v] == choose(components[c])
    ensures IsChosen(batch, choose, v, plan[v]) && exists u :: u != v && Share(batch, v, u)
  {
    var c :| 0 <= c < |components| && |components[c]| >= 2 && v in components[c];
    var u := PlannedHasSharer(batch, components[c], v);
  }

  /** Schedules a batch: graph, components, plan. Transactions that share an object are
      kept together; a transaction that shares none is left to be routed later. If the
      plan is installed before the batch is forwarded, nothing migrates within the batch,
      wherever its transactions come in whatever commit sequence. */
  method ScheduleBatch(batch: seq<Txn>, choose: seq<nat> -> ProxyId, proxies: nat) returns (plan: map<nat, ProxyId>)
    requires forall c :: choose(c) < proxies
    ensures KeepsSharersTogether(batch, plan)
    ensures forall v :: v in plan ==> plan[v] < proxies && exists u :: u != v && Share(batch, v, u)
    ensures forall v :: v in plan ==> IsChosen(batch, choose, v, plan[v])
    ensures forall w, at, b: nat, o ::
      FollowsPlan(w, batch, at, plan) && b < |batch| && o in batch[b].inputs ==> NothingMigrates(w, batch, at, b, o)
  {
    var graph := new DependencyGraph();
    graph.BuildDependencyGraph(batch);
    forall e | e in graph.edges ensures e.0 < graph.nodes && e.1 < graph.nodes {
      assert (e.0, e.1) in graph.Edges();
      SparseEdgesShare(batch, |batch|, e.0, e.1);
    }
    var components := graph.FindAllSubgraphs();
    var choices := seq(|components|, c requires 0 <= c < |components| => choose(components[c]));
    plan := HandleLargeSubgraphs(components, choices, proxies);
    PlanKeepsSharersTogether(batch, components, plan, proxies);
    forall v | v in plan ensures IsChosen(batch, choose, v, plan[v]) && exists u :: u != v && Share(batch, v, u) {
      PlannedIsChosen(batch, components, plan, choose, proxies, v);
    }
    forall w, at, b: nat, o | FollowsPlan(w, batch, at, plan) && b < |batch| && o in batch[b].inputs
      ensures NothingMigrates(w, batch, at, b, o)
    {
      NoIntraBatchMigration(w, batch, at, plan, b, o);
    }
  }

  /** A node of a large component is linked to another one. */
  lemma {:induction false} PlannedHasSharer(batch: seq<Txn>, component: seq<nat>, v: nat) returns (u: nat)
    requires IsComponent(component, SparseEdges(batch, |batch|), |batch|) && |component| >= 2 && v in component
    ensures u != v && Share(batch, v, u)
  {
    var other := if component[0] == v then component[1] else component[0];
    assert component[0] in component && component[1] in component;
    ComponentsAreSharingClasses(batch, component, v, other);
    var k: nat :| Reaches(Conflicts(batch), v, other, k);
    u := FirstStepAway(batch, v, other, k);
  }

  lemma {:induction false} FirstStepAway(batch: seq<Txn>, v: nat, w: nat, k: nat) returns (u: nat)
    requires Reaches(Conflicts(batch), v, w, k) && v != w
    ensures u != v && Share(batch, v, u)
    decreases k
  {
    var m: nat :| Reaches(Conflicts(batch), v, m, k - 1) && Linked(Conflicts(batch), m, w);
    if m == v {
      u := w;
    } else {
      u := FirstStepAway(batch, v, m, k - 1);
    }
  }
}
