/** In-place union-find with path halving on a parent array. */
module UnionFind {
  import opened Graphs

  /** Links from a lead to root[a]; dist[a] bounds how many of them. */
  ghost predicate LinksToRoot(parent: seq<nat>, root: seq<nat>, dist: seq<nat>, a: nat)
    requires |parent| == |root| == |dist| && a < |parent|
  {
    && parent[a] < |parent| && root[a] < |parent|
    && root[parent[a]] == root[a] && parent[root[a]] == root[a]
    && if parent[a] == a then root[a] == a else dist[parent[a]] < dist[a]
  }

  ghost predicate Forest(parent: seq<nat>, root: seq<nat>, dist: seq<nat>) {
    |parent| == |root| == |dist| && forall a :: 0 <= a < |parent| ==> LinksToRoot(parent, root, dist, a)
  }

  /** The roots mark the connected components of the edges joined so far. */
  ghost predicate Components(root: seq<nat>, edges: set<Edge>) {
    && (forall e :: e in edges ==> e.0 < |root| && e.1 < |root|)
    && (forall a, b :: 0 <= a < |root| && 0 <= b < |root| ==> (root[a] == root[b] <==> Connected(edges, a, b)))
  }

  method Find(parent: array<nat>, start: nat, ghost root: seq<nat>, ghost dist: seq<nat>) returns (r: nat)
    requires start < parent.Length && Forest(parent[..], root, dist)
    modifies parent
    ensures Forest(parent[..], root, dist)
    ensures r == root[start]
  {
    var a: nat := start;
    assert LinksToRoot(parent[..], root, dist, a);
    while parent[a] != a
      invariant a < parent.Length == |root| == |dist| && Forest(parent[..], root, dist)
      invariant LinksToRoot(parent[..], root, dist, a) && root[a] == root[start]
      decreases dist[a]
    {
      ghost var before := parent[..];
      assert LinksToRoot(before, root, dist, before[a]);
      HalvingKeepsForest(before, root, dist, a);
      parent[a] := parent[parent[a]];
      assert parent[..] == before[a := before[before[a]]];
      a := parent[a];
      assert LinksToRoot(parent[..], root, dist, a);
    }
    return a;
  }

  lemma {:induction false} HalvingKeepsForest(parent: seq<nat>, root: seq<nat>, dist: seq<nat>, a: nat)
    requires Forest(parent, root, dist) && a < |parent| && parent[a] != a
    ensures parent[a] < |parent| && parent[parent[a]] < |parent|
    ensures Forest(parent[a := parent[parent[a]]], root, dist)
    ensures root[parent[parent[a]]] == root[a] && dist[parent[parent[a]]] < dist[a]
  {
    assert LinksToRoot(parent, root, dist, a);
    assert LinksToRoot(parent, root, dist, parent[a]);
    var p := parent[a := parent[parent[a]]];
    forall x | 0 <= x < |p|
      ensures LinksToRoot(p, root, dist, x)
    {
      assert LinksToRoot(parent, root, dist, x);
      assert LinksToRoot(parent, root, dist, root[x]);
    }
  }

  // ---- joining two trees -------------------------------------------------------

  function JoinedRoot(root: seq<nat>, from: nat, to: nat): seq<nat> {
    seq(|root|, a requires 0 <= a < |root| => if root[a] == from then to else root[a])
  }

  function JoinedDist(root: seq<nat>, dist: seq<nat>, from: nat, to: nat): seq<nat>
    requires |root| == |dist| && to < |root|
  {
    if from == to then dist
    else seq(|root|, a requires 0 <= a < |root| => if root[a] == from then dist[a] + dist[to] + 1 else dist[a])
  }

  lemma {:induction false} LinkKeepsForest(parent: seq<nat>, root: seq<nat>, dist: seq<nat>, from: nat, to: nat)
    requires Forest(parent, root, dist) && from < |parent| && to < |parent|
    requires root[from] == from && root[to] == to
    ensures Forest(parent[from := to], JoinedRoot(root, from, to), JoinedDist(root, dist, from, to))
  {
    var p, r, d := parent[from := to], JoinedRoot(root, from, to), JoinedDist(root, dist, from, to);
    assert LinksToRoot(parent, root, dist, from) && LinksToRoot(parent, root, dist, to);
    forall x | 0 <= x < |p|
      ensures LinksToRoot(p, r, d, x)
    {
      assert LinksToRoot(parent, root, dist, x);
      assert LinksToRoot(parent, root, dist, root[x]);
    }
  }

  /** Joining the roots of an edge's ends: components of the edges plus that edge. */
  lemma {:induction false} JoinAddsEdge(root: seq<nat>, edges: set<Edge>, i: nat, j: nat)
    requires Components(root, edges) && i < |root| && j < |root|
    requires forall a :: 0 <= a < |root| ==> root[a] < |root| && root[root[a]] == root[a]
    ensures Components(JoinedRoot(root, root[i], root[j]), edges + {(i, j)})
  {
    var more, r := edges + {(i, j)}, JoinedRoot(root, root[i], root[j]);
    forall a, b | 0 <= a < |root| && 0 <= b < |root|
      ensures r[a] == r[b] <==> Connected(more, a, b)
    {
      if r[a] == r[b] {
        JoinedIsConnected(root, edges, i, j, a, b);
      }
      if Connected(more, a, b) {
        var mark := (x: nat) => if x < |r| then r[x] else x;
        forall e | e in more
          ensures mark(e.0) == mark(e.1)
        {
          if e in edges {
            ConnectedEdge(edges, e.0, e.1);
            assert root[e.0] == root[e.1];
          }
        }
        LabelOnComponents(more, mark, a, b);
      }
    }
  }

  lemma {:induction false} JoinedIsConnected(root: seq<nat>, edges: set<Edge>, i: nat, j: nat, a: nat, b: nat)
    requires Components(root, edges) && i < |root| && j < |root| && a < |root| && b < |root|
    requires JoinedRoot(root, root[i], root[j])[a] == JoinedRoot(root, root[i], root[j])[b]
    ensures Connected(edges + {(i, j)}, a, b)
  {
    var more := edges + {(i, j)};
    if root[a] == root[b] {
      ConnectedMore(edges, more, a, b);
    } else if root[a] == root[i] {
      Across(root, edges, i, j, a, b);
    } else {
      Across(root, edges, i, j, b, a);
      ConnectedSym(more, b, a);
    }
  }

  lemma {:induction false} Across(root: seq<nat>, edges: set<Edge>, i: nat, j: nat, a: nat, b: nat)
    requires Components(root, edges) && i < |root| && j < |root| && a < |root| && b < |root|
    requires root[a] == root[i] && root[b] == root[j]
    ensures Connected(edges + {(i, j)}, a, b)
  {
    var more := edges + {(i, j)};
    ConnectedMore(edges, more, a, i);
    ConnectedEdge(more, i, j);
    ConnectedMore(edges, more, j, b);
    ConnectedTrans(more, a, i, j);
    ConnectedTrans(more, a, j, b);
  }

  /** Links the root of i under the root of j; the right-hand side is evaluated first. */
  method Union(parent: array<nat>, i: nat, j: nat, ghost root: seq<nat>, ghost dist: seq<nat>, ghost edges: set<Edge>)
    returns (ghost root': seq<nat>, ghost dist': seq<nat>)
    requires i < parent.Length && j < parent.Length
    requires Forest(parent[..], root, dist) && Components(root, edges)
    modifies parent
    ensures Forest(parent[..], root', dist') && Components(root', edges + {(i, j)})
  {
    var to := Find(parent, j, root, dist);
    var from := Find(parent, i, root, dist);
    ghost var before := parent[..];
    RootsAreRoots(before, root, dist);
    root', dist' := JoinedRoot(root, from, to), JoinedDist(root, dist, from, to);
    LinkKeepsForest(before, root, dist, from, to);
    JoinAddsEdge(root, edges, i, j);
    parent[from] := to;
    assert parent[..] == before[from := to];
  }

  lemma {:induction false} RootsAreRoots(parent: seq<nat>, root: seq<nat>, dist: seq<nat>)
    requires Forest(parent, root, dist)
    ensures forall a :: 0 <= a < |root| ==> root[a] < |root| && root[root[a]] == root[a]
  {
    forall a | 0 <= a < |root|
      ensures root[a] < |root| && root[root[a]] == root[a]
    {
      assert LinksToRoot(parent, root, dist, a);
      assert LinksToRoot(parent, root, dist, root[a]);
    }
  }

  lemma {:induction false} SingletonsAreComponents(n: nat)
    ensures Forest(seq(n, i => i), seq(n, i => i), seq(n, i => 0))
    ensures Components(seq(n, i => i), {})
  {
    var ids := seq(n, i => i);
    forall a, b | 0 <= a < n && 0 <= b < n
      ensures ids[a] == ids[b] <==> Connected({}, a, b)
    {
      ConnectedSelf({}, a);
      if Connected({}, a, b) {
        LabelOnComponents({}, (x: nat) => x, a, b);
      }
    }
  }
}
