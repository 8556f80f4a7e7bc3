/** Undirected graphs on 0, ..., d - 1 given by their edges, connection by a path, and labellings that are constant
    along paths. */
module Graphs {
  type Edge = (nat, nat)

  predicate Adjacent(edges: set<Edge>, a: nat, b: nat) {
    a == b || (a, b) in edges || (b, a) in edges
  }

  ghost predicate IsPath(edges: set<Edge>, p: seq<nat>) {
    p != [] && forall k :: 0 <= k < |p| - 1 ==> Adjacent(edges, p[k], p[k + 1])
  }

  ghost predicate PathBetween(edges: set<Edge>, p: seq<nat>, a: nat, b: nat) {
    IsPath(edges, p) && p[0] == a && p[|p| - 1] == b
  }

  /** Some path of edges, taken in either direction, leads from a to b. */
  ghost predicate Connected(edges: set<Edge>, a: nat, b: nat) {
    exists p :: PathBetween(edges, p, a, b)
  }

  lemma {:induction false} ConnectedSelf(edges: set<Edge>, a: nat)
    ensures Connected(edges, a, a)
  {
    assert PathBetween(edges, [a], a, a);
  }

  lemma {:induction false} ConnectedTrans(edges: set<Edge>, a: nat, b: nat, c: nat)
    requires Connected(edges, a, b) && Connected(edges, b, c)
    ensures Connected(edges, a, c)
  {
    var p :| PathBetween(edges, p, a, b);
    var q :| PathBetween(edges, q, b, c);
    var r := p + q;
    forall k | 0 <= k < |r| - 1
      ensures Adjacent(edges, r[k], r[k + 1])
    {
      if k < |p| - 1 {
        assert Adjacent(edges, p[k], p[k + 1]);
      } else if k >= |p| {
        assert Adjacent(edges, q[k - |p|], q[k - |p| + 1]);
      }
    }
    assert PathBetween(edges, r, a, c);
  }

  lemma {:induction false} ConnectedSym(edges: set<Edge>, a: nat, b: nat)
    requires Connected(edges, a, b)
    ensures Connected(edges, b, a)
  {
    var p :| PathBetween(edges, p, a, b);
    var r := seq(|p|, i requires 0 <= i < |p| => p[|p| - 1 - i]);
    forall k | 0 <= k < |r| - 1
      ensures Adjacent(edges, r[k], r[k + 1])
    {
      assert Adjacent(edges, p[|p| - 2 - k], p[|p| - 2 - k + 1]);
    }
    assert PathBetween(edges, r, b, a);
  }

  lemma {:induction false} ConnectedMore(edges: set<Edge>, more: set<Edge>, a: nat, b: nat)
    requires edges <= more && Connected(edges, a, b)
    ensures Connected(more, a, b)
  {
    var p :| PathBetween(edges, p, a, b);
    forall k | 0 <= k < |p| - 1
      ensures Adjacent(more, p[k], p[k + 1])
    {
      assert Adjacent(edges, p[k], p[k + 1]);
    }
    assert PathBetween(more, p, a, b);
  }

  lemma {:induction false} ConnectedEdge(edges: set<Edge>, a: nat, b: nat)
    requires (a, b) in edges
    ensures Connected(edges, a, b)
  {
    assert PathBetween(edges, [a, b], a, b);
  }

  /** A labelling that every edge respects is constant along paths. */
  lemma {:induction false} LabelAlongPath(edges: set<Edge>, p: seq<nat>, mark: nat -> nat, a: nat, b: nat)
    requires PathBetween(edges, p, a, b)
    requires forall e :: e in edges ==> mark(e.0) == mark(e.1)
    ensures mark(a) == mark(b)
    decreases |p|
  {
    if |p| > 1 {
      assert Adjacent(edges, p[0], p[1]);
      var t := p[1..];
      forall k | 0 <= k < |t| - 1
        ensures Adjacent(edges, t[k], t[k + 1])
      {
        assert Adjacent(edges, p[k + 1], p[k + 2]);
      }
      LabelAlongPath(edges, t, mark, p[1], b);
      assert (p[0], p[1]) in edges || (p[1], p[0]) in edges || p[0] == p[1];
    }
  }

  lemma {:induction false} LabelOnComponents(edges: set<Edge>, mark: nat -> nat, a: nat, b: nat)
    requires Connected(edges, a, b)
    requires forall e :: e in edges ==> mark(e.0) == mark(e.1)
    ensures mark(a) == mark(b)
  {
    var p :| PathBetween(edges, p, a, b);
    LabelAlongPath(edges, p, mark, a, b);
  }
}
