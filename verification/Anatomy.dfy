/** Learned anatomy. */
module Anatomies {
  // Stable edges by vote; organs as the connected components of the stable graph.

  import opened Sequences
  import opened Sums
  import opened Graphs
  import opened UnionFind
  import opened Results

  const EDGE_BETA_MIN := 0.15
  const STABILITY_FRACTION := 0.8
  const N_SUBSAMPLES: nat := 5
  const ORGAN_ELEV_RUN: nat := 8

  /** Votes an edge needs: the fraction of the subsamples, rounded up. */
  const VOTES_NEEDED: int := -((-(STABILITY_FRACTION * N_SUBSAMPLES as real)).Floor)

  /** One half-sample fit: its usable channels and its standardised coefficients. */
  datatype Fit = Fit(channels: seq<string>, beta: (nat, nat) -> real)

  predicate Strong(f: Fit, i: nat, j: nat) {
    Max(Abs(f.beta(i, j)), Abs(f.beta(j, i))) > EDGE_BETA_MIN
  }

  /** A fit votes only when its channel set is that of the first fit. */
  predicate Votes(fits: seq<Fit>, s: nat, i: nat, j: nat)
    requires s < |fits|
  {
    fits[s].channels == fits[0].channels && Strong(fits[s], i, j)
  }

  function VoteCount(fits: seq<Fit>, n: nat, i: nat, j: nat): nat
    requires n <= |fits|
  {
    if n == 0 then 0 else VoteCount(fits, n - 1, i, j) + if Votes(fits, n - 1, i, j) then 1 else 0
  }

  function UsableCount(fits: seq<Fit>, n: nat): nat
    requires n <= |fits|
  {
    if n == 0 then 0
    else UsableCount(fits, n - 1) + if fits[n - 1].channels == fits[0].channels then 1 else 0
  }

  ghost function StableEdges(fits: seq<Fit>): set<Edge>
    requires fits != []
  {
    set i: nat, j: nat | i < j < |fits[0].channels| && VoteCount(fits, |fits|, i, j) >= VOTES_NEEDED :: (i, j)
  }

  // ---- the votes as sets of fits -------------------------------------------------------------------

  /** A fit of the same channels as the first whose coefficient between two of them exceeds 0.15 in size, in either
      direction. */
  ghost predicate Links(fits: seq<Fit>, s: nat, i: nat, j: nat) {
    && s < |fits| && fits[s].channels == fits[0].channels
    && (fits[s].beta(i, j) > 0.15 || fits[s].beta(i, j) < -0.15 || fits[s].beta(j, i) > 0.15 || fits[s].beta(j, i) < -0.15)
  }

  ghost predicate IsAlike(fits: seq<Fit>, s: nat) { s < |fits| && fits[s].channels == fits[0].channels }

  ghost function Alike(fits: seq<Fit>, n: nat): set<nat> { set s: nat | s < n && IsAlike(fits, s) }

  ghost function Linking(fits: seq<Fit>, n: nat, i: nat, j: nat): set<nat> { set s: nat | s < n && Links(fits, s, i, j) }

  /** Pairs of channels that at least four fits link. */
  ghost function AgreedEdges(fits: seq<Fit>): set<Edge>
    requires fits != []
  {
    set i: nat, j: nat | i < j < |fits[0].channels| && |Linking(fits, |fits|, i, j)| >= 4 :: (i, j)
  }

  lemma {:induction false} OneMoreFit(fits: seq<Fit>, n: nat, i: nat, j: nat)
    ensures |Alike(fits, n + 1)| == |Alike(fits, n)| + if IsAlike(fits, n) then 1 else 0
    ensures |Linking(fits, n + 1, i, j)| == |Linking(fits, n, i, j)| + if Links(fits, n, i, j) then 1 else 0
  {
    hide Links, IsAlike;
    var alike, linking := Alike(fits, n), Linking(fits, n, i, j);
    if IsAlike(fits, n) {
      assert Alike(fits, n + 1) == alike + {n};
    } else {
      assert Alike(fits, n + 1) == alike;
    }
    if Links(fits, n, i, j) {
      assert Linking(fits, n + 1, i, j) == linking + {n};
    } else {
      assert Linking(fits, n + 1, i, j) == linking;
    }
  }

  lemma {:induction false} VoteIsLink(fits: seq<Fit>, s: nat, i: nat, j: nat)
    requires s < |fits|
    ensures Votes(fits, s, i, j) <==> Links(fits, s, i, j)
  {
  }

  lemma {:induction false} VotesAreFits(fits: seq<Fit>, n: nat, i: nat, j: nat)
    requires n <= |fits|
    ensures VoteCount(fits, n, i, j) == |Linking(fits, n, i, j)| && UsableCount(fits, n) == |Alike(fits, n)|
  {
    if n > 0 {
      VotesAreFits(fits, n - 1, i, j);
      OneMoreFit(fits, n - 1, i, j);
      VoteIsLink(fits, n - 1, i, j);
      hide Alike, Linking, Links, Votes;
    } else {
      assert Alike(fits, 0) == {} && Linking(fits, 0, i, j) == {};
    }
  }

  lemma {:induction false} StableIsAgreed(fits: seq<Fit>)
    requires fits != []
    ensures StableEdges(fits) == AgreedEdges(fits)
  {
    hide VoteCount, Linking;
    forall i: nat, j: nat | i < j < |fits[0].channels|
      ensures VoteCount(fits, |fits|, i, j) >= VOTES_NEEDED <==> |Linking(fits, |fits|, i, j)| >= 4
    {
      VotesAreFits(fits, |fits|, i, j);
    }
  }

  function Tally(votes: map<Edge, nat>, i: nat, j: nat): nat {
    if (i, j) in votes then votes[(i, j)] else 0
  }

  ghost predicate KeysBelow(votes: map<Edge, nat>, d: nat) {
    forall e :: e in votes ==> e.0 < e.1 < d
  }

  /** Pairs before (i, j) in row order have n + 1 fits counted, the others n. */
  ghost predicate Counted(fits: seq<Fit>, votes: map<Edge, nat>, d: nat, n: nat, i: nat, j: nat)
    requires n < |fits|
  {
    KeysBelow(votes, d)
    && forall a: nat, b: nat :: a < b < d ==>
         Tally(votes, a, b) == VoteCount(fits, if a < i || (a == i && b < j) then n + 1 else n, a, b)
  }

  lemma {:induction false} CountedStep(fits: seq<Fit>, votes: map<Edge, nat>, d: nat, n: nat, i: nat, j: nat)
    requires n < |fits| && i < j < d && fits[n].channels == fits[0].channels && Counted(fits, votes, d, n, i, j)
    ensures Counted(fits, if Strong(fits[n], i, j) then votes[(i, j) := Tally(votes, i, j) + 1] else votes, d, n, i, j + 1)
  {
    var next := if Strong(fits[n], i, j) then votes[(i, j) := Tally(votes, i, j) + 1] else votes;
    forall a: nat, b: nat | a < b < d
      ensures Tally(next, a, b) == VoteCount(fits, if a < i || (a == i && b < j + 1) then n + 1 else n, a, b)
    {
      assert Tally(votes, a, b) == VoteCount(fits, if a < i || (a == i && b < j) then n + 1 else n, a, b);
    }
  }

  method CountVotes(fits: seq<Fit>) returns (votes: map<Edge, nat>, usable: nat)
    requires fits != []
    ensures usable == UsableCount(fits, |fits|)
    ensures KeysBelow(votes, |fits[0].channels|)
    ensures forall a: nat, b: nat :: a < b < |fits[0].channels| ==> Tally(votes, a, b) == VoteCount(fits, |fits|, a, b)
  {
    votes, usable := map[], 0;
    var d := |fits[0].channels|;
    for s := 0 to |fits|
      invariant usable == UsableCount(fits, s) && KeysBelow(votes, d)
      invariant forall a: nat, b: nat :: a < b < d ==> Tally(votes, a, b) == VoteCount(fits, s, a, b)
    {
      if fits[s].channels != fits[0].channels {
        continue;
      }
      usable := usable + 1;
      for i := 0 to d
        invariant Counted(fits, votes, d, s, i, 0)
      {
        for j := i + 1 to d
          invariant Counted(fits, votes, d, s, i, j)
        {
          CountedStep(fits, votes, d, s, i, j);
          if Strong(fits[s], i, j) {
            votes := votes[(i, j) := Tally(votes, i, j) + 1];
          }
        }
      }
    }
  }

  // ---- organs ----------------------------------------------------------------------

  /** Names of the channels below n whose root is r, in channel order. */
  function NamesWith(channels: seq<string>, root: seq<nat>, r: nat, n: nat): seq<string>
    requires n <= |channels| == |root|
  {
    if n == 0 then []
    else NamesWith(channels, root, r, n - 1) + if root[n - 1] == r then [channels[n - 1]] else []
  }

  lemma {:induction false} NamesWithMembers(channels: seq<string>, root: seq<nat>, r: nat, n: nat, a: nat)
    requires n <= |channels| == |root| && a < |channels| && Distinct(channels)
    ensures channels[a] in NamesWith(channels, root, r, n) <==> a < n && root[a] == r
  {
    if n > 0 {
      NamesWithMembers(channels, root, r, n - 1, a);
    }
  }

  lemma {:induction false} NamesAreChannels(channels: seq<string>, root: seq<nat>, r: nat, n: nat, name: string)
    requires n <= |channels| == |root| && name in NamesWith(channels, root, r, n)
    ensures exists a :: 0 <= a < n && channels[a] == name && root[a] == r
  {
    if n > 0 && name in NamesWith(channels, root, r, n - 1) {
      NamesAreChannels(channels, root, r, n - 1, name);
    }
  }

  function InsertBySize(r: nat, order: seq<nat>, groups: map<nat, seq<string>>): (o: seq<nat>)
    requires r in groups && forall x :: x in order ==> x in groups
    ensures |o| == |order| + 1 && multiset(o) == multiset(order) + multiset{r}
    ensures o[0] == r || (order != [] && o[0] == order[0])
    ensures forall x :: x in o ==> x in groups
  {
    if order == [] || |groups[r]| >= |groups[order[0]]| then [r] + order
    else
      assert order == [order[0]] + order[1..];
      [order[0]] + InsertBySize(r, order[1..], groups)
  }

  /** Roots by group size, largest first; ties keep their order. */
  function SortBySize(order: seq<nat>, groups: map<nat, seq<string>>): (o: seq<nat>)
    requires forall x :: x in order ==> x in groups
    ensures |o| == |order| && multiset(o) == multiset(order)
    ensures forall x :: x in o ==> x in groups
  {
    if order == [] then []
    else
      assert order == [order[0]] + order[1..];
      InsertBySize(order[0], SortBySize(order[1..], groups), groups)
  }

  ghost predicate SizesFall(o: seq<nat>, groups: map<nat, seq<string>>)
    requires forall x :: x in o ==> x in groups
  {
    forall k :: 0 <= k < |o| - 1 ==> |groups[o[k]]| >= |groups[o[k + 1]]|
  }

  lemma {:induction false} InsertKeepsFalling(r: nat, order: seq<nat>, groups: map<nat, seq<string>>)
    requires r in groups && forall x :: x in order ==> x in groups
    requires SizesFall(order, groups)
    ensures SizesFall(InsertBySize(r, order, groups), groups)
  {
    if order != [] && |groups[r]| < |groups[order[0]]| {
      var t := order[1..];
      assert forall k :: 0 <= k < |t| ==> t[k] == order[k + 1];
      InsertKeepsFalling(r, t, groups);
      var o, u := InsertBySize(r, order, groups), InsertBySize(r, t, groups);
      assert forall k :: 0 <= k < |u| ==> o[k + 1] == u[k];
      assert t != [] ==> |groups[order[0]]| >= |groups[order[0 + 1]]|;
      forall k | 0 <= k < |o| - 1
        ensures |groups[o[k]]| >= |groups[o[k + 1]]|
      {
        if k > 0 {
          assert |groups[u[k - 1]]| >= |groups[u[k - 1 + 1]]|;
        }
      }
    }
  }

  lemma {:induction false} SortedSizesFall(order: seq<nat>, groups: map<nat, seq<string>>)
    requires forall x :: x in order ==> x in groups
    ensures SizesFall(SortBySize(order, groups), groups)
  {
    if order != [] {
      SortedSizesFall(order[1..], groups);
      InsertKeepsFalling(order[0], SortBySize(order[1..], groups), groups);
    }
  }

  lemma {:induction false} DistinctCounts(s: seq<nat>, x: nat)
    requires Distinct(s)
    ensures multiset(s)[x] <= 1
  {
    if s != [] {
      DistinctCounts(s[1..], x);
      assert s == [s[0]] + s[1..];
      if s[0] == x {
        assert x !in s[1..];
      }
    }
  }

  lemma {:induction false} DistinctByMultiset(s: seq<nat>, t: seq<nat>)
    requires Distinct(s) && multiset(s) == multiset(t)
    ensures Distinct(t)
  {
    forall i, j | 0 <= i < j < |t|
      ensures t[i] != t[j]
    {
      if t[i] == t[j] {
        assert t == t[..j] + [t[j]] + t[j + 1..];
        assert t[i] in t[..j];
        assert multiset(t)[t[j]] >= 2;
        DistinctCounts(s, t[j]);
      }
    }
  }

  function StableOf(votes: map<Edge, nat>): set<Edge> {
    set e | e in votes && votes[e] >= VOTES_NEEDED
  }

  lemma {:induction false} StableOfVotes(fits: seq<Fit>, votes: map<Edge, nat>)
    requires fits != [] && KeysBelow(votes, |fits[0].channels|)
    requires forall a: nat, b: nat :: a < b < |fits[0].channels| ==> Tally(votes, a, b) == VoteCount(fits, |fits|, a, b)
    ensures StableOf(votes) == StableEdges(fits)
  {
    assert VOTES_NEEDED == 4;
    forall e
      ensures e in StableOf(votes) <==> e in StableEdges(fits)
    {
      if e in StableOf(votes) {
        assert Tally(votes, e.0, e.1) == VoteCount(fits, |fits|, e.0, e.1);
      }
      if e in StableEdges(fits) {
        assert Tally(votes, e.0, e.1) == VoteCount(fits, |fits|, e.0, e.1);
      }
    }
  }

  /** Joins the ends of every stable edge, in any order. */
  method JoinStable(votes: map<Edge, nat>, d: nat)
    returns (parent: array<nat>, ghost root: seq<nat>, ghost dist: seq<nat>)
    requires KeysBelow(votes, d)
    ensures fresh(parent) && parent.Length == d && |root| == d
    ensures Forest(parent[..], root, dist) && Components(root, StableOf(votes))
  {
    parent := new nat[d](i => i);
    assert parent[..] == seq(d, i => i);
    root, dist := seq(d, i => i), seq(d, i => 0);
    SingletonsAreComponents(d);
    ghost var joined: set<Edge> := {};
    var left := votes.Keys;
    while left != {}
      invariant left <= votes.Keys && |root| == d
      invariant joined == StableOf(votes) - left
      invariant Forest(parent[..], root, dist) && Components(root, joined)
      decreases |left|
    {
      var e :| e in left;
      left := left - {e};
      if votes[e] >= VOTES_NEEDED {
        root, dist := Union(parent, e.0, e.1, root, dist, joined);
        joined := joined + {e};
      }
    }
    assert joined == StableOf(votes);
  }

  /** Root r is met before root s. */
  ghost predicate MetBefore(root: seq<nat>, n: nat, r: nat, s: nat)
    requires n <= |root|
  {
    exists a :: 0 <= a < n && root[a] == r && forall b :: 0 <= b <= a ==> root[b] != s
  }

  ghost predicate InOrderMet(root: seq<nat>, n: nat, order: seq<nat>)
    requires n <= |root|
  {
    forall k, l :: 0 <= k < l < |order| ==> MetBefore(root, n, order[k], order[l])
  }

  /** One list of names for each root among the first n. */
  ghost predicate Listed(channels: seq<string>, root: seq<nat>, n: nat, order: seq<nat>, groups: map<nat, seq<string>>)
    requires n <= |channels| == |root|
  {
    && Distinct(order)
    && (forall r :: r in order <==> r in groups)
    && (forall a :: 0 <= a < n ==> root[a] in groups)
    && (forall r :: r in groups ==> groups[r] != [] && groups[r] == NamesWith(channels, root, r, n))
  }

  /** Besides, the roots in order of first appearance. */
  ghost predicate Grouped(channels: seq<string>, root: seq<nat>, n: nat, order: seq<nat>, groups: map<nat, seq<string>>)
    requires n <= |channels| == |root|
  {
    Listed(channels, root, n, order, groups) && InOrderMet(root, n, order)
  }

  function GroupAdd(groups: map<nat, seq<string>>, r: nat, name: string): map<nat, seq<string>> {
    groups[r := (if r in groups then groups[r] else []) + [name]]
  }

  lemma {:induction false} ListStep(channels: seq<string>, root: seq<nat>, i: nat, order: seq<nat>, groups: map<nat, seq<string>>)
    requires i < |channels| == |root| && Listed(channels, root, i, order, groups)
    ensures Listed(channels, root, i + 1, if root[i] in groups then order else order + [root[i]],
                   GroupAdd(groups, root[i], channels[i]))
  {
    var r, next := root[i], GroupAdd(groups, root[i], channels[i]);
    forall x | x in next
      ensures next[x] != [] && next[x] == NamesWith(channels, root, x, i + 1)
    {
      if x == r && r !in groups {
        NoNames(channels, root, r, i);
      }
    }
  }

  lemma {:induction false} GroupStep(channels: seq<string>, root: seq<nat>, i: nat, order: seq<nat>, groups: map<nat, seq<string>>)
    requires i < |channels| == |root| && Grouped(channels, root, i, order, groups)
    ensures Grouped(channels, root, i + 1, if root[i] in groups then order else order + [root[i]],
                    GroupAdd(groups, root[i], channels[i]))
  {
    hide Listed, InOrderMet, GroupAdd;
    ListStep(channels, root, i, order, groups);
    OrderStep(channels, root, i, order, groups);
  }

  lemma {:induction false} MetSoFar(channels: seq<string>, root: seq<nat>, i: nat, order: seq<nat>, groups: map<nat, seq<string>>, k: nat, s: nat)
    requires i < |channels| == |root| && Grouped(channels, root, i, order, groups) && k < |order|
    requires (exists l :: k < l < |order| && order[l] == s) || s !in groups
    ensures MetBefore(root, i + 1, order[k], s)
  {
    if l :| k < l < |order| && order[l] == s {
      assert MetBefore(root, i, order[k], order[l]);
      var a :| 0 <= a < i && root[a] == order[k] && forall b :: 0 <= b <= a ==> root[b] != s;
      assert root[a] == order[k];
    } else {
      assert order[k] in order;
      var a := NamesHaveChannel(channels, root, order[k], i);
      assert forall b :: 0 <= b <= a ==> root[b] in groups;
    }
  }

  lemma {:induction false} OrderStep(channels: seq<string>, root: seq<nat>, i: nat, order: seq<nat>, groups: map<nat, seq<string>>)
    requires i < |channels| == |root| && Grouped(channels, root, i, order, groups)
    ensures InOrderMet(root, i + 1, if root[i] in groups then order else order + [root[i]])
  {
    hide Grouped, MetBefore;
    var order' := if root[i] in groups then order else order + [root[i]];
    forall k, l | 0 <= k < l < |order'|
      ensures MetBefore(root, i + 1, order'[k], order'[l])
    {
      MetSoFar(channels, root, i, order, groups, k, order'[l]);
    }
  }

  lemma {:induction false} NamesHaveChannel(channels: seq<string>, root: seq<nat>, r: nat, n: nat) returns (a: nat)
    requires n <= |channels| == |root| && NamesWith(channels, root, r, n) != []
    ensures a < n && root[a] == r
  {
    if root[n - 1] == r {
      a := n - 1;
    } else {
      assert NamesWith(channels, root, r, n) == NamesWith(channels, root, r, n - 1);
      a := NamesHaveChannel(channels, root, r, n - 1);
    }
  }

  lemma {:induction false} NoNames(channels: seq<string>, root: seq<nat>, r: nat, n: nat)
    requires n <= |channels| == |root| && forall a :: 0 <= a < n ==> root[a] != r
    ensures NamesWith(channels, root, r, n) == []
  {
    if n > 0 {
      NoNames(channels, root, r, n - 1);
    }
  }

  method Group(parent: array<nat>, channels: seq<string>, ghost root: seq<nat>, ghost dist: seq<nat>)
    returns (order: seq<nat>, groups: map<nat, seq<string>>)
    requires parent.Length == |channels| == |root| && Forest(parent[..], root, dist)
    modifies parent
    ensures Grouped(channels, root, |channels|, order, groups)
  {
    hide Grouped, GroupAdd, LinksToRoot;
    order, groups := [], map[];
    GroupNone(channels, root);
    for i := 0 to |channels|
      invariant Forest(parent[..], root, dist)
      invariant Grouped(channels, root, i, order, groups)
    {
      var r := Find(parent, i, root, dist);
      GroupStep(channels, root, i, order, groups);
      if r !in groups {
        order := order + [r];
      }
      groups := GroupAdd(groups, r, channels[i]);
    }
  }

  lemma {:induction false} GroupNone(channels: seq<string>, root: seq<nat>)
    requires |channels| == |root|
    ensures Grouped(channels, root, 0, [], map[])
  {
  }

  /** Every name is mapped to the one organ that lists it. */
  ghost predicate OrgansPartition(channels: seq<string>, organs: seq<seq<string>>, organOf: map<string, nat>) {
    && organOf.Keys == (set a | 0 <= a < |channels| :: channels[a])
    && (forall name, k :: 0 <= k < |organs| && name in organs[k] ==> name in organOf && organOf[name] == k)
    && (forall name :: name in organOf ==> organOf[name] < |organs| && name in organs[organOf[name]])
  }

  method NumberOrgans(organs: seq<seq<string>>) returns (organOf: map<string, nat>)
    requires forall k, l, name :: 0 <= k < l < |organs| && name in organs[k] ==> name !in organs[l]
    ensures forall name :: name in organOf <==> exists k :: 0 <= k < |organs| && name in organs[k]
    ensures forall name, k :: 0 <= k < |organs| && name in organs[k] ==> name in organOf && organOf[name] == k
  {
    organOf := map[];
    for k := 0 to |organs|
      invariant forall name :: name in organOf ==> exists l :: 0 <= l < k && name in organs[l]
      invariant forall name, l :: 0 <= l < k && name in organs[l] ==> name in organOf && organOf[name] == l
    {
      for m := 0 to |organs[k]|
        invariant forall name :: name in organOf ==> exists l :: 0 <= l <= k && name in organs[l]
        invariant forall name, l :: 0 <= l < k && name in organs[l] ==> name in organOf && organOf[name] == l
        invariant forall p :: 0 <= p < m ==> organs[k][p] in organOf && organOf[organs[k][p]] == k
      {
        assert organs[k][m] in organs[k];
        organOf := organOf[organs[k][m] := k];
      }
    }
  }

  class Anatomy {
    var channels: seq<string>
    var organs: seq<seq<string>>
    var organOf: map<string, nat>
    var usableSubsamples: nat

    constructor (names: seq<string>, usable: nat)
      ensures channels == names && organs == [] && organOf == map[] && usableSubsamples == usable
    {
      channels, organs, organOf, usableSubsamples := names, [], map[], usable;
    }
  }

  /** Two channels share an organ exactly when a path of pairs that four fits link joins them; the organs
      partition the channels, largest first. */
  method Learn(fits: seq<Fit>) returns (a: Anatomy)
    requires |fits| == N_SUBSAMPLES && Distinct(fits[0].channels)
    ensures a.channels == fits[0].channels && a.usableSubsamples == |Alike(fits, |fits|)|
    ensures OrgansPartition(a.channels, a.organs, a.organOf)
    ensures forall k :: 0 <= k < |a.organs| ==> a.organs[k] != []
    ensures forall k :: 0 <= k < |a.organs| - 1 ==> |a.organs[k]| >= |a.organs[k + 1]|
    ensures forall i, j :: 0 <= i < |a.channels| && 0 <= j < |a.channels| ==>
              (a.organOf[a.channels[i]] == a.organOf[a.channels[j]] <==> Connected(AgreedEdges(fits), i, j))
  {
    StableIsAgreed(fits);
    VotesAreFits(fits, |fits|, 0, 0);
    hide Alike, Linking, AgreedEdges;
    var votes, usable := CountVotes(fits);
    StableOfVotes(fits, votes);
    var channels := fits[0].channels;
    var parent, root, dist := JoinStable(votes, |channels|);
    var order, groups := Group(parent, channels, root, dist);
    a := new Anatomy(channels, usable);
    a.organs, a.organOf := Organs(channels, root, order, groups);
    assert Components(root, StableEdges(fits));
  }

  function GroupsInOrder(o: seq<nat>, groups: map<nat, seq<string>>): (r: seq<seq<string>>)
    requires forall x :: x in o ==> x in groups
    ensures |r| == |o| && forall k :: 0 <= k < |o| ==> r[k] == groups[o[k]]
  {
    seq(|o|, k requires 0 <= k < |o| => groups[o[k]])
  }

  lemma {:induction false} GroupedFacts(channels: seq<string>, root: seq<nat>, order: seq<nat>, groups: map<nat, seq<string>>)
    requires |channels| == |root| && Grouped(channels, root, |channels|, order, groups)
    ensures forall r :: r in order <==> r in groups
    ensures forall a :: 0 <= a < |root| ==> root[a] in groups
    ensures forall r :: r in groups ==> groups[r] == NamesWith(channels, root, r, |channels|) && groups[r] != []
  {
  }

  lemma {:induction false} OrgansFall(channels: seq<string>, root: seq<nat>, sorted: seq<nat>, groups: map<nat, seq<string>>,
                                      organs: seq<seq<string>>)
    requires forall r :: r in sorted <==> r in groups
    requires forall r :: r in groups ==> groups[r] != []
    requires SizesFall(sorted, groups)
    requires |organs| == |sorted| && forall k :: 0 <= k < |organs| ==> organs[k] == groups[sorted[k]]
    ensures forall k :: 0 <= k < |organs| ==> organs[k] != []
    ensures forall k :: 0 <= k < |organs| - 1 ==> |organs[k]| >= |organs[k + 1]|
  {
  }

  method Organs(channels: seq<string>, ghost root: seq<nat>, order: seq<nat>, groups: map<nat, seq<string>>)
    returns (organs: seq<seq<string>>, organOf: map<string, nat>)
    requires |channels| == |root| && Distinct(channels) && Grouped(channels, root, |channels|, order, groups)
    ensures OrgansPartition(channels, organs, organOf)
    ensures forall k :: 0 <= k < |organs| ==> organs[k] != []
    ensures forall k :: 0 <= k < |organs| - 1 ==> |organs[k]| >= |organs[k + 1]|
    ensures forall i, j :: 0 <= i < |channels| && 0 <= j < |channels| ==>
              (organOf[channels[i]] == organOf[channels[j]] <==> root[i] == root[j])
  {
    hide GroupsInOrder, OrgansPartition, SortBySize, Distinct, NamesWith, Grouped;
    GroupedFacts(channels, root, order, groups);
    var sorted := SortBySize(order, groups);
    OrganList(channels, root, order, groups);
    organs := GroupsInOrder(sorted, groups);
    OrgansFall(channels, root, sorted, groups, organs);
    GroupsAreDisjoint(channels, root, sorted, groups, organs);
    organOf := NumberOrgans(organs);
    OrgansAreComponents(channels, root, sorted, groups, organs, organOf);
  }

  lemma {:induction false} OrganList(channels: seq<string>, root: seq<nat>, order: seq<nat>, groups: map<nat, seq<string>>)
    requires |channels| == |root| && Grouped(channels, root, |channels|, order, groups)
    ensures Distinct(SortBySize(order, groups))
    ensures forall r :: r in SortBySize(order, groups) <==> r in groups
    ensures SizesFall(SortBySize(order, groups), groups)
  {
    var o := SortBySize(order, groups);
    hide SortBySize, NamesWith;
    SameMembers(order, o);
    DistinctByMultiset(order, o);
    SortedSizesFall(order, groups);
  }

  lemma {:induction false} SameMembers(s: seq<nat>, t: seq<nat>)
    requires multiset(s) == multiset(t)
    ensures forall r :: r in s <==> r in t
  {
    assert forall r :: r in s <==> r in multiset(s);
    assert forall r :: r in t <==> r in multiset(t);
  }

  lemma {:induction false} GroupsAreDisjoint(channels: seq<string>, root: seq<nat>, sorted: seq<nat>,
                                             groups: map<nat, seq<string>>, organs: seq<seq<string>>)
    requires |channels| == |root| && Distinct(channels) && Distinct(sorted)
    requires forall r :: r in sorted <==> r in groups
    requires forall r :: r in groups ==> groups[r] == NamesWith(channels, root, r, |channels|)
    requires |organs| == |sorted| && forall k :: 0 <= k < |organs| ==> organs[k] == groups[sorted[k]]
    ensures forall k, l, name :: 0 <= k < l < |organs| && name in organs[k] ==> name !in organs[l]
  {
    forall k, l, name | 0 <= k < l < |organs| && name in organs[k]
      ensures name !in organs[l]
    {
      NamesAreChannels(channels, root, sorted[k], |channels|, name);
      var a :| 0 <= a < |channels| && channels[a] == name && root[a] == sorted[k];
      NamesWithMembers(channels, root, sorted[l], |channels|, a);
    }
  }

  lemma {:induction false} OrganOfChannel(channels: seq<string>, root: seq<nat>, sorted: seq<nat>, groups: map<nat, seq<string>>,
                                          organs: seq<seq<string>>, organOf: map<string, nat>, a: nat)
    requires |channels| == |root| && Distinct(channels) && a < |channels| && root[a] in sorted
    requires forall r :: r in sorted ==> r in groups && groups[r] == NamesWith(channels, root, r, |channels|)
    requires |organs| == |sorted| && forall k :: 0 <= k < |organs| ==> organs[k] == groups[sorted[k]]
    requires forall name, k :: 0 <= k < |organs| && name in organs[k] ==> name in organOf && organOf[name] == k
    ensures channels[a] in organOf && organOf[channels[a]] < |organs| && sorted[organOf[channels[a]]] == root[a]
    ensures channels[a] in organs[organOf[channels[a]]]
  {
    var k :| 0 <= k < |sorted| && sorted[k] == root[a];
    NamesWithMembers(channels, root, root[a], |channels|, a);
    assert channels[a] in organs[k];
  }

  lemma {:induction false} OrgansAreComponents(channels: seq<string>, root: seq<nat>, sorted: seq<nat>, groups: map<nat, seq<string>>,
                                               organs: seq<seq<string>>, organOf: map<string, nat>)
    requires |channels| == |root| && Distinct(channels) && Distinct(sorted)
    requires forall r :: r in sorted <==> r in groups
    requires forall a :: 0 <= a < |root| ==> root[a] in groups
    requires forall r :: r in groups ==> groups[r] == NamesWith(channels, root, r, |channels|)
    requires |organs| == |sorted| && forall k :: 0 <= k < |organs| ==> organs[k] == groups[sorted[k]]
    requires forall name :: name in organOf <==> exists k :: 0 <= k < |organs| && name in organs[k]
    requires forall name, k :: 0 <= k < |organs| && name in organs[k] ==> name in organOf && organOf[name] == k
    ensures OrgansPartition(channels, organs, organOf)
    ensures forall i, j :: 0 <= i < |channels| && 0 <= j < |channels| ==>
              (organOf[channels[i]] == organOf[channels[j]] <==> root[i] == root[j])
  {
    hide Distinct, NamesWith;
    forall a | 0 <= a < |channels|
      ensures channels[a] in organOf && organOf[channels[a]] < |organs| && sorted[organOf[channels[a]]] == root[a]
      ensures channels[a] in organs[organOf[channels[a]]]
    {
      OrganOfChannel(channels, root, sorted, groups, organs, organOf, a);
    }
    NamesOfOrgans(channels, root, sorted, groups, organs, organOf);
  }

  lemma {:induction false} NamesOfOrgans(channels: seq<string>, root: seq<nat>, sorted: seq<nat>, groups: map<nat, seq<string>>,
                                         organs: seq<seq<string>>, organOf: map<string, nat>)
    requires |channels| == |root|
    requires forall r :: r in sorted ==> r in groups && groups[r] == NamesWith(channels, root, r, |channels|)
    requires |organs| == |sorted| && forall k :: 0 <= k < |organs| ==> organs[k] == groups[sorted[k]]
    requires forall name :: name in organOf ==> exists k :: 0 <= k < |organs| && name in organs[k]
    ensures forall name :: name in organOf ==> exists a :: 0 <= a < |channels| && channels[a] == name
  {
    forall name | name in organOf
      ensures exists a :: 0 <= a < |channels| && channels[a] == name
    {
      var k :| 0 <= k < |organs| && name in organs[k];
      NamesAreChannels(channels, root, sorted[k], |channels|, name);
    }
  }

  // ---- onset order -------------------------------------------------------------------

  ghost predicate HotRun(trace: seq<bool>, s: int) {
    0 <= s && s + 8 <= |trace| && forall i :: s <= i < s + 8 ==> trace[i]
  }

  /** First row of the first sustained elevation of an organ. */
  method Onset(trace: seq<bool>) returns (onset: Option<nat>)
    ensures onset.Some? ==> HotRun(trace, onset.value) && forall s :: 0 <= s < onset.value ==> !HotRun(trace, s)
    ensures onset.None? ==> forall s :: !HotRun(trace, s)
  {
    var run: nat := 0;
    for i := 0 to |trace|
      invariant run < ORGAN_ELEV_RUN && run <= i
      invariant forall p :: i - run <= p < i ==> trace[p]
      invariant run < i ==> !trace[i - run - 1]
      invariant forall s :: s + ORGAN_ELEV_RUN <= i ==> !HotRun(trace, s)
    {
      run := if trace[i] then run + 1 else 0;
      if run >= ORGAN_ELEV_RUN {
        return Some(i - ORGAN_ELEV_RUN + 1);
      }
      assert forall s :: s + ORGAN_ELEV_RUN == i + 1 && HotRun(trace, s) ==> trace[i - run];
    }
    return None;
  }
}
