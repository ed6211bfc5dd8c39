/**
 The weights of the central controller: 1 for a link that is up, 100 for one that
 is down.  What distances in such a graph mean, and what switching a link does.
 */
module CenWeights {
  import opened Options
  import opened Graphs
  import opened Routes

  const UP: nat := 1
  const DOWN: nat := 100

  ghost predicate TwoWeights(adj: AdjList) {
    forall u, e :: 0 <= u < |adj| && e in adj[u] ==> e.to < |adj| && (e.weight == UP || e.weight == DOWN)
  }

  /** Where both directions of a link are present, they have the same weight. */
  ghost predicate Symmetric(adj: AdjList) {
    forall u: nat, v: nat, x: nat, y: nat ::
      u < |adj| && v < |adj| && Edge(v, x) in adj[u] && Edge(u, y) in adj[v] ==> x == y
  }

  ghost predicate NoParallel(adj: AdjList) {
    forall u, i, j :: 0 <= u < |adj| && 0 <= i < j < |adj[u]| ==> adj[u][i].to != adj[u][j].to
  }

  lemma TwoWeightsSearchable(adj: AdjList, s: nat)
    requires TwoWeights(adj) && DOWN * |adj| < INF
    ensures EdgesOk(adj) && PathSumsBelow(adj, s)
  {
    SumsStayBelow(adj, s, DOWN);
  }

  // ----- What a distance says

  lemma {:induction false} WeightIsCounts(adj: AdjList, s: nat, p: Path)
    requires TwoWeights(adj) && IsPath(adj, s, p)
    ensures Weight(p) == DOWN * Count(p, DOWN) + Count(p, UP)
    ensures Length(p) == Count(p, DOWN) + Count(p, UP)
  {
    match p
    case Start =>
    case Step(q, v, w) =>
      WeightIsCounts(adj, s, q);
      assert Edge(v, w).weight == UP || Edge(v, w).weight == DOWN;
  }

  /** down and up are the numbers of a path to v that has the fewest possible down
      links, and the fewest up links among those. */
  ghost predicate Best(adj: AdjList, s: nat, v: nat, down: nat, up: nat) {
    && (exists p :: Links(adj, s, v, p) && Count(p, DOWN) == down && Count(p, UP) == up)
    && (forall q :: Links(adj, s, v, q) ==> down <= Count(q, DOWN))
    && (forall q :: Links(adj, s, v, q) && Count(q, DOWN) == down ==> up <= Count(q, UP))
  }

  lemma Digits(d: nat, a: nat, b: nat)
    requires d == DOWN * a + b && b < DOWN
    ensures d / 100 == a && d % 100 == b
  {
  }

  /** With at most 100 nodes the two decimal parts of a distance are the least number
      of down links and the fewest up links that go with it. */
  lemma DistanceCountsDownLinks(adj: AdjList, s: nat, v: nat, d: nat)
    requires TwoWeights(adj) && |adj| <= 100 && IsDistance(adj, s, v, d)
    ensures Best(adj, s, v, d / 100, d % 100)
  {
    var p0 :| Links(adj, s, v, p0) && Weight(p0) == d;
    var p := Shortcut(adj, s, p0);
    assert Weight(p) == d;
    WeightIsCounts(adj, s, p);
    TwoWeightsSearchable(adj, s);
    SimpleIsShort(adj, s, p);
    Digits(d, Count(p, DOWN), Count(p, UP));
    forall q | Links(adj, s, v, q)
      ensures Count(p, DOWN) <= Count(q, DOWN)
      ensures Count(q, DOWN) == Count(p, DOWN) ==> Count(p, UP) <= Count(q, UP)
    {
      WeightIsCounts(adj, s, q);
      var r := Shortcut(adj, s, q);
      WeightIsCounts(adj, s, r);
      SimpleIsShort(adj, s, r);
      LeastDigits(Count(p, DOWN), Count(p, UP), Count(r, DOWN), Count(r, UP));
    }
  }

  lemma LeastDigits(a: nat, b: nat, c: nat, e: nat)
    requires DOWN * a + b <= DOWN * c + e && e < DOWN
    ensures a <= c
  {
  }

  // ----- Switching a link

  /** The loop of LinkUp and LinkDown over one row: the first edge to target gets the weight. */
  function SetFirst(row: seq<Edge>, target: nat, w: nat): (r: seq<Edge>)
    ensures |r| == |row|
    ensures forall i :: 0 <= i < |row| ==> r[i].to == row[i].to
  {
    if row == [] then []
    else if row[0].to == target then [Edge(target, w)] + row[1..]
    else [row[0]] + SetFirst(row[1..], target, w)
  }

  lemma {:induction false} SetFirstAt(row: seq<Edge>, target: nat, w: nat, i: nat)
    requires forall a, b :: 0 <= a < b < |row| ==> row[a].to != row[b].to
    requires i < |row|
    ensures SetFirst(row, target, w)[i] == if row[i].to == target then Edge(target, w) else row[i]
  {
    if row[0].to != target && i > 0 {
      SetFirstAt(row[1..], target, w, i - 1);
    }
  }

  /** The scan passes over edges to other targets and stops at the first match. */
  lemma {:induction false} SetFirstScan(row: seq<Edge>, target: nat, w: nat, k: nat)
    requires k <= |row| && forall i :: 0 <= i < k ==> row[i].to != target
    ensures k == |row| ==> SetFirst(row, target, w) == row
    ensures k < |row| && row[k].to == target ==> SetFirst(row, target, w) == row[k := Edge(target, w)]
  {
    if k > 0 {
      SetFirstScan(row[1..], target, w, k - 1);
      assert row == [row[0]] + row[1..];
    }
  }

  /** Both rows of a link get the weight. */
  function SetLink(adj: AdjList, a: nat, b: nat, w: nat): (r: AdjList)
    requires a < |adj| && b < |adj|
    ensures |r| == |adj|
  {
    var one := adj[a := SetFirst(adj[a], b, w)];
    one[b := SetFirst(one[b], a, w)]
  }

  /** Same neighbours in the same order; exactly the edges between a and b have the new weight. */
  ghost predicate Switched(adj: AdjList, r: AdjList, a: nat, b: nat, w: nat) {
    && |r| == |adj|
    && forall u :: 0 <= u < |adj| ==>
         && |r[u]| == |adj[u]|
         && forall i :: 0 <= i < |adj[u]| ==>
              r[u][i] == if (u == a && adj[u][i].to == b) || (u == b && adj[u][i].to == a)
                         then Edge(adj[u][i].to, w) else adj[u][i]
  }

  lemma SetLinkSwitches(adj: AdjList, a: nat, b: nat, w: nat)
    requires NoParallel(adj) && a < |adj| && b < |adj|
    ensures Switched(adj, SetLink(adj, a, b, w), a, b, w)
  {
    var r := SetLink(adj, a, b, w);
    var one := adj[a := SetFirst(adj[a], b, w)];
    forall u, i | 0 <= u < |adj| && 0 <= i < |adj[u]|
      ensures |r[u]| == |adj[u]|
      ensures r[u][i] == if (u == a && adj[u][i].to == b) || (u == b && adj[u][i].to == a)
                         then Edge(adj[u][i].to, w) else adj[u][i]
    {
      if u == a { SetFirstAt(adj[a], b, w, i); }
      if u == b { SetFirstAt(one[b], a, w, i); }
    }
  }

  lemma SwitchKeeps(adj: AdjList, r: AdjList, a: nat, b: nat, w: nat)
    requires TwoWeights(adj) && NoParallel(adj) && Switched(adj, r, a, b, w)
    requires w == UP || w == DOWN
    ensures TwoWeights(r) && NoParallel(r)
  {
    forall u, e | 0 <= u < |r| && e in r[u] ensures e.to < |r| && (e.weight == UP || e.weight == DOWN) {
      var i :| 0 <= i < |r[u]| && r[u][i] == e;
      assert adj[u][i] in adj[u];
    }
  }

  lemma SwitchedEdge(adj: AdjList, r: AdjList, a: nat, b: nat, w: nat, u: nat, v: nat, x: nat)
    requires Switched(adj, r, a, b, w) && u < |adj| && Edge(v, x) in r[u]
    ensures if (u == a && v == b) || (u == b && v == a) then x == w && exists y :: Edge(v, y) in adj[u]
            else Edge(v, x) in adj[u]
  {
    var i :| 0 <= i < |r[u]| && r[u][i] == Edge(v, x);
    assert adj[u][i] in adj[u] && adj[u][i].to == v;
    assert Edge(v, adj[u][i].weight) in adj[u];
  }

  lemma SwitchKeepsSymmetry(adj: AdjList, r: AdjList, a: nat, b: nat, w: nat)
    requires Symmetric(adj) && Switched(adj, r, a, b, w)
    ensures Symmetric(r)
  {
    forall u: nat, v: nat, x: nat, y: nat |
      u < |r| && v < |r| && Edge(v, x) in r[u] && Edge(u, y) in r[v]
      ensures x == y
    {
      SwitchedEdge(adj, r, a, b, w, u, v, x);
      SwitchedEdge(adj, r, a, b, w, v, u, y);
    }
  }

  /** Which vertices are reachable does not depend on weights. */
  lemma {:induction false} SwitchedPath(adj: AdjList, r: AdjList, a: nat, b: nat, w: nat, s: nat, p: Path)
    returns (q: Path)
    requires EdgesOk(adj) && Switched(adj, r, a, b, w) && IsPath(adj, s, p)
    ensures IsPath(r, s, q) && End(s, q) == End(s, p)
  {
    match p
    case Start => q := p;
    case Step(t, v, x) =>
      q := SwitchedPath(adj, r, a, b, w, s, t);
      var u := End(s, t);
      var i :| 0 <= i < |adj[u]| && adj[u][i] == Edge(v, x);
      assert r[u][i] in r[u] && r[u][i] == Edge(v, r[u][i].weight);
      q := Step(q, v, r[u][i].weight);
  }

  /** The same links in the same order, none of them heavier than in the other graph. */
  ghost predicate Lighter(g: AdjList, adj: AdjList) {
    && |g| == |adj|
    && forall u :: 0 <= u < |adj| ==>
         && |g[u]| == |adj[u]|
         && forall i :: 0 <= i < |adj[u]| ==> g[u][i].to == adj[u][i].to && g[u][i].weight <= adj[u][i].weight
  }

  /** A path of the heavier graph is there in the lighter one. */
  lemma {:induction false} LighterPath(g: AdjList, adj: AdjList, s: nat, p: Path) returns (q: Path)
    requires Lighter(g, adj) && IsPath(adj, s, p)
    ensures IsPath(g, s, q) && End(s, q) == End(s, p) && Weight(q) <= Weight(p)
  {
    match p
    case Start => q := p;
    case Step(t, v, x) =>
      q := LighterPath(g, adj, s, t);
      var u := End(s, t);
      var i :| 0 <= i < |adj[u]| && adj[u][i] == Edge(v, x);
      assert g[u][i].to == v;
      q := Step(q, v, g[u][i].weight);
  }

  /** LinkUp makes a graph lighter, LinkDown heavier. */
  lemma SwitchedIsLighter(adj: AdjList, r: AdjList, a: nat, b: nat, w: nat)
    requires TwoWeights(adj) && Switched(adj, r, a, b, w)
    ensures w == UP ==> Lighter(r, adj)
    ensures w == DOWN ==> Lighter(adj, r)
  {
    forall u, i | 0 <= u < |adj| && 0 <= i < |adj[u]| ensures adj[u][i].weight == UP || adj[u][i].weight == DOWN {
      assert adj[u][i] in adj[u];
    }
  }

  ghost predicate AllReachable(adj: AdjList, s: nat) {
    forall v: nat :: v < |adj| ==> Reachable(adj, s, v)
  }

  ghost predicate Connected(adj: AdjList) {
    forall s: nat :: s < |adj| ==> AllReachable(adj, s)
  }

  lemma SwitchKeepsConnected(adj: AdjList, r: AdjList, a: nat, b: nat, w: nat)
    requires EdgesOk(adj) && Connected(adj) && Switched(adj, r, a, b, w)
    ensures Connected(r)
  {
    forall s: nat, v: nat | s < |r| && v < |r| ensures Reachable(r, s, v) {
      assert AllReachable(adj, s) && Reachable(adj, s, v);
      var p :| Links(adj, s, v, p);
      var q := SwitchedPath(adj, r, a, b, w, s, p);
      assert Links(r, s, v, q);
    }
  }

  // ----- The walk back without a safety check

  /** k steps along the stored predecessors. */
  function Back(dist: Labels, v: nat, k: nat): Option<nat>
    decreases k
  {
    if k == 0 then Some(v)
    else if v < |dist| then Back(dist, dist[v].previous, k - 1)
    else None
  }

  /** Following the predecessors from v ever meets the source exactly when v is
      reachable; from an unreachable vertex the walk stands still for ever. */
  lemma {:induction false} WalkEndsIffReachable(adj: AdjList, s: nat, dist: Labels, v: nat)
    requires EdgesOk(adj) && ShortestFrom(adj, s, dist) && v < |adj|
    ensures (exists k: nat :: Back(dist, v, k) == Some(s)) <==> Reachable(adj, s, v)
  {
    if Reachable(adj, s, v) {
      var k := ChainLength(adj, s, dist, v);
      assert Back(dist, v, k) == Some(s);
    } else {
      assert Links(adj, s, s, Start);
      forall k: nat ensures Back(dist, v, k) == Some(v) { StandsStill(dist, v, k); }
    }
  }

  lemma {:induction false} StandsStill(dist: Labels, v: nat, k: nat)
    requires v < |dist| && dist[v].previous == v
    ensures Back(dist, v, k) == Some(v)
  {
    if k > 0 { StandsStill(dist, v, k - 1); }
  }

  lemma {:induction false} ChainLength(adj: AdjList, s: nat, dist: Labels, v: nat) returns (k: nat)
    requires EdgesOk(adj) && ShortestFrom(adj, s, dist) && v < |adj| && Reachable(adj, s, v)
    ensures Back(dist, v, k) == Some(s)
    decreases dist[v].distance
  {
    if v == s {
      k := 0;
    } else {
      ChainStep(adj, s, dist, v);
      k := ChainLength(adj, s, dist, dist[v].previous);
      k := k + 1;
    }
  }
}
