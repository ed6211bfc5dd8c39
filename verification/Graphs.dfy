/**
 Weighted graphs as the two routing components store them: one row of
 weighted edges per vertex.  The module says what a path is, what the
 distance between two vertices is, and what a correct answer of a
 single-source search looks like, independently of how it is computed.
 */
module Graphs {

  /** The value both searches use as "infinite". */
  const INF: nat := 1000000007

  /** Modulus of the 32-bit unsigned arithmetic on distances. */
  const UINT32: nat := 0x1_0000_0000

  datatype Edge = Edge(to: nat, weight: nat)

  type AdjList = seq<seq<Edge>>

  /** What a search keeps per vertex. */
  datatype Label = Label(distance: nat, previous: nat)

  type Labels = seq<Label>

  /** Unsigned 32-bit addition. */
  function Add32(x: nat, y: nat): nat {
    (x + y) % UINT32
  }

  // ----- Paths

  /** A path from an implicit start vertex, extended at its far end. */
  datatype Path = Start | Step(prev: Path, to: nat, weight: nat)

  function End(s: nat, p: Path): nat {
    match p
    case Start => s
    case Step(_, v, _) => v
  }

  function Weight(p: Path): nat {
    match p
    case Start => 0
    case Step(q, _, w) => Weight(q) + w
  }

  function Length(p: Path): nat {
    match p
    case Start => 0
    case Step(q, _, _) => Length(q) + 1
  }

  function Visits(s: nat, p: Path): set<int> {
    match p
    case Start => {s}
    case Step(q, v, _) => Visits(s, q) + {v}
  }

  predicate IsPath(adj: AdjList, s: nat, p: Path) {
    match p
    case Start => s < |adj|
    case Step(q, v, w) =>
      && IsPath(adj, s, q)
      && End(s, q) < |adj|
      && Edge(v, w) in adj[End(s, q)]
  }

  /** No vertex occurs twice. */
  predicate Simple(s: nat, p: Path) {
    match p
    case Start => true
    case Step(q, v, _) => Simple(s, q) && v !in Visits(s, q)
  }

  /** A path of s that ends in v. */
  predicate Links(adj: AdjList, s: nat, v: nat, p: Path) {
    IsPath(adj, s, p) && End(s, p) == v
  }

  ghost predicate Reachable(adj: AdjList, s: nat, v: nat) {
    exists p :: Links(adj, s, v, p)
  }

  /** d is the least weight of a path from s to v, and some path has it. */
  ghost predicate IsDistance(adj: AdjList, s: nat, v: nat, d: nat) {
    && (exists p :: Links(adj, s, v, p) && Weight(p) == d)
    && (forall p :: Links(adj, s, v, p) ==> d <= Weight(p))
  }

  // ----- The graphs the searches are for

  /** Every edge leads to a vertex and has a positive weight below INF. */
  ghost predicate EdgesOk(adj: AdjList) {
    forall u, e :: 0 <= u < |adj| && e in adj[u] ==> e.to < |adj| && 0 < e.weight < INF
  }

  /** No path from s without a repeated vertex weighs INF or more. */
  ghost predicate PathSumsBelow(adj: AdjList, s: nat) {
    forall p :: IsPath(adj, s, p) && Simple(s, p) ==> Weight(p) < INF
  }

  // ----- What a search must return

  /** u is the predecessor stored for v: a real neighbour, at exactly one edge less. */
  ghost predicate IsPredecessor(adj: AdjList, dist: Labels, u: nat, v: nat)
    requires v < |dist| == |adj|
  {
    u < |adj| && exists w :: Edge(v, w) in adj[u] && dist[v].distance == dist[u].distance + w
  }

  /** The correct answer of a search from s: exact distances for the reachable
      vertices, INF for the others, and a tree of predecessors. */
  ghost predicate ShortestFrom(adj: AdjList, s: nat, dist: Labels) {
    && |dist| == |adj|
    && s < |adj|
    && dist[s] == Label(0, s)
    && (forall v :: 0 <= v < |adj| ==>
          if Reachable(adj, s, v) then dist[v].distance < INF && IsDistance(adj, s, v, dist[v].distance)
          else dist[v] == Label(INF, v))
    && (forall v :: 0 <= v < |adj| && v != s && Reachable(adj, s, v) ==>
          IsPredecessor(adj, dist, dist[v].previous, v))
  }

  /** Two correct answers agree on every distance, whatever predecessors they chose. */
  lemma SameDistances(adj: AdjList, s: nat, d1: Labels, d2: Labels, v: nat)
    requires ShortestFrom(adj, s, d1) && ShortestFrom(adj, s, d2) && v < |adj|
    ensures d1[v].distance == d2[v].distance
  {
    if Reachable(adj, s, v) {
      var p1 :| Links(adj, s, v, p1) && Weight(p1) == d1[v].distance;
      var p2 :| Links(adj, s, v, p2) && Weight(p2) == d2[v].distance;
    }
  }

  // ----- Facts about paths

  lemma {:induction false} VisitsInRange(adj: AdjList, s: nat, p: Path, x: int)
    requires EdgesOk(adj) && IsPath(adj, s, p) && x in Visits(s, p)
    ensures 0 <= x < |adj|
  {
    match p
    case Start =>
    case Step(q, v, w) =>
      if x != v { VisitsInRange(adj, s, q, x); }
  }

  /** The part of p up to its visit of v. */
  function Prefix(s: nat, p: Path, v: nat): (q: Path)
    requires v in Visits(s, p)
    ensures End(s, q) == v
  {
    match p
    case Start => Start
    case Step(q, x, _) => if x == v then p else Prefix(s, q, v)
  }

  /** Put an edge (from s to n) in front of a path that starts in n. */
  function Prepend(n: nat, w: nat, p: Path): (q: Path)
    ensures Weight(q) == w + Weight(p)
    ensures forall s: nat :: End(s, q) == End(n, p)
  {
    match p
    case Start => Step(Start, n, w)
    case Step(q, v, x) => Step(Prepend(n, w, q), v, x)
  }

  lemma {:induction false} PrependIsPath(adj: AdjList, s: nat, n: nat, w: nat, p: Path)
    requires s < |adj| && Edge(n, w) in adj[s] && IsPath(adj, n, p)
    ensures IsPath(adj, s, Prepend(n, w, p))
  {
    match p
    case Start =>
    case Step(q, v, x) => PrependIsPath(adj, s, n, w, q);
  }

  /** A path without repetition has fewer edges than the graph has vertices. */
  lemma {:induction false} SimpleIsShort(adj: AdjList, s: nat, p: Path)
    requires EdgesOk(adj) && IsPath(adj, s, p) && Simple(s, p)
    ensures Length(p) < |adj|
  {
    SimpleCounts(s, p);
    forall x | x in Visits(s, p) ensures x in Below(|adj|) { VisitsInRange(adj, s, p, x); }
    SubsetSize(Visits(s, p), Below(|adj|));
  }

  lemma {:induction false} SimpleCounts(s: nat, p: Path)
    requires Simple(s, p)
    ensures |Visits(s, p)| == Length(p) + 1
  {
    match p
    case Start =>
    case Step(q, v, w) => SimpleCounts(s, q);
  }

  /** The numbers below n. */
  function Below(n: nat): (r: set<int>)
    ensures forall x :: x in r <==> 0 <= x < n
    ensures |r| == n
  {
    if n == 0 then {} else Below(n - 1) + {n - 1}
  }

  lemma {:induction false} SubsetSize<T>(a: set<T>, b: set<T>)
    requires a <= b
    ensures |a| <= |b|
    decreases a
  {
    if a != {} {
      var x :| x in a;
      SubsetSize(a - {x}, b - {x});
    }
  }
}
