/**
 From labels to routes: the first hop of a predecessor chain, what makes a table
 entry right, and what hop-by-hop forwarding through the tables of different
 key managers does when every table was filled from its own search.
 */
module Routes {
  import opened Options
  import opened Graphs

  /** A row of a location register: the fields routing depends on. */
  datatype Entry = Entry(nextHop: nat, hops: nat, destination: nat)

  type Table = map<nat, Entry>

  /** The vertex after s on the predecessor chain from s to v. */
  ghost function FirstHop(adj: AdjList, s: nat, dist: Labels, v: nat): (n: nat)
    requires EdgesOk(adj) && ShortestFrom(adj, s, dist) && v < |adj| && v != s && Reachable(adj, s, v)
    ensures n < |adj|
    decreases dist[v].distance
  {
    ChainStep(adj, s, dist, v);
    var u := dist[v].previous;
    if u == s then v else FirstHop(adj, s, dist, u)
  }

  /** One step back along the chain stays reachable and comes strictly closer to s. */
  lemma ChainStep(adj: AdjList, s: nat, dist: Labels, v: nat)
    requires EdgesOk(adj) && ShortestFrom(adj, s, dist) && v < |adj| && v != s && Reachable(adj, s, v)
    ensures dist[v].previous < |adj| && dist[v].previous != v
    ensures Reachable(adj, s, dist[v].previous) && dist[dist[v].previous].distance < dist[v].distance < INF
  {
    var u := dist[v].previous;
    assert IsPredecessor(adj, dist, u, v);
    var w :| Edge(v, w) in adj[u] && dist[v].distance == dist[u].distance + w;
    assert Edge(v, w).weight > 0;
    assert dist[u].distance < INF;
  }

  /** The chain splits into its first edge and a shortest path from there. */
  lemma {:induction false} ChainSplits(adj: AdjList, s: nat, dist: Labels, v: nat) returns (w: nat, q: Path)
    requires EdgesOk(adj) && ShortestFrom(adj, s, dist) && v < |adj| && v != s && Reachable(adj, s, v)
    ensures Edge(FirstHop(adj, s, dist, v), w) in adj[s]
    ensures Links(adj, FirstHop(adj, s, dist, v), v, q) && w + Weight(q) == dist[v].distance
    decreases dist[v].distance
  {
    ChainStep(adj, s, dist, v);
    var u := dist[v].previous;
    assert IsPredecessor(adj, dist, u, v);
    var x :| Edge(v, x) in adj[u] && dist[v].distance == dist[u].distance + x;
    if u == s {
      w, q := x, Start;
    } else {
      w, q := ChainSplits(adj, s, dist, u);
      q := Step(q, v, x);
    }
  }

  /** The next hop's own distance to v is smaller by exactly the weight of the edge to it. */
  lemma FirstHopIsCloser(adj: AdjList, s: nat, dist: Labels, v: nat) returns (w: nat)
    requires EdgesOk(adj) && ShortestFrom(adj, s, dist) && v < |adj| && v != s && Reachable(adj, s, v)
    ensures Edge(FirstHop(adj, s, dist, v), w) in adj[s] && w <= dist[v].distance
    ensures IsDistance(adj, FirstHop(adj, s, dist, v), v, dist[v].distance - w)
  {
    var n := FirstHop(adj, s, dist, v);
    var q;
    w, q := ChainSplits(adj, s, dist, v);
    forall r | Links(adj, n, v, r) ensures dist[v].distance - w <= Weight(r) {
      PrependIsPath(adj, s, n, w, r);
      assert Links(adj, s, v, Prepend(n, w, r));
    }
  }

  /** State of the walk back from v: it stands at cur and has collected path. */
  ghost predicate Walking(adj: AdjList, s: nat, dist: Labels, v: nat, cur: nat, path: seq<nat>)
    requires EdgesOk(adj) && ShortestFrom(adj, s, dist) && v < |adj| && v != s && Reachable(adj, s, v)
  {
    && cur < |adj| && Reachable(adj, s, cur)
    && (path == [] ==> cur == v)
    && (path != [] ==> path[0] == v)
    && (if cur == s then path != [] && path[|path| - 1] == FirstHop(adj, s, dist, v)
        else FirstHop(adj, s, dist, cur) == FirstHop(adj, s, dist, v))
  }

  lemma WalkStep(adj: AdjList, s: nat, dist: Labels, v: nat, cur: nat, path: seq<nat>)
    requires EdgesOk(adj) && ShortestFrom(adj, s, dist) && v < |adj| && v != s && Reachable(adj, s, v)
    requires Walking(adj, s, dist, v, cur, path) && cur != s
    ensures dist[cur].previous != cur && Walking(adj, s, dist, v, dist[cur].previous, path + [cur])
    ensures dist[dist[cur].previous].distance < dist[cur].distance
  {
    ChainStep(adj, s, dist, cur);
  }

  /** The same walk when v may be s itself: then it is over before it starts. */
  ghost predicate WalkingOrDone(adj: AdjList, s: nat, dist: Labels, v: nat, cur: nat, path: seq<nat>)
    requires EdgesOk(adj) && ShortestFrom(adj, s, dist) && v < |adj| && Reachable(adj, s, v)
  {
    cur < |adj| && if v == s then cur == s && path == [] else Walking(adj, s, dist, v, cur, path)
  }

  lemma WalkOn(adj: AdjList, s: nat, dist: Labels, v: nat, cur: nat, path: seq<nat>)
    requires EdgesOk(adj) && ShortestFrom(adj, s, dist) && v < |adj| && Reachable(adj, s, v)
    requires WalkingOrDone(adj, s, dist, v, cur, path) && cur != s
    ensures WalkingOrDone(adj, s, dist, v, dist[cur].previous, path + [cur])
    ensures dist[dist[cur].previous].distance < dist[cur].distance
  {
    WalkStep(adj, s, dist, v, cur, path);
  }

  // ----- Tables

  ghost predicate Closer(adj: AdjList, s: nat, v: nat, d: nat, n: nat, w: nat) {
    && s < |adj| && n < |adj| && Edge(n, w) in adj[s]
    && 0 < w <= d && IsDistance(adj, n, v, d - w)
  }

  /** A right entry of s for v: the exact distance, and a neighbour of s that is
      closer to v by the whole weight of the edge to it. */
  ghost predicate RightEntry(adj: AdjList, ids: seq<nat>, s: nat, v: nat, e: Entry)
    requires |ids| == |adj| && s < |adj| && v < |adj|
  {
    && e.destination == ids[v]
    && IsDistance(adj, s, v, e.hops)
    && exists n: nat, w: nat :: n < |adj| && Closer(adj, s, v, e.hops, n, w) && ids[n] == e.nextHop
  }

  /** A right table of s: an entry for exactly the reachable vertices other than s,
      each of them right. */
  ghost predicate RightTable(adj: AdjList, ids: seq<nat>, s: nat, t: Table)
    requires |ids| == |adj| && s < |adj|
  {
    && (forall d :: d in t ==> d in ids)
    && (forall v :: 0 <= v < |adj| ==> (ids[v] in t <==> v != s && Reachable(adj, s, v)))
    && (forall v :: 0 <= v < |adj| && ids[v] in t ==> RightEntry(adj, ids, s, v, t[ids[v]]))
  }

  /** No value occurs twice. */
  ghost predicate Injective(ids: seq<nat>) {
    forall i, j :: 0 <= i < j < |ids| ==> ids[i] != ids[j]
  }

  /** Every key manager has a right table. */
  ghost predicate RightTables(adj: AdjList, ids: seq<nat>, tables: map<nat, Table>) {
    && |ids| == |adj|
    && Injective(ids)
    && (forall s :: 0 <= s < |adj| ==> ids[s] in tables && RightTable(adj, ids, s, tables[ids[s]]))
  }

  /** AddEntry of the register of node id: an entry is added unless its destination
      has one already or it leads from the node to itself. */
  function Inserted(id: nat, t: Table, rt: Entry): Table {
    if rt.destination in t || id == rt.destination == rt.nextHop then t else t[rt.destination := rt]
  }

  // ----- Forwarding

  /** Where a message for dst is after k hops, when every key manager passes it to
      the next hop of its own table. */
  function Forward(tables: map<nat, Table>, at: nat, dst: nat, k: nat): Option<nat>
    decreases k
  {
    if k == 0 then Some(at)
    else if at in tables && dst in tables[at] then Forward(tables, tables[at][dst].nextHop, dst, k - 1)
    else None
  }

  /** The hop count stored at a key manager for dst; zero at dst itself. */
  function Remaining(tables: map<nat, Table>, at: nat, dst: nat): Option<nat> {
    if at == dst then Some(0)
    else if at in tables && dst in tables[at] then Some(tables[at][dst].hops)
    else None
  }

  /** At key manager x the message for dst is passed to one that stores less, by at
      least 1 and at most step. */
  ghost predicate DownhillAt(ids: seq<nat>, tables: map<nat, Table>, dst: nat, step: nat, x: nat)
    requires x < |ids|
  {
    ids[x] != dst && Remaining(tables, ids[x], dst).Some? ==>
      exists n: nat :: n < |ids| && DownhillTo(tables, dst, step, ids[x], ids[n])
  }

  predicate DownhillTo(tables: map<nat, Table>, dst: nat, step: nat, at: nat, next: nat) {
    && at in tables && dst in tables[at] && tables[at][dst].nextHop == next
    && Remaining(tables, next, dst).Some?
    && Remaining(tables, next, dst).value < tables[at][dst].hops <= Remaining(tables, next, dst).value + step
  }

  ghost predicate Downhill(ids: seq<nat>, tables: map<nat, Table>, dst: nat, step: nat) {
    forall x :: 0 <= x < |ids| ==> DownhillAt(ids, tables, dst, step, x)
  }

  lemma OneDistance(adj: AdjList, s: nat, v: nat, d1: nat, d2: nat)
    ensures IsDistance(adj, s, v, d1) && IsDistance(adj, s, v, d2) ==> d1 == d2
  {
    if IsDistance(adj, s, v, d1) && IsDistance(adj, s, v, d2) {
      var p1 :| Links(adj, s, v, p1) && Weight(p1) == d1;
      var p2 :| Links(adj, s, v, p2) && Weight(p2) == d2;
    }
  }

  lemma DistanceToSelf(adj: AdjList, v: nat)
    requires v < |adj|
    ensures IsDistance(adj, v, v, 0)
  {
    assert Links(adj, v, v, Start) && Weight(Start) == 0;
  }

  lemma SameId(ids: seq<nat>, i: nat, j: nat)
    requires Injective(ids) && i < |ids| && j < |ids|
    ensures ids[i] == ids[j] <==> i == j
  {
  }

  /** What a right table of s stores for v is the distance. */
  lemma RemainingIsDistance(adj: AdjList, ids: seq<nat>, tables: map<nat, Table>, s: nat, v: nat, d: nat)
    requires RightTables(adj, ids, tables) && s < |adj| && v < |adj| && IsDistance(adj, s, v, d)
    ensures Remaining(tables, ids[s], ids[v]) == Some(d)
  {
    SameId(ids, s, v);
    if s == v {
      DistanceToSelf(adj, v);
      OneDistance(adj, s, v, d, 0);
    } else {
      assert Reachable(adj, s, v);
      var t := tables[ids[s]];
      assert RightEntry(adj, ids, s, v, t[ids[v]]);
      OneDistance(adj, s, v, d, t[ids[v]].hops);
    }
  }

  ghost predicate WeightsUpTo(adj: AdjList, w: nat) {
    forall u, e :: 0 <= u < |adj| && e in adj[u] ==> e.weight <= w
  }

  /** The hop counts of different tables, each from its own search, fit together:
      the next hop stores less, by exactly the weight of the link to it. */
  lemma NextHopStoresLess(adj: AdjList, ids: seq<nat>, tables: map<nat, Table>, x: nat, v: nat)
    returns (n: nat, w: nat, less: nat)
    requires RightTables(adj, ids, tables) && x < |adj| && v < |adj| && x != v && ids[v] in tables[ids[x]]
    ensures n < |ids| && Edge(n, w) in adj[x] && 0 < w
    ensures tables[ids[x]][ids[v]].nextHop == ids[n] && less + w == tables[ids[x]][ids[v]].hops
    ensures Remaining(tables, ids[n], ids[v]) == Some(less)
  {
    n, w, less := EntryIsCloser(adj, ids, x, tables[ids[x]], v);
    RemainingIsDistance(adj, ids, tables, n, v, less);
  }

  lemma EntryIsCloser(adj: AdjList, ids: seq<nat>, x: nat, t: Table, v: nat)
    returns (n: nat, w: nat, less: nat)
    requires |ids| == |adj| && x < |adj| && v < |adj| && RightTable(adj, ids, x, t) && ids[v] in t
    ensures n < |adj| && Edge(n, w) in adj[x] && 0 < w && ids[n] == t[ids[v]].nextHop
    ensures less + w == t[ids[v]].hops && IsDistance(adj, n, v, less)
  {
    assert RightEntry(adj, ids, x, v, t[ids[v]]);
    n, w :| n < |adj| && Closer(adj, x, v, t[ids[v]].hops, n, w) && ids[n] == t[ids[v]].nextHop;
    less := t[ids[v]].hops - w;
  }

  lemma RightTablesAreDownhill(adj: AdjList, ids: seq<nat>, tables: map<nat, Table>, v: nat, step: nat)
    requires RightTables(adj, ids, tables) && WeightsUpTo(adj, step) && v < |adj|
    ensures Downhill(ids, tables, ids[v], step)
  {
    forall x | 0 <= x < |ids| ensures DownhillAt(ids, tables, ids[v], step, x) {
      if ids[x] != ids[v] && Remaining(tables, ids[x], ids[v]).Some? {
        var n, w, less := NextHopStoresLess(adj, ids, tables, x, v);
        assert Edge(n, w).weight <= step;
        assert DownhillTo(tables, ids[v], step, ids[x], ids[n]);
      }
    }
  }

  /** Passing on goes down to zero: the message arrives, after no more hops than the
      hop count stored where it starts. */
  lemma {:induction false} DownhillArrives(ids: seq<nat>, tables: map<nat, Table>, dst: nat, step: nat, x: nat)
    returns (k: nat)
    requires Downhill(ids, tables, dst, step) && x < |ids| && Remaining(tables, ids[x], dst).Some?
    ensures k <= Remaining(tables, ids[x], dst).value && Forward(tables, ids[x], dst, k) == Some(dst)
    decreases Remaining(tables, ids[x], dst).value
  {
    if ids[x] == dst {
      k := 0;
    } else {
      assert DownhillAt(ids, tables, dst, step, x);
      var n: nat :| n < |ids| && DownhillTo(tables, dst, step, ids[x], ids[n]);
      k := DownhillArrives(ids, tables, dst, step, n);
      k := k + 1;
    }
  }

  /** With steps of one, k hops bring the message exactly k closer. */
  lemma {:induction false} DownhillByOne(ids: seq<nat>, tables: map<nat, Table>, dst: nat, x: nat, k: nat)
    returns (y: nat)
    requires Downhill(ids, tables, dst, 1) && x < |ids| && Remaining(tables, ids[x], dst).Some?
    requires k <= Remaining(tables, ids[x], dst).value
    ensures y < |ids| && Forward(tables, ids[x], dst, k) == Some(ids[y])
    ensures Remaining(tables, ids[y], dst) == Some(Remaining(tables, ids[x], dst).value - k)
    decreases k
  {
    if k == 0 {
      y := x;
    } else {
      assert DownhillAt(ids, tables, dst, 1, x);
      var n: nat :| n < |ids| && DownhillTo(tables, dst, 1, ids[x], ids[n]);
      y := DownhillByOne(ids, tables, dst, n, k - 1);
    }
  }

  /** Whatever the weights, a message for a destination in the table of s arrives. */
  lemma ForwardingArrives(adj: AdjList, ids: seq<nat>, tables: map<nat, Table>, s: nat, dst: nat, w: nat)
    returns (k: nat)
    requires RightTables(adj, ids, tables) && WeightsUpTo(adj, w) && s < |adj| && dst in tables[ids[s]]
    ensures k <= tables[ids[s]][dst].hops && Forward(tables, ids[s], dst, k) == Some(dst)
  {
    var v :| 0 <= v < |ids| && ids[v] == dst;
    SameId(ids, s, v);
    RightTablesAreDownhill(adj, ids, tables, v, w);
    k := DownhillArrives(ids, tables, dst, w, s);
  }

  ghost predicate UnitWeights(adj: AdjList) {
    forall u, e :: 0 <= u < |adj| && e in adj[u] ==> e.weight == 1
  }

  lemma {:induction false} DownhillIsExact(ids: seq<nat>, tables: map<nat, Table>, dst: nat, s: nat)
    requires Downhill(ids, tables, dst, 1) && s < |ids| && ids[s] in tables && dst in tables[ids[s]] && dst != ids[s]
    requires forall x :: 0 <= x < |ids| && Remaining(tables, ids[x], dst) == Some(0) ==> ids[x] == dst
    ensures Forward(tables, ids[s], dst, tables[ids[s]][dst].hops) == Some(dst)
    ensures forall i: nat, j: nat :: i < j <= tables[ids[s]][dst].hops ==>
              Forward(tables, ids[s], dst, i) != Forward(tables, ids[s], dst, j)
  {
    var d := tables[ids[s]][dst].hops;
    var y := DownhillByOne(ids, tables, dst, s, d);
    forall i: nat, j: nat | i < j <= d
      ensures Forward(tables, ids[s], dst, i) != Forward(tables, ids[s], dst, j)
    {
      var y := DownhillByOne(ids, tables, dst, s, i);
      var z := DownhillByOne(ids, tables, dst, s, j);
    }
  }

  /** Forwarding towards a destination in the table of s reaches it in exactly the
      number of hops stored there, and never visits a key manager twice. */
  lemma {:induction false} ForwardingIsExactAndLoopFree(adj: AdjList, ids: seq<nat>, tables: map<nat, Table>, s: nat,
                                                        dst: nat)
    requires EdgesOk(adj) && UnitWeights(adj) && RightTables(adj, ids, tables)
    requires s < |adj| && dst in tables[ids[s]]
    ensures Forward(tables, ids[s], dst, tables[ids[s]][dst].hops) == Some(dst)
    ensures forall i: nat, j: nat :: i < j <= tables[ids[s]][dst].hops ==>
              Forward(tables, ids[s], dst, i) != Forward(tables, ids[s], dst, j)
  {
    var v :| 0 <= v < |ids| && ids[v] == dst;
    SameId(ids, s, v);
    RightTablesAreDownhill(adj, ids, tables, v, 1);
    forall x | 0 <= x < |ids| && Remaining(tables, ids[x], dst) == Some(0) ensures ids[x] == dst {
      ZeroMeansHere(adj, ids, tables, x, v, 0);
    }
    DownhillIsExact(ids, tables, dst, s);
  }

  lemma {:induction false} PositiveWeight(adj: AdjList, s: nat, p: Path)
    requires EdgesOk(adj) && IsPath(adj, s, p)
    ensures Weight(p) == 0 ==> p == Start
  {
    if p.Step? { assert Edge(p.to, p.weight).weight > 0; }
  }

  lemma ZeroMeansHere(adj: AdjList, ids: seq<nat>, tables: map<nat, Table>, s: nat, v: nat, h: nat)
    requires EdgesOk(adj) && RightTables(adj, ids, tables) && s < |adj| && v < |adj|
    requires Remaining(tables, ids[s], ids[v]) == Some(h)
    ensures h == 0 ==> ids[s] == ids[v]
  {
    SameId(ids, s, v);
    if s != v {
      assert RightEntry(adj, ids, s, v, tables[ids[s]][ids[v]]);
      var p :| Links(adj, s, v, p) && Weight(p) == h;
      PositiveWeight(adj, s, p);
    }
  }

  // ----- Bounds on path sums

  lemma {:induction false} WeightBound(adj: AdjList, s: nat, p: Path, w: nat)
    requires IsPath(adj, s, p)
    requires WeightsUpTo(adj, w)
    ensures Weight(p) <= w * Length(p)
  {
    match p
    case Start =>
    case Step(q, v, x) =>
      WeightBound(adj, s, q, w);
      assert Edge(v, x).weight <= w;
  }

  lemma MoreTimes(w: nat, a: nat, b: nat)
    requires a <= b
    ensures w * a <= w * b
  {
  }

  /** With weights at most w, path sums stay below INF when w times the vertex count does. */
  lemma SumsStayBelow(adj: AdjList, s: nat, w: nat)
    requires EdgesOk(adj) && w * |adj| < INF
    requires WeightsUpTo(adj, w)
    ensures PathSumsBelow(adj, s)
  {
    forall p | IsPath(adj, s, p) && Simple(s, p) ensures Weight(p) < INF {
      WeightBound(adj, s, p, w);
      SimpleIsShort(adj, s, p);
      MoreTimes(w, Length(p), |adj|);
    }
  }

  // ----- Building one entry

  /** The entry built from the labels of the search is right. */
  lemma {:induction false} BuiltEntryIsRight(adj: AdjList, ids: seq<nat>, s: nat, dist: Labels, v: nat, e: Entry)
    requires EdgesOk(adj) && ShortestFrom(adj, s, dist) && |ids| == |adj|
    requires v < |adj| && v != s && Reachable(adj, s, v)
    requires e == Entry(ids[FirstHop(adj, s, dist, v)], dist[v].distance, ids[v])
    ensures RightEntry(adj, ids, s, v, e)
  {
    var n := FirstHop(adj, s, dist, v);
    var w := FirstHopIsCloser(adj, s, dist, v);
    assert Edge(n, w).weight > 0;
    assert Closer(adj, s, v, e.hops, n, w) && ids[n] == e.nextHop;
  }

  /** Distances in a graph of unit weights are below the number of vertices. */
  lemma UnitDistance(adj: AdjList, s: nat, dist: Labels, v: nat)
    requires EdgesOk(adj) && UnitWeights(adj) && ShortestFrom(adj, s, dist) && v < |adj| && Reachable(adj, s, v)
    ensures dist[v].distance < |adj|
  {
    var p :| Links(adj, s, v, p) && Weight(p) == dist[v].distance;
    var q := Shortcut(adj, s, p);
    WeightBound(adj, s, q, 1);
    SimpleIsShort(adj, s, q);
  }

  /** The number of edges of weight w on p. */
  function Count(p: Path, w: nat): nat {
    match p
    case Start => 0
    case Step(q, _, x) => Count(q, w) + (if x == w then 1 else 0)
  }

  /** Cutting out cycles leaves a path without repetition, with no more edges of any weight. */
  lemma {:induction false} Shortcut(adj: AdjList, s: nat, p: Path) returns (q: Path)
    requires IsPath(adj, s, p)
    ensures Links(adj, s, End(s, p), q) && Simple(s, q)
    ensures Weight(q) <= Weight(p) && forall w :: Count(q, w) <= Count(p, w)
  {
    match p
    case Start => q := p;
    case Step(r, v, w) =>
      q := Shortcut(adj, s, r);
      if v in Visits(s, q) {
        PrefixIsSimple(adj, s, q, v);
        q := Prefix(s, q, v);
      } else {
        q := Step(q, v, w);
      }
  }

  lemma {:induction false} PrefixIsSimple(adj: AdjList, s: nat, p: Path, v: nat)
    requires IsPath(adj, s, p) && Simple(s, p) && v in Visits(s, p)
    ensures Links(adj, s, v, Prefix(s, p, v)) && Simple(s, Prefix(s, p, v))
    ensures Weight(Prefix(s, p, v)) <= Weight(p)
    ensures forall w :: Count(Prefix(s, p, v), w) <= Count(p, w)
  {
    match p
    case Start =>
    case Step(q, x, _) => if x != v { PrefixIsSimple(adj, s, q, v); }
  }

  // ----- Filling a table that may hold entries already

  /** The entries of before are untouched; each reachable vertex below k other than s
      that had none has a right one now. */
  ghost predicate Filled(adj: AdjList, ids: seq<nat>, s: nat, before: Table, t: Table, k: nat)
    requires |ids| == |adj| && s < |adj|
  {
    && (forall d :: d in before ==> d in t && t[d] == before[d])
    && (forall d :: d in t && d !in before ==> d in ids)
    && (forall v :: 0 <= v < |adj| && ids[v] !in before ==> (ids[v] in t <==> v < k && v != s && Reachable(adj, s, v)))
    && (forall v :: 0 <= v < |adj| && ids[v] in t && ids[v] !in before ==> RightEntry(adj, ids, s, v, t[ids[v]]))
  }

  lemma FillAdds(adj: AdjList, ids: seq<nat>, s: nat, before: Table, t: Table, k: nat, e: Entry, t': Table)
    requires |ids| == |adj| && s < |adj| && Injective(ids) && Filled(adj, ids, s, before, t, k)
    requires k < |adj| && k != s && Reachable(adj, s, k) && RightEntry(adj, ids, s, k, e)
    requires t' == if ids[k] in t then t else t[ids[k] := e]
    ensures Filled(adj, ids, s, before, t', k + 1)
  {
    forall v | 0 <= v < |adj| ensures ids[v] == ids[k] <==> v == k { SameId(ids, v, k); }
  }

  lemma FillSkips(adj: AdjList, ids: seq<nat>, s: nat, before: Table, t: Table, k: nat)
    requires |ids| == |adj| && s < |adj| && Filled(adj, ids, s, before, t, k)
    requires k < |adj| && (k == s || !Reachable(adj, s, k))
    ensures Filled(adj, ids, s, before, t, k + 1)
  {
  }

  lemma FillStart(adj: AdjList, ids: seq<nat>, s: nat, t: Table)
    requires |ids| == |adj| && s < |adj|
    ensures Filled(adj, ids, s, t, t, 0)
  {
  }

  /** An empty table becomes a right one ... */
  lemma FilledFresh(adj: AdjList, ids: seq<nat>, s: nat, t: Table)
    requires |ids| == |adj| && s < |adj| && Filled(adj, ids, s, map[], t, |adj|)
    ensures RightTable(adj, ids, s, t)
  {
  }

  /** An entry for every other key manager. */
  ghost predicate Complete(ids: seq<nat>, s: nat, t: Table) {
    forall v :: 0 <= v < |ids| && v != s ==> ids[v] in t
  }

  /** ... and a complete one stays as it is. */
  lemma FilledComplete(adj: AdjList, ids: seq<nat>, s: nat, before: Table, t: Table)
    requires |ids| == |adj| && s < |adj| && Filled(adj, ids, s, before, t, |adj|) && Complete(ids, s, before)
    ensures t == before
  {
    forall d | d in t && d in ids ensures d in before {
      var v :| 0 <= v < |ids| && ids[v] == d;
      assert ids[v] in before || v == s;
    }
  }

  /** All tables, by id: each is filled up from what it was. */
  ghost predicate FilledAll(adj: AdjList, ids: seq<nat>, before: map<nat, Table>, now: map<nat, Table>) {
    && |ids| == |adj| && Injective(ids)
    && before.Keys == now.Keys && (forall id :: id in now ==> id in ids)
    && forall s :: 0 <= s < |adj| ==> FilledAt(adj, ids, before, now, s)
  }

  ghost predicate FilledAt(adj: AdjList, ids: seq<nat>, before: map<nat, Table>, now: map<nat, Table>, s: nat)
    requires |ids| == |adj| && s < |adj|
  {
    ids[s] in before && ids[s] in now && Filled(adj, ids, s, before[ids[s]], now[ids[s]], |adj|)
  }

  /** From empty tables right ones come out. */
  lemma AllFilledFresh(adj: AdjList, ids: seq<nat>, before: map<nat, Table>, now: map<nat, Table>)
    requires FilledAll(adj, ids, before, now)
    requires forall s :: 0 <= s < |ids| ==> ids[s] in before && before[ids[s]] == map[]
    ensures RightTables(adj, ids, now)
  {
    forall s | 0 <= s < |adj| ensures ids[s] in now && RightTable(adj, ids, s, now[ids[s]]) {
      assert FilledAt(adj, ids, before, now, s);
      FilledFresh(adj, ids, s, now[ids[s]]);
    }
  }
}
