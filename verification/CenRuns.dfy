/**
 Whole runs of the central controller: any sequence of LinkUp and LinkDown.  The
 weights and computed distances always follow the links.  One call more: when does a
 distance known before it still hold?
 */
module CenRuns {
  import opened Graphs
  import opened CenWeights
  import opened CenController

  /** A call of LinkUp (w == UP) or LinkDown (w == DOWN), between vertices. */
  datatype Switch = Switch(a: nat, b: nat, w: nat)

  predicate SwitchOk(adj: AdjList, op: Switch) {
    op.a < |adj| && op.b < |adj| && (op.w == UP || op.w == DOWN)
  }

  function Run(adj: AdjList, ops: seq<Switch>): (r: AdjList)
    requires forall op :: op in ops ==> SwitchOk(adj, op)
    ensures |r| == |adj|
  {
    if ops == [] then adj
    else
      var last := ops[|ops| - 1];
      assert SwitchOk(adj, last);
      SetLink(Run(adj, ops[..|ops| - 1]), last.a, last.b, last.w)
  }

  /** After any run weights are 1 or 100, equal in both directions, and the network
      is as connected as before. */
  lemma {:induction false} RunKeeps(adj: AdjList, ops: seq<Switch>)
    requires GraphReady(adj) && forall op :: op in ops ==> SwitchOk(adj, op)
    ensures GraphReady(Run(adj, ops))
  {
    if ops != [] {
      var last := ops[|ops| - 1];
      RunKeeps(adj, ops[..|ops| - 1]);
      assert SwitchOk(adj, last);
      SetLinkKeepsAll(Run(adj, ops[..|ops| - 1]), last.a, last.b, last.w);
    }
  }

  /** The weight the last switch of the link between u and v has set, if any. */
  function LastWeight(ops: seq<Switch>, u: nat, v: nat, initial: nat): nat {
    if ops == [] then initial
    else
      var last := ops[|ops| - 1];
      if (last.a == u && last.b == v) || (last.a == v && last.b == u) then last.w
      else LastWeight(ops[..|ops| - 1], u, v, initial)
  }

  /** Every link has the weight of its last switch. */
  lemma {:induction false} WeightIsLastSwitch(adj: AdjList, ops: seq<Switch>, u: nat, i: nat)
    requires GraphReady(adj) && forall op :: op in ops ==> SwitchOk(adj, op)
    requires u < |adj| && i < |adj[u]|
    ensures i < |Run(adj, ops)[u]|
    ensures Run(adj, ops)[u][i] == Edge(adj[u][i].to, LastWeight(ops, u, adj[u][i].to, adj[u][i].weight))
  {
    if ops != [] {
      var last := ops[|ops| - 1];
      var before := ops[..|ops| - 1];
      WeightIsLastSwitch(adj, before, u, i);
      RunKeeps(adj, before);
      assert SwitchOk(adj, last);
      SetLinkSwitches(Run(adj, before), last.a, last.b, last.w);
    }
  }

  /** After any run on at most 100 nodes, the distances computed from s count the
      fewest possible down links in their hundreds and the fewest up links that go
      with them in the rest. */
  lemma {:induction false} ComputedDistances(adj: AdjList, ops: seq<Switch>, s: nat, dist: Labels, v: nat)
    requires GraphReady(adj) && |adj| <= 100 && forall op :: op in ops ==> SwitchOk(adj, op)
    requires ShortestFrom(Run(adj, ops), s, dist) && v < |adj|
    ensures Best(Run(adj, ops), s, v, dist[v].distance / 100, dist[v].distance % 100)
  {
    RunKeeps(adj, ops);
    assert AllReachable(Run(adj, ops), s);
    DistanceCountsDownLinks(Run(adj, ops), s, v, dist[v].distance);
  }

  // ----- When an installed hop count survives LinkUp

  /** Labels from s, a and b, and the graph after the link between a and b went up. */
  ghost predicate BeforeUp(adj: AdjList, up: AdjList, s: nat, a: nat, b: nat, ds: Labels, da: Labels, db: Labels) {
    && EdgesOk(adj) && Switched(adj, up, a, b, UP)
    && TwoWeights(adj)
    && ShortestFrom(adj, s, ds) && ShortestFrom(adj, a, da) && ShortestFrom(adj, b, db)
    && AllReachable(adj, s) && AllReachable(adj, a) && AllReachable(adj, b)
    && (exists e :: e in adj[a] && e.to == b) && (exists e :: e in adj[b] && e.to == a)
  }

  /** The best that can be had for v once the link is up: without it, or across it once. */
  function AcrossLink(a: nat, b: nat, ds: Labels, da: Labels, db: Labels, v: nat): nat
    requires a < |ds| && b < |ds| && v < |ds| == |da| == |db|
  {
    Least3(ds[v].distance, ds[a].distance + 1 + db[v].distance, ds[b].distance + 1 + da[v].distance)
  }

  function Least3(x: nat, y: nat, z: nat): nat {
    if x <= y && x <= z then x else if y <= z then y else z
  }

  lemma Triangle(adj: AdjList, s: nat, dist: Labels, u: nat, e: Edge)
    requires EdgesOk(adj) && ShortestFrom(adj, s, dist) && u < |adj| && e in adj[u] && Reachable(adj, s, u)
    ensures e.to < |adj| && dist[e.to].distance <= dist[u].distance + e.weight
  {
    var p :| Links(adj, s, u, p) && Weight(p) == dist[u].distance;
    assert Links(adj, s, e.to, Step(p, e.to, e.weight));
    assert Reachable(adj, s, e.to);
  }

  /** The bound for a path grows with its last edge: an edge of the old graph ... */
  lemma OldStep(adj: AdjList, s: nat, a: nat, b: nat, ds: Labels, da: Labels, db: Labels, u: nat, e: Edge)
    requires EdgesOk(adj) && ShortestFrom(adj, s, ds) && ShortestFrom(adj, a, da) && ShortestFrom(adj, b, db)
    requires u < |adj| && e in adj[u] && Reachable(adj, s, u) && Reachable(adj, a, u) && Reachable(adj, b, u)
    ensures e.to < |adj| && AcrossLink(a, b, ds, da, db, e.to) <= AcrossLink(a, b, ds, da, db, u) + e.weight
  {
    Triangle(adj, s, ds, u, e);
    Triangle(adj, a, da, u, e);
    Triangle(adj, b, db, u, e);
    AcrossGrows(a, b, ds, da, db, u, e.to, e.weight);
  }

  lemma AcrossGrows(a: nat, b: nat, ds: Labels, da: Labels, db: Labels, u: nat, v: nat, w: nat)
    requires |ds| == |da| == |db| && a < |ds| && b < |ds| && u < |ds| && v < |ds|
    requires ds[v].distance <= ds[u].distance + w && da[v].distance <= da[u].distance + w
    requires db[v].distance <= db[u].distance + w
    ensures AcrossLink(a, b, ds, da, db, v) <= AcrossLink(a, b, ds, da, db, u) + w
  {
  }

  /** ... or the link itself. */
  lemma LinkStep(adj: AdjList, s: nat, a: nat, b: nat, ds: Labels, da: Labels, db: Labels, u: nat, v: nat)
    requires ShortestFrom(adj, s, ds) && ShortestFrom(adj, a, da) && ShortestFrom(adj, b, db)
    requires (u == a && v == b) || (u == b && v == a)
    ensures AcrossLink(a, b, ds, da, db, v) <= AcrossLink(a, b, ds, da, db, u) + 1
  {
  }

  lemma {:induction false} UpPathBound(adj: AdjList, up: AdjList, s: nat, a: nat, b: nat,
                                       ds: Labels, da: Labels, db: Labels, p: Path)
    requires BeforeUp(adj, up, s, a, b, ds, da, db) && IsPath(up, s, p)
    ensures End(s, p) < |adj| && AcrossLink(a, b, ds, da, db, End(s, p)) <= Weight(p)
  {
    match p
    case Start =>
    case Step(q, v, w) =>
      UpPathBound(adj, up, s, a, b, ds, da, db, q);
      UpStep(adj, up, s, a, b, ds, da, db, End(s, q), v, w);
  }

  lemma UpStep(adj: AdjList, up: AdjList, s: nat, a: nat, b: nat, ds: Labels, da: Labels, db: Labels,
               u: nat, v: nat, w: nat)
    requires BeforeUp(adj, up, s, a, b, ds, da, db) && u < |adj| && Edge(v, w) in up[u]
    ensures v < |adj| && AcrossLink(a, b, ds, da, db, v) <= AcrossLink(a, b, ds, da, db, u) + w
  {
    SwitchedEdge(adj, up, a, b, UP, u, v, w);
    if (u == a && v == b) || (u == b && v == a) {
      LinkStep(adj, s, a, b, ds, da, db, u, v);
    } else {
      assert Reachable(adj, s, u) && Reachable(adj, a, u) && Reachable(adj, b, u);
      OldStep(adj, s, a, b, ds, da, db, u, Edge(v, w));
    }
  }

  function Join(p: Path, q: Path): Path {
    match q
    case Start => p
    case Step(t, v, w) => Step(Join(p, t), v, w)
  }

  lemma {:induction false} JoinIsPath(adj: AdjList, s: nat, p: Path, q: Path)
    requires IsPath(adj, s, p) && IsPath(adj, End(s, p), q)
    ensures IsPath(adj, s, Join(p, q)) && End(s, Join(p, q)) == End(End(s, p), q)
    ensures Weight(Join(p, q)) == Weight(p) + Weight(q)
  {
    match q
    case Start =>
    case Step(t, v, w) => JoinIsPath(adj, s, p, t);
  }

  /** A path from s to x, the link from x to y, and a path from y to v. */
  lemma CrossingExists(adj: AdjList, up: AdjList, a: nat, b: nat, s: nat, x: nat, y: nat, v: nat, d: nat, e: nat)
    requires TwoWeights(adj) && EdgesOk(adj) && Switched(adj, up, a, b, UP)
    requires (x == a && y == b) || (x == b && y == a)
    requires x < |adj| && exists f :: f in adj[x] && f.to == y
    requires IsDistance(adj, s, x, d) && IsDistance(adj, y, v, e)
    ensures exists p :: Links(up, s, v, p) && Weight(p) <= d + 1 + e
  {
    var p :| Links(adj, s, x, p) && Weight(p) == d;
    var q :| Links(adj, y, v, q) && Weight(q) == e;
    var p' := LighterPath(up, adj, s, p);
    var q' := LighterPath(up, adj, y, q);
    var f :| f in adj[x] && f.to == y;
    var i :| 0 <= i < |adj[x]| && adj[x][i] == f;
    assert up[x][i] == Edge(y, UP) && up[x][i] in up[x];
    var p'' := Step(p', y, UP);
    JoinIsPath(up, s, p'', q');
    assert Links(up, s, v, Join(p'', q'));
  }

  /** A hop count that was exact before LinkUp(a, b) is exact after it if and only if
      no route across the link, in either direction, is shorter: a test on distances
      known before the call. */
  lemma HopsSurviveLinkUp(adj: AdjList, up: AdjList, s: nat, a: nat, b: nat,
                          ds: Labels, da: Labels, db: Labels, v: nat)
    requires BeforeUp(adj, up, s, a, b, ds, da, db) && v < |adj|
    ensures IsDistance(up, s, v, ds[v].distance) <==>
            ds[v].distance <= ds[a].distance + 1 + db[v].distance
            && ds[v].distance <= ds[b].distance + 1 + da[v].distance
  {
    UpAcross(adj, up, s, a, b, ds, da, db, v);
    UpWithout(adj, up, s, a, b, ds, v);
    forall p | Links(up, s, v, p) ensures AcrossLink(a, b, ds, da, db, v) <= Weight(p) {
      UpPathBound(adj, up, s, a, b, ds, da, db, p);
    }
  }

  lemma UpAcross(adj: AdjList, up: AdjList, s: nat, a: nat, b: nat, ds: Labels, da: Labels, db: Labels, v: nat)
    requires BeforeUp(adj, up, s, a, b, ds, da, db) && v < |adj|
    ensures exists p :: Links(up, s, v, p) && Weight(p) <= ds[a].distance + 1 + db[v].distance
    ensures exists p :: Links(up, s, v, p) && Weight(p) <= ds[b].distance + 1 + da[v].distance
  {
    assert Reachable(adj, s, a) && Reachable(adj, s, b) && Reachable(adj, a, v) && Reachable(adj, b, v);
    CrossingExists(adj, up, a, b, s, a, b, v, ds[a].distance, db[v].distance);
    CrossingExists(adj, up, a, b, s, b, a, v, ds[b].distance, da[v].distance);
  }

  lemma UpWithout(adj: AdjList, up: AdjList, s: nat, a: nat, b: nat, ds: Labels, v: nat)
    requires TwoWeights(adj) && EdgesOk(adj) && Switched(adj, up, a, b, UP)
    requires ShortestFrom(adj, s, ds) && AllReachable(adj, s) && v < |adj|
    ensures exists p :: Links(up, s, v, p) && Weight(p) <= ds[v].distance
  {
    assert Reachable(adj, s, v);
    var p0 :| Links(adj, s, v, p0) && Weight(p0) == ds[v].distance;
    var p1 := LighterPath(up, adj, s, p0);
    assert Links(up, s, v, p1);
  }

  // ----- When a distance survives LinkDown

  /** p never takes the link between a and b while it is up. */
  predicate Avoids(a: nat, b: nat, s: nat, p: Path) {
    match p
    case Start => true
    case Step(q, v, w) =>
      Avoids(a, b, s, q) && !(w == UP && ((End(s, q) == a && v == b) || (End(s, q) == b && v == a)))
  }

  lemma {:induction false} AvoidingPathStays(adj: AdjList, down: AdjList, a: nat, b: nat, s: nat, p: Path)
    requires TwoWeights(adj) && Switched(adj, down, a, b, DOWN) && IsPath(adj, s, p) && Avoids(a, b, s, p)
    ensures IsPath(down, s, p)
  {
    match p
    case Start =>
    case Step(q, v, w) =>
      AvoidingPathStays(adj, down, a, b, s, q);
      var i :| 0 <= i < |adj[End(s, q)]| && adj[End(s, q)][i] == Edge(v, w);
      assert down[End(s, q)][i] == Edge(v, w);
  }

  /** A path after LinkDown was there before, no heavier; and lighter if it takes the link. */
  lemma {:induction false} DownPathBefore(adj: AdjList, down: AdjList, a: nat, b: nat, s: nat, p: Path)
    returns (q: Path)
    requires TwoWeights(adj) && Switched(adj, down, a, b, DOWN) && IsPath(down, s, p)
    ensures IsPath(adj, s, q) && End(s, q) == End(s, p)
    ensures Weight(q) <= Weight(p) && (Weight(q) == Weight(p) ==> Avoids(a, b, s, q))
  {
    match p
    case Start => q := p;
    case Step(t, v, w) =>
      q := DownPathBefore(adj, down, a, b, s, t);
      var u := End(s, t);
      var i :| 0 <= i < |down[u]| && down[u][i] == Edge(v, w);
      assert adj[u][i].to == v && adj[u][i].weight <= w;
      q := Step(q, v, adj[u][i].weight);
  }

  /** A hop count that was exact before LinkDown(a, b) is exact after it if and only if
      some route of that length did without the link while it was up. */
  lemma {:induction false} HopsSurviveLinkDown(adj: AdjList, down: AdjList, a: nat, b: nat, s: nat, v: nat, d: nat)
    requires TwoWeights(adj) && Switched(adj, down, a, b, DOWN) && IsDistance(adj, s, v, d)
    ensures IsDistance(down, s, v, d) <==> exists p :: Links(adj, s, v, p) && Weight(p) == d && Avoids(a, b, s, p)
  {
    forall p | Links(down, s, v, p) ensures d <= Weight(p) {
      var q := DownPathBefore(adj, down, a, b, s, p);
      assert Links(adj, s, v, q);
    }
    if exists p :: Links(adj, s, v, p) && Weight(p) == d && Avoids(a, b, s, p) {
      var p :| Links(adj, s, v, p) && Weight(p) == d && Avoids(a, b, s, p);
      AvoidingPathStays(adj, down, a, b, s, p);
      assert Links(down, s, v, p);
    }
    if exists p :: Links(down, s, v, p) && Weight(p) == d {
      var p :| Links(down, s, v, p) && Weight(p) == d;
      var q := DownPathBefore(adj, down, a, b, s, p);
      assert Links(adj, s, v, q);
    }
  }
}
