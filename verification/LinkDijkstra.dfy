/**
 The shortest-path search of QKDLinkHelper: a priority queue ordered by distance
 whose outdated entries are dropped when they surface.
 */
module LinkDijkstra {
  import opened Graphs
  import opened Relaxation
  import opened PriorityQueue

  /** Labels are at most INF; every vertex with a finite label is finished or waits
      in the queue under its present label; no entry is below the label of its vertex. */
  ghost predicate Queued(dist: Labels, pq: Queue, done: set<int>) {
    && Distinct(pq)
    && (forall x :: 0 <= x < |dist| ==> dist[x].distance <= INF)
    && (forall e :: e in pq ==> e.second < |dist| && dist[e.second].distance <= e.first < INF)
    && (forall x :: 0 <= x < |dist| && dist[x].distance < INF && x !in done ==> Entry(dist[x].distance, x) in pq)
  }

  /** Finished vertices have the smallest labels and no entry of their own value. */
  ghost predicate Settled(dist: Labels, pq: Queue, done: set<int>) {
    && (forall x :: x in done ==> 0 <= x < |dist| && dist[x].distance < INF && Entry(dist[x].distance, x) !in pq)
    && (forall x, y :: x in done && 0 <= x < |dist| && 0 <= y < |dist| && y !in done ==>
          dist[x].distance <= dist[y].distance)
  }

  /** All finished vertices but u have nothing left to offer. */
  ghost predicate AllRelaxedBut(adj: AdjList, dist: Labels, done: set<int>, u: nat) {
    |dist| == |adj| && forall x :: x in done && x != u ==> 0 <= x < |adj| && Relaxed(adj, dist, x)
  }

  ghost predicate AllRelaxed(adj: AdjList, dist: Labels, done: set<int>) {
    |dist| == |adj| && forall x :: x in done ==> 0 <= x < |adj| && Relaxed(adj, dist, x)
  }

  /** u is among the finished vertices, and none of them has a larger label. */
  ghost predicate Newest(dist: Labels, done: set<int>, u: nat) {
    u in done && forall x :: x in done ==> 0 <= x < |dist| && u < |dist| && dist[x].distance <= dist[u].distance
  }

  lemma PopStale(dist: Labels, pq: Queue, done: set<int>, k: nat)
    requires Queued(dist, pq, done) && Settled(dist, pq, done)
    requires k < |pq| && pq[k].second < |dist| && pq[k].first != dist[pq[k].second].distance
    ensures Queued(dist, Without(pq, k), done) && Settled(dist, Without(pq, k), done)
  {
  }

  lemma PopCurrent(dist: Labels, pq: Queue, done: set<int>, k: nat, u: nat)
    requires Queued(dist, pq, done) && Settled(dist, pq, done)
    requires k < |pq| && forall i :: 0 <= i < |pq| ==> AtMost(pq[k], pq[i])
    requires u < |dist| && pq[k] == Entry(dist[u].distance, u) && dist[u].distance < INF
    ensures u !in done
    ensures Queued(dist, Without(pq, k), done + {u}) && Settled(dist, Without(pq, k), done + {u})
    ensures Newest(dist, done + {u}, u)
  {
    forall y | 0 <= y < |dist| && y !in done ensures dist[u].distance <= dist[y].distance {
      if dist[y].distance < INF {
        assert Entry(dist[y].distance, y) in pq;
      }
    }
  }

  lemma Push(dist: Labels, pq: Queue, done: set<int>, u: nat, v: nat, d: nat, dist': Labels, pq': Queue)
    requires Queued(dist, pq, done) && Settled(dist, pq, done) && Newest(dist, done, u)
    requires v < |dist| && dist[u].distance < d < dist[v].distance && d < INF
    requires dist' == dist[v := Label(d, u)] && pq' == pq + [Entry(d, v)]
    ensures Queued(dist', pq', done) && Settled(dist', pq', done) && Newest(dist', done, u)
    ensures v !in done
  {
    DistinctPush(pq, Entry(d, v));
  }

  lemma RelaxedAfter(adj: AdjList, dist: Labels, done: set<int>, u: nat, v: nat, e: Label, dist': Labels)
    requires AllRelaxedBut(adj, dist, done, u) && v < |dist| && v !in done && e.distance < dist[v].distance
    requires dist' == dist[v := e]
    ensures AllRelaxedBut(adj, dist', done, u)
  {
    forall x | x in done && x != u ensures Relaxed(adj, dist', x) {
      assert Relaxed(adj, dist, x);
    }
  }

  /** The first i edges of u can lower no label. */
  ghost predicate EdgesRelaxed(adj: AdjList, dist: Labels, u: nat, i: nat) {
    && u < |adj| == |dist|
    && i <= |adj[u]|
    && forall j :: 0 <= j < i ==>
         adj[u][j].to < |dist| && dist[adj[u][j].to].distance <= dist[u].distance + adj[u][j].weight
  }

  lemma EdgesRelaxedAfter(adj: AdjList, dist: Labels, u: nat, i: nat, d: nat, dist': Labels)
    requires EdgesRelaxed(adj, dist, u, i) && i < |adj[u]| && adj[u][i].to < |dist| && u != adj[u][i].to
    requires d == dist[u].distance + adj[u][i].weight < dist[adj[u][i].to].distance
    requires dist' == dist[adj[u][i].to := Label(d, u)]
    ensures EdgesRelaxed(adj, dist', u, i + 1)
  {
  }

  /** What the outer loop keeps. */
  ghost predicate Searching(adj: AdjList, s: nat, dist: Labels, pq: Queue, done: set<int>, paths: seq<Path>) {
    && Labelled(adj, s, dist, paths)
    && Queued(dist, pq, done)
    && Settled(dist, pq, done)
    && AllRelaxed(adj, dist, done)
  }

  /** What the inner loop keeps: u is the newest finished vertex, its first i edges are done. */
  ghost predicate Visiting(adj: AdjList, s: nat, dist: Labels, pq: Queue, done: set<int>, paths: seq<Path>,
                           u: nat, i: nat) {
    && Labelled(adj, s, dist, paths)
    && Queued(dist, pq, done)
    && Settled(dist, pq, done)
    && Newest(dist, done, u)
    && AllRelaxedBut(adj, dist, done, u)
    && EdgesRelaxed(adj, dist, u, i)
  }

  lemma SkipEdge(adj: AdjList, s: nat, dist: Labels, pq: Queue, done: set<int>, paths: seq<Path>, u: nat, i: nat)
    requires Visiting(adj, s, dist, pq, done, paths, u, i) && i < |adj[u]|
    requires adj[u][i].to < |dist| && dist[adj[u][i].to].distance <= dist[u].distance + adj[u][i].weight
    ensures Visiting(adj, s, dist, pq, done, paths, u, i + 1)
  {
  }

  lemma TakeEdge(adj: AdjList, s: nat, dist: Labels, pq: Queue, done: set<int>, paths: seq<Path>, u: nat, i: nat,
                 v: nat, w: nat, dist': Labels, pq': Queue, paths': seq<Path>)
    requires EdgesOk(adj) && PathSumsBelow(adj, s)
    requires Visiting(adj, s, dist, pq, done, paths, u, i) && i < |adj[u]| && adj[u][i] == Edge(v, w)
    requires 0 < w && v < |dist| && dist[u].distance + w < dist[v].distance && dist[u].distance < INF
    requires dist' == dist[v := Label(dist[u].distance + w, u)] && pq' == pq + [Entry(dist[u].distance + w, v)]
    requires paths' == paths[v := Step(paths[u], v, w)]
    ensures Visiting(adj, s, dist', pq', done, paths', u, i + 1)
  {
    assert Edge(v, w) in adj[u];
    StepIsSimple(adj, s, dist, paths, u, v, w);
    UpdateKeeps(adj, s, dist, paths, u, v, w, dist', paths');
    Push(dist, pq, done, u, v, dist[u].distance + w, dist', pq');
    RelaxedAfter(adj, dist, done, u, v, Label(dist[u].distance + w, u), dist');
    EdgesRelaxedAfter(adj, dist, u, i, dist[u].distance + w, dist');
  }

  lemma DoneEdges(adj: AdjList, s: nat, dist: Labels, pq: Queue, done: set<int>, paths: seq<Path>, u: nat)
    requires u < |adj| && Visiting(adj, s, dist, pq, done, paths, u, |adj[u]|)
    ensures Searching(adj, s, dist, pq, done, paths)
  {
    assert Relaxed(adj, dist, u);
  }

  /** The inner loop: visit all neighbours of u. */
  method VisitNeighbours(adjList: AdjList, ghost start: nat, u: nat, dist0: Labels, pq0: Queue,
                         ghost done: set<int>, ghost paths0: seq<Path>)
    returns (dist: Labels, pq: Queue, ghost paths: seq<Path>)
    requires EdgesOk(adjList) && PathSumsBelow(adjList, start)
    requires u < |adjList| == |dist0| && dist0[u].distance < INF
    requires Visiting(adjList, start, dist0, pq0, done, paths0, u, 0)
    ensures Searching(adjList, start, dist, pq, done, paths)
    ensures SumOf(dist) < SumOf(dist0) || (SumOf(dist) == SumOf(dist0) && |pq| == |pq0|)
  {
    dist, pq, paths := dist0, pq0, paths0;
    var listSize := |adjList[u]|;
    for i := 0 to listSize
      invariant |dist| == |adjList| && |paths| == |adjList| && dist[u].distance < INF
      invariant Visiting(adjList, start, dist, pq, done, paths, u, i)
      invariant SumOf(dist) < SumOf(dist0) || (SumOf(dist) == SumOf(dist0) && |pq| == |pq0|)
    {
      var v, weight := adjList[u][i].to, adjList[u][i].weight;
      assert Edge(v, weight) in adjList[u];
      NoWrap(adjList, dist, u, v, weight);
      var sum := Add32(dist[u].distance, weight);
      if dist[v].distance > sum {
        ghost var dist1, pq1, paths1 := dist, pq, paths;
        SumDrops(dist, v, Label(sum, u));
        paths := paths[v := Step(paths[u], v, weight)];
        dist := dist[v := Label(sum, u)];
        pq := pq + [Entry(dist[v].distance, v)];
        TakeEdge(adjList, start, dist1, pq1, done, paths1, u, i, v, weight, dist, pq, paths);
      } else {
        SkipEdge(adjList, start, dist, pq, done, paths, u, i);
      }
    }
    DoneEdges(adjList, start, dist, pq, done, paths, u);
  }

  /** A current entry (d, u) is taken from the queue: u joins the finished vertices. */
  lemma Expand(adj: AdjList, s: nat, dist: Labels, pq: Queue, done: set<int>, paths: seq<Path>,
               k: nat, u: nat, pq': Queue, done': set<int>)
    requires Searching(adj, s, dist, pq, done, paths)
    requires k < |pq| && forall i :: 0 <= i < |pq| ==> AtMost(pq[k], pq[i])
    requires u < |dist| && pq[k] == Entry(dist[u].distance, u) && dist[u].distance < INF
    requires pq' == Without(pq, k) && done' == done + {u}
    ensures u !in done && Visiting(adj, s, dist, pq', done', paths, u, 0)
  {
    PopCurrent(dist, pq, done, k, u);
  }

  lemma Discard(adj: AdjList, s: nat, dist: Labels, pq: Queue, done: set<int>, paths: seq<Path>, k: nat, pq': Queue)
    requires Searching(adj, s, dist, pq, done, paths)
    requires k < |pq| && pq[k].second < |dist| && pq[k].first != dist[pq[k].second].distance
    requires pq' == Without(pq, k)
    ensures Searching(adj, s, dist, pq', done, paths)
  {
    PopStale(dist, pq, done, k);
  }

  /** A popped entry is in range, and only a finite label can match it. */
  lemma Popped(adj: AdjList, s: nat, dist: Labels, pq: Queue, done: set<int>, paths: seq<Path>, k: nat)
    requires Searching(adj, s, dist, pq, done, paths) && k < |pq|
    ensures |dist| == |adj| && pq[k].second < |dist| && pq[k].first < INF
  {
    assert pq[k] in pq;
  }

  lemma {:induction false} Begin(adj: AdjList, s: nat, dist: Labels, pq: Queue, paths: seq<Path>)
    requires s < |adj|
    requires dist == Initial(|adj|)[s := Label(0, s)] && pq == [Entry(0, s)] && paths == seq(|adj|, i => Start)
    ensures Searching(adj, s, dist, pq, {}, paths)
  {
    InitialLabelled(adj, s, dist, paths);
  }

  /** The finished vertices, in the order in which they were expanded. */
  ghost predicate Listed(expanded: seq<nat>, done: set<int>) {
    && (forall x :: x in expanded <==> x in done && 0 <= x)
    && (forall i, j :: 0 <= i < j < |expanded| ==> expanded[i] != expanded[j])
  }

  /** With an empty queue the labels are the answer, and exactly the reached vertices are finished. */
  lemma Finish(adj: AdjList, s: nat, dist: Labels, done: set<int>, paths: seq<Path>)
    requires EdgesOk(adj) && PathSumsBelow(adj, s) && Searching(adj, s, dist, [], done, paths)
    ensures ShortestFrom(adj, s, dist)
    ensures forall x: nat :: x in done <==> x < |adj| && dist[x].distance < INF
  {
    RelaxedIsShortest(adj, s, dist, paths);
  }

  /** DijkstraSP: queue entries are (distance, vertex); an entry whose distance is
      no longer the label of its vertex is skipped.  The ghost result lists the
      vertices whose edges were visited: every reached one, and none twice. */
  method DijkstraSP(adjList: AdjList, start: nat) returns (dist: Labels, ghost expanded: seq<nat>)
    requires EdgesOk(adjList) && PathSumsBelow(adjList, start)
    ensures start < |adjList| ==> ShortestFrom(adjList, start, dist)
    ensures start >= |adjList| ==> |dist| == |adjList| && forall i :: 0 <= i < |dist| ==> dist[i] == Label(INF, i)
    ensures forall i, j :: 0 <= i < j < |expanded| ==> expanded[i] != expanded[j]
    ensures |dist| == |adjList| && forall v: nat :: v in expanded <==> v < |dist| && dist[v].distance < INF
  {
    var n := |adjList|;
    dist := [];
    expanded := [];
    for i := 0 to n
      invariant dist == Initial(i)
    {
      dist := dist + [Label(INF, i)];
    }
    if start >= n {
      return;
    }
    dist := dist[start := Label(0, start)];
    var pq: Queue := [Entry(0, start)];
    ghost var paths := seq(n, i => Start);
    ghost var done: set<int> := {};
    Begin(adjList, start, dist, pq, paths);

    while pq != []
      invariant Searching(adjList, start, dist, pq, done, paths)
      invariant Listed(expanded, done)
      decreases SumOf(dist), |pq|
    {
      var k := Top(pq);
      var top := pq[k];
      Popped(adjList, start, dist, pq, done, paths, k);
      ghost var whole := pq;
      pq := Without(pq, k);
      var currDist, u := top.first, top.second;
      if currDist != dist[u].distance {
        Discard(adjList, start, dist, whole, done, paths, k, pq);
        continue;
      }
      Expand(adjList, start, dist, whole, done, paths, k, u, pq, done + {u});
      dist, pq, paths := VisitNeighbours(adjList, start, u, dist, pq, done + {u}, paths);
      expanded := expanded + [u];
      done := done + {u};
    }
    Finish(adjList, start, dist, done, paths);
  }
}
