/**
 The shortest-path search of QCenController.  Its queue holds (vertex, distance)
 pairs, so it serves the lowest vertex number first, and it never drops an entry:
 a vertex may be visited many times.  It computes the same distances all the same.
 */
module CenDijkstra {
  import opened Graphs
  import opened Relaxation
  import opened PriorityQueue
  import LinkDijkstra

  /** Some entry of the queue is for x. */
  ghost predicate Waits(pq: Queue, x: nat) {
    exists e :: e in pq && e.first == x
  }

  ghost predicate InRange(dist: Labels, pq: Queue) {
    forall e :: e in pq ==> e.first < |dist| && dist[e.first].distance < INF
  }

  /** Every labelled vertex but u has nothing left to offer or waits for a visit. */
  ghost predicate PendingBut(adj: AdjList, dist: Labels, pq: Queue, u: int) {
    && |dist| == |adj|
    && forall x :: 0 <= x < |dist| && x != u && dist[x].distance < INF ==> Relaxed(adj, dist, x) || Waits(pq, x)
  }

  /** The first i edges of u can lower no label. */
  ghost predicate EdgesRelaxed(adj: AdjList, dist: Labels, u: nat, i: nat) {
    && u < |adj| == |dist|
    && i <= |adj[u]|
    && forall j :: 0 <= j < i ==>
         adj[u][j].to < |dist| && dist[adj[u][j].to].distance <= dist[u].distance + adj[u][j].weight
  }

  /** What the inner loop keeps while the edges of u are visited. */
  ghost predicate Visiting(adj: AdjList, s: nat, dist: Labels, pq: Queue, paths: seq<Path>, u: nat, i: nat) {
    && Labelled(adj, s, dist, paths)
    && InRange(dist, pq)
    && PendingBut(adj, dist, pq, u)
    && EdgesRelaxed(adj, dist, u, i)
  }

  /** What the outer loop keeps. */
  ghost predicate Searching(adj: AdjList, s: nat, dist: Labels, pq: Queue, paths: seq<Path>) {
    && Labelled(adj, s, dist, paths)
    && InRange(dist, pq)
    && PendingBut(adj, dist, pq, -1)
  }

  lemma PendingAfter(adj: AdjList, dist: Labels, pq: Queue, u: nat, v: nat, e: Label, dist': Labels, pq': Queue)
    requires PendingBut(adj, dist, pq, u) && v < |dist| && e.distance < dist[v].distance
    requires dist' == dist[v := e] && pq' == pq + [Entry(v, e.distance)]
    ensures PendingBut(adj, dist', pq', u)
  {
    assert Entry(v, e.distance) in pq';
    forall x | 0 <= x < |dist| && x != u && dist'[x].distance < INF
      ensures Relaxed(adj, dist', x) || Waits(pq', x)
    {
      if x != v {
        if Waits(pq, x) {
          var f :| f in pq && f.first == x;
          assert f in pq';
        } else {
          assert Relaxed(adj, dist, x);
        }
      }
    }
  }

  lemma EdgesRelaxedAfter(adj: AdjList, dist: Labels, u: nat, i: nat, d: nat, dist': Labels)
    requires EdgesRelaxed(adj, dist, u, i) && i < |adj[u]| && adj[u][i].to < |dist| && u != adj[u][i].to
    requires d == dist[u].distance + adj[u][i].weight < dist[adj[u][i].to].distance
    requires dist' == dist[adj[u][i].to := Label(d, u)]
    ensures EdgesRelaxed(adj, dist', u, i + 1)
  {
  }

  lemma SkipEdge(adj: AdjList, s: nat, dist: Labels, pq: Queue, paths: seq<Path>, u: nat, i: nat)
    requires Visiting(adj, s, dist, pq, paths, u, i) && i < |adj[u]|
    requires adj[u][i].to < |dist| && dist[adj[u][i].to].distance <= dist[u].distance + adj[u][i].weight
    ensures Visiting(adj, s, dist, pq, paths, u, i + 1)
  {
  }

  lemma TakeEdge(adj: AdjList, s: nat, dist: Labels, pq: Queue, paths: seq<Path>, u: nat, i: nat,
                 v: nat, w: nat, dist': Labels, pq': Queue, paths': seq<Path>)
    requires EdgesOk(adj) && PathSumsBelow(adj, s)
    requires Visiting(adj, s, dist, pq, paths, u, i) && i < |adj[u]| && adj[u][i] == Edge(v, w)
    requires 0 < w && v < |dist| && dist[u].distance + w < dist[v].distance && dist[u].distance < INF
    requires dist' == dist[v := Label(dist[u].distance + w, u)] && pq' == pq + [Entry(v, dist[u].distance + w)]
    requires paths' == paths[v := Step(paths[u], v, w)]
    ensures Visiting(adj, s, dist', pq', paths', u, i + 1)
  {
    assert Edge(v, w) in adj[u];
    StepIsSimple(adj, s, dist, paths, u, v, w);
    UpdateKeeps(adj, s, dist, paths, u, v, w, dist', paths');
    PendingAfter(adj, dist, pq, u, v, Label(dist[u].distance + w, u), dist', pq');
    EdgesRelaxedAfter(adj, dist, u, i, dist[u].distance + w, dist');
  }

  lemma DoneEdges(adj: AdjList, s: nat, dist: Labels, pq: Queue, paths: seq<Path>, u: nat)
    requires u < |adj| && Visiting(adj, s, dist, pq, paths, u, |adj[u]|)
    ensures Searching(adj, s, dist, pq, paths)
  {
    assert Relaxed(adj, dist, u);
  }

  /** An entry for u is taken from the queue. */
  lemma Pop(adj: AdjList, s: nat, dist: Labels, pq: Queue, paths: seq<Path>, k: nat, pq': Queue)
    requires Searching(adj, s, dist, pq, paths) && k < |pq| && pq' == Without(pq, k)
    ensures |dist| == |adj| && pq[k].first < |dist| && dist[pq[k].first].distance < INF
    ensures Visiting(adj, s, dist, pq', paths, pq[k].first, 0)
  {
    assert pq[k] in pq;
    var u := pq[k].first;
    forall x | 0 <= x < |dist| && x != u && dist[x].distance < INF
      ensures Relaxed(adj, dist, x) || Waits(pq', x)
    {
      if Waits(pq, x) {
        var e :| e in pq && e.first == x;
        assert e in pq';
      }
    }
  }

  lemma {:induction false} Begin(adj: AdjList, s: nat, dist: Labels, pq: Queue, paths: seq<Path>)
    requires s < |adj|
    requires dist == Initial(|adj|)[s := Label(0, s)] && pq == [Entry(s, 0)] && paths == seq(|adj|, i => Start)
    ensures Searching(adj, s, dist, pq, paths)
  {
    InitialLabelled(adj, s, dist, paths);
    assert Entry(s, 0) in pq;
  }

  /** The inner loop: visit all of u's friends. */
  method VisitFriends(adjList: AdjList, ghost start: nat, u: nat, dist0: Labels, pq0: Queue, ghost paths0: seq<Path>)
    returns (dist: Labels, pq: Queue, ghost paths: seq<Path>)
    requires EdgesOk(adjList) && PathSumsBelow(adjList, start)
    requires u < |adjList| == |dist0| && dist0[u].distance < INF
    requires Visiting(adjList, start, dist0, pq0, paths0, u, 0)
    ensures Searching(adjList, start, dist, pq, paths)
    ensures SumOf(dist) < SumOf(dist0) || (SumOf(dist) == SumOf(dist0) && |pq| == |pq0|)
  {
    dist, pq, paths := dist0, pq0, paths0;
    var listSize := |adjList[u]|;
    for i := 0 to listSize
      invariant |dist| == |adjList| && |paths| == |adjList| && dist[u].distance < INF
      invariant Visiting(adjList, start, dist, pq, paths, u, i)
      invariant SumOf(dist) < SumOf(dist0) || (SumOf(dist) == SumOf(dist0) && |pq| == |pq0|)
    {
      var v, weight := adjList[u][i].to, adjList[u][i].weight;
      assert Edge(v, weight) in adjList[u];
      NoWrap(adjList, dist, u, v, weight);
      var sum := Add32(dist[u].distance, weight);
      if dist[v].distance > sum {
        ghost var dist1, pq1, paths1 := dist, pq, paths;
        SumDrops(dist, v, Label(sum, u));
        paths := paths[v := Step(paths[u], v, weight)];
        dist := dist[v := Label(sum, u)];
        pq := pq + [Entry(v, dist[v].distance)];
        TakeEdge(adjList, start, dist1, pq1, paths1, u, i, v, weight, dist, pq, paths);
      } else {
        SkipEdge(adjList, start, dist, pq, paths, u, i);
      }
    }
    DoneEdges(adjList, start, dist, pq, paths, u);
  }

  /** DijkstraSP of the central controller.  Like the original it must not be
      started outside the graph. */
  method DijkstraSP(adjList: AdjList, start: nat) returns (dist: Labels)
    requires EdgesOk(adjList) && PathSumsBelow(adjList, start) && start < |adjList|
    ensures ShortestFrom(adjList, start, dist)
  {
    var n := |adjList|;
    dist := [];
    for i := 0 to n
      invariant dist == Initial(i)
    {
      dist := dist + [Label(INF, i)];
    }
    var pq: Queue := [Entry(start, 0)];
    dist := dist[start := Label(0, start)];
    ghost var paths := seq(n, i => Start);
    Begin(adjList, start, dist, pq, paths);

    while pq != []
      invariant Searching(adjList, start, dist, pq, paths)
      decreases SumOf(dist), |pq|
    {
      var k := Top(pq);
      var u := pq[k].first;
      ghost var whole := pq;
      pq := Without(pq, k);
      Pop(adjList, start, dist, whole, paths, k, pq);
      dist, pq, paths := VisitFriends(adjList, start, u, dist, pq, paths);
    }
    RelaxedIsShortest(adjList, start, dist, paths);
  }

  /** The two searches, run on the same graph from the same start, agree on every distance. */
  method SameAsLinkHelper(adjList: AdjList, start: nat) returns (central: Labels, distributed: Labels)
    requires EdgesOk(adjList) && PathSumsBelow(adjList, start) && start < |adjList|
    ensures |central| == |distributed| == |adjList|
    ensures forall v :: 0 <= v < |adjList| ==> central[v].distance == distributed[v].distance
  {
    central := DijkstraSP(adjList, start);
    ghost var expanded;
    distributed, expanded := LinkDijkstra.DijkstraSP(adjList, start);
    forall v | 0 <= v < |adjList| ensures central[v].distance == distributed[v].distance {
      SameDistances(adjList, start, central, distributed, v);
    }
  }
}
