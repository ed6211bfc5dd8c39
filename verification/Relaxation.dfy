/**
 The reasoning common to both searches.  While either runs, every finite label is
 the weight of a path without repetition (its witness); once no edge can lower a
 label any more, the labels are the distances.
 */
module Relaxation {
  import opened Graphs

  /** No vertex on p carries a label above the weight of p up to it. */
  ghost predicate Dominated(dist: Labels, s: nat, p: Path) {
    && End(s, p) < |dist|
    && dist[End(s, p)].distance <= Weight(p)
    && (p.Step? ==> Dominated(dist, s, p.prev))
  }

  ghost predicate Witness(adj: AdjList, s: nat, dist: Labels, v: nat, p: Path)
    requires v < |dist|
  {
    && Links(adj, s, v, p)
    && Simple(s, p)
    && Weight(p) == dist[v].distance
    && Dominated(dist, s, p)
  }

  /** The stored predecessor is a neighbour, and the label is not below what it offers. */
  ghost predicate CameFrom(adj: AdjList, dist: Labels, u: nat, v: nat)
    requires v < |dist| == |adj|
  {
    u < |adj| && dist[u].distance < INF && exists w :: Edge(v, w) in adj[u] && dist[v].distance >= dist[u].distance + w
  }

  /** The two clauses of Labelled at one vertex. */
  ghost predicate LabelledAt(adj: AdjList, s: nat, dist: Labels, paths: seq<Path>, x: nat)
    requires x < |dist| == |adj| == |paths|
  {
    && (if dist[x].distance < INF then Witness(adj, s, dist, x, paths[x]) else dist[x] == Label(INF, x))
    && (x != s && dist[x].distance < INF ==> CameFrom(adj, dist, dist[x].previous, x))
  }

  /** What holds of the labels after every single update. */
  ghost predicate Labelled(adj: AdjList, s: nat, dist: Labels, paths: seq<Path>) {
    && |dist| == |adj| == |paths|
    && s < |adj|
    && dist[s] == Label(0, s)
    && (forall v :: 0 <= v < |adj| ==> LabelledAt(adj, s, dist, paths, v))
  }

  /** No edge of u can lower the label of its target. */
  ghost predicate Relaxed(adj: AdjList, dist: Labels, u: nat)
    requires u < |adj| == |dist|
  {
    forall e :: e in adj[u] && e.to < |dist| ==> dist[e.to].distance <= dist[u].distance + e.weight
  }

  function Initial(n: nat): (dist: Labels)
    ensures |dist| == n && forall i :: 0 <= i < n ==> dist[i] == Label(INF, i)
  {
    if n == 0 then [] else Initial(n - 1) + [Label(INF, n - 1)]
  }

  lemma {:induction false} InitialLabelled(adj: AdjList, s: nat, dist: Labels, paths: seq<Path>)
    requires s < |adj|
    requires dist == Initial(|adj|)[s := Label(0, s)]
    requires paths == seq(|adj|, i => Start)
    ensures Labelled(adj, s, dist, paths)
  {
    assert Witness(adj, s, dist, s, Start);
  }

  // ----- One update

  lemma {:induction false} DominatedBound(dist: Labels, s: nat, p: Path, v: nat)
    requires Dominated(dist, s, p) && v in Visits(s, p)
    ensures v < |dist| && dist[v].distance <= Weight(p)
  {
    if v != End(s, p) { DominatedBound(dist, s, p.prev, v); }
  }

  lemma {:induction false} DominatedAfter(dist: Labels, dist': Labels, s: nat, p: Path)
    requires Dominated(dist, s, p) && |dist'| == |dist|
    requires forall i :: 0 <= i < |dist| ==> dist'[i].distance <= dist[i].distance
    ensures Dominated(dist', s, p)
  {
    if p.Step? { DominatedAfter(dist, dist', s, p.prev); }
  }

  /** Walking on to v from the witness of u never meets v again. */
  lemma {:induction false} StepIsSimple(adj: AdjList, s: nat, dist: Labels, paths: seq<Path>, u: nat, v: nat, w: nat)
    requires EdgesOk(adj) && PathSumsBelow(adj, s) && Labelled(adj, s, dist, paths)
    requires u < |adj| && Edge(v, w) in adj[u] && dist[u].distance < INF
    requires v < |adj| && dist[v].distance > dist[u].distance + w
    ensures Links(adj, s, v, Step(paths[u], v, w)) && Simple(s, Step(paths[u], v, w))
    ensures dist[u].distance + w < INF
  {
    assert LabelledAt(adj, s, dist, paths, u);
    if v in Visits(s, paths[u]) {
      DominatedBound(dist, s, paths[u], v);
    }
    assert IsPath(adj, s, Step(paths[u], v, w));
  }

  /** The 32-bit sum is the real sum: nothing wraps. */
  lemma NoWrap(adj: AdjList, dist: Labels, u: nat, v: nat, w: nat)
    requires EdgesOk(adj) && |dist| == |adj| && u < |adj| && Edge(v, w) in adj[u] && dist[u].distance < INF
    ensures v < |adj| && 0 < w && Add32(dist[u].distance, w) == dist[u].distance + w < 0x8000_0000
  {
    assert Edge(v, w).to < |adj|;
  }

  lemma {:induction false} WitnessAfter(adj: AdjList, s: nat, dist: Labels, u: nat, p: Path, v: nat, w: nat,
                                        dist': Labels)
    requires u < |dist| && v < |dist| && Witness(adj, s, dist, u, p)
    requires dist' == dist[v := Label(dist[u].distance + w, u)] && dist'[v].distance < dist[v].distance
    ensures u != v ==> Witness(adj, s, dist', u, p)
    ensures Links(adj, s, v, Step(p, v, w)) && Simple(s, Step(p, v, w)) ==>
              Witness(adj, s, dist', v, Step(p, v, w))
  {
    DominatedAfter(dist, dist', s, p);
  }

  lemma CameFromAfter(adj: AdjList, dist: Labels, t: nat, x: nat, v: nat, e: Label)
    requires |dist| == |adj| && x < |dist| && v < |dist| && x != v
    requires CameFrom(adj, dist, t, x) && e.distance < dist[v].distance
    ensures CameFrom(adj, dist[v := e], t, x)
  {
    var w :| Edge(x, w) in adj[t] && dist[x].distance >= dist[t].distance + w;
    var dist' := dist[v := e];
    assert Edge(x, w) in adj[t] && dist'[x].distance >= dist'[t].distance + w;
  }

  lemma {:induction false} UpdateKeepsAt(adj: AdjList, s: nat, dist: Labels, paths: seq<Path>, u: nat, v: nat, w: nat,
                                         x: nat)
    requires |dist| == |adj| == |paths|
    requires u < |adj| && v < |adj| && x < |adj| && Edge(v, w) in adj[u] && dist[u].distance < INF && 0 < w
    requires dist[u].distance + w < dist[v].distance && dist[u].distance + w < INF
    requires LabelledAt(adj, s, dist, paths, x) && LabelledAt(adj, s, dist, paths, u)
    requires Links(adj, s, v, Step(paths[u], v, w)) && Simple(s, Step(paths[u], v, w))
    ensures LabelledAt(adj, s, dist[v := Label(dist[u].distance + w, u)], paths[v := Step(paths[u], v, w)], x)
  {
    var dist' := dist[v := Label(dist[u].distance + w, u)];
    if x == v {
      WitnessAfter(adj, s, dist, u, paths[u], v, w, dist');
      assert Edge(v, w) in adj[u] && dist'[v].distance >= dist'[u].distance + w;
    } else if dist[x].distance < INF {
      DominatedAfter(dist, dist', s, paths[x]);
      if x != s { CameFromAfter(adj, dist, dist[x].previous, x, v, Label(dist[u].distance + w, u)); }
    }
  }

  lemma UpdateKeeps(adj: AdjList, s: nat, dist: Labels, paths: seq<Path>, u: nat, v: nat, w: nat,
                    dist': Labels, paths': seq<Path>)
    requires EdgesOk(adj) && PathSumsBelow(adj, s) && Labelled(adj, s, dist, paths)
    requires u < |adj| && Edge(v, w) in adj[u] && dist[u].distance < INF
    requires v < |adj| && dist[u].distance + w < dist[v].distance && 0 < w
    requires dist' == dist[v := Label(dist[u].distance + w, u)] && paths' == paths[v := Step(paths[u], v, w)]
    ensures Labelled(adj, s, dist', paths')
    ensures u != v && v != s
  {
    StepIsSimple(adj, s, dist, paths, u, v, w);
    forall x | 0 <= x < |adj| ensures LabelledAt(adj, s, dist', paths', x) {
      UpdateKeepsAt(adj, s, dist, paths, u, v, w, x);
    }
  }

  // ----- The answer

  /** When nothing can be lowered, every path of s weighs at least the label of its end. */
  lemma {:induction false} LabelIsLeast(adj: AdjList, s: nat, dist: Labels, paths: seq<Path>, p: Path)
    requires EdgesOk(adj) && PathSumsBelow(adj, s) && Labelled(adj, s, dist, paths)
    requires forall u :: 0 <= u < |adj| && dist[u].distance < INF ==> Relaxed(adj, dist, u)
    requires IsPath(adj, s, p)
    ensures End(s, p) < |adj| && dist[End(s, p)].distance < INF && dist[End(s, p)].distance <= Weight(p)
  {
    match p
    case Start =>
    case Step(q, v, w) =>
      LabelIsLeast(adj, s, dist, paths, q);
      var u := End(s, q);
      assert Edge(v, w) in adj[u] && Edge(v, w).to < |adj| && dist[v].distance <= dist[u].distance + Edge(v, w).weight;
      if dist[v].distance >= INF {
        assert LabelledAt(adj, s, dist, paths, u);
        if v in Visits(s, paths[u]) { DominatedBound(dist, s, paths[u], v); }
        assert IsPath(adj, s, Step(paths[u], v, w));
      }
  }

  lemma RelaxedIsShortest(adj: AdjList, s: nat, dist: Labels, paths: seq<Path>)
    requires EdgesOk(adj) && PathSumsBelow(adj, s) && Labelled(adj, s, dist, paths)
    requires forall u :: 0 <= u < |adj| && dist[u].distance < INF ==> Relaxed(adj, dist, u)
    ensures ShortestFrom(adj, s, dist)
  {
    forall v | 0 <= v < |adj|
      ensures if Reachable(adj, s, v) then dist[v].distance < INF && IsDistance(adj, s, v, dist[v].distance)
              else dist[v] == Label(INF, v)
    {
      forall p | Links(adj, s, v, p) ensures dist[v].distance < INF && dist[v].distance <= Weight(p) {
        LabelIsLeast(adj, s, dist, paths, p);
      }
      if dist[v].distance < INF {
        assert LabelledAt(adj, s, dist, paths, v);
        assert Links(adj, s, v, paths[v]) && Weight(paths[v]) == dist[v].distance;
      }
    }
    forall v | 0 <= v < |adj| && v != s && Reachable(adj, s, v)
      ensures IsPredecessor(adj, dist, dist[v].previous, v)
    {
      var u := dist[v].previous;
      assert LabelledAt(adj, s, dist, paths, v);
      var w :| Edge(v, w) in adj[u] && dist[v].distance >= dist[u].distance + w;
      assert Relaxed(adj, dist, u);
      assert Edge(v, w) in adj[u] && Edge(v, w).to < |dist|;
    }
  }

  // ----- Termination

  function SumOf(dist: Labels): nat {
    if dist == [] then 0 else dist[0].distance + SumOf(dist[1..])
  }

  lemma {:induction false} SumDrops(dist: Labels, v: nat, e: Label)
    requires v < |dist| && e.distance < dist[v].distance
    ensures SumOf(dist[v := e]) < SumOf(dist)
  {
    if v == 0 {
      assert dist[v := e][1..] == dist[1..];
    } else {
      SumDrops(dist[1..], v - 1, e);
      assert dist[v := e][1..] == dist[1..][v - 1 := e];
    }
  }
}
