/**
 The undirected topology graph built from the neighbour lists of the key
 managers: what it must contain, and why adding edges one by one gets there.
 */
module Topology {
  import opened Graphs
  import opened Routes

  ghost predicate HasEdge(adj: AdjList, i: nat, j: nat) {
    i < |adj| && Edge(j, 1) in adj[i]
  }

  ghost predicate NoRepeatedTarget(row: seq<Edge>) {
    forall a, b :: 0 <= a < b < |row| ==> row[a].to != row[b].to
  }

  ghost predicate RowOk(adj: AdjList, i: nat)
    requires i < |adj|
  {
    && (forall e :: e in adj[i] ==> e.weight == 1 && e.to < |adj| && e.to != i)
    && NoRepeatedTarget(adj[i])
  }

  /** Rows without repetition and without self-loops, weight 1, every edge in both rows. */
  ghost predicate GraphOk(adj: AdjList) {
    && (forall i :: 0 <= i < |adj| ==> RowOk(adj, i))
    && (forall i: nat, j: nat :: HasEdge(adj, i, j) ==> HasEdge(adj, j, i))
  }

  /** Key manager i named j as its neighbour. */
  ghost predicate Names(ids: seq<nat>, remotes: seq<seq<nat>>, i: nat, j: nat) {
    i < |remotes| && j < |ids| && ids[j] in remotes[i]
  }

  /** The graph links exactly the different key managers one of which named the other. */
  ghost predicate LinksNeighbours(adj: AdjList, ids: seq<nat>, remotes: seq<seq<nat>>) {
    && |adj| == |ids| == |remotes|
    && forall i: nat, j: nat :: i < |ids| && j < |ids| ==>
         (HasEdge(adj, i, j) <==> i != j && (Names(ids, remotes, i, j) || Names(ids, remotes, j, i)))
  }

  /** The update of the innermost loop: the edge in both rows. */
  function Connect(adj: AdjList, i: nat, j: nat): (r: AdjList)
    requires i < |adj| && j < |adj| && i != j
    ensures |r| == |adj|
  {
    adj[i := adj[i] + [Edge(j, 1)]][j := adj[j] + [Edge(i, 1)]]
  }

  lemma ConnectRows(adj: AdjList, i: nat, j: nat, k: nat)
    requires i < |adj| && j < |adj| && i != j && k < |adj|
    ensures Connect(adj, i, j)[k] == if k == i then adj[i] + [Edge(j, 1)]
                                     else if k == j then adj[j] + [Edge(i, 1)] else adj[k]
  {
  }

  lemma ConnectHas(adj: AdjList, i: nat, j: nat, a: nat, b: nat)
    requires i < |adj| && j < |adj| && i != j && a < |adj|
    ensures HasEdge(Connect(adj, i, j), a, b) <==> HasEdge(adj, a, b) || (a == i && b == j) || (a == j && b == i)
  {
    ConnectRows(adj, i, j, a);
  }

  lemma ConnectRowOk(adj: AdjList, i: nat, j: nat, k: nat)
    requires GraphOk(adj) && i < |adj| && j < |adj| && i != j && !HasEdge(adj, i, j) && k < |adj|
    ensures RowOk(Connect(adj, i, j), k)
  {
    ConnectRows(adj, i, j, k);
    assert RowOk(adj, k);
    if k == i {
      NewTarget(adj, i, j);
    } else if k == j {
      assert !HasEdge(adj, j, i);
      NewTarget(adj, j, i);
    }
  }

  lemma NewTarget(adj: AdjList, i: nat, j: nat)
    requires i < |adj| && RowOk(adj, i) && !HasEdge(adj, i, j)
    ensures NoRepeatedTarget(adj[i] + [Edge(j, 1)])
  {
    forall a | 0 <= a < |adj[i]| ensures adj[i][a].to != j {
      assert adj[i][a] in adj[i];
    }
  }

  lemma ConnectKeeps(adj: AdjList, i: nat, j: nat)
    requires GraphOk(adj) && i < |adj| && j < |adj| && i != j && !HasEdge(adj, i, j)
    ensures GraphOk(Connect(adj, i, j))
  {
    var r := Connect(adj, i, j);
    forall k | 0 <= k < |r| ensures RowOk(r, k) { ConnectRowOk(adj, i, j, k); }
    forall a: nat, b: nat | HasEdge(r, a, b) ensures HasEdge(r, b, a) {
      ConnectHas(adj, i, j, a, b);
      if b < |adj| { ConnectHas(adj, i, j, b, a); }
      assert RowOk(r, a);
    }
  }

  lemma GraphOkIsSearchable(adj: AdjList, s: nat)
    requires GraphOk(adj) && |adj| < INF
    ensures EdgesOk(adj) && UnitWeights(adj) && PathSumsBelow(adj, s)
  {
    forall u, e | 0 <= u < |adj| && e in adj[u] ensures e.weight == 1 && e.to < |adj| {
      assert RowOk(adj, u);
    }
    SumsStayBelow(adj, s, 1);
  }

  // ----- The progress of the construction

  /** Key manager i has named j among the neighbours handled so far: all of those of
      the rows before idx, and the first k of row idx. */
  ghost predicate Handled(ids: seq<nat>, remotes: seq<seq<nat>>, idx: nat, k: nat, i: nat, j: nat) {
    && i < |remotes| && j < |ids|
    && if i < idx then ids[j] in remotes[i]
       else i == idx && k <= |remotes[i]| && ids[j] in remotes[i][..k]
  }

  ghost predicate Partial(adj: AdjList, ids: seq<nat>, remotes: seq<seq<nat>>, idx: nat, k: nat) {
    && |adj| == |ids|
    && forall i: nat, j: nat :: i < |ids| && j < |ids| ==>
         (HasEdge(adj, i, j) <==>
            i != j && (Handled(ids, remotes, idx, k, i, j) || Handled(ids, remotes, idx, k, j, i)))
  }

  lemma HandledNext(ids: seq<nat>, remotes: seq<seq<nat>>, idx: nat, k: nat, i: nat, j: nat)
    requires idx < |remotes| && k < |remotes[idx]|
    ensures Handled(ids, remotes, idx, k + 1, i, j) <==>
            Handled(ids, remotes, idx, k, i, j) || (i == idx && j < |ids| && ids[j] == remotes[idx][k])
  {
    assert remotes[idx][..k + 1] == remotes[idx][..k] + [remotes[idx][k]];
  }

  lemma PartialSkipUnknown(adj: AdjList, ids: seq<nat>, remotes: seq<seq<nat>>, idx: nat, k: nat)
    requires Partial(adj, ids, remotes, idx, k) && idx < |remotes| && k < |remotes[idx]|
    requires remotes[idx][k] !in ids
    ensures Partial(adj, ids, remotes, idx, k + 1)
  {
    forall i: nat, j: nat | i < |ids| && j < |ids|
      ensures Handled(ids, remotes, idx, k + 1, i, j) == Handled(ids, remotes, idx, k, i, j)
    {
      HandledNext(ids, remotes, idx, k, i, j);
    }
  }

  lemma PartialSkip(adj: AdjList, ids: seq<nat>, remotes: seq<seq<nat>>, idx: nat, k: nat, dst: nat)
    requires Partial(adj, ids, remotes, idx, k) && idx < |remotes| && k < |remotes[idx]| && Injective(ids)
    requires idx < |ids| && dst < |ids| && ids[dst] == remotes[idx][k]
    requires dst == idx || HasEdge(adj, idx, dst)
    ensures Partial(adj, ids, remotes, idx, k + 1)
  {
    forall i: nat, j: nat | i < |ids| && j < |ids|
      ensures HasEdge(adj, i, j) <==>
                i != j && (Handled(ids, remotes, idx, k + 1, i, j) || Handled(ids, remotes, idx, k + 1, j, i))
    {
      HandledNext(ids, remotes, idx, k, i, j);
      HandledNext(ids, remotes, idx, k, j, i);
      SameId(ids, j, dst);
      SameId(ids, i, dst);
      assert HasEdge(adj, i, j) == HasEdge(adj, j, i);
    }
  }

  lemma PartialConnect(adj: AdjList, ids: seq<nat>, remotes: seq<seq<nat>>, idx: nat, k: nat, dst: nat, adj': AdjList)
    requires Partial(adj, ids, remotes, idx, k) && idx < |remotes| && k < |remotes[idx]| && Injective(ids)
    requires idx < |ids| && dst < |ids| && ids[dst] == remotes[idx][k] && dst != idx
    requires adj' == Connect(adj, idx, dst)
    ensures Partial(adj', ids, remotes, idx, k + 1)
  {
    forall i: nat, j: nat | i < |ids| && j < |ids|
      ensures HasEdge(adj', i, j) <==>
                i != j && (Handled(ids, remotes, idx, k + 1, i, j) || Handled(ids, remotes, idx, k + 1, j, i))
    {
      ConnectHas(adj, idx, dst, i, j);
      HandledNext(ids, remotes, idx, k, i, j);
      HandledNext(ids, remotes, idx, k, j, i);
      SameId(ids, j, dst);
      SameId(ids, i, dst);
    }
  }

  lemma HandledRow(ids: seq<nat>, remotes: seq<seq<nat>>, idx: nat, i: nat, j: nat)
    requires idx < |remotes|
    ensures Handled(ids, remotes, idx, |remotes[idx]|, i, j) <==> Handled(ids, remotes, idx + 1, 0, i, j)
  {
    assert remotes[idx][..|remotes[idx]|] == remotes[idx];
  }

  lemma PartialRow(adj: AdjList, ids: seq<nat>, remotes: seq<seq<nat>>, idx: nat)
    requires idx < |remotes| && Partial(adj, ids, remotes, idx, |remotes[idx]|)
    ensures Partial(adj, ids, remotes, idx + 1, 0)
  {
    forall i: nat, j: nat | i < |ids| && j < |ids|
      ensures Handled(ids, remotes, idx, |remotes[idx]|, i, j) == Handled(ids, remotes, idx + 1, 0, i, j)
    {
      HandledRow(ids, remotes, idx, i, j);
    }
  }

  lemma PartialStart(adj: AdjList, ids: seq<nat>, remotes: seq<seq<nat>>)
    requires |adj| == |ids| && forall i :: 0 <= i < |adj| ==> adj[i] == []
    ensures Partial(adj, ids, remotes, 0, 0) && GraphOk(adj)
  {
  }

  lemma PartialDone(adj: AdjList, ids: seq<nat>, remotes: seq<seq<nat>>)
    requires Partial(adj, ids, remotes, |ids|, 0) && |remotes| == |ids|
    ensures LinksNeighbours(adj, ids, remotes)
  {
    forall i: nat, j: nat | i < |ids| && j < |ids|
      ensures HasEdge(adj, i, j) <==> i != j && (Names(ids, remotes, i, j) || Names(ids, remotes, j, i))
    {
      assert Handled(ids, remotes, |ids|, 0, i, j) == Names(ids, remotes, i, j);
      assert Handled(ids, remotes, |ids|, 0, j, i) == Names(ids, remotes, j, i);
    }
  }
}
