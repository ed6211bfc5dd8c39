/**
 QKDLinkHelper: numbering the key managers, building their topology graph and
 filling their routing tables.
 */
module LinkHelper {
  import opened Options
  import opened Graphs
  import opened Routes
  import opened LocationRegister
  import opened OrderedKeys
  import opened Topology
  import LinkDijkstra

  function Reverse(s: seq<nat>): (r: seq<nat>)
    ensures |r| == |s|
    ensures forall i :: 0 <= i < |s| ==> r[i] == s[|s| - 1 - i]
  {
    if s == [] then [] else Reverse(s[1..]) + [s[0]]
  }

  lemma {:induction false} SecondOfReversed(s: seq<nat>, last: nat)
    requires s != []
    ensures |Reverse(s + [last])| >= 2 && Reverse(s + [last])[1] == s[|s| - 1]
  {
  }

  /** The first n keys with their positions. */
  function IndexMap(keys: seq<nat>, n: nat): map<nat, nat>
    requires n <= |keys|
  {
    if n == 0 then map[] else IndexMap(keys, n - 1)[keys[n - 1] := n - 1]
  }

  lemma {:induction false} IndexMapKeys(keys: seq<nat>, n: nat, id: nat)
    requires n <= |keys|
    ensures id in IndexMap(keys, n) <==> id in keys[..n]
  {
    if n > 0 {
      IndexMapKeys(keys, n - 1, id);
      assert keys[..n] == keys[..n - 1] + [keys[n - 1]];
    }
  }

  lemma {:induction false} IndexMapAt(keys: seq<nat>, n: nat, i: nat)
    requires i < n <= |keys| && Increasing(keys)
    ensures keys[i] in IndexMap(keys, n) && IndexMap(keys, n)[keys[i]] == i
  {
    if i < n - 1 { IndexMapAt(keys, n - 1, i); }
  }

  /** Ids and indices are in one-to-one correspondence, in ascending order of ids. */
  ghost predicate Bijection(ids: set<nat>, toIndex: map<nat, nat>, toId: seq<nat>) {
    && Increasing(toId) && (forall id :: id in toId <==> id in ids)
    && toIndex.Keys == ids
    && (forall i :: 0 <= i < |toId| ==> toId[i] in toIndex && toIndex[toId[i]] == i)
  }

  lemma {:induction false} IndexMapIsBijection(ids: set<nat>, keys: seq<nat>)
    requires keys == Ascending(ids)
    ensures Bijection(ids, IndexMap(keys, |keys|), keys)
  {
    assert keys[..|keys|] == keys;
    forall id: nat ensures id in IndexMap(keys, |keys|) <==> id in ids { IndexMapKeys(keys, |keys|, id); }
    forall i | 0 <= i < |keys| ensures keys[i] in IndexMap(keys, |keys|) && IndexMap(keys, |keys|)[keys[i]] == i {
      IndexMapAt(keys, |keys|, i);
    }
  }

  ghost predicate RecordedAt(c: QKDControl, list: seq<nat>)
    reads c
  {
    list == c.m_remote_km_nodes
  }

  /** lists are, by index, the neighbours the controllers have recorded. */
  ghost predicate Recorded(controllers: map<nat, QKDControl>, ids: seq<nat>, lists: seq<seq<nat>>)
    reads controllers.Values
  {
    && |lists| == |ids|
    && forall i :: 0 <= i < |ids| ==> ids[i] in controllers && RecordedAt(controllers[ids[i]], lists[i])
  }

  lemma {:induction false} RecordedExists(controllers: map<nat, QKDControl>, ids: seq<nat>)
    returns (lists: seq<seq<nat>>)
    requires forall i :: 0 <= i < |ids| ==> ids[i] in controllers
    ensures Recorded(controllers, ids, lists)
  {
    if ids == [] {
      lists := [];
    } else {
      lists := RecordedExists(controllers, ids[..|ids| - 1]);
      lists := lists + [controllers[ids[|ids| - 1]].m_remote_km_nodes];
    }
  }

  lemma ListNeighbours(keys: set<nat>, controllers: map<nat, QKDControl>, toIndex: map<nat, nat>, ids: seq<nat>)
    returns (lists: seq<seq<nat>>)
    requires keys == controllers.Keys && Bijection(keys, toIndex, ids)
    ensures Recorded(controllers, ids, lists)
  {
    BijectionInjective(keys, toIndex, ids);
    lists := RecordedExists(controllers, ids);
  }

  lemma BijectionInjective(ids: set<nat>, toIndex: map<nat, nat>, toId: seq<nat>)
    requires Bijection(ids, toIndex, toId)
    ensures Injective(toId) && forall i :: 0 <= i < |toId| ==> toId[i] in ids
  {
  }

  lemma IndexOf(ids: set<nat>, toIndex: map<nat, nat>, toId: seq<nat>, id: nat)
    requires Bijection(ids, toIndex, toId) && id in toIndex
    ensures id in toId && toIndex[id] < |toId| && toId[toIndex[id]] == id
  {
    assert id in toId;
    var i :| 0 <= i < |toId| && toId[i] == id;
  }

  lemma RowHasIsHasEdge(adj: AdjList, i: nat, j: nat)
    requires GraphOk(adj) && i < |adj|
    ensures (exists a :: 0 <= a < |adj[i]| && adj[i][a].to == j) <==> HasEdge(adj, i, j)
  {
    assert RowOk(adj, i);
    if a :| 0 <= a < |adj[i]| && adj[i][a].to == j {
      assert adj[i][a] in adj[i] && adj[i][a] == Edge(j, 1);
    }
  }

  /** NS_LOG_ERROR answers of GetColumn and ReverseColumn: uint32_t(-1). */
  const NO_INDEX: nat := 0xFFFF_FFFF

  class QKDLinkHelper {
    var m_controllers: map<nat, QKDControl>
    var m_adjList: AdjList
    var m_kmNodeIdToIndex: map<nat, nat>
    var m_indexToKmNodeId: seq<nat>

    constructor ()
      ensures m_controllers == map[] && m_adjList == []
      ensures m_kmNodeIdToIndex == map[] && m_indexToKmNodeId == []
    {
      m_controllers, m_adjList := map[], [];
      m_kmNodeIdToIndex, m_indexToKmNodeId := map[], [];
    }

    ghost predicate ControllersOk()
      reads this
    {
      FiledOk(m_controllers)
    }

    ghost predicate Numbered()
      reads this
    {
      Bijection(m_controllers.Keys, m_kmNodeIdToIndex, m_indexToKmNodeId)
    }

    /** The state CreateTopologyGraph leaves behind. */
    ghost predicate HasTopology()
      reads this
    {
      ControllersOk() && Numbered() && |m_adjList| == |m_indexToKmNodeId| && GraphOk(m_adjList)
    }

    ghost function Registers(): set<QKDLocationRegister>
      reads this
    {
      RegistersOf(m_controllers)
    }

    /** The routing tables of all key managers. */
    ghost function Tables(): map<nat, Table>
      reads this, Registers()
    {
      TablesOf(m_controllers)
    }

    method GetColumn(nodeId: nat) returns (index: nat)
      ensures index == if nodeId in m_kmNodeIdToIndex then m_kmNodeIdToIndex[nodeId] else NO_INDEX
    {
      if nodeId !in m_kmNodeIdToIndex {
        return NO_INDEX;
      }
      return m_kmNodeIdToIndex[nodeId];
    }

    method ReverseColumn(position: nat) returns (id: nat)
      ensures id == if position < |m_indexToKmNodeId| then m_indexToKmNodeId[position] else NO_INDEX
    {
      if position >= |m_indexToKmNodeId| {
        return NO_INDEX;
      }
      return m_indexToKmNodeId[position];
    }

    /** The authoritative mapping between ids and indices, for the keys in order. */
    method NumberKeys(keys: seq<nat>)
      modifies this`m_kmNodeIdToIndex, this`m_indexToKmNodeId
      ensures m_indexToKmNodeId == keys && m_kmNodeIdToIndex == IndexMap(keys, |keys|)
    {
      m_kmNodeIdToIndex, m_indexToKmNodeId := map[], [];
      var idx := 0;
      while idx < |keys|
        invariant idx <= |keys|
        invariant m_indexToKmNodeId == keys[..idx]
        invariant m_kmNodeIdToIndex == IndexMap(keys, idx)
      {
        m_kmNodeIdToIndex := m_kmNodeIdToIndex[keys[idx] := idx];
        m_indexToKmNodeId := m_indexToKmNodeId + [keys[idx]];
        idx := idx + 1;
      }
    }

    method NumberControllers()
      modifies this`m_kmNodeIdToIndex, this`m_indexToKmNodeId
      ensures Numbered()
    {
      var keys := Ascending(m_controllers.Keys);
      NumberKeys(keys);
      IndexMapIsBijection(m_controllers.Keys, keys);
    }

    /** The scan for an edge that is already there. */
    static method RowHas(row: seq<Edge>, dstIdx: nat) returns (exists_: bool)
      ensures exists_ <==> exists a :: 0 <= a < |row| && row[a].to == dstIdx
    {
      exists_ := false;
      for a := 0 to |row|
        invariant exists_ <==> exists b :: 0 <= b < a && row[b].to == dstIdx
      {
        if row[a].to == dstIdx { exists_ := true; }
      }
    }

    /** The edges of one row: unknown and own ids are skipped, a new neighbour gets
        an edge in both directions. */
    static method AddNeighbours(adj: AdjList, toIndex: map<nat, nat>, idx: nat, neighbours: seq<nat>,
                                ghost ids: seq<nat>, ghost remotes: seq<seq<nat>>)
      returns (adjList: AdjList)
      requires Bijection(toIndex.Keys, toIndex, ids) && Injective(ids)
      requires idx < |ids| == |remotes| && remotes[idx] == neighbours
      requires GraphOk(adj) && Partial(adj, ids, remotes, idx, 0)
      ensures GraphOk(adjList) && Partial(adjList, ids, remotes, idx + 1, 0)
    {
      adjList := adj;
      for k := 0 to |neighbours|
        invariant GraphOk(adjList) && Partial(adjList, ids, remotes, idx, k)
      {
        var remoteKmId := neighbours[k];
        if remoteKmId !in toIndex {
          PartialSkipUnknown(adjList, ids, remotes, idx, k);
          continue;
        }
        var dstIdx := toIndex[remoteKmId];
        IndexOf(toIndex.Keys, toIndex, ids, remoteKmId);
        if dstIdx == idx {
          PartialSkip(adjList, ids, remotes, idx, k, dstIdx);
          continue;
        }
        var known := RowHas(adjList[idx], dstIdx);
        RowHasIsHasEdge(adjList, idx, dstIdx);
        if known {
          PartialSkip(adjList, ids, remotes, idx, k, dstIdx);
        } else {
          ConnectKeeps(adjList, idx, dstIdx);
          PartialConnect(adjList, ids, remotes, idx, k, dstIdx, Connect(adjList, idx, dstIdx));
          adjList := Connect(adjList, idx, dstIdx);
        }
      }
      PartialRow(adjList, ids, remotes, idx);
    }

    static method AddRow(adj: AdjList, srcCtrl: QKDControl, toIndex: map<nat, nat>, idx: nat,
                         ghost ids: seq<nat>, ghost remotes: seq<seq<nat>>)
      returns (adjList: AdjList)
      requires Bijection(toIndex.Keys, toIndex, ids) && Injective(ids)
      requires idx < |ids| == |remotes| && remotes[idx] == srcCtrl.m_remote_km_nodes
      requires GraphOk(adj) && Partial(adj, ids, remotes, idx, 0)
      ensures GraphOk(adjList) && Partial(adjList, ids, remotes, idx + 1, 0)
    {
      var neighbours := srcCtrl.GetRemoteKmNodeIds();
      adjList := AddNeighbours(adj, toIndex, idx, neighbours, ids, remotes);
    }

    /** The second half of CreateTopologyGraph: one row after the other. */
    static method BuildAdjacency(controllers: map<nat, QKDControl>, toIndex: map<nat, nat>, ids: seq<nat>,
                                 ghost remotes: seq<seq<nat>>)
      returns (adjList: AdjList)
      requires Bijection(toIndex.Keys, toIndex, ids) && Injective(ids)
      requires Recorded(controllers, ids, remotes)
      ensures GraphOk(adjList) && LinksNeighbours(adjList, ids, remotes)
    {
      adjList := seq(|ids|, i => []);
      PartialStart(adjList, ids, remotes);
      for idx := 0 to |ids|
        invariant GraphOk(adjList) && Partial(adjList, ids, remotes, idx, 0)
      {
        assert RecordedAt(controllers[ids[idx]], remotes[idx]);
        adjList := AddRow(adjList, controllers[ids[idx]], toIndex, idx, ids, remotes);
      }
      PartialDone(adjList, ids, remotes);
    }

    method LinkControllers(ghost lists: seq<seq<nat>>)
      requires Numbered() && Recorded(m_controllers, m_indexToKmNodeId, lists)
      modifies this`m_adjList
      ensures GraphOk(m_adjList) && LinksNeighbours(m_adjList, m_indexToKmNodeId, lists)
    {
      BijectionInjective(m_controllers.Keys, m_kmNodeIdToIndex, m_indexToKmNodeId);
      m_adjList := BuildAdjacency(m_controllers, m_kmNodeIdToIndex, m_indexToKmNodeId, lists);
    }

    /** CreateTopologyGraph (the decentralised case): afterwards the ids are numbered
        one-to-one and the graph joins exactly the different key managers one of
        which has the other as its neighbour. */
    method CreateTopologyGraph(controllers: seq<QKDControl>) returns (ghost lists: seq<seq<nat>>)
      requires controllers != [] && OwnTables(controllers)
      modifies this
      ensures HasTopology() && Files(m_controllers, controllers)
      ensures Recorded(m_controllers, m_indexToKmNodeId, lists)
      ensures LinksNeighbours(m_adjList, m_indexToKmNodeId, lists)
    {
      m_controllers := FileControllers(controllers);
      NumberControllers();
      lists := ListNeighbours(m_controllers.Keys, m_controllers, m_kmNodeIdToIndex, m_indexToKmNodeId);
      LinkControllers(lists);
    }

    /** Walk the predecessor chain from dstIdx back to the source.  errors counts the
        broken-chain messages: there are none. */
    static method WalkBack(ghost adj: AdjList, dist: Labels, srcIdx: nat, dstIdx: nat)
      returns (pathIndices: seq<nat>, errors: int)
      requires EdgesOk(adj) && ShortestFrom(adj, srcIdx, dist)
      requires dstIdx < |adj| && dstIdx != srcIdx && Reachable(adj, srcIdx, dstIdx)
      ensures errors == 0
      ensures pathIndices != [] && pathIndices[0] == dstIdx
      ensures pathIndices[|pathIndices| - 1] == FirstHop(adj, srcIdx, dist, dstIdx)
    {
      pathIndices, errors := [], 0;
      var cur := dstIdx;
      while cur != srcIdx
        invariant errors == 0 && Walking(adj, srcIdx, dist, dstIdx, cur, pathIndices)
        decreases dist[cur].distance
      {
        WalkStep(adj, srcIdx, dist, dstIdx, cur, pathIndices);
        pathIndices := pathIndices + [cur];
        var prev := dist[cur].previous;
        if prev == cur {
          errors := errors + 1;
          pathIndices := [];
          break;
        }
        cur := prev;
      }
    }

    /** The table of srcCtrl, which was before, with the destinations below k handled. */
    ghost predicate Serving(srcCtrl: QKDControl, srcIdx: nat, before: Table, k: nat)
      reads this, srcCtrl.m_routingTable
    {
      Underway(m_adjList, m_indexToKmNodeId, srcCtrl, srcIdx, before, k)
    }

    /** dist are the labels of a search from srcIdx, the index of key manager id. */
    ghost predicate Searched(id: nat, srcIdx: nat, dist: Labels)
      reads this
    {
      && |m_adjList| == |m_indexToKmNodeId| <= INF / 2 && Injective(m_indexToKmNodeId)
      && srcIdx < |m_adjList| && m_indexToKmNodeId[srcIdx] == id
      && EdgesOk(m_adjList) && UnitWeights(m_adjList) && ShortestFrom(m_adjList, srcIdx, dist)
    }

    /** The route to one destination. */
    method RouteTo(srcCtrl: QKDControl, srcIdx: nat, dist: Labels, dstIdx: nat, ghost before: Table)
      returns (errors: int)
      requires Searched(srcCtrl.m_routingTable.m_id, srcIdx, dist) && dstIdx < |m_adjList|
      requires Serving(srcCtrl, srcIdx, before, dstIdx)
      modifies srcCtrl.m_routingTable`m_locationEntites
      ensures errors == 0 && Serving(srcCtrl, srcIdx, before, dstIdx + 1)
    {
      errors := 0;
      var d := dist[dstIdx].distance;
      if dstIdx == srcIdx || d >= INF / 2 {
        if dstIdx != srcIdx && Reachable(m_adjList, srcIdx, dstIdx) { UnitDistance(m_adjList, srcIdx, dist, dstIdx); }
        FillSkips(m_adjList, m_indexToKmNodeId, srcIdx, before, srcCtrl.m_routingTable.m_locationEntites, dstIdx);
        return;
      }
      assert Reachable(m_adjList, srcIdx, dstIdx);
      var pathIndices;
      pathIndices, errors := WalkBack(m_adjList, dist, srcIdx, dstIdx);
      if |pathIndices| == 0 {
        return;
      }
      var path := Reverse(pathIndices + [srcIdx]);
      SecondOfReversed(pathIndices, srcIdx);
      if |path| < 2 {
        errors := errors + 1;
        return;
      }
      AddRoute(srcCtrl, srcIdx, dist, dstIdx, path[1], before);
    }

    /** The entry for one destination whose next hop is known. */
    method AddRoute(srcCtrl: QKDControl, srcIdx: nat, dist: Labels, dstIdx: nat, nextIdx: nat, ghost before: Table)
      requires Searched(srcCtrl.m_routingTable.m_id, srcIdx, dist)
      requires dstIdx < |m_adjList| && dstIdx != srcIdx && Reachable(m_adjList, srcIdx, dstIdx)
      requires nextIdx == FirstHop(m_adjList, srcIdx, dist, dstIdx)
      requires Serving(srcCtrl, srcIdx, before, dstIdx)
      modifies srcCtrl.m_routingTable`m_locationEntites
      ensures Serving(srcCtrl, srcIdx, before, dstIdx + 1)
    {
      var nextHopKmId := ReverseColumn(nextIdx);
      var dstKmId := ReverseColumn(dstIdx);
      var entry := Entry.Entry(nextHopKmId, dist[dstIdx].distance, dstKmId);
      ghost var t := srcCtrl.m_routingTable.m_locationEntites;
      BuiltEntryIsRight(m_adjList, m_indexToKmNodeId, srcIdx, dist, dstIdx, entry);
      SameId(m_indexToKmNodeId, srcIdx, dstIdx);
      FillAdds(m_adjList, m_indexToKmNodeId, srcIdx, before, t, dstIdx, entry,
               Inserted(m_indexToKmNodeId[srcIdx], t, entry));
      srcCtrl.AddRouteEntry(entry);
    }

    /** The search of one key manager in the topology graph. */
    method Search(srcKmId: nat) returns (srcIdx: nat, dist: Labels)
      requires HasTopology() && |m_adjList| <= INF / 2 && srcKmId in m_controllers
      ensures m_kmNodeIdToIndex[srcKmId] == srcIdx && Searched(srcKmId, srcIdx, dist)
    {
      srcIdx := GetColumn(srcKmId);
      IndexOf(m_controllers.Keys, m_kmNodeIdToIndex, m_indexToKmNodeId, srcKmId);
      BijectionInjective(m_controllers.Keys, m_kmNodeIdToIndex, m_indexToKmNodeId);
      GraphOkIsSearchable(m_adjList, srcIdx);
      ghost var expanded;
      dist, expanded := LinkDijkstra.DijkstraSP(m_adjList, srcIdx);
    }

    /** The routes of one key manager: one search, then the loop over all destinations. */
    method InstallRoutes(srcKmId: nat, ghost before: Table) returns (errors: int)
      requires HasTopology() && |m_adjList| <= INF / 2 && srcKmId in m_controllers
      requires m_controllers[srcKmId].m_routingTable.m_locationEntites == before
      modifies m_controllers[srcKmId].m_routingTable`m_locationEntites
      ensures errors == 0
      ensures Underway(m_adjList, m_indexToKmNodeId, m_controllers[srcKmId], m_kmNodeIdToIndex[srcKmId], before,
                       |m_adjList|)
    {
      var srcCtrl := m_controllers[srcKmId];
      var srcIdx, dist := Search(srcKmId);
      errors := RouteToAll(srcCtrl, srcIdx, dist, before);
    }

    method RouteToAll(srcCtrl: QKDControl, srcIdx: nat, dist: Labels, ghost before: Table) returns (errors: int)
      requires Searched(srcCtrl.m_routingTable.m_id, srcIdx, dist)
      requires srcCtrl.m_routingTable.m_locationEntites == before
      modifies srcCtrl.m_routingTable`m_locationEntites
      ensures errors == 0 && Serving(srcCtrl, srcIdx, before, |m_adjList|)
    {
      FillStart(m_adjList, m_indexToKmNodeId, srcIdx, before);
      errors := 0;
      var N := |dist|;
      for dstIdx := 0 to N
        invariant errors == 0 && Serving(srcCtrl, srcIdx, before, dstIdx)
      {
        var broken := RouteTo(srcCtrl, srcIdx, dist, dstIdx, before);
        errors := errors + broken;
      }
    }

    lemma TopologyLists()
      requires HasTopology()
      ensures Lists(m_indexToKmNodeId, m_controllers)
    {
      BijectionInjective(m_controllers.Keys, m_kmNodeIdToIndex, m_indexToKmNodeId);
    }

    /** One turn of the loop over the key managers. */
    method InstallNext(i: nat, ghost before: map<nat, Table>) returns (errors: int)
      requires HasTopology() && Lists(m_indexToKmNodeId, m_controllers)
      requires |m_adjList| <= INF / 2 && i < |m_indexToKmNodeId|
      requires ServedUpTo(m_adjList, m_indexToKmNodeId, m_controllers, i, before)
      modifies Registers()`m_locationEntites
      ensures errors == 0 && ServedUpTo(m_adjList, m_indexToKmNodeId, m_controllers, i + 1, before)
    {
      OtherTables(m_indexToKmNodeId, m_controllers, i);
      errors := InstallRoutes(m_indexToKmNodeId[i], before[m_indexToKmNodeId[i]]);
    }

    /** PopulateRoutingTables: every key manager keeps the entries it has and gets one
        for exactly the other reachable key managers it had none for, with the exact hop
        count and a direct neighbour as next hop.  errors counts the messages of the
        broken-chain and invalid-length branches. */
    method PopulateRoutingTables() returns (errors: int)
      requires HasTopology() && |m_adjList| <= INF / 2
      modifies Registers()`m_locationEntites
      ensures errors == 0
      ensures FilledAll(m_adjList, m_indexToKmNodeId, old(Tables()), Tables())
    {
      errors := 0;
      ghost var before := Tables();
      TopologyLists();
      NoneServed(m_adjList, m_indexToKmNodeId, m_controllers, before);
      for i := 0 to |m_indexToKmNodeId|
        invariant errors == 0 && ServedUpTo(m_adjList, m_indexToKmNodeId, m_controllers, i, before)
      {
        var broken := InstallNext(i, before);
        errors := errors + broken;
      }
      AllServed(m_adjList, m_indexToKmNodeId, m_controllers, before);
    }

    /** Installed on empty tables the routes are right ... */
    lemma FreshTablesAreRight(before: map<nat, Table>)
      requires HasTopology() && FilledAll(m_adjList, m_indexToKmNodeId, before, Tables())
      requires forall id :: id in before ==> before[id] == map[]
      ensures RightTables(m_adjList, m_indexToKmNodeId, Tables())
    {
      AllFilledFresh(m_adjList, m_indexToKmNodeId, before, Tables());
    }

    /** ... and deliver: in the graph CreateTopologyGraph built, passing a message from
        table to table reaches a listed destination in exactly the stored number of hops
        and meets no key manager twice. */
    lemma {:induction false} RoutesDeliver(src: nat, dst: nat)
      requires HasTopology() && |m_adjList| <= INF / 2 && RightTables(m_adjList, m_indexToKmNodeId, Tables())
      requires src in m_controllers && dst in m_controllers[src].m_routingTable.m_locationEntites
      ensures Forward(Tables(), src, dst, Tables()[src][dst].hops) == Some(dst)
      ensures forall i: nat, j: nat :: i < j <= Tables()[src][dst].hops ==>
                Forward(Tables(), src, dst, i) != Forward(Tables(), src, dst, j)
    {
      IndexOf(m_controllers.Keys, m_kmNodeIdToIndex, m_indexToKmNodeId, src);
      GraphOkIsSearchable(m_adjList, m_kmNodeIdToIndex[src]);
      ForwardingIsExactAndLoopFree(m_adjList, m_indexToKmNodeId, Tables(), m_kmNodeIdToIndex[src], dst);
    }
  }
}
