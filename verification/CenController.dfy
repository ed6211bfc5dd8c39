/**
 QCenController: the central controller.  It keeps the weighted topology, switches
 link weights and refills all routing tables after every switch.
 */
module CenController {
  import opened Graphs
  import opened Routes
  import opened OrderedKeys
  import opened CenWeights
  import opened LocationRegister
  import CenDijkstra

  /** Position of an id, or the number of ids for an unknown one. */
  function Column(ids: seq<nat>, id: nat): (c: nat)
    ensures id in ids ==> c < |ids| && ids[c] == id
    ensures id !in ids ==> c == |ids|
  {
    if ids == [] || ids[0] == id then 0 else 1 + Column(ids[1..], id)
  }

  /** The row of a key manager: its neighbours in order, every link down. */
  function DownRow(ids: seq<nat>, neighbours: seq<nat>): seq<Edge> {
    if neighbours == [] then []
    else DownRow(ids, neighbours[..|neighbours| - 1]) + [Edge(Column(ids, neighbours[|neighbours| - 1]), DOWN)]
  }

  function DownGraph(ids: seq<nat>, lists: seq<seq<nat>>): AdjList {
    if lists == [] then [] else DownGraph(ids, lists[..|lists| - 1]) + [DownRow(ids, lists[|lists| - 1])]
  }

  lemma {:induction false} DownRowAt(ids: seq<nat>, neighbours: seq<nat>)
    ensures |DownRow(ids, neighbours)| == |neighbours|
    ensures forall k :: 0 <= k < |neighbours| ==> DownRow(ids, neighbours)[k] == Edge(Column(ids, neighbours[k]), DOWN)
  {
    if neighbours != [] { DownRowAt(ids, neighbours[..|neighbours| - 1]); }
  }

  lemma {:induction false} DownGraphAt(ids: seq<nat>, lists: seq<seq<nat>>)
    ensures |DownGraph(ids, lists)| == |lists|
    ensures forall i :: 0 <= i < |lists| ==> DownGraph(ids, lists)[i] == DownRow(ids, lists[i])
  {
    if lists != [] { DownGraphAt(ids, lists[..|lists| - 1]); }
  }

  /** The neighbour lists name known key managers, each at most once. */
  ghost predicate ListsOk(ids: seq<nat>, lists: seq<seq<nat>>) {
    && |lists| == |ids|
    && forall i :: 0 <= i < |lists| ==> Injective(lists[i]) && forall x :: x in lists[i] ==> x in ids
  }

  /** Both directions of a link agree, weights are 1 or 100, the network is connected
      and small enough for 32-bit distances. */
  ghost predicate GraphReady(adj: AdjList) {
    && TwoWeights(adj) && Symmetric(adj) && NoParallel(adj)
    && Connected(adj) && DOWN * |adj| < INF
  }

  /** With every link down the weights are as the invariant wants them. */
  lemma {:induction false} DownGraphOk(ids: seq<nat>, lists: seq<seq<nat>>)
    requires ListsOk(ids, lists)
    ensures Connected(DownGraph(ids, lists)) && DOWN * |ids| < INF ==> GraphReady(DownGraph(ids, lists))
  {
    var adj: AdjList := DownGraph(ids, lists);
    DownGraphAt(ids, lists);
    forall u | 0 <= u < |adj|
      ensures |adj[u]| == |lists[u]|
      ensures forall k :: 0 <= k < |adj[u]| ==> adj[u][k] == Edge(Column(ids, lists[u][k]), DOWN)
    {
      DownRowAt(ids, lists[u]);
    }
    forall u, e | 0 <= u < |adj| && e in adj[u] ensures e.to < |adj| && e.weight == DOWN {
      var k :| 0 <= k < |adj[u]| && adj[u][k] == e;
      assert lists[u][k] in lists[u];
    }
    forall u, i, j | 0 <= u < |adj| && 0 <= i < j < |adj[u]| ensures adj[u][i].to != adj[u][j].to {
      assert lists[u][i] in lists[u] && lists[u][j] in lists[u];
      assert ids[adj[u][i].to] == lists[u][i] && ids[adj[u][j].to] == lists[u][j];
    }
  }

  // ----- Controllers as registered

  /** The neighbours every controller has recorded, by its id. */
  type Sites = map<nat, seq<nat>>

  /** ids are the ids of the sites in ascending order. */
  ghost predicate InOrder(ids: seq<nat>, sites: Sites) {
    Increasing(ids) && forall id :: id in ids <==> id in sites
  }

  function ListsOf(ids: seq<nat>, sites: Sites): (lists: seq<seq<nat>>)
    requires forall id :: id in ids ==> id in sites
    ensures |lists| == |ids|
  {
    seq(|ids|, i requires 0 <= i < |ids| => assert ids[i] in ids; sites[ids[i]])
  }

  function GraphOf(ids: seq<nat>, sites: Sites): AdjList
    requires forall id :: id in ids ==> id in sites
  {
    DownGraph(ids, ListsOf(ids, sites))
  }

  /** The controllers, in this order of their ids, name each other only, and are connected. */
  ghost predicate Registrable(ids: seq<nat>, sites: Sites) {
    && ids != [] && InOrder(ids, sites) && ListsOk(ids, ListsOf(ids, sites))
    && Connected(GraphOf(ids, sites)) && DOWN * |ids| < INF
  }

  lemma RegistrableReady(ids: seq<nat>, sites: Sites)
    requires Registrable(ids, sites)
    ensures GraphReady(GraphOf(ids, sites)) && |GraphOf(ids, sites)| == |ids|
  {
    DownGraphOk(ids, ListsOf(ids, sites));
    DownGraphAt(ids, ListsOf(ids, sites));
  }

  /** sites are the neighbours the controllers have recorded. */
  ghost predicate HasSites(controllers: map<nat, QKDControl>, sites: Sites)
    reads controllers.Values
  {
    && (forall id :: id in sites <==> id in controllers)
    && forall id :: id in controllers && id in sites ==> controllers[id].m_remote_km_nodes == sites[id]
  }

  /** There is one such order. */
  lemma OrderIsAscending(filed: map<nat, QKDControl>, sites: Sites, ids: seq<nat>)
    requires HasSites(filed, sites) && InOrder(ids, sites)
    ensures Ascending(filed.Keys) == ids
  {
    AscendingUnique(Ascending(filed.Keys), ids);
  }

  lemma IncreasingLists(filed: map<nat, QKDControl>, ids: seq<nat>)
    requires FiledOk(filed) && Increasing(ids) && forall id :: id in ids <==> id in filed
    ensures Lists(ids, filed)
  {
  }

  lemma SitesAt(filed: map<nat, QKDControl>, sites: Sites, ids: seq<nat>)
    requires HasSites(filed, sites) && InOrder(ids, sites)
    ensures forall i :: 0 <= i < |ids| ==>
              ids[i] in filed && filed[ids[i]].m_remote_km_nodes == ListsOf(ids, sites)[i]
  {
    forall i | 0 <= i < |ids|
      ensures ids[i] in filed && filed[ids[i]].m_remote_km_nodes == ListsOf(ids, sites)[i]
    {
      assert ids[i] in ids;
    }
  }

  lemma {:induction false} RowStep(adj: AdjList, ids: seq<nat>, lists: seq<seq<nat>>, row: nat, r: seq<Edge>)
    requires row < |adj| && row < |lists| && adj[..row] == DownGraph(ids, lists[..row])
    requires r == DownRow(ids, lists[row])
    ensures adj[row := r][..row + 1] == DownGraph(ids, lists[..row + 1])
  {
    assert lists[..row + 1][..row] == lists[..row];
    assert adj[row := r][..row + 1] == adj[..row] + [r];
  }

  predicate EmptyRows(adj: AdjList, n: nat) {
    |adj| == n && forall i :: 0 <= i < n ==> adj[i] == []
  }

  /** The hop count is zero for the source only. */
  lemma HopsOf(adj: AdjList, s: nat, dist: Labels, v: nat)
    requires EdgesOk(adj) && ShortestFrom(adj, s, dist) && v < |adj| && Reachable(adj, s, v)
    ensures dist[v].distance >= 1 <==> v != s
  {
    if v != s { ChainStep(adj, s, dist, v); }
  }

  /** Switching one link keeps everything, whatever the link and the weight. */
  lemma SetLinkKeepsAll(adj: AdjList, a: nat, b: nat, w: nat)
    requires GraphReady(adj) && a < |adj| && b < |adj| && (w == UP || w == DOWN)
    ensures GraphReady(SetLink(adj, a, b, w)) && Switched(adj, SetLink(adj, a, b, w), a, b, w)
  {
    var r := SetLink(adj, a, b, w);
    SetLinkSwitches(adj, a, b, w);
    SwitchKeeps(adj, r, a, b, w);
    SwitchKeepsSymmetry(adj, r, a, b, w);
    TwoWeightsSearchable(adj, 0);
    SwitchKeepsConnected(adj, r, a, b, w);
  }

  /** dist are the labels of a search from srcIdx, the index of key manager id. */
  ghost predicate Searched(adj: AdjList, ids: seq<nat>, id: nat, srcIdx: nat, dist: Labels) {
    && |adj| == |ids| && Injective(ids) && srcIdx < |adj| && ids[srcIdx] == id
    && EdgesOk(adj) && ShortestFrom(adj, srcIdx, dist) && AllReachable(adj, srcIdx)
  }

  class QCenController {
    var m_controllers: map<nat, QKDControl>
    /** The keys of m_controllers in ascending order. */
    var m_ids: seq<nat>
    var m_adjList: AdjList

    constructor ()
      ensures m_controllers == map[] && m_ids == [] && m_adjList == []
    {
      m_controllers, m_ids, m_adjList := map[], [], [];
    }

    /** What holds between any two calls once the controllers are registered. */
    ghost predicate Ready()
      reads this
    {
      Registered() && |m_adjList| == |m_ids| && GraphReady(m_adjList)
    }

    /** The ids are those of the controllers, in order. */
    ghost predicate Registered()
      reads this
    {
      Increasing(m_ids) && Lists(m_ids, m_controllers)
    }

    ghost function Registers(): set<QKDLocationRegister>
      reads this
    {
      RegistersOf(m_controllers)
    }

    /** The routing tables of the registered controllers. */
    ghost function Tables(): map<nat, Table>
      reads this, Registers()
    {
      TablesOf(m_controllers)
    }

    method GetColumn(nodeId: nat) returns (output: nat)
      ensures output == Column(m_ids, nodeId)
    {
      output := 0;
      while output < |m_ids| && m_ids[output] != nodeId
        invariant output <= |m_ids| && Column(m_ids, nodeId) == output + Column(m_ids[output..], nodeId)
      {
        output := output + 1;
      }
    }

    method ReverseColumn(position: nat) returns (id: nat)
      requires position < |m_ids|
      ensures id == m_ids[position]
    {
      id := m_ids[position];
    }

    /** The scan of one row in LinkUp and LinkDown. */
    static method SetWeight(row: seq<Edge>, target: nat, w: nat) returns (r: seq<Edge>)
      ensures r == SetFirst(row, target, w)
    {
      r := row;
      var k := 0;
      while k < |row|
        invariant k <= |row| && r == row
        invariant forall i :: 0 <= i < k ==> row[i].to != target
      {
        SetFirstScan(row, target, w, k);
        if row[k].to == target {
          return row[k := Edge(target, w)];
        }
        k := k + 1;
      }
      SetFirstScan(row, target, w, k);
    }

    /** The walk along the predecessors; like the original it has no safety check. */
    static method WalkBack(ghost adj: AdjList, dist: Labels, srcIdx: nat, i: nat) returns (path: seq<nat>)
      requires EdgesOk(adj) && ShortestFrom(adj, srcIdx, dist) && i < |adj| && Reachable(adj, srcIdx, i)
      ensures i == srcIdx ==> path == []
      ensures i != srcIdx ==> path != [] && path[|path| - 1] == FirstHop(adj, srcIdx, dist, i)
    {
      path := [];
      var currnode := i;
      while currnode != srcIdx
        invariant WalkingOrDone(adj, srcIdx, dist, i, currnode, path)
        decreases dist[currnode].distance
      {
        WalkOn(adj, srcIdx, dist, i, currnode, path);
        path := path + [currnode];
        currnode := dist[currnode].previous;
      }
    }

    /** The route to one destination; adj and ids stand for the graph and its ids. */
    method RouteTo(srcCtrl: QKDControl, srcIdx: nat, dist: Labels, i: nat, ghost before: Table,
                   ghost adj: AdjList, ghost ids: seq<nat>)
      requires m_ids == ids && Searched(adj, ids, srcCtrl.m_routingTable.m_id, srcIdx, dist) && i < |adj|
      requires Underway(adj, ids, srcCtrl, srcIdx, before, i)
      modifies srcCtrl.m_routingTable`m_locationEntites
      ensures Underway(adj, ids, srcCtrl, srcIdx, before, i + 1)
    {
      assert Reachable(adj, srcIdx, i);
      var path := WalkBack(adj, dist, srcIdx, i);
      var hops := dist[i].distance;
      HopsOf(adj, srcIdx, dist, i);
      if hops >= 1 {
        AddRoute(srcCtrl, srcIdx, dist, i, path[|path| - 1], before, adj, ids);
      } else {
        FillSkips(adj, ids, srcIdx, before, srcCtrl.m_routingTable.m_locationEntites, i);
      }
    }

    /** The entry for one destination whose next hop is known. */
    method AddRoute(srcCtrl: QKDControl, srcIdx: nat, dist: Labels, i: nat, nextIdx: nat, ghost before: Table,
                    ghost adj: AdjList, ghost ids: seq<nat>)
      requires m_ids == ids && Searched(adj, ids, srcCtrl.m_routingTable.m_id, srcIdx, dist) && i < |adj|
      requires i != srcIdx && nextIdx == FirstHop(adj, srcIdx, dist, i)
      requires Underway(adj, ids, srcCtrl, srcIdx, before, i)
      modifies srcCtrl.m_routingTable`m_locationEntites
      ensures Underway(adj, ids, srcCtrl, srcIdx, before, i + 1)
    {
      assert Reachable(adj, srcIdx, i);
      var w := FirstHopIsCloser(adj, srcIdx, dist, i);
      var nextHop := ReverseColumn(nextIdx);
      var dstNodeId := ReverseColumn(i);
      var newEntry := Entry.Entry(nextHop, dist[i].distance, dstNodeId);
      ghost var t := srcCtrl.m_routingTable.m_locationEntites;
      BuiltEntryIsRight(adj, ids, srcIdx, dist, i, newEntry);
      SameId(ids, srcIdx, i);
      FillAdds(adj, ids, srcIdx, before, t, i, newEntry, Inserted(ids[srcIdx], t, newEntry));
      srcCtrl.AddRouteEntry(newEntry);
    }

    /** The search of the key manager with index i. */
    method Search(i: nat) returns (dist: Labels)
      requires |m_adjList| == |m_ids| && Injective(m_ids) && GraphReady(m_adjList) && i < |m_ids|
      ensures Searched(m_adjList, m_ids, m_ids[i], i, dist)
    {
      var srcIdx := GetColumn(m_ids[i]);
      SameId(m_ids, i, srcIdx);
      TwoWeightsSearchable(m_adjList, srcIdx);
      dist := CenDijkstra.DijkstraSP(m_adjList, srcIdx);
    }

    /** The routes of one key manager, from the labels of its search; the table is not
        cleared first, because ClearRoutingTable does nothing. */
    method InstallRoutes(srcCtrl: QKDControl, srcIdx: nat, dist: Labels, ghost before: Table,
                         ghost adj: AdjList, ghost ids: seq<nat>)
      requires m_ids == ids && Searched(adj, ids, srcCtrl.m_routingTable.m_id, srcIdx, dist)
      requires srcCtrl.m_routingTable.m_locationEntites == before
      modifies srcCtrl.m_routingTable`m_locationEntites
      ensures Underway(adj, ids, srcCtrl, srcIdx, before, |adj|)
    {
      srcCtrl.ClearRoutingTable();
      FillStart(adj, ids, srcIdx, before);
      var distSize := |dist|;
      for i := 0 to distSize
        invariant Underway(adj, ids, srcCtrl, srcIdx, before, i)
      {
        RouteTo(srcCtrl, srcIdx, dist, i, before, adj, ids);
      }
    }

    /** One key manager: its search, and its routes. */
    method ServeOne(i: nat, ghost before: Table, ghost adj: AdjList, ghost ids: seq<nat>, srcCtrl: QKDControl)
      requires m_ids == ids && m_adjList == adj && |adj| == |ids| && Injective(ids) && GraphReady(adj)
      requires i < |ids| && srcCtrl.m_routingTable.m_id == ids[i]
      requires srcCtrl.m_routingTable.m_locationEntites == before
      modifies srcCtrl.m_routingTable`m_locationEntites
      ensures Underway(adj, ids, srcCtrl, i, before, |adj|)
    {
      var dist := Search(i);
      InstallRoutes(srcCtrl, i, dist, before, adj, ids);
    }

    /** One turn of the loop over the key managers. */
    method ServeNext(i: nat, ghost before: map<nat, Table>, ghost adj: AdjList, ghost ids: seq<nat>,
                     ghost controllers: map<nat, QKDControl>)
      requires m_ids == ids && m_adjList == adj && m_controllers == controllers
      requires Lists(ids, controllers) && |adj| == |ids| && GraphReady(adj) && i < |ids|
      requires ServedUpTo(adj, ids, controllers, i, before)
      modifies RegistersOf(controllers)`m_locationEntites
      ensures ServedUpTo(adj, ids, controllers, i + 1, before)
    {
      OtherTables(ids, controllers, i);
      ServeOne(i, before[ids[i]], adj, ids, m_controllers[m_ids[i]]);
    }

    /** The loop of PopulateRoutingTables. */
    method ServeAll(ghost before: map<nat, Table>, ghost adj: AdjList, ghost ids: seq<nat>,
                    ghost controllers: map<nat, QKDControl>)
      requires m_ids == ids && m_adjList == adj && m_controllers == controllers
      requires Lists(ids, controllers) && |adj| == |ids| && GraphReady(adj) && TablesAre(controllers, before)
      modifies RegistersOf(controllers)`m_locationEntites
      ensures FilledAll(adj, ids, before, TablesOf(controllers))
    {
      NoneServed(adj, ids, controllers, before);
      for i := 0 to |m_ids|
        invariant ServedUpTo(adj, ids, controllers, i, before)
      {
        ServeNext(i, before, adj, ids, controllers);
      }
      AllServed(adj, ids, controllers, before);
    }

    /** PopulateRoutingTables: existing entries stay, every missing one is added. */
    method PopulateRoutingTables()
      requires Ready()
      modifies Registers()`m_locationEntites
      ensures FilledAll(m_adjList, m_ids, old(Tables()), Tables())
    {
      Repopulate(m_adjList, Tables());
    }

    /** The two scans of LinkUp and LinkDown. */
    method SwitchRows(source: nat, destination: nat, w: nat, ghost adj: AdjList)
      requires |m_adjList| == |m_ids| && source in m_ids && destination in m_ids
      requires adj == SetLink(m_adjList, Column(m_ids, source), Column(m_ids, destination), w)
      modifies this`m_adjList
      ensures m_adjList == adj
    {
      var rc1 := GetColumn(source);
      var rc2 := GetColumn(destination);
      var row1 := SetWeight(m_adjList[rc1], rc2, w);
      m_adjList := m_adjList[rc1 := row1];
      var row2 := SetWeight(m_adjList[rc2], rc1, w);
      m_adjList := m_adjList[rc2 := row2];
    }

    /** LinkUp: exactly the edges between the two nodes get weight 1; then the tables
        are populated again, which adds missing entries and changes none. */
    method LinkUp(source: nat, destination: nat)
      requires Ready() && source in m_ids && destination in m_ids
      modifies this`m_adjList, Registers()`m_locationEntites
      ensures Ready() && FilledAll(m_adjList, m_ids, old(Tables()), Tables())
      ensures m_adjList == SetLink(old(m_adjList), Column(m_ids, source), Column(m_ids, destination), UP)
      ensures Switched(old(m_adjList), m_adjList, Column(m_ids, source), Column(m_ids, destination), UP)
    {
      ghost var adj := SetLink(m_adjList, Column(m_ids, source), Column(m_ids, destination), UP);
      SetLinkKeepsAll(m_adjList, Column(m_ids, source), Column(m_ids, destination), UP);
      SwitchLink(source, destination, UP, adj, Tables());
    }

    /** LinkDown: the same with weight 100. */
    method LinkDown(source: nat, destination: nat)
      requires Ready() && source in m_ids && destination in m_ids
      modifies this`m_adjList, Registers()`m_locationEntites
      ensures Ready() && FilledAll(m_adjList, m_ids, old(Tables()), Tables())
      ensures m_adjList == SetLink(old(m_adjList), Column(m_ids, source), Column(m_ids, destination), DOWN)
      ensures Switched(old(m_adjList), m_adjList, Column(m_ids, source), Column(m_ids, destination), DOWN)
    {
      ghost var adj := SetLink(m_adjList, Column(m_ids, source), Column(m_ids, destination), DOWN);
      SetLinkKeepsAll(m_adjList, Column(m_ids, source), Column(m_ids, destination), DOWN);
      SwitchLink(source, destination, DOWN, adj, Tables());
    }

    method SwitchLink(source: nat, destination: nat, w: nat, ghost adj: AdjList, ghost before: map<nat, Table>)
      requires Registered() && |m_adjList| == |m_ids| && source in m_ids && destination in m_ids
      requires adj == SetLink(m_adjList, Column(m_ids, source), Column(m_ids, destination), w)
      requires |adj| == |m_ids| && GraphReady(adj) && TablesAre(m_controllers, before)
      modifies this`m_adjList, Registers()`m_locationEntites
      ensures m_adjList == adj && FilledAll(adj, m_ids, before, Tables())
    {
      SwitchRows(source, destination, w, adj);
      Repopulate(adj, before);
    }

    /** The tables, which were before, on a new graph. */
    method Repopulate(ghost adj: AdjList, ghost before: map<nat, Table>)
      requires Registered() && m_adjList == adj && |adj| == |m_ids| && GraphReady(adj)
      requires TablesAre(m_controllers, before)
      modifies Registers()`m_locationEntites
      ensures FilledAll(adj, m_ids, before, Tables())
    {
      ServeAll(before, adj, m_ids, m_controllers);
    }

    method FillRow(neighbours: seq<nat>) returns (r: seq<Edge>)
      ensures r == DownRow(m_ids, neighbours)
    {
      r := [];
      for k := 0 to |neighbours|
        invariant r == DownRow(m_ids, neighbours[..k])
      {
        assert neighbours[..k + 1][..k] == neighbours[..k];
        var column := GetColumn(neighbours[k]);
        r := r + [Edge(column, DOWN)];
      }
      assert neighbours[..|neighbours|] == neighbours;
    }

    /** The rows of the graph, one per key manager, from its neighbour list. */
    method BuildGraph(ghost lists: seq<seq<nat>>)
      requires |lists| == |m_ids| && EmptyRows(m_adjList, |m_ids|)
      requires forall i :: 0 <= i < |m_ids| ==>
                 m_ids[i] in m_controllers && m_controllers[m_ids[i]].m_remote_km_nodes == lists[i]
      modifies this`m_adjList
      ensures m_adjList == DownGraph(m_ids, lists)
    {
      for row := 0 to |m_ids|
        invariant |m_adjList| == |m_ids| && m_adjList[..row] == DownGraph(m_ids, lists[..row])
      {
        var neighbours := m_controllers[m_ids[row]].GetRemoteKmNodeIds();
        var r := FillRow(neighbours);
        RowStep(m_adjList, m_ids, lists, row, r);
        m_adjList := m_adjList[row := r];
      }
      assert lists[..|m_ids|] == lists && m_adjList[..|m_ids|] == m_adjList;
    }

    method PushRows(n: nat)
      requires m_adjList == []
      modifies this`m_adjList
      ensures EmptyRows(m_adjList, n)
    {
      for i := 0 to n
        invariant EmptyRows(m_adjList, i)
      {
        m_adjList := m_adjList + [[]];
      }
    }

    /** The controllers by id: the map is determined by the list. */
    static method FileAll(controllers: seq<QKDControl>, ghost filed: map<nat, QKDControl>)
      returns (f: map<nat, QKDControl>)
      requires OwnTables(controllers) && Files(filed, controllers)
      ensures f == filed && FiledOk(filed)
    {
      f := FileControllers(controllers);
      FilesUnique(f, filed, controllers);
    }

    /** The rows of the graph, all links down. */
    method BuildRows(n: nat, ghost ids: seq<nat>, ghost sites: Sites)
      requires HasSites(m_controllers, sites) && m_ids == ids && InOrder(ids, sites) && m_adjList == [] && n == |ids|
      modifies this`m_adjList
      ensures m_adjList == GraphOf(ids, sites)
    {
      PushRows(n);
      SitesAt(m_controllers, sites, ids);
      BuildGraph(ListsOf(ids, sites));
    }

    /** RegisterDControllers, called once for controllers of different nodes whose
        neighbour lists connect them: every link starts down, and the tables are filled.
        filed are the controllers by id, sites their neighbours, before their tables. */
    method RegisterDControllers(controllers: seq<QKDControl>, ghost filed: map<nat, QKDControl>, ghost sites: Sites,
                                ghost ids: seq<nat>, ghost before: map<nat, Table>)
      requires m_adjList == [] && OwnTables(controllers) && Files(filed, controllers) && |ids| == |controllers|
      requires HasSites(filed, sites) && Registrable(ids, sites) && TablesAre(filed, before)
      modifies this, RegistersOf(filed)`m_locationEntites
      ensures Ready() && m_controllers == filed && m_ids == ids && m_adjList == GraphOf(ids, sites)
      ensures FilledAll(m_adjList, ids, before, Tables())
    {
      FileInOrder(controllers, filed, sites, ids);
      Start(|controllers|, ids, sites, before);
    }

    method FileInOrder(controllers: seq<QKDControl>, ghost filed: map<nat, QKDControl>, ghost sites: Sites,
                       ghost ids: seq<nat>)
      requires OwnTables(controllers) && Files(filed, controllers) && HasSites(filed, sites) && InOrder(ids, sites)
      modifies this`m_controllers, this`m_ids
      ensures m_controllers == filed && m_ids == ids && Lists(ids, filed)
    {
      m_controllers := FileAll(controllers, filed);
      m_ids := KeysInOrder(m_controllers, sites, ids);
      IncreasingLists(filed, ids);
    }

    /** The keys of the map, as it iterates. */
    static method KeysInOrder(filed: map<nat, QKDControl>, ghost sites: Sites, ghost ids: seq<nat>)
      returns (keys: seq<nat>)
      requires HasSites(filed, sites) && InOrder(ids, sites)
      ensures keys == ids
    {
      keys := Ascending(filed.Keys);
      OrderIsAscending(filed, sites, ids);
    }

    /** The graph, and the first tables on it. */
    method Start(n: nat, ghost ids: seq<nat>, ghost sites: Sites, ghost before: map<nat, Table>)
      requires Registered() && m_adjList == [] && n == |ids| && TablesAre(m_controllers, before)
      requires HasSites(m_controllers, sites) && m_ids == ids && Registrable(ids, sites)
      modifies this`m_adjList, Registers()`m_locationEntites
      ensures m_adjList == GraphOf(ids, sites) && |m_adjList| == |ids| && GraphReady(m_adjList)
      ensures FilledAll(m_adjList, ids, before, Tables())
    {
      RegistrableReady(ids, sites);
      BuildRows(n, ids, sites);
      Repopulate(m_adjList, before);
    }
  }
}
