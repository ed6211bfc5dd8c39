/**
 The routing table of a key manager (QKDLocationRegister) and the controller that
 owns one (QKDControl): its list of directly connected key managers and its routes.
 */
module LocationRegister {
  import opened Options
  import opened Graphs
  import opened Routes

  class QKDLocationRegister {
    var m_locationEntites: Table
    const m_id: nat

    constructor (id: nat)
      ensures m_id == id && m_locationEntites == map[]
    {
      m_id := id;
      m_locationEntites := map[];
    }

    /** Adds an entry unless its destination already has one; an entry from a node
        to itself is refused. */
    method AddEntry(rt: Entry) returns (added: bool)
      modifies this`m_locationEntites
      ensures added <==> rt.destination !in old(m_locationEntites) && !(m_id == rt.destination == rt.nextHop)
      ensures m_locationEntites == Inserted(m_id, old(m_locationEntites), rt)
    {
      if m_id == rt.destination && m_id == rt.nextHop {
        return false;
      }
      if rt.destination in m_locationEntites {
        return false;
      }
      m_locationEntites := m_locationEntites[rt.destination := rt];
      return true;
    }

    method Lookup(id: nat) returns (rt: Option<Entry>)
      ensures rt == if id in m_locationEntites then Some(m_locationEntites[id]) else None
    {
      if |m_locationEntites| == 0 {
        return None;
      }
      if id !in m_locationEntites {
        return None;
      }
      return Some(m_locationEntites[id]);
    }
  }

  class QKDControl {
    const kmNodeId: nat
    const m_routingTable: QKDLocationRegister
    var m_remote_km_nodes: seq<nat>

    ghost predicate Valid()
      reads this
    {
      Injective(m_remote_km_nodes) && m_routingTable.m_id == kmNodeId
    }

    /** AssignKeyManager: the controller of key manager id, with an empty table. */
    constructor (id: nat)
      ensures Valid() && kmNodeId == id && m_remote_km_nodes == []
      ensures fresh(m_routingTable) && m_routingTable.m_locationEntites == map[]
    {
      kmNodeId := id;
      m_routingTable := new QKDLocationRegister(id);
      m_remote_km_nodes := [];
    }

    /** Records the remote key manager of a module pair, once. */
    method RegisterQKDModulePair(kmRemote: nat)
      requires Valid()
      modifies this
      ensures Valid()
      ensures m_remote_km_nodes == if kmRemote in old(m_remote_km_nodes) then old(m_remote_km_nodes)
                                   else old(m_remote_km_nodes) + [kmRemote]
    {
      var registered := false;
      for i := 0 to |m_remote_km_nodes|
        invariant m_remote_km_nodes == old(m_remote_km_nodes)
        invariant registered <==> kmRemote in m_remote_km_nodes[..i]
      {
        if kmRemote == m_remote_km_nodes[i] {
          registered := true;
          break;
        }
      }
      if !registered {
        m_remote_km_nodes := m_remote_km_nodes + [kmRemote];
      }
    }

    method GetRemoteKmNodeIds() returns (output: seq<nat>)
      ensures output == m_remote_km_nodes
    {
      output := [];
      for i := 0 to |m_remote_km_nodes|
        invariant output == m_remote_km_nodes[..i]
      {
        output := output + [m_remote_km_nodes[i]];
      }
    }

    method AddRouteEntry(entry: Entry)
      modifies m_routingTable`m_locationEntites
      ensures m_routingTable.m_locationEntites ==
              Inserted(m_routingTable.m_id, old(m_routingTable.m_locationEntites), entry)
    {
      var _ := m_routingTable.AddEntry(entry);
    }

    method GetRoute(remoteKmId: nat) returns (routeInfo: Option<Entry>)
      ensures routeInfo == if remoteKmId in m_routingTable.m_locationEntites
                           then Some(m_routingTable.m_locationEntites[remoteKmId]) else None
    {
      routeInfo := m_routingTable.Lookup(remoteKmId);
    }

    /** The body is empty in the original: nothing is cleared. */
    method ClearRoutingTable()
      ensures m_routingTable.m_locationEntites == old(m_routingTable.m_locationEntites)
    {
    }
  }

  /** Every controller has its own node's table; controllers of different nodes share none. */
  ghost predicate OwnTables(controllers: seq<QKDControl>) {
    && (forall i :: 0 <= i < |controllers| ==> controllers[i].m_routingTable.m_id == controllers[i].kmNodeId)
    && (forall i, j :: 0 <= i < j < |controllers| && controllers[i].kmNodeId != controllers[j].kmNodeId ==>
          controllers[i].m_routingTable != controllers[j].m_routingTable)
  }

  /** c is the first of the listed controllers with the id. */
  ghost predicate IsFirst(c: QKDControl, id: nat, controllers: seq<QKDControl>) {
    exists k :: 0 <= k < |controllers| && controllers[k] == c && c.kmNodeId == id &&
                forall j :: 0 <= j < k ==> controllers[j].kmNodeId != id
  }

  /** filed holds, for every id that occurs among the listed controllers, the first with that id. */
  ghost predicate Files(filed: map<nat, QKDControl>, controllers: seq<QKDControl>) {
    && (forall c :: c in controllers ==> c.kmNodeId in filed)
    && (forall id :: id in filed ==> IsFirst(filed[id], id, controllers))
  }

  /** Listing one more controller changes the first only for an id that is new. */
  lemma FirstStays(c: QKDControl, id: nat, controllers: seq<QKDControl>, more: QKDControl)
    ensures IsFirst(c, id, controllers) ==> IsFirst(c, id, controllers + [more])
    ensures more.kmNodeId == id && (forall d :: d in controllers ==> d.kmNodeId != id) ==>
              IsFirst(more, id, controllers + [more])
  {
    var longer := controllers + [more];
    if k :| 0 <= k < |controllers| && controllers[k] == c && c.kmNodeId == id &&
            forall j :: 0 <= j < k ==> controllers[j].kmNodeId != id {
      assert longer[k] == c && forall j :: 0 <= j < k ==> longer[j] == controllers[j];
    }
    assert longer[|controllers|] == more && forall j :: 0 <= j < |controllers| ==> longer[j] == controllers[j];
  }

  lemma FilesUnique(a: map<nat, QKDControl>, b: map<nat, QKDControl>, controllers: seq<QKDControl>)
    requires Files(a, controllers) && Files(b, controllers)
    ensures a == b
  {
    forall id | id in a ensures id in b && a[id] == b[id] {
      FirstIsOne(a[id], id, controllers);
      assert IsFirst(b[id], id, controllers);
    }
    forall id | id in b ensures id in a {
      FirstIsOne(b[id], id, controllers);
    }
  }

  lemma FirstIsOne(c: QKDControl, id: nat, controllers: seq<QKDControl>)
    requires IsFirst(c, id, controllers)
    ensures c in controllers && c.kmNodeId == id
    ensures forall d :: IsFirst(d, id, controllers) ==> d == c
  {
    var k :| 0 <= k < |controllers| && controllers[k] == c && c.kmNodeId == id &&
             forall j :: 0 <= j < k ==> controllers[j].kmNodeId != id;
    forall d | IsFirst(d, id, controllers) ensures d == c {
      var m :| 0 <= m < |controllers| && controllers[m] == d && d.kmNodeId == id &&
               forall j :: 0 <= j < m ==> controllers[j].kmNodeId != id;
      assert !(k < m) && !(m < k);
    }
  }

  /** The controllers are filed under their own ids, and no two share a table. */
  ghost predicate FiledOk(filed: map<nat, QKDControl>) {
    && (forall id :: id in filed ==> filed[id].kmNodeId == id && filed[id].m_routingTable.m_id == id)
    && (forall a, b :: Apart(filed, a, b))
  }

  ghost predicate Apart(filed: map<nat, QKDControl>, a: nat, b: nat) {
    a in filed && b in filed && a != b ==> filed[a].m_routingTable != filed[b].m_routingTable
  }

  /** File the controllers under their ids; the first one of an id is kept. */
  method FileControllers(controllers: seq<QKDControl>) returns (filed: map<nat, QKDControl>)
    requires OwnTables(controllers)
    ensures FiledOk(filed) && Files(filed, controllers)
  {
    filed := map[];
    for i := 0 to |controllers|
      invariant FiledOk(filed) && Files(filed, controllers[..i])
    {
      var c := controllers[i];
      assert controllers[..i + 1] == controllers[..i] + [c];
      forall id | id in filed ensures IsFirst(filed[id], id, controllers[..i + 1]) {
        FirstStays(filed[id], id, controllers[..i], c);
      }
      if c.kmNodeId !in filed {
        FirstStays(c, c.kmNodeId, controllers[..i], c);
        filed := filed[c.kmNodeId := c];
      }
    }
    assert controllers[..|controllers|] == controllers;
  }

  // ----- The tables of many controllers

  ghost function RegistersOf(controllers: map<nat, QKDControl>): set<QKDLocationRegister> {
    set id | id in controllers :: controllers[id].m_routingTable
  }

  /** The routing tables by the ids of their controllers. */
  ghost function TablesOf(controllers: map<nat, QKDControl>): map<nat, Table>
    reads RegistersOf(controllers)
  {
    map id | id in controllers :: controllers[id].m_routingTable.m_locationEntites
  }

  /** ids lists the ids of the controllers. */
  ghost predicate Lists(ids: seq<nat>, controllers: map<nat, QKDControl>) {
    Injective(ids) && FiledOk(controllers) && forall id :: id in ids <==> id in controllers
  }

  /** The table of c, which was before, with the destinations below k handled. */
  ghost predicate Underway(adj: AdjList, ids: seq<nat>, c: QKDControl, s: nat, before: Table, k: nat)
    reads c.m_routingTable
  {
    && |adj| == |ids| && s < |adj|
    && Filled(adj, ids, s, before, c.m_routingTable.m_locationEntites, k)
  }

  /** The first i controllers are served, the tables of the others are as before. */
  ghost predicate ServedUpTo(adj: AdjList, ids: seq<nat>, controllers: map<nat, QKDControl>, i: nat,
                             before: map<nat, Table>)
    requires Lists(ids, controllers)
    reads RegistersOf(controllers)
  {
    forall j :: 0 <= j < |ids| ==>
      && ids[j] in before
      && if j < i then Underway(adj, ids, controllers[ids[j]], j, before[ids[j]], |adj|)
         else controllers[ids[j]].m_routingTable.m_locationEntites == before[ids[j]]
  }

  /** before are the routing tables as they are. */
  ghost predicate TablesAre(controllers: map<nat, QKDControl>, before: map<nat, Table>)
    reads RegistersOf(controllers)
  {
    && before.Keys == controllers.Keys
    && forall id :: id in controllers ==> before[id] == controllers[id].m_routingTable.m_locationEntites
  }

  lemma NoneServed(adj: AdjList, ids: seq<nat>, controllers: map<nat, QKDControl>, before: map<nat, Table>)
    requires Lists(ids, controllers) && TablesAre(controllers, before)
    ensures ServedUpTo(adj, ids, controllers, 0, before)
  {
  }

  lemma AllServed(adj: AdjList, ids: seq<nat>, controllers: map<nat, QKDControl>, before: map<nat, Table>)
    requires Lists(ids, controllers) && |adj| == |ids| && before.Keys == controllers.Keys
    requires ServedUpTo(adj, ids, controllers, |ids|, before)
    ensures FilledAll(adj, ids, before, TablesOf(controllers))
  {
    forall s | 0 <= s < |adj| ensures FilledAt(adj, ids, before, TablesOf(controllers), s) {
      assert Underway(adj, ids, controllers[ids[s]], s, before[ids[s]], |adj|);
    }
  }

  lemma OtherTables(ids: seq<nat>, controllers: map<nat, QKDControl>, i: nat)
    requires Lists(ids, controllers) && i < |ids|
    ensures forall j :: 0 <= j < |ids| && j != i ==>
              controllers[ids[j]].m_routingTable != controllers[ids[i]].m_routingTable
  {
    forall j | 0 <= j < |ids| && j != i
      ensures controllers[ids[j]].m_routingTable != controllers[ids[i]].m_routingTable
    {
      SameId(ids, i, j);
      assert Apart(controllers, ids[i], ids[j]);
    }
  }
}
