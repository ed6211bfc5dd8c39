/**
 When the installed hop counts of the central controller are the distances in the
 network as it is now, and runs in which they are not.
 */
module CenStale {
  import opened Graphs
  import opened Routes
  import opened CenWeights
  import opened CenController
  import opened CenRuns
  import opened CenTables

  /** Every link is down, as at registration. */
  ghost predicate AllDown(adj: AdjList) {
    forall u, e :: 0 <= u < |adj| && e in adj[u] ==> e.weight == DOWN
  }

  /** Every link between different key managers is down. */
  ghost predicate LinksDown(g: AdjList) {
    forall u, e :: 0 <= u < |g| && e in g[u] && e.to != u ==> e.weight == DOWN
  }

  lemma {:induction false} RegisteredAllDown(ids: seq<nat>, lists: seq<seq<nat>>)
    ensures AllDown(DownGraph(ids, lists))
  {
    var adj: AdjList := DownGraph(ids, lists);
    DownGraphAt(ids, lists);
    forall u, e | 0 <= u < |adj| && e in adj[u] ensures e.weight == DOWN {
      DownRowAt(ids, lists[u]);
    }
  }

  // ----- All tables at once

  ghost predicate TablesExact(g: AdjList, ids: seq<nat>, tables: Tables) {
    forall s: nat, v: nat :: s < |ids| && v < |ids| && s != v ==> EntryExact(g, ids, tables, s, v)
  }

  ghost predicate EntryExact(g: AdjList, ids: seq<nat>, tables: Tables, s: nat, v: nat)
    requires s < |ids| && v < |ids|
  {
    ids[s] in tables && ids[v] in tables[ids[s]] && IsDistance(g, s, v, tables[ids[s]][ids[v]].hops)
  }

  lemma {:induction false} RunShape(adj: AdjList, ops: seq<Switch>)
    requires GraphReady(adj) && AllDown(adj) && forall op :: op in ops ==> SwitchOk(adj, op)
    ensures Lighter(Run(adj, ops), adj)
  {
    var g: AdjList := Run(adj, ops);
    RunKeeps(adj, ops);
    forall u | 0 <= u < |adj| ensures |g[u]| == |adj[u]| {
      RunRowLength(adj, ops, u);
    }
    forall u, i | 0 <= u < |adj| && 0 <= i < |adj[u]|
      ensures g[u][i].to == adj[u][i].to && g[u][i].weight <= adj[u][i].weight
    {
      WeightIsLastSwitch(adj, ops, u, i);
      assert adj[u][i] in adj[u] && g[u][i] in g[u];
    }
  }

  lemma {:induction false} RunRowLength(adj: AdjList, ops: seq<Switch>, u: nat)
    requires (forall op :: op in ops ==> SwitchOk(adj, op)) && u < |adj|
    ensures |Run(adj, ops)[u]| == |adj[u]|
  {
    if ops != [] {
      var g, last := Run(adj, ops[..|ops| - 1]), ops[|ops| - 1];
      RunRowLength(adj, ops[..|ops| - 1], u);
      assert last in ops && SwitchOk(adj, last);
      assert |SetFirst(g[last.a], last.b, last.w)| == |g[last.a]|;
      assert |SetLink(g, last.a, last.b, last.w)[u]| == |g[u]|;
    }
  }

  /** Without a repeated vertex a path takes no link of a key manager to itself. */
  lemma {:induction false} SimplePathBefore(g: AdjList, adj: AdjList, s: nat, p: Path)
    requires Lighter(g, adj) && AllDown(adj) && LinksDown(g) && IsPath(g, s, p) && Simple(s, p)
    ensures IsPath(adj, s, p) && End(s, p) in Visits(s, p)
  {
    match p
    case Start =>
    case Step(q, v, w) =>
      SimplePathBefore(g, adj, s, q);
      var u := End(s, q);
      var i :| 0 <= i < |g[u]| && g[u][i] == Edge(v, w);
      assert v != u;
      assert adj[u][i] in adj[u] && adj[u][i] == Edge(v, w);
  }

  lemma DownKeepsDistances(g: AdjList, adj: AdjList, s: nat, v: nat, d: nat)
    requires Lighter(g, adj) && AllDown(adj) && LinksDown(g) && IsDistance(adj, s, v, d)
    ensures IsDistance(g, s, v, d)
  {
    forall p | Links(g, s, v, p) ensures d <= Weight(p) {
      var q := Shortcut(g, s, p);
      SimplePathBefore(g, adj, s, q);
      assert Links(adj, s, v, q);
    }
    var p :| Links(adj, s, v, p) && Weight(p) == d;
    var q := LighterPath(g, adj, s, p);
    assert Links(g, s, v, q);
  }

  /** In a network with every link down different key managers are at least 100 apart. */
  lemma {:induction false} DownPathWeight(adj: AdjList, s: nat, p: Path)
    requires AllDown(adj) && IsPath(adj, s, p)
    ensures End(s, p) != s ==> Weight(p) >= DOWN
  {
    match p
    case Start =>
    case Step(q, v, w) => assert Edge(v, w).weight == DOWN;
  }

  lemma UpLinkIsShort(g: AdjList, adj: AdjList, u: nat, e: Edge, d: nat)
    requires u < |adj| && |g| == |adj| && AllDown(adj) && e in g[u] && e.to != u
    requires IsDistance(adj, u, e.to, d) && IsDistance(g, u, e.to, d)
    ensures e.weight >= DOWN
  {
    var p :| Links(adj, u, e.to, p) && Weight(p) == d;
    DownPathWeight(adj, u, p);
    var q := Step(Start, e.to, e.weight);
    assert IsPath(g, u, Start) && End(u, Start) == u && e == Edge(e.to, e.weight);
    assert Links(g, u, e.to, q) && Weight(Start) == 0;
  }

  /** After any run from registration on, the installed hop counts are the distances if
      and only if every link is down again: the documented rerouting works for no
      network with a link up. */
  lemma {:induction false} TablesExactIffAllDown(adj: AdjList, ids: seq<nat>, first: Tables, ops: seq<Switch>,
                              tables: seq<Tables>, i: nat)
    requires History(adj, ids, first, ops, tables) && AllEmpty(first) && AllDown(adj) && i < |tables|
    ensures TablesExact(Run(adj, ops[..i]), ids, tables[i]) <==> LinksDown(Run(adj, ops[..i]))
  {
    var g: AdjList := Run(adj, ops[..i]);
    RunShape(adj, ops[..i]);
    TablesNeverChange(adj, ids, first, ops, tables, i);
    forall s: nat, v: nat | s < |ids| && v < |ids| && s != v
      ensures EntryExact(adj, ids, tables[0], s, v)
      ensures LinksDown(g) ==> EntryExact(g, ids, tables[0], s, v)
    {
      RegisteredEntry(adj, ids, first, tables[0], s, v);
      if LinksDown(g) {
        DownKeepsDistances(g, adj, s, v, tables[0][ids[s]][ids[v]].hops);
      }
    }
    RunKeeps(adj, ops[..i]);
    forall u, e | 0 <= u < |g| && e in g[u] && e.to != u
      ensures TablesExact(g, ids, tables[0]) ==> e.weight == DOWN
    {
      if TablesExact(g, ids, tables[0]) {
        assert EntryExact(g, ids, tables[0], u, e.to) && EntryExact(adj, ids, tables[0], u, e.to);
        UpLinkIsShort(g, adj, u, e, tables[0][ids[u]][ids[e.to]].hops);
      }
    }
  }

  /** So it is for controllers as they are registered, with empty tables. */
  lemma ReroutingWorksIff(ids: seq<nat>, sites: Sites, first: Tables, ops: seq<Switch>, tables: seq<Tables>, i: nat)
    requires Registrable(ids, sites) && AllEmpty(first) && i < |tables|
    requires History(GraphOf(ids, sites), ids, first, ops, tables)
    ensures var g: AdjList := Run(GraphOf(ids, sites), ops[..i]);
            TablesExact(g, ids, tables[i]) <==> LinksDown(g)
  {
    RegisteredAllDown(ids, ListsOf(ids, sites));
    TablesExactIffAllDown(GraphOf(ids, sites), ids, first, ops, tables, i);
  }

  lemma RegisteredEntry(adj: AdjList, ids: seq<nat>, first: Tables, now: Tables, s: nat, v: nat)
    requires FilledAll(adj, ids, first, now) && AllEmpty(first) && Connected(adj)
    requires s < |ids| && v < |ids| && s != v
    ensures EntryExact(adj, ids, now, s, v)
  {
    assert FilledAt(adj, ids, first, now, s);
    FilledFresh(adj, ids, s, now[ids[s]]);
    assert AllReachable(adj, s) && Reachable(adj, s, v);
    assert RightEntry(adj, ids, s, v, now[ids[s]][ids[v]]);
  }

  /** LinkDown by itself makes no installed hop count wrong that is right. */
  lemma {:induction false} LinkDownKeepsExact(adj: AdjList, ids: seq<nat>, first: Tables, ops: seq<Switch>,
                           tables: seq<Tables>, i: nat, down: AdjList, a: nat, b: nat, s: nat, v: nat)
    requires History(adj, ids, first, ops, tables) && AllEmpty(first) && AllDown(adj) && i < |tables|
    requires Switched(Run(adj, ops[..i]), down, a, b, DOWN)
    requires s < |ids| && v < |ids| && s != v
    ensures EntryExact(Run(adj, ops[..i]), ids, tables[i], s, v) ==> EntryExact(down, ids, tables[i], s, v)
  {
    var g: AdjList := Run(adj, ops[..i]);
    RunShape(adj, ops[..i]);
    RunKeeps(adj, ops[..i]);
    TablesNeverChange(adj, ids, first, ops, tables, i);
    RegisteredEntry(adj, ids, first, tables[0], s, v);
    EntryKept(adj, g, down, a, b, ids, tables[i], s, v);
  }

  lemma EntryKept(adj: AdjList, g: AdjList, down: AdjList, a: nat, b: nat, ids: seq<nat>, t: Tables,
                  s: nat, v: nat)
    requires GraphReady(g) && Lighter(g, adj) && AllDown(adj) && Switched(g, down, a, b, DOWN)
    requires s < |ids| && v < |ids| && EntryExact(adj, ids, t, s, v)
    ensures EntryExact(g, ids, t, s, v) ==> EntryExact(down, ids, t, s, v)
  {
    SwitchedIsLighter(g, down, a, b, DOWN);
    DownIsLighter(adj, g, down, a, b);
    if EntryExact(g, ids, t, s, v) {
      Between(g, down, adj, s, v, t[ids[s]][ids[v]].hops);
    }
  }

  lemma DownIsLighter(adj: AdjList, g: AdjList, down: AdjList, a: nat, b: nat)
    requires Lighter(g, adj) && AllDown(adj) && Switched(g, down, a, b, DOWN)
    ensures Lighter(down, adj)
  {
    forall u, i | 0 <= u < |adj| && 0 <= i < |adj[u]| ensures adj[u][i].weight == DOWN {
      assert adj[u][i] in adj[u];
    }
  }

  lemma Between(g: AdjList, h: AdjList, adj: AdjList, s: nat, v: nat, d: nat)
    requires Lighter(g, h) && Lighter(h, adj) && IsDistance(g, s, v, d) && IsDistance(adj, s, v, d)
    ensures IsDistance(h, s, v, d)
  {
    forall p | Links(h, s, v, p) ensures d <= Weight(p) {
      var q := LighterPath(g, h, s, p);
      assert Links(g, s, v, q);
    }
    var p :| Links(adj, s, v, p) && Weight(p) == d;
    var q := LighterPath(h, adj, s, p);
    assert Links(h, s, v, q);
  }

  // ----- Runs in which they are not

  lemma TwoNodesDistance(adj: AdjList, w: nat)
    requires adj == [[Edge(1, w)], [Edge(0, w)]]
    ensures IsDistance(adj, 0, 1, w)
  {
    var step := Step(Start, 1, w);
    assert IsPath(adj, 0, Start) && Edge(1, w) in adj[0];
    assert Links(adj, 0, 1, step) && Weight(step) == w;
    forall p | Links(adj, 0, 1, p) ensures w <= Weight(p) {
      assert p.Step? && Edge(p.to, p.weight) in adj[End(0, p.prev)];
    }
  }

  /** What a right table of vertex 0 stores for vertex 1 is their distance. */
  lemma StoredIsDistance(adj: AdjList, ids: seq<nat>, t: Table, d: nat)
    requires |ids| == |adj| >= 2 && RightTable(adj, ids, 0, t) && IsDistance(adj, 0, 1, d)
    ensures ids[1] in t && t[ids[1]].hops == d
  {
    var p :| Links(adj, 0, 1, p) && Weight(p) == d;
    assert Reachable(adj, 0, 1);
    assert RightEntry(adj, ids, 0, 1, t[ids[1]]);
    OneDistance(adj, 0, 1, t[ids[1]].hops, d);
  }

  /** Two key managers and one link, in either state at first and switched then: the
      table filled before keeps its hop count, and the distance is another. */
  lemma StaleAfterSwitch(w: nat, x: nat, ids: seq<nat>, t: Table, t2: Table)
    requires (w == UP && x == DOWN) || (w == DOWN && x == UP)
    requires |ids| == 2 && ids[0] != ids[1]
    requires Filled([[Edge(1, w)], [Edge(0, w)]], ids, 0, map[], t, 2)
    requires Filled(SetLink([[Edge(1, w)], [Edge(0, w)]], 0, 1, x), ids, 0, t, t2, 2)
    ensures ids[1] in t2 && t2[ids[1]].hops == w
    ensures IsDistance(SetLink([[Edge(1, w)], [Edge(0, w)]], 0, 1, x), 0, 1, x)
  {
    var adj: AdjList := [[Edge(1, w)], [Edge(0, w)]];
    TwoNodesDistance(adj, w);
    FilledFresh(adj, ids, 0, t);
    StoredIsDistance(adj, ids, t, w);
    assert SetFirst([Edge(1, w)], 1, x) == [Edge(1, x)] && SetFirst([Edge(0, w)], 0, x) == [Edge(0, x)];
    assert SetLink(adj, 0, 1, x) == [[Edge(1, x)], [Edge(0, x)]];
    TwoNodesDistance([[Edge(1, x)], [Edge(0, x)]], x);
  }

  // ----- An EMPTY link that stays in use

  /** Three key managers, each linked to the others. */
  function Triangle3(w01: nat, w02: nat, w12: nat): AdjList {
    [[Edge(1, w01), Edge(2, w02)], [Edge(0, w01), Edge(2, w12)], [Edge(0, w02), Edge(1, w12)]]
  }

  lemma TriangleReady()
    ensures GraphReady(Triangle3(DOWN, DOWN, DOWN)) && AllDown(Triangle3(DOWN, DOWN, DOWN))
  {
    var adj := Triangle3(DOWN, DOWN, DOWN);
    forall s: nat, v: nat | s < 3 && v < 3 ensures Reachable(adj, s, v) {
      if s == v {
        assert Links(adj, s, v, Start);
      } else {
        assert IsPath(adj, s, Start) && Edge(v, DOWN) in adj[s];
        assert Links(adj, s, v, Step(Start, v, DOWN));
      }
    }
  }

  /** All links go up, then the one between 0 and 1 goes down. */
  function Outage(): seq<Switch> {
    [Switch(0, 1, UP), Switch(0, 2, UP), Switch(1, 2, UP), Switch(0, 1, DOWN)]
  }

  lemma {:induction false} SetFirstOfTwo(e0: Edge, e1: Edge, target: nat, w: nat)
    requires e0.to != e1.to
    ensures e0.to == target ==> SetFirst([e0, e1], target, w) == [Edge(target, w), e1]
    ensures e1.to == target ==> SetFirst([e0, e1], target, w) == [e0, Edge(target, w)]
  {
    assert [e0, e1][1..] == [e1] && [e1][1..] == [];
    assert SetFirst([e1], target, w) == if e1.to == target then [Edge(target, w)] else [e1];
  }

  lemma TriangleSwitches(w01: nat, w02: nat, w12: nat, w: nat)
    ensures SetLink(Triangle3(w01, w02, w12), 0, 1, w) == Triangle3(w, w02, w12)
    ensures SetLink(Triangle3(w01, w02, w12), 0, 2, w) == Triangle3(w01, w, w12)
    ensures SetLink(Triangle3(w01, w02, w12), 1, 2, w) == Triangle3(w01, w02, w)
  {
    SetFirstOfTwo(Edge(1, w01), Edge(2, w02), 1, w);
    SetFirstOfTwo(Edge(1, w01), Edge(2, w02), 2, w);
    SetFirstOfTwo(Edge(0, w01), Edge(2, w12), 0, w);
    SetFirstOfTwo(Edge(0, w01), Edge(2, w12), 2, w);
    SetFirstOfTwo(Edge(0, w02), Edge(1, w12), 0, w);
    SetFirstOfTwo(Edge(0, w02), Edge(1, w12), 1, w);
  }

  lemma {:induction false} RunOneMore(adj: AdjList, ops: seq<Switch>, op: Switch)
    requires SwitchOk(adj, op) && forall o :: o in ops ==> SwitchOk(adj, o)
    ensures forall o :: o in ops + [op] ==> SwitchOk(adj, o)
    ensures Run(adj, ops + [op]) == SetLink(Run(adj, ops), op.a, op.b, op.w)
  {
    assert (ops + [op])[..|ops|] == ops;
  }

  lemma AfterOutage()
    ensures forall op :: op in Outage() ==> SwitchOk(Triangle3(DOWN, DOWN, DOWN), op)
    ensures Run(Triangle3(DOWN, DOWN, DOWN), Outage()) == Triangle3(DOWN, UP, UP)
  {
    var adj := Triangle3(DOWN, DOWN, DOWN);
    var o1, o2, o3, o4 := Switch(0, 1, UP), Switch(0, 2, UP), Switch(1, 2, UP), Switch(0, 1, DOWN);
    TriangleSwitches(DOWN, DOWN, DOWN, UP);
    RunOneMore(adj, [], o1);
    TriangleSwitches(UP, DOWN, DOWN, UP);
    RunOneMore(adj, [] + [o1], o2);
    TriangleSwitches(UP, UP, DOWN, UP);
    RunOneMore(adj, [] + [o1] + [o2], o3);
    TriangleSwitches(UP, UP, UP, DOWN);
    RunOneMore(adj, [] + [o1] + [o2] + [o3], o4);
    assert Outage() == [] + [o1] + [o2] + [o3] + [o4];
  }

  lemma {:induction false} ExtendPath(adj: AdjList, s: nat, p: Path, e: Edge)
    requires IsPath(adj, s, p) && End(s, p) < |adj| && e in adj[End(s, p)]
    ensures Links(adj, s, e.to, Step(p, e.to, e.weight)) && Weight(Step(p, e.to, e.weight)) == Weight(p) + e.weight
  {
    assert e == Edge(e.to, e.weight);
  }

  lemma OneHopIsLeast(adj: AdjList, s: nat, v: nat)
    requires AllDown(adj) && s < |adj| && s != v && Edge(v, DOWN) in adj[s]
    ensures IsDistance(adj, s, v, DOWN)
  {
    ExtendPath(adj, s, Start, Edge(v, DOWN));
    forall q | Links(adj, s, v, q) ensures DOWN <= Weight(q) {
      DownPathWeight(adj, s, q);
    }
  }

  lemma {:induction false} AroundIsLeast(g: AdjList, p: Path)
    requires g == Triangle3(DOWN, UP, UP) && IsPath(g, 0, p)
    ensures End(0, p) == 2 ==> Weight(p) >= 1
    ensures End(0, p) == 1 ==> Weight(p) >= 2
  {
    match p
    case Start =>
    case Step(q, v, w) => AroundIsLeast(g, q);
  }

  lemma TwoSteps(g: AdjList, s: nat, e: Edge, f: Edge) returns (p: Path)
    requires s < |g| && e in g[s] && e.to < |g| && f in g[e.to]
    ensures Links(g, s, f.to, p) && Weight(p) == e.weight + f.weight
  {
    ExtendPath(g, s, Start, e);
    p := Step(Start, e.to, e.weight);
    ExtendPath(g, s, p, f);
    p := Step(p, f.to, f.weight);
  }

  lemma DistanceAround(g: AdjList)
    requires g == Triangle3(DOWN, UP, UP)
    ensures IsDistance(g, 0, 1, 2)
  {
    assert g[0][1] == Edge(2, UP) && g[2][1] == Edge(1, UP);
    var p := TwoSteps(g, 0, g[0][1], g[2][1]);
    forall r | Links(g, 0, 1, r) ensures 2 <= Weight(r) {
      AroundIsLeast(g, r);
    }
  }

  /** At registration the route from 0 to 1 is the direct link. */
  lemma DirectRoute(ids: seq<nat>, t: Table)
    requires |ids| == 3 && RightTable(Triangle3(DOWN, DOWN, DOWN), ids, 0, t)
    ensures ids[1] in t && t[ids[1]] == Entry(ids[1], DOWN, ids[1])
  {
    var adj := Triangle3(DOWN, DOWN, DOWN);
    TriangleReady();
    OneHopIsLeast(adj, 0, 1);
    StoredIsDistance(adj, ids, t, DOWN);
    assert RightEntry(adj, ids, 0, 1, t[ids[1]]);
    var n, w, less := EntryIsCloser(adj, ids, 0, t, 1);
    assert Edge(n, w).weight == DOWN;
    ZeroDistance(adj, n, 1);
  }

  /** After LinkDown the installed route from 0 to 1 is still the link that is EMPTY now,
      at 100, although the way round over 2 takes two links that are up. */
  lemma EmptyLinkStaysInUse(ids: seq<nat>, first: Tables, tables: seq<Tables>)
    requires |ids| == 3 && AllEmpty(first)
    requires History(Triangle3(DOWN, DOWN, DOWN), ids, first, Outage(), tables)
    ensures |tables| == 5 && ids[0] in tables[4]
    ensures ids[1] in tables[4][ids[0]] && tables[4][ids[0]][ids[1]] == Entry(ids[1], DOWN, ids[1])
    ensures IsDistance(Run(Triangle3(DOWN, DOWN, DOWN), Outage()), 0, 1, 2)
  {
    var adj := Triangle3(DOWN, DOWN, DOWN);
    AfterOutage();
    DistanceAround(Triangle3(DOWN, UP, UP));
    TablesNeverChange(adj, ids, first, Outage(), tables, 4);
    assert FilledAt(adj, ids, first, tables[0], 0);
    FilledFresh(adj, ids, 0, tables[0][ids[0]]);
    DirectRoute(ids, tables[0][ids[0]]);
  }

  lemma ZeroDistance(adj: AdjList, n: nat, v: nat)
    requires AllDown(adj) && n < |adj| && IsDistance(adj, n, v, 0)
    ensures n == v
  {
    var p :| Links(adj, n, v, p) && Weight(p) == 0;
    DownPathWeight(adj, n, p);
  }
}
