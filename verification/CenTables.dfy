/**
 The routing tables over whole runs of the central controller: filled at registration,
 when every link is down, and filled up again after every LinkUp and LinkDown.
 */
module CenTables {
  import opened Options
  import opened Graphs
  import opened Routes
  import opened CenWeights
  import opened CenController
  import opened CenRuns

  /** The tables of all key managers, by id. */
  type Tables = map<nat, Table>

  // ----- Runs with tables

  /** tables[0] are the tables after registration on the graph adj, where they were
      first; tables[i + 1] are those after the i-th switch. */
  ghost predicate History(adj: AdjList, ids: seq<nat>, first: Tables, ops: seq<Switch>, tables: seq<Tables>) {
    && |ids| == |adj| && GraphReady(adj)
    && (forall op :: op in ops ==> SwitchOk(adj, op))
    && |tables| == |ops| + 1
    && FilledAll(adj, ids, first, tables[0])
    && forall i :: 0 <= i < |ops| ==> Refilled(adj, ids, ops, tables, i)
  }

  ghost predicate Refilled(adj: AdjList, ids: seq<nat>, ops: seq<Switch>, tables: seq<Tables>, i: nat)
    requires i < |ops| && |tables| == |ops| + 1
    requires forall op :: op in ops ==> SwitchOk(adj, op)
  {
    FilledAll(Run(adj, ops[..i + 1]), ids, tables[i], tables[i + 1])
  }

  ghost predicate AllComplete(ids: seq<nat>, tables: Tables) {
    forall s :: 0 <= s < |ids| ==> ids[s] in tables && Complete(ids, s, tables[ids[s]])
  }

  lemma TableIsComplete(adj: AdjList, ids: seq<nat>, s: nat, before: Table, t: Table)
    requires |ids| == |adj| && s < |adj| && Filled(adj, ids, s, before, t, |adj|) && AllReachable(adj, s)
    ensures Complete(ids, s, t)
  {
    forall v | 0 <= v < |ids| && v != s ensures ids[v] in t {
      assert Reachable(adj, s, v);
    }
  }

  /** Populating a connected network leaves complete tables behind ... */
  lemma PopulatedIsComplete(adj: AdjList, ids: seq<nat>, before: Tables, now: Tables)
    requires FilledAll(adj, ids, before, now) && Connected(adj)
    ensures AllComplete(ids, now)
  {
    forall s | 0 <= s < |ids| ensures ids[s] in now && Complete(ids, s, now[ids[s]]) {
      assert FilledAt(adj, ids, before, now, s);
      TableIsComplete(adj, ids, s, before[ids[s]], now[ids[s]]);
    }
  }

  /** ... and populating does not change complete tables. */
  lemma CompleteTablesStay(adj: AdjList, ids: seq<nat>, before: Tables, now: Tables)
    requires FilledAll(adj, ids, before, now) && AllComplete(ids, before)
    ensures now == before
  {
    forall id | id in now ensures now[id] == before[id] {
      var s :| 0 <= s < |ids| && ids[s] == id;
      assert FilledAt(adj, ids, before, now, s);
      FilledComplete(adj, ids, s, before[id], now[id]);
    }
  }

  /** In every run the tables after each switch are those of the registration. */
  lemma {:induction false} TablesNeverChange(adj: AdjList, ids: seq<nat>, first: Tables, ops: seq<Switch>,
                                             tables: seq<Tables>, i: nat)
    requires History(adj, ids, first, ops, tables) && i < |tables|
    ensures tables[i] == tables[0] && AllComplete(ids, tables[0])
    decreases i
  {
    if i == 0 {
      PopulatedIsComplete(adj, ids, first, tables[0]);
    } else {
      TablesNeverChange(adj, ids, first, ops, tables, i - 1);
      assert Refilled(adj, ids, ops, tables, i - 1);
      CompleteTablesStay(Run(adj, ops[..i]), ids, tables[i - 1], tables[i]);
    }
  }

  // ----- What the tables are good for

  ghost predicate AllEmpty(tables: Tables) {
    forall id :: id in tables ==> tables[id] == map[]
  }

  /** Registration on empty tables makes every table right. */
  lemma RegisteredTablesAreRight(adj: AdjList, ids: seq<nat>, first: Tables, now: Tables)
    requires FilledAll(adj, ids, first, now) && AllEmpty(first)
    ensures RightTables(adj, ids, now)
  {
    forall s | 0 <= s < |ids| ensures ids[s] in first && first[ids[s]] == map[] {
      assert FilledAt(adj, ids, first, now, s);
    }
    AllFilledFresh(adj, ids, first, now);
  }

  lemma {:induction false} RunKeepsTargets(adj: AdjList, ops: seq<Switch>, u: nat, e: Edge)
    requires GraphReady(adj) && (forall op :: op in ops ==> SwitchOk(adj, op)) && u < |adj| && e in adj[u]
    ensures exists f :: f in Run(adj, ops)[u] && f.to == e.to
  {
    var i :| 0 <= i < |adj[u]| && adj[u][i] == e;
    WeightIsLastSwitch(adj, ops, u, i);
    assert Run(adj, ops)[u][i] in Run(adj, ops)[u];
  }

  /** Stale or not, after any run the tables deliver: a message for v reaches it from s in
      at most the stored number of hops ... */
  lemma TablesDeliver(adj: AdjList, ids: seq<nat>, first: Tables, ops: seq<Switch>,
                      tables: seq<Tables>, i: nat, s: nat, v: nat) returns (k: nat)
    requires History(adj, ids, first, ops, tables) && AllEmpty(first) && i < |tables|
    requires s < |adj| && v < |adj| && s != v
    ensures ids[s] in tables[i] && ids[v] in tables[i][ids[s]] && k <= tables[i][ids[s]][ids[v]].hops
    ensures Forward(tables[i], ids[s], ids[v], k) == Some(ids[v])
  {
    TablesNeverChange(adj, ids, first, ops, tables, i);
    RegisteredTablesAreRight(adj, ids, first, tables[0]);
    assert WeightsUpTo(adj, DOWN);
    k := ForwardingArrives(adj, ids, tables[0], s, ids[v], DOWN);
  }

  /** ... and every hop is along a link that is still there. */
  lemma {:induction false} NextHopIsStillLinked(adj: AdjList, ids: seq<nat>, first: Tables, ops: seq<Switch>,
                                                tables: seq<Tables>, i: nat, s: nat, v: nat)
    requires History(adj, ids, first, ops, tables) && AllEmpty(first) && i < |tables|
    requires s < |adj| && v < |adj| && s != v
    ensures ids[s] in tables[i] && ids[v] in tables[i][ids[s]]
    ensures exists f :: f in Run(adj, ops[..i])[s] && f.to < |ids|
                        && ids[f.to] == tables[i][ids[s]][ids[v]].nextHop
  {
    TablesNeverChange(adj, ids, first, ops, tables, i);
    assert FilledAt(adj, ids, first, tables[0], s);
    FilledFresh(adj, ids, s, tables[0][ids[s]]);
    var n, w, less := EntryIsCloser(adj, ids, s, tables[0][ids[s]], v);
    RunKeepsTargets(adj, ops[..i], s, Edge(n, w));
  }
}
