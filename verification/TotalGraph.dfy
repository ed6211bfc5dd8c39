/**
 QKDTotalGraph: the key material of all registered buffers together.
 */
module TotalGraph {
  import opened UInt32
  import opened QBuffers
  import opened QBufferRuns

  datatype Graph = Graph(current: nat, max: nat)

  function Processed(g: Graph, newValue: nat, sign: char): Graph {
    var current := if sign == '+' then Plus(g.current, newValue)
                   else if sign == '-' then Minus(g.current, newValue) else g.current;
    Graph(current, if current > g.max then current else g.max)
  }

  class QKDTotalGraph {
    var m_keymCurrent: nat
    var m_keymMax: nat

    constructor ()
      ensures View() == Graph(0, 100)
    {
      m_keymCurrent, m_keymMax := 0, 100;
    }

    function View(): Graph
      reads this
    {
      Graph(m_keymCurrent, m_keymMax)
    }

    method ProcessMCurrent(newValue: nat, sign: char)
      modifies this
      ensures View() == Processed(old(View()), newValue, sign)
    {
      if sign == '+' {
        m_keymCurrent := (m_keymCurrent + newValue) % UINT32_RANGE;
      } else if sign == '-' {
        m_keymCurrent := (m_keymCurrent - newValue) % UINT32_RANGE;
      }
      if m_keymCurrent > m_keymMax {
        m_keymMax := m_keymCurrent;
      }
    }
  }

  // ----- Buffers and the graph together

  /** values are all the values the graph has plotted. */
  datatype Network = Network(buffers: seq<Buffer>, registered: set<nat>, total: Graph, values: seq<nat>)

  datatype NetworkEvent = Register(i: nat) | Call(i: nat, e: Event)

  /** What a call to a buffer fires towards the graph. */
  datatype Fired = Nothing | Amount(value: nat, sign: char)

  function FiredBy(b: Buffer, e: Event): Fired {
    match e
    case Store(_, bits, fire, _) =>
      if Full(b, bits) then Amount(0, '+') else if fire then Amount(bits, '+') else Nothing
    case Get(id, fire) => if id in b.keys && fire then Amount(b.keys[id], '-') else Nothing
  }

  function Called(b: Buffer, e: Event): Buffer
    requires Steady(b)
  {
    match e
    case Store(id, bits, fire, tie) => Stored(b, id, bits, fire, tie)
    case Get(id, fire) => Taken(b, id, fire)
  }

  function Plotted(n: Network, value: nat, sign: char): Network {
    var g := Processed(n.total, value, sign);
    n.(total := g, values := n.values + [g.current])
  }

  /** Each buffer is registered at most once. */
  predicate Possible(n: Network, e: NetworkEvent) {
    && e.i < |n.buffers| && (e.Register? ==> e.i !in n.registered)
    && (forall i :: 0 <= i < |n.buffers| ==> Steady(n.buffers[i]))
  }

  function NetworkStep(n: Network, e: NetworkEvent): Network
    requires Possible(n, e)
  {
    match e
    case Register(i) =>
      Plotted(n.(registered := n.registered + {i}), n.buffers[i].cur, '+')
    case Call(i, call) =>
      var fired := FiredBy(n.buffers[i], call);
      var m := n.(buffers := n.buffers[i := Called(n.buffers[i], call)]);
      if fired.Amount? && i in n.registered then Plotted(m, fired.value, fired.sign) else m
  }

  function Sum(buffers: seq<Buffer>, registered: set<nat>): nat {
    if buffers == [] then 0
    else
      var last := |buffers| - 1;
      Sum(buffers[..last], registered) + if last in registered then buffers[last].cur else 0
  }

  /** The level of the i-th buffer counts once. */
  lemma {:induction false} SumWithout(buffers: seq<Buffer>, registered: set<nat>, i: nat, b: Buffer, reg: set<nat>)
    requires i < |buffers| && reg - {i} == registered - {i}
    ensures Sum(buffers[i := b], reg) - (if i in reg then b.cur else 0)
            == Sum(buffers, registered) - (if i in registered then buffers[i].cur else 0)
  {
    var last := |buffers| - 1;
    assert last != i ==> (last in reg <==> last in registered) by {
      assert last in reg - {i} <==> last in registered - {i};
    }
    if i == last {
      assert buffers[i := b][..last] == buffers[..last];
      forall j | 0 <= j < last ensures j in registered <==> j in reg {
        assert j in reg - {i} <==> j in registered - {i};
      }
      SumSame(buffers[..last], registered, reg);
    } else {
      SumWithout(buffers[..last], registered, i, b, reg);
      assert buffers[i := b][..last] == buffers[..last][i := b];
    }
  }

  lemma {:induction false} SumSame(buffers: seq<Buffer>, registered: set<nat>, reg: set<nat>)
    requires forall i :: 0 <= i < |buffers| ==> (i in registered <==> i in reg)
    ensures Sum(buffers, registered) == Sum(buffers, reg)
  {
    if buffers != [] {
      SumSame(buffers[..|buffers| - 1], registered, reg);
    }
  }

  // ----- The invariant

  predicate TotalOk(n: Network) {
    && (forall i :: 0 <= i < |n.buffers| ==> Steady(n.buffers[i]) && n.buffers[i].cur < UINT32_RANGE)
    && n.total.current == Sum(n.buffers, n.registered) % UINT32_RANGE
  }

  /** The peak is 100 or the highest value plotted, whichever is higher. */
  predicate PeakOk(n: Network) {
    && n.total.current <= n.total.max
    && 100 <= n.total.max && (n.total.max == 100 || n.total.max in n.values)
    && (forall i :: 0 <= i < |n.values| ==> n.values[i] <= n.total.max)
  }

  /** A call changes the level by what it fires. */
  lemma CallFires(b: Buffer, e: Event, c: Buffer)
    requires Steady(b) && b.cur < UINT32_RANGE && c == Called(b, e)
    ensures Steady(c) && c.cur < UINT32_RANGE
    ensures match FiredBy(b, e)
            case Nothing => c.cur == b.cur
            case Amount(value, sign) => c.cur == if sign == '+' then Plus(b.cur, value) else Minus(b.cur, value)
    ensures FiredBy(b, e).Amount? ==> FiredBy(b, e).sign == '+' || FiredBy(b, e).sign == '-'
  {
    if e.Store? && e.fire && !Full(b, e.bits) {
      StoreCharges(b, e.id, e.bits, e.tie, c);
      ChargedSteady(b, e.bits, e.tie, c);
    }
  }

  lemma PlotKeepsPeak(n: Network, value: nat, sign: char)
    requires PeakOk(n)
    ensures PeakOk(Plotted(n, value, sign))
  {
  }

  /** Adding and subtracting on both sides of a congruence. */
  lemma TotalShifts(rest: int, cur: nat, value: nat)
    ensures ((rest + cur) % UINT32_RANGE + value) % UINT32_RANGE == (rest + Plus(cur, value)) % UINT32_RANGE
    ensures ((rest + cur) % UINT32_RANGE - value) % UINT32_RANGE == (rest + Minus(cur, value)) % UINT32_RANGE
  {
    var q := (rest + cur) / UINT32_RANGE;
    assert (rest + cur) % UINT32_RANGE == rest + cur - q * UINT32_RANGE;
    var p, m := (cur + value) / UINT32_RANGE, (cur - value) / UINT32_RANGE;
    assert Plus(cur, value) == cur + value - p * UINT32_RANGE;
    assert Minus(cur, value) == cur - value - m * UINT32_RANGE;
    Congruent(rest + cur + value, q, p);
    Congruent(rest + cur - value, q, m);
  }

  lemma Congruent(a: int, p: int, q: int)
    ensures (a - p * UINT32_RANGE) % UINT32_RANGE == (a - q * UINT32_RANGE) % UINT32_RANGE
  {
  }

  lemma RegisterTotal(n: Network, i: nat, m: Network)
    requires TotalOk(n) && Possible(n, Register(i)) && m == NetworkStep(n, Register(i))
    ensures TotalOk(m)
  {
    SumWithout(n.buffers, n.registered, i, n.buffers[i], n.registered + {i});
    assert n.buffers[i := n.buffers[i]] == n.buffers;
    SumShifts(Sum(n.buffers, n.registered), n.buffers[i].cur);
    assert Sum(m.buffers, m.registered) == Sum(n.buffers, n.registered) + n.buffers[i].cur;
  }

  lemma SumShifts(sum: nat, cur: nat)
    ensures (sum % UINT32_RANGE + cur) % UINT32_RANGE == (sum + cur) % UINT32_RANGE
  {
    var q := sum / UINT32_RANGE;
    assert sum % UINT32_RANGE + cur == sum + cur - q * UINT32_RANGE;
    Congruent(sum + cur, q, 0);
  }

  lemma CallTotal(n: Network, i: nat, call: Event, c: Buffer, m: Network)
    requires TotalOk(n) && i < |n.buffers| && c == Called(n.buffers[i], call)
    requires m.buffers == n.buffers[i := c] && m.registered == n.registered
    requires m.total == if i in n.registered && FiredBy(n.buffers[i], call).Amount?
                        then Processed(n.total, FiredBy(n.buffers[i], call).value, FiredBy(n.buffers[i], call).sign)
                        else n.total
    ensures TotalOk(m)
  {
    var b, fired := n.buffers[i], FiredBy(n.buffers[i], call);
    CallFires(b, call, c);
    SumWithout(n.buffers, n.registered, i, c, n.registered);
    if i in n.registered && fired.Amount? {
      TotalShifts(Sum(n.buffers, n.registered) - b.cur, b.cur, fired.value);
    }
  }

  lemma StepTotal(n: Network, e: NetworkEvent, m: Network)
    requires TotalOk(n) && PeakOk(n) && Possible(n, e) && m == NetworkStep(n, e)
    ensures TotalOk(m) && PeakOk(m)
  {
    match e
    case Register(i) =>
      RegisterTotal(n, i, m);
      PlotKeepsPeak(n.(registered := n.registered + {i}), n.buffers[i].cur, '+');
    case Call(i, call) =>
      var c, fired := Called(n.buffers[i], call), FiredBy(n.buffers[i], call);
      CallTotal(n, i, call, c, m);
      if fired.Amount? && i in n.registered {
        PlotKeepsPeak(n.(buffers := n.buffers[i := c]), fired.value, fired.sign);
      }
  }

  predicate Run(n: Network, events: seq<NetworkEvent>)
    decreases |events|
  {
    events == [] || (Possible(n, events[0]) && Run(NetworkStep(n, events[0]), events[1..]))
  }

  function After(n: Network, events: seq<NetworkEvent>): Network
    requires Run(n, events)
    decreases |events|
  {
    if events == [] then n else After(NetworkStep(n, events[0]), events[1..])
  }

  lemma {:induction false} TotalKept(n: Network, events: seq<NetworkEvent>)
    requires TotalOk(n) && PeakOk(n) && Run(n, events)
    ensures TotalOk(After(n, events)) && PeakOk(After(n, events))
    decreases |events|
  {
    if events != [] {
      StepTotal(n, events[0], NetworkStep(n, events[0]));
      TotalKept(NetworkStep(n, events[0]), events[1..]);
    }
  }

  lemma {:induction false} NothingRegistered(buffers: seq<Buffer>)
    ensures Sum(buffers, {}) == 0
  {
    if buffers != [] {
      NothingRegistered(buffers[..|buffers| - 1]);
    }
  }

  /** Buffers, and a graph where none has been registered. */
  function Unplotted(buffers: seq<Buffer>): Network {
    Network(buffers, {}, Graph(0, 100), [])
  }

  /** Whatever is registered, stored and taken, with traces or without: the graph shows the
      sum of the levels of the registered buffers, as a uint32_t, and its peak is the highest
      value it has shown, at least 100. */
  lemma {:induction false} TotalInEveryRun(buffers: seq<Buffer>, events: seq<NetworkEvent>)
    requires forall i :: 0 <= i < |buffers| ==> Steady(buffers[i]) && buffers[i].cur < UINT32_RANGE
    requires Run(Unplotted(buffers), events)
    ensures var m := After(Unplotted(buffers), events);
            && m.total.current == Sum(m.buffers, m.registered) % UINT32_RANGE
            && (Sum(m.buffers, m.registered) < UINT32_RANGE ==> m.total.current == Sum(m.buffers, m.registered))
            && PeakOk(m)
  {
    NothingRegistered(buffers);
    TotalKept(Unplotted(buffers), events);
  }
}
