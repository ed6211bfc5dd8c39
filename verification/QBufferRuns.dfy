/**
 Runs of a QBuffer: its status, its window, its ledger.
 */
module QBufferRuns {
  import opened UInt32
  import opened QBuffers
  import opened OrderedKeys

  /** One call; tie is how the sort of that call treats equal levels. */
  datatype Event = Store(id: nat, bits: nat, fire: bool, tie: bool) | Get(id: nat, fire: bool)

  /** The level and the status right after a CheckState. */
  datatype Check = Check(level: nat, status: Status)

  /** A buffer with its history: the levels recorded at stores, and every check. */
  datatype History = History(b: Buffer, levels: seq<nat>, checks: seq<Check>)

  function CheckOf(b: Buffer): Check {
    Check(b.cur, b.status)
  }

  function Step(h: History, e: Event): History
    requires Steady(h.b)
  {
    match e
    case Store(id, bits, fire, tie) =>
      var b := Stored(h.b, id, bits, fire, tie);
      if Full(h.b, bits) || !fire then h.(b := b)
      else History(b, h.levels + [b.cur], h.checks + [CheckOf(Logged(h.b, bits, true)), CheckOf(b)])
    case Get(id, fire) =>
      var b := Taken(h.b, id, fire);
      if id !in h.b.keys || !fire then h.(b := b) else h.(b := b, checks := h.checks + [CheckOf(b)])
  }

  // ----- Status

  predicate Agrees(b: Buffer, c: Check) {
    && (c.status == READY <==> c.level >= b.thr)
    && (c.status == EMPTY <==> c.level < b.thr && c.level <= b.min)
  }

  /** The transitions that can happen. */
  predicate Follows(from: Status, to: Status) {
    && !(from == EMPTY && to == WARNING)
    && !(from == READY && to == CHARGING)
    && !(from == CHARGING && to == WARNING)
  }

  /** The status after a check, in full: below the threshold and above the minimum it
      depends on the status before and, out of WARNING only, on the rising flag. */
  lemma StatusIs(b: Buffer)
    requires b.previous == b.status
    ensures Agrees(b, CheckOf(Checked(b))) && Follows(b.status, Checked(b).status)
    ensures b.min < b.cur < b.thr ==>
              (Checked(b).status == CHARGING <==>
                b.status == EMPTY || b.status == CHARGING || (b.status == WARNING && b.rising))
  {
  }

  predicate ChecksOk(h: History) {
    && h.checks != [] && h.checks[|h.checks| - 1] == CheckOf(h.b)
    && (forall i :: 0 <= i < |h.checks| ==> Agrees(h.b, h.checks[i]))
    && (forall i :: 0 <= i < |h.checks| - 1 ==> Follows(h.checks[i].status, h.checks[i + 1].status))
  }

  // ----- Window

  function Max(levels: seq<nat>): nat
    requires levels != []
  {
    var last := levels[|levels| - 1];
    if |levels| == 1 then last
    else
      var m := Max(levels[..|levels| - 1]);
      if last >= m then last else m
  }

  lemma {:induction false} MaxIs(levels: seq<nat>)
    requires levels != []
    ensures Max(levels) in levels && forall i :: 0 <= i < |levels| ==> levels[i] <= Max(levels)
  {
    if |levels| > 1 {
      var front := levels[..|levels| - 1];
      MaxIs(front);
      forall i | 0 <= i < |levels| ensures levels[i] <= Max(levels) {
        assert i < |front| ==> levels[i] == front[i];
      }
    }
  }

  /** The head of the window is a record of the highest level so far. */
  predicate WindowOk(h: History) {
    if h.b.window == [] then h.levels == []
    else
      && h.levels != []
      && h.b.noEntry == |h.levels| % UINT32_RANGE
      && h.b.window[0].value == Max(h.levels)
      && h.b.window[0].position < |h.levels|
      && h.levels[h.b.window[0].position] == h.b.window[0].value
      && (h.b.rising <==> h.b.window[0].position == |h.levels| - 1)
  }

  // ----- Every step

  /** After the first record the period is 1, whatever the counters. */
  lemma PeriodIsOne(noEntry: nat)
    requires noEntry < UINT32_RANGE
    ensures Minus(noEntry, Minus(noEntry, 1)) == 1
    ensures Minus(Plus(noEntry, 1), 1) == noEntry
  {
  }

  function Head(b: Buffer, level: nat, tie: bool): Entry {
    if b.window == [] || level > b.window[0].value || (level == b.window[0].value && tie)
    then Entry(level, b.noEntry) else b.window[0]
  }

  lemma WindowKept(b: Buffer)
    requires Steady(b)
    ensures Kept(b.window, Minus(b.noEntry, b.noAddNewValue)) == if b.window == [] then [] else [b.window[0]]
  {
    PeriodIsOne(b.noEntry);
  }

  /** A traced store that fits, field by field. */
  predicate Charged(b: Buffer, bits: nat, tie: bool, r: Buffer) {
    && r.min == b.min && r.thr == b.thr && r.max == b.max
    && r.cur == Plus(b.cur, bits)
    && r.noEntry == Plus(b.noEntry, 1) && r.noAddNewValue == b.noEntry
    && 1 <= |r.window| <= 2 && r.window[0] == Head(b, r.cur, tie)
    && (r.rising <==> r.window[0].position == b.noEntry)
    && r.previous == r.status
    && r.status == StatusFor(Logged(b, bits, true).(rising := r.rising))
  }

  lemma StoreCharges(b: Buffer, id: nat, bits: nat, tie: bool, r: Buffer)
    requires Steady(b) && !Full(b, bits) && r == Stored(b, id, bits, true, tie)
    ensures Charged(b, bits, tie, r)
    ensures r.keys == if id in b.keys then b.keys else b.keys[id := bits]
  {
    WindowKept(b);
    var c := if id in b.keys then b else b.(keys := b.keys[id := bits]);
    var d := Logged(c, bits, true);
    assert d == Logged(b, bits, true).(keys := c.keys);
    var e := Recorded(d);
    assert Kept(e.window, e.period) == Kept(b.window, Minus(b.noEntry, b.noAddNewValue));
  }

  lemma ChargedSteady(b: Buffer, bits: nat, tie: bool, r: Buffer)
    requires Steady(b) && Charged(b, bits, tie, r)
    ensures Steady(r)
  {
    PeriodIsOne(b.noEntry);
  }

  lemma StepSteady(h: History, e: Event)
    requires Steady(h.b)
    ensures Steady(Step(h, e).b)
    ensures Step(h, e).b.min == h.b.min && Step(h, e).b.thr == h.b.thr && Step(h, e).b.max == h.b.max
  {
    if e.Store? && e.fire && !Full(h.b, e.bits) {
      StoreCharges(h.b, e.id, e.bits, e.tie, Step(h, e).b);
      ChargedSteady(h.b, e.bits, e.tie, Step(h, e).b);
    }
  }

  lemma ChecksAppend(h: History, b: Buffer, g: History)
    requires ChecksOk(h) && b.min == h.b.min && b.thr == h.b.thr
    requires Agrees(b, CheckOf(b)) && Follows(h.b.status, b.status)
    requires g == h.(b := b, checks := h.checks + [CheckOf(b)])
    ensures ChecksOk(g)
  {
    forall i | 0 <= i < |g.checks| - 1 ensures Follows(g.checks[i].status, g.checks[i + 1].status) {
      if i < |h.checks| - 1 {
        assert Follows(h.checks[i].status, h.checks[i + 1].status);
      }
    }
    forall i | 0 <= i < |g.checks| ensures Agrees(g.b, g.checks[i]) {
      assert i < |h.checks| ==> Agrees(h.b, h.checks[i]);
    }
  }

  lemma StoreChecks(h: History, bits: nat, tie: bool, r: Buffer, g: History)
    requires Steady(h.b) && ChecksOk(h) && Charged(h.b, bits, tie, r)
    requires g.b == r && g.checks == h.checks + [CheckOf(Logged(h.b, bits, true)), CheckOf(r)]
    ensures ChecksOk(g)
  {
    var d := Logged(h.b, bits, true);
    StatusIs(h.b.(cur := d.cur));
    var h1 := h.(b := d, checks := h.checks + [CheckOf(d)]);
    ChecksAppend(h, d, h1);
    StatusIs(d.(rising := r.rising));
    assert g.checks == h1.checks + [CheckOf(r)];
    ChecksAppend(h1, r, h1.(b := r, checks := g.checks));
  }

  lemma StepChecks(h: History, e: Event)
    requires Steady(h.b) && ChecksOk(h)
    ensures ChecksOk(Step(h, e))
  {
    var g := Step(h, e);
    match e
    case Store(id, bits, fire, tie) =>
      if !Full(h.b, bits) && fire {
        StoreCharges(h.b, id, bits, tie, g.b);
        StoreChecks(h, bits, tie, g.b, g);
      }
    case Get(id, fire) =>
      if id in h.b.keys && fire {
        StatusIs(h.b.(keys := h.b.keys - {id}, cur := Minus(h.b.cur, h.b.keys[id])));
        ChecksAppend(h, g.b, h.(b := g.b, checks := h.checks + [CheckOf(g.b)]));
      }
  }

  lemma StoreWindow(h: History, bits: nat, tie: bool, r: Buffer, g: History)
    requires Steady(h.b) && WindowOk(h) && |h.levels| < UINT32_RANGE
    requires Charged(h.b, bits, tie, r) && g.b == r && g.levels == h.levels + [r.cur]
    ensures WindowOk(g)
  {
    assert g.levels[..|g.levels| - 1] == h.levels;
    if h.levels != [] {
      assert Max(g.levels) == if r.cur >= Max(h.levels) then r.cur else Max(h.levels);
      assert h.b.noEntry == |h.levels|;
    }
  }

  lemma StepWindow(h: History, e: Event)
    requires Steady(h.b) && WindowOk(h) && |h.levels| < UINT32_RANGE
    ensures WindowOk(Step(h, e))
  {
    var g := Step(h, e);
    if e.Store? && e.fire && !Full(h.b, e.bits) {
      StoreCharges(h.b, e.id, e.bits, e.tie, g.b);
      StoreWindow(h, e.bits, e.tie, g.b, g);
    }
  }

  // ----- Runs

  function Start(min: nat, thr: nat, max: nat, cur: nat, rising: bool, status: Status): (h: History)
    ensures Steady(h.b)
  {
    var b := Initial(min, thr, max, cur, rising, status);
    History(b, [], [CheckOf(b)])
  }

  predicate Good(h: History) {
    Steady(h.b) && ChecksOk(h) && (|h.levels| <= UINT32_RANGE ==> WindowOk(h))
  }

  lemma StepGood(h: History, e: Event)
    requires Good(h)
    ensures Good(Step(h, e))
  {
    StepSteady(h, e);
    StepChecks(h, e);
    if |Step(h, e).levels| <= UINT32_RANGE {
      assert |h.levels| <= |Step(h, e).levels|;
      if |h.levels| < UINT32_RANGE {
        StepWindow(h, e);
      }
    }
  }

  function Run(h: History, events: seq<Event>): (g: History)
    requires Steady(h.b)
    ensures Steady(g.b)
  {
    if events == [] then h
    else
      var before := Run(h, events[..|events| - 1]);
      StepSteady(before, events[|events| - 1]);
      Step(before, events[|events| - 1])
  }

  lemma {:induction false} RunGood(h: History, events: seq<Event>)
    requires Good(h)
    ensures Good(Run(h, events))
  {
    if events != [] {
      RunGood(h, events[..|events| - 1]);
      StepGood(Run(h, events[..|events| - 1]), events[|events| - 1]);
    }
  }

  lemma StartGood(min: nat, thr: nat, max: nat, cur: nat, rising: bool, status: Status)
    ensures Good(Start(min, thr, max, cur, rising, status))
    ensures Start(min, thr, max, cur, rising, status).b.status == Start(min, thr, max, cur, !rising, status).b.status
  {
  }

  // ----- What holds in every run

  /** The head of the window is the highest level ever recorded at a store, so that the
      rising flag means: the latest record is a new high (with equal levels the sort
      decides).  The record counter is good for 2^32 records. */
  lemma {:induction false} RisingMeansNewHigh(h: History, events: seq<Event>, g: History)
    requires Good(h) && g == Run(h, events) && g.levels != [] && |g.levels| <= UINT32_RANGE
    ensures 1 <= |g.b.window| <= 2 && g.b.window[0].value == Max(g.levels)
    ensures g.b.rising ==> forall i :: 0 <= i < |g.levels| ==> g.levels[i] <= g.levels[|g.levels| - 1]
    ensures (forall i :: 0 <= i < |g.levels| - 1 ==> g.levels[i] < g.levels[|g.levels| - 1]) ==> g.b.rising
  {
    RunGood(h, events);
    MaxIs(g.levels);
  }

  /** At every check, from Init on and whatever the rising flag held then: READY exactly
      from the threshold up, EMPTY exactly at the minimum and below it, and no
      transition but the permitted ones. */
  lemma {:induction false} StatusInEveryRun(min: nat, thr: nat, max: nat, cur: nat, rising: bool, status: Status,
                         events: seq<Event>, g: History)
    requires min < thr && g == Run(Start(min, thr, max, cur, rising, status), events)
    ensures forall i :: 0 <= i < |g.checks| ==>
              (g.checks[i].status == READY <==> g.checks[i].level >= thr)
              && (g.checks[i].status == EMPTY <==> g.checks[i].level <= min)
    ensures forall i :: 0 <= i < |g.checks| - 1 ==> Follows(g.checks[i].status, g.checks[i + 1].status)
  {
    StartGood(min, thr, max, cur, rising, status);
    RunGood(Start(min, thr, max, cur, rising, status), events);
    RunKeepsSettings(Start(min, thr, max, cur, rising, status), events);
    forall i | 0 <= i < |g.checks|
      ensures (g.checks[i].status == READY <==> g.checks[i].level >= thr)
              && (g.checks[i].status == EMPTY <==> g.checks[i].level <= min)
    {
      assert Agrees(g.b, g.checks[i]);
    }
  }

  lemma {:induction false} RunKeepsSettings(h: History, events: seq<Event>)
    requires Steady(h.b)
    ensures Run(h, events).b.min == h.b.min && Run(h, events).b.thr == h.b.thr && Run(h, events).b.max == h.b.max
  {
    if events != [] {
      RunKeepsSettings(h, events[..|events| - 1]);
      StepSteady(Run(h, events[..|events| - 1]), events[|events| - 1]);
    }
  }

  /** A charging buffer is charging until it is ready or empty. */
  lemma {:induction false} ChargingLasts(h: History, i: nat, j: nat)
    requires ChecksOk(h) && i <= j < |h.checks| && h.checks[i].status == CHARGING
    requires forall k :: i <= k <= j ==> h.checks[k].status != READY && h.checks[k].status != EMPTY
    ensures h.checks[j].status == CHARGING
    decreases j - i
  {
    if i < j {
      ChargingLasts(h, i, j - 1);
      assert Follows(h.checks[j - 1].status, h.checks[j - 1 + 1].status);
    }
  }

  lemma {:induction false} RunOneMore(h: History, events: seq<Event>, e: Event)
    requires Steady(h.b)
    ensures Run(h, events + [e]) == Step(Run(h, events), e)
  {
    assert (events + [e])[..|events|] == events;
  }

  /** A traced store that takes the level to a new high at or above the threshold. */
  lemma StoreToNewHigh(b: Buffer, id: nat, bits: nat, r: Buffer)
    requires Steady(b) && id !in b.keys && b.thr <= b.cur + bits <= b.max < UINT32_RANGE
    requires b.window != [] ==> b.window[0].value < b.cur + bits
    requires r == Stored(b, id, bits, true, true)
    ensures Steady(r) && r.min == b.min && r.thr == b.thr && r.max == b.max
    ensures r.cur == b.cur + bits && r.keys == b.keys[id := bits] && r.status == READY && r.rising
    ensures r.window != [] && r.window[0].value == r.cur
  {
    StoreCharges(b, id, bits, true, r);
    ChargedSteady(b, bits, true, r);
  }

  /** A new buffer, empty. */
  function Fresh(): History {
    Start(10, 100, 1000, 0, false, READY)
  }

  function OneStore(): seq<Event> { [Store(1, 150, true, true)] }

  function TwoStores(): seq<Event> { OneStore() + [Store(2, 30, true, true)] }

  function ThreeStores(): seq<Event> { TwoStores() + [Store(3, 30, true, true)] }

  predicate Risen(b: Buffer, cur: nat, keys: map<nat, nat>) {
    && Steady(b) && b.min == 10 && b.thr == 100 && b.max == 1000
    && b.cur == cur && b.keys == keys && b.status == READY && b.rising
    && b.window != [] && b.window[0].value == cur
  }

  lemma {:induction false} OneMoreStore(events: seq<Event>, cur: nat, keys: map<nat, nat>, id: nat, bits: nat)
    requires Risen(Run(Fresh(), events).b, cur, keys)
    requires id !in keys && 0 < bits && 100 <= cur + bits <= 1000
    ensures Risen(Run(Fresh(), events + [Store(id, bits, true, true)]).b, cur + bits, keys[id := bits])
  {
    var b, r := Run(Fresh(), events).b, Run(Fresh(), events + [Store(id, bits, true, true)]).b;
    LastStore(events, id, bits, b, r);
    StoreToNewHigh(b, id, bits, r);
  }

  lemma {:induction false} LastStore(events: seq<Event>, id: nat, bits: nat, b: Buffer, r: Buffer)
    requires b == Run(Fresh(), events).b && r == Run(Fresh(), events + [Store(id, bits, true, true)]).b
    ensures Steady(b) && r == Stored(b, id, bits, true, true)
  {
    RunOneMore(Fresh(), events, Store(id, bits, true, true));
  }

  lemma AfterOneStore()
    ensures Risen(Run(Fresh(), OneStore()).b, 150, map[1 := 150])
  {
    var b := Run(Fresh(), []).b;
    assert [] + OneStore() == OneStore();
    RunOneMore(Fresh(), [], Store(1, 150, true, true));
    StoreToNewHigh(b, 1, 150, Stored(b, 1, 150, true, true));
  }

  lemma AfterThreeStores()
    ensures Risen(Run(Fresh(), ThreeStores()).b, 210, map[1 := 150][2 := 30][3 := 30])
  {
    AfterOneStore();
    OneMoreStore(OneStore(), 150, map[1 := 150], 2, 30);
    OneMoreStore(TwoStores(), 180, map[1 := 150][2 := 30], 3, 30);
  }

  /** A traced get that leaves the level between minimum and threshold. */
  lemma GetToMiddle(b: Buffer, id: nat, bits: nat, r: Buffer)
    requires id in b.keys && b.keys[id] == bits && b.previous == b.status && b.cur < UINT32_RANGE
    requires b.min < b.cur - bits < b.thr && r == Taken(b, id, true)
    ensures r.cur == b.cur - bits && r.keys == b.keys - {id} && r.min == b.min && r.thr == b.thr
    ensures r.rising == b.rising && r.previous == r.status
    ensures b.status == READY ==> r.status == WARNING
    ensures b.status == WARNING && b.rising ==> r.status == CHARGING
  {
  }

  /** CHARGING is documented as a rising level.  Three stores and two gets, and the
      buffer turns from WARNING to CHARGING while its level falls. */
  lemma ChargingWhileFalling(g: History, f: History)
    requires g == Run(Fresh(), ThreeStores() + [Get(1, true)])
    requires f == Run(Fresh(), ThreeStores() + [Get(1, true)] + [Get(2, true)])
    ensures g.b.cur == 60 && g.b.status == WARNING
    ensures f.b.cur == 30 && f.b.status == CHARGING
  {
    AfterThreeStores();
    OneMoreGet(ThreeStores(), Get(1, true), Run(Fresh(), ThreeStores()).b, g);
    OneMoreGet(ThreeStores() + [Get(1, true)], Get(2, true), g.b, f);
    GetToMiddle(Run(Fresh(), ThreeStores()).b, 1, 150, g.b);
    GetToMiddle(g.b, 2, 30, f.b);
  }

  lemma {:induction false} OneMoreGet(events: seq<Event>, e: Event, b: Buffer, g: History)
    requires e.Get? && b == Run(Fresh(), events).b && g == Run(Fresh(), events + [e])
    ensures g.b == Taken(b, e.id, e.fire)
  {
    RunOneMore(Fresh(), events, e);
  }

  // ----- WARNING and CHARGING against the direction of the level

  /** A traced get that lands between minimum and threshold lowers the level; CHARGING it
      is all the same exactly if the buffer was charging or empty, or was in WARNING with
      the rising flag set. */
  lemma GetChargesIff(b: Buffer, id: nat, r: Buffer)
    requires id in b.keys && b.keys[id] <= b.cur < UINT32_RANGE && b.previous == b.status
    requires r == Taken(b, id, true) && b.min < r.cur < b.thr
    ensures r.cur <= b.cur
    ensures r.status == CHARGING <==>
              b.status == CHARGING || b.status == EMPTY || (b.status == WARNING && b.rising)
    ensures r.status != CHARGING ==> r.status == WARNING
  {
    StatusIs(b.(keys := b.keys - {id}, cur := r.cur));
  }

  /** A traced store that lands there raises the level; WARNING it is all the same exactly
      if it was WARNING before, and neither the record before nor this one was a new high. */
  lemma StoreWarnsIff(b: Buffer, id: nat, bits: nat, tie: bool, r: Buffer)
    requires Steady(b) && Agrees(b, CheckOf(b)) && !Full(b, bits) && b.cur + bits < UINT32_RANGE
    requires r == Stored(b, id, bits, true, tie) && b.min < r.cur < b.thr
    ensures r.cur == b.cur + bits
    ensures r.status == WARNING <==> b.status == WARNING && !b.rising && !r.rising
    ensures r.status != WARNING ==> r.status == CHARGING
  {
    StoreCharges(b, id, bits, tie, r);
    var d := Logged(b, bits, true);
    StatusIs(b.(cur := d.cur));
    StatusIs(d.(rising := r.rising));
  }

  lemma PeriodIs(b: Buffer, d: Buffer)
    requires Steady(b) && d.window == b.window && d.noEntry == b.noEntry && d.noAddNewValue == b.noAddNewValue
    ensures var r := Recorded(d);
            && r.period == (if b.window == [] then 0 else 1) && r.noAddNewValue == b.noEntry
            && Kept(r.window, r.period) == if b.window == [] then [] else [b.window[0]]
  {
    if b.window == [] {
      assert Minus(0, 0) == 0;
    } else {
      assert Minus(b.noEntry, Minus(b.noEntry, 1)) == 1;
    }
  }

  /** What a traced store records: of the older entries only the highest is kept, the new
      level joins it under the number of the record, and the period is 1 but for the first. */
  lemma StoreRecords(b: Buffer, id: nat, bits: nat, tie: bool, c: Buffer)
    requires Steady(b) && !Full(b, bits) && c == Stored(b, id, bits, true, tie)
    ensures c.cur == (b.cur + bits) % 0x1_0000_0000
    ensures multiset(c.window) ==
            multiset{Entry(c.cur, b.noEntry)} + if b.window == [] then multiset{} else multiset{b.window[0]}
    ensures c.period == (if b.window == [] then 0 else 1) && c.noAddNewValue == b.noEntry
    ensures c.noEntry == (b.noEntry + 1) % 0x1_0000_0000
    ensures c.rising <==> c.window[0].position == b.noEntry
  {
    var d := Logged(if id in b.keys then b else b.(keys := b.keys[id := bits]), bits, true);
    PeriodIs(b, d);
    WindowIs(Recorded(d), tie, c);
    FieldsAre(Recorded(d), tie, c);
  }

  lemma FieldsAre(b: Buffer, tie: bool, c: Buffer)
    requires |Kept(b.window, b.period)| <= 1 && c == Calculated(b, tie)
    ensures c.cur == b.cur && c.period == b.period && c.noAddNewValue == b.noAddNewValue
    ensures c.noEntry == Plus(b.noEntry, 1)
  {
  }

  lemma WindowIs(b: Buffer, tie: bool, c: Buffer)
    requires |Kept(b.window, b.period)| <= 1 && c == Calculated(b, tie)
    ensures multiset(c.window) == multiset{Entry(b.cur, b.noEntry)} + multiset(Kept(b.window, b.period))
    ensures c.rising <==> c.window[0].position == b.noEntry
  {
    var q, kept := Entry(b.cur, b.noEntry), Kept(b.window, b.period);
    if kept != [] {
      assert kept == [kept[0]];
    }
  }

  /** In terms of the recorded levels: a store into WARNING is below or at a level that was
      recorded earlier, and a level above all earlier ones is never WARNING. */
  lemma WarningIsNoNewHigh(h: History, id: nat, bits: nat, tie: bool, g: History)
    requires Good(h) && |h.levels| < UINT32_RANGE && !Full(h.b, bits) && h.b.cur + bits < UINT32_RANGE
    requires g == Step(h, Store(id, bits, true, tie)) && h.b.min < g.b.cur < h.b.thr
    ensures g.b.status == WARNING ==> exists i :: 0 <= i < |h.levels| && h.levels[i] >= g.b.cur
  {
    StoreWarnsIff(h.b, id, bits, tie, g.b);
    StepGood(h, Store(id, bits, true, tie));
    if g.b.status == WARNING {
      assert g.b.window[0].position != |g.levels| - 1;
      MaxIs(g.levels);
      assert g.levels[g.b.window[0].position] >= g.b.cur;
    }
  }

  /** A buffer below a record of 250, after n records. */
  predicate Below(b: Buffer, cur: nat, keys: map<nat, nat>, status: Status, rising: bool, n: nat) {
    && Steady(b) && b.min == 10 && b.thr == 100 && b.max == 1000
    && b.cur == cur && b.keys == keys && b.status == status && b.rising == rising
    && b.noEntry == n && b.window != [] && b.window[0].value == 250 && b.window[0].position < n
  }

  /** A store that stays below the highest record leaves READY and (not rising) WARNING. */
  lemma StoreBelowHigh(b: Buffer, cur: nat, keys: map<nat, nat>, status: Status, rising: bool, n: nat, id: nat,
                       r: Buffer)
    requires Below(b, cur, keys, status, rising, n) && id !in keys && n < 50
    requires (status == READY && 100 <= cur < 200) || (status == WARNING && !rising && 10 < cur < 80)
    requires r == Stored(b, id, 10, true, true)
    ensures Below(r, cur + 10, keys[id := 10], status, false, n + 1)
  {
    StoreCharges(b, id, 10, true, r);
    ChargedSteady(b, 10, true, r);
  }

  lemma GetBelowHigh(b: Buffer, cur: nat, keys: map<nat, nat>, rising: bool, n: nat, id: nat, r: Buffer)
    requires Below(b, cur, keys, READY, rising, n) && id in keys && keys[id] == 100 && 110 < cur < 1000
    requires r == Taken(b, id, true)
    ensures Below(r, cur - 100, keys - {id}, if cur - 100 >= 100 then READY else WARNING, rising, n)
  {
  }

  function HighStores(): seq<Event> {
    [Store(1, 100, true, true)] + [Store(2, 100, true, true)] + [Store(3, 50, true, true)]
  }

  lemma AfterHighStores() returns (n: nat)
    ensures n <= 3 && Below(Run(Fresh(), HighStores()).b, 250, map[1 := 100][2 := 100][3 := 50], READY, true, n)
  {
    FirstHighStore();
    OneMoreStore([Store(1, 100, true, true)], 100, map[1 := 100], 2, 100);
    OneMoreStore([Store(1, 100, true, true)] + [Store(2, 100, true, true)], 200, map[1 := 100][2 := 100], 3, 50);
    StartGood(10, 100, 1000, 0, false, READY);
    RunGood(Fresh(), HighStores());
    LevelsOf(Fresh(), HighStores());
    n := RecordsOf(Run(Fresh(), HighStores()));
  }

  lemma RecordsOf(h: History) returns (k: nat)
    requires Good(h) && h.b.window != [] && |h.levels| <= 3
    ensures k <= 3 && h.b.noEntry == k && h.b.window[0].position < k
  {
    k := |h.levels|;
  }

  lemma FirstHighStore()
    ensures Risen(Run(Fresh(), [Store(1, 100, true, true)]).b, 100, map[1 := 100])
  {
    var none := Run(Fresh(), []).b;
    assert [] + [Store(1, 100, true, true)] == [Store(1, 100, true, true)];
    RunOneMore(Fresh(), [], Store(1, 100, true, true));
    StoreToNewHigh(none, 1, 100, Stored(none, 1, 100, true, true));
  }

  lemma {:induction false} LevelsOf(h: History, events: seq<Event>)
    requires Steady(h.b)
    ensures |Run(h, events).levels| <= |h.levels| + |events|
  {
    if events != [] {
      LevelsOf(h, events[..|events| - 1]);
    }
  }

  function OneGet(): seq<Event> { HighStores() + [Get(1, true)] }

  function StoreAfter(): seq<Event> { OneGet() + [Store(4, 10, true, true)] }

  function UpAndDown(): seq<Event> { StoreAfter() + [Get(2, true)] }

  lemma {:induction false} LastGet(events: seq<Event>, id: nat, b: Buffer, r: Buffer)
    requires b == Run(Fresh(), events).b && r == Run(Fresh(), events + [Get(id, true)]).b
    ensures r == Taken(b, id, true)
  {
    RunOneMore(Fresh(), events, Get(id, true));
  }

  lemma {:induction false} ThenGet(events: seq<Event>, cur: nat, keys: map<nat, nat>, rising: bool, n: nat, id: nat)
    requires Below(Run(Fresh(), events).b, cur, keys, READY, rising, n)
    requires id in keys && keys[id] == 100 && 110 < cur < 1000
    ensures Below(Run(Fresh(), events + [Get(id, true)]).b, cur - 100, keys - {id},
                  if cur - 100 >= 100 then READY else WARNING, rising, n)
  {
    var b, r := Run(Fresh(), events).b, Run(Fresh(), events + [Get(id, true)]).b;
    LastGet(events, id, b, r);
    GetBelowHigh(b, cur, keys, rising, n, id, r);
  }

  lemma {:induction false} ThenStore(events: seq<Event>, cur: nat, keys: map<nat, nat>, status: Status, rising: bool,
                                     n: nat, id: nat)
    requires Below(Run(Fresh(), events).b, cur, keys, status, rising, n) && id !in keys && n < 50
    requires (status == READY && 100 <= cur < 200) || (status == WARNING && !rising && 10 < cur < 80)
    ensures Below(Run(Fresh(), events + [Store(id, 10, true, true)]).b, cur + 10, keys[id := 10], status, false, n + 1)
  {
    var b, r := Run(Fresh(), events).b, Run(Fresh(), events + [Store(id, 10, true, true)]).b;
    LastStore(events, id, 10, b, r);
    StoreBelowHigh(b, cur, keys, status, rising, n, id, r);
  }

  lemma FromHighStores(keys: map<nat, nat>, n: nat)
    requires Below(Run(Fresh(), HighStores()).b, 250, keys, READY, true, n) && n < 49
    requires 1 in keys && keys[1] == 100 && 2 in keys && keys[2] == 100 && 4 !in keys
    ensures Below(Run(Fresh(), UpAndDown()).b, 60, (keys - {1})[4 := 10] - {2}, WARNING, false, n + 1)
  {
    ThenGet(HighStores(), 250, keys, true, n, 1);
    ThenStore(OneGet(), 150, keys - {1}, READY, true, n, 4);
    ThenGet(StoreAfter(), 160, (keys - {1})[4 := 10], false, n + 1, 2);
  }


  lemma HighKeys() returns (n: nat, keys: map<nat, nat>)
    ensures Below(Run(Fresh(), HighStores()).b, 250, keys, READY, true, n) && n <= 3
    ensures 1 in keys && keys[1] == 100 && 2 in keys && keys[2] == 100 && 4 !in keys && 5 !in keys
  {
    n := AfterHighStores();
    keys := HighStored();
  }

  lemma HighStored() returns (keys: map<nat, nat>)
    ensures keys == map[1 := 100][2 := 100][3 := 50]
    ensures 1 in keys && keys[1] == 100 && 2 in keys && keys[2] == 100 && 4 !in keys && 5 !in keys
  {
    keys := map[1 := 100][2 := 100][3 := 50];
  }

  lemma ThreeKeys(keys: map<nat, nat>, n: nat)
    requires Below(Run(Fresh(), HighStores()).b, 250, keys, READY, true, n) && n <= 3
    requires 1 in keys && keys[1] == 100 && 2 in keys && keys[2] == 100 && 4 !in keys && 5 !in keys
    ensures var b := Run(Fresh(), UpAndDown()).b; b.cur == 60 && b.status == WARNING
    ensures var b := Run(Fresh(), UpAndDown() + [Store(5, 10, true, true)]).b; b.cur == 70 && b.status == WARNING
  {
    FromHighStores(keys, n);
    ThenStore(UpAndDown(), 60, (keys - {1})[4 := 10] - {2}, WARNING, false, n + 1, 5);
  }

  /** WARNING is documented as a falling level.  After a high of 250 and two gets the
      buffer is in WARNING, and stays there while a store raises its level. */
  lemma WarningWhileRising(g: History, f: History)
    requires g == Run(Fresh(), UpAndDown()) && f == Run(Fresh(), UpAndDown() + [Store(5, 10, true, true)])
    ensures g.b.cur == 60 && g.b.status == WARNING
    ensures f.b.cur == 70 && f.b.status == WARNING
  {
    var n, keys := HighKeys();
    ThreeKeys(keys, n);
  }

  // ----- The ledger

  /** The bits of all keys in the buffer. */
  function Bits(keys: map<nat, nat>): nat
    decreases keys.Keys
  {
    if keys == map[] then 0 else keys[Least(keys.Keys)] + Bits(keys - {Least(keys.Keys)})
  }

  lemma {:induction false} BitsWithout(keys: map<nat, nat>, id: nat)
    requires id in keys
    ensures Bits(keys) == keys[id] + Bits(keys - {id})
    decreases keys.Keys
  {
    var first := Least(keys.Keys);
    if id != first {
      var rest := keys - {id};
      assert first in rest && Least(rest.Keys) == first;
      BitsWithout(keys - {first}, id);
      assert rest - {first} == keys - {first} - {id};
    }
  }

  lemma BitsWith(keys: map<nat, nat>, id: nat, bits: nat)
    requires id !in keys
    ensures Bits(keys[id := bits]) == Bits(keys) + bits
  {
    BitsWithout(keys[id := bits], id);
    assert keys[id := bits] - {id} == keys;
  }

  /** The level is the initial amount and the bits of the keys, as a uint32_t. */
  predicate Balanced(b: Buffer, initial: nat) {
    b.cur == Plus(initial, Bits(b.keys))
  }

  /** A store keeps the ledger exactly if it is refused, or fires its traces just when
      the key is new, or carries nothing (a multiple of 2^32 bits). */
  lemma StoreBalancesIff(b: Buffer, initial: nat, id: nat, bits: nat, fire: bool, tie: bool)
    requires Steady(b) && Balanced(b, initial)
    ensures Balanced(Stored(b, id, bits, fire, tie), initial) <==>
              Full(b, bits) || (fire <==> id !in b.keys) || bits % UINT32_RANGE == 0
  {
    if !Full(b, bits) {
      if id !in b.keys {
        BitsWith(b.keys, id, bits);
      }
      if fire {
        StoreCharges(b, id, bits, tie, Stored(b, id, bits, fire, tie));
      }
      SumShifts(initial + Bits(b.keys), bits);
    }
  }

  lemma SumShifts(a: nat, bits: nat)
    ensures Plus(a % UINT32_RANGE, bits) == Plus(a, bits)
    ensures Plus(a, bits) == a % UINT32_RANGE <==> bits % UINT32_RANGE == 0
  {
    var q := a / UINT32_RANGE;
    assert a == q * UINT32_RANGE + a % UINT32_RANGE;
  }

  /** A get keeps it exactly if there is no such key, or it fires its traces, or the key
      carries nothing. */
  lemma GetBalancesIff(b: Buffer, initial: nat, id: nat, fire: bool)
    requires Balanced(b, initial)
    ensures Balanced(Taken(b, id, fire), initial) <==>
              id !in b.keys || fire || b.keys[id] % UINT32_RANGE == 0
  {
    if id in b.keys {
      BitsWithout(b.keys, id);
      var rest, bits := initial + Bits(b.keys - {id}), b.keys[id];
      SumShifts(rest, bits);
      SumUnshifts(rest, bits);
    }
  }

  lemma SumUnshifts(a: nat, bits: nat)
    ensures Minus((a + bits) % UINT32_RANGE, bits) == a % UINT32_RANGE
  {
    var q := (a + bits) / UINT32_RANGE;
    assert (a + bits) % UINT32_RANGE - bits == a - q * UINT32_RANGE;
  }

  /** Calls that keep the books: a key that does not fit, or a new one with its traces
      fired and of a size that cannot wrap the counter; a get that fires its traces. */
  predicate Proper(b: Buffer, e: Event) {
    match e
    case Store(id, bits, fire, _) => bits + b.max < UINT32_RANGE && (Full(b, bits) || (fire && id !in b.keys))
    case Get(id, fire) => fire || id !in b.keys
  }

  predicate ProperRun(h: History, events: seq<Event>)
    requires Steady(h.b)
  {
    events == []
    || (ProperRun(h, events[..|events| - 1]) && Proper(Run(h, events[..|events| - 1]).b, events[|events| - 1]))
  }

  /** Without any wrapping: the level is the initial amount and the bits of the keys, and
      does not exceed the maximum. */
  predicate Exact(b: Buffer, initial: nat) {
    b.cur == initial + Bits(b.keys) && b.cur <= b.max < UINT32_RANGE
  }

  lemma StoreExact(b: Buffer, initial: nat, id: nat, bits: nat, tie: bool, r: Buffer)
    requires Steady(b) && Exact(b, initial) && id !in b.keys && !Full(b, bits) && bits + b.max < UINT32_RANGE
    requires r == Stored(b, id, bits, true, tie)
    ensures Exact(r, initial)
  {
    BitsWith(b.keys, id, bits);
    StoreCharges(b, id, bits, tie, r);
  }

  lemma GetExact(b: Buffer, initial: nat, id: nat, r: Buffer)
    requires Exact(b, initial) && id in b.keys && r == Taken(b, id, true)
    ensures Exact(r, initial)
  {
    BitsWithout(b.keys, id);
  }

  lemma StepExact(h: History, initial: nat, e: Event)
    requires Steady(h.b) && Exact(h.b, initial) && Proper(h.b, e)
    ensures Exact(Step(h, e).b, initial)
  {
    match e
    case Store(id, bits, fire, tie) =>
      if !Full(h.b, bits) {
        StoreExact(h.b, initial, id, bits, tie, Stored(h.b, id, bits, true, tie));
      }
    case Get(id, fire) =>
      if id in h.b.keys {
        GetExact(h.b, initial, id, Taken(h.b, id, true));
      }
  }

  lemma {:induction false} LedgerKept(h: History, initial: nat, events: seq<Event>)
    requires Steady(h.b) && Exact(h.b, initial) && ProperRun(h, events)
    ensures Exact(Run(h, events).b, initial)
  {
    if events != [] {
      LedgerKept(h, initial, events[..|events| - 1]);
      StepExact(Run(h, events[..|events| - 1]), initial, events[|events| - 1]);
    }
  }

  /** From Init on, in every run of such calls. */
  lemma {:induction false} LedgerInEveryRun(min: nat, thr: nat, max: nat, cur: nat, rising: bool, status: Status,
                         events: seq<Event>, h: History)
    requires cur <= max < UINT32_RANGE && h == Start(min, thr, max, cur, rising, status)
    requires ProperRun(h, events)
    ensures Run(h, events).b.cur == cur + Bits(Run(h, events).b.keys) <= max
  {
    assert Exact(h.b, cur);
    LedgerKept(h, cur, events);
    RunKeepsSettings(h, events);
  }

  /** The guard of StoreKey wraps: a key that does not fit is taken exactly if the sum
      passes 2^32 and ends up at the maximum or below it.  Its bits then lower the level. */
  lemma TooLargeKeyTakenIff(b: Buffer, id: nat, bits: nat, tie: bool)
    requires Steady(b) && b.cur < UINT32_RANGE && bits < UINT32_RANGE && b.cur + bits > b.max
    ensures !Full(b, bits) <==> UINT32_RANGE <= b.cur + bits <= UINT32_RANGE + b.max
    ensures !Full(b, bits) ==> Stored(b, id, bits, true, tie).cur < b.cur
  {
    if !Full(b, bits) {
      StoreCharges(b, id, bits, tie, Stored(b, id, bits, true, tie));
    }
  }
}
