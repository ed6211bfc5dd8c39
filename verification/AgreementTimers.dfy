/**
 The timers of a QKDApp014 master.  Module Agreement014 lets it send and look after its
 stores at any time; here it does so when a timer of its own fires or its request for the
 status is answered.
 */
module AgreementTimers {
  import opened App014
  import opened Agreement014
  import opened AgreementSteps
  import opened AgreementRuns

  /** The pair, and what the master has pending: the next SendDataPacket, the next
      ManageStores, the answer to its request for the status. */
  datatype Timed = Timed(s: System, send: bool, manage: bool, status: bool)

  datatype Tick = SendFires | ManageFires | StatusAnswered | Other(e: Event)

  /** SendDataPacket is called at the start; the status is asked for if keys are needed. */
  function Begin(c: Config): Timed {
    Timed(Initial(c), true, false, NeedsKeys(c))
  }

  predicate Due(t: Timed, tick: Tick) {
    match tick
    case SendFires => t.send && Live(t.s.master)
    case ManageFires => t.manage && Live(t.s.master)
    case StatusAnswered => t.status && Live(t.s.master)
    case Other(e) => e != Manage && e != Transmit && Enabled(t.s, e)
  }

  /** The event of the pair behind a tick. */
  function EventOf(tick: Tick): Event {
    match tick
    case SendFires => Transmit
    case ManageFires => Manage
    case StatusAnswered => Manage
    case Other(e) => e
  }

  /** SendDataPacket schedules itself again, and ManageStores when it has to wait; a denied
      request schedules ManageStores; stopping cancels the next SendDataPacket. */
  function Ticked(c: Config, t: Timed, tick: Tick): Timed
    requires Due(t, tick)
  {
    var s := Next(c, t.s, EventOf(tick));
    match tick
    case SendFires => Timed(s, t.s.master.state == READY || t.s.master.state == WAIT,
                            t.manage || t.s.master.state == WAIT, t.status)
    case ManageFires => Timed(s, t.send, false, t.status)
    case StatusAnswered => Timed(s, t.send, t.manage, false)
    case Other(e) => Timed(s, t.send && e != StopMaster, t.manage || e == Deny, t.status)
  }

  predicate TimedRun(c: Config, t: Timed, ticks: seq<Tick>)
    decreases |ticks|
  {
    ticks == [] || (Due(t, ticks[0]) && TimedRun(c, Ticked(c, t, ticks[0]), ticks[1..]))
  }

  function AfterAll(c: Config, t: Timed, ticks: seq<Tick>): Timed
    requires TimedRun(c, t, ticks)
    decreases |ticks|
  {
    if ticks == [] then t else AfterAll(c, Ticked(c, t, ticks[0]), ticks[1..])
  }

  /** A run with timers is a run of the pair: everything that holds in those holds here. */
  lemma {:induction false} TimedRunIsRun(c: Config, t: Timed, ticks: seq<Tick>) returns (events: seq<Event>)
    requires TimedRun(c, t, ticks)
    ensures Run(c, t.s, events) && After(c, t.s, events) == AfterAll(c, t, ticks).s
    decreases |ticks|
  {
    if ticks == [] {
      events := [];
    } else {
      var rest := TimedRunIsRun(c, Ticked(c, t, ticks[0]), ticks[1..]);
      events := [EventOf(ticks[0])] + rest;
      assert events[1..] == rest;
    }
  }

  /** A master that has not stopped has its next SendDataPacket pending. */
  ghost predicate Ticking(c: Config, t: Timed) {
    Inv(c, t.s) && (Live(t.s.master) ==> t.send)
  }

  lemma StepTicks(c: Config, t: Timed, tick: Tick)
    requires !Keyless(c) && Ticking(c, t) && Due(t, tick)
    ensures Ticking(c, Ticked(c, t, tick))
  {
    StepKeeps(c, t.s, EventOf(tick));
  }

  lemma {:induction false} RunTicks(c: Config, t: Timed, ticks: seq<Tick>)
    requires !Keyless(c) && Ticking(c, t) && TimedRun(c, t, ticks)
    ensures Ticking(c, AfterAll(c, t, ticks))
    decreases |ticks|
  {
    if ticks != [] {
      StepTicks(c, t, ticks[0]);
      RunTicks(c, Ticked(c, t, ticks[0]), ticks[1..]);
    }
  }

  /** A store the settings need is empty. */
  predicate Lacks(a: App, kind: Kind) {
    KeySize(a, kind) != 0 && (if kind == Encryption then a.enc == map[] else a.auth == map[])
  }

  /** ManageStores asks for every key that is missing, and ends the wait if none is. */
  lemma ManageAsks(c: Config, s: System, t: System)
    requires s.master.master && s.master.state == WAIT && Enabled(s, Manage) && t == Next(c, s, Manage)
    ensures forall kind :: Lacks(s.master, kind) ==> kind in t.asked
    ensures (forall kind :: !Lacks(s.master, kind)) ==> t.master.state == READY
  {
    var a := s.master;
    var b := RequestedIfDry(a, Encryption, a.enc);
    var d := RequestedIfDry(b, Authentication, b.auth);
    var extra := (if Lacks(a, Encryption) then [Encryption] else [])
               + (if Lacks(a, Authentication) then [Authentication] else []);
    assert d.kmsReq == a.kmsReq + extra;
    assert t.master == Checked(d) && t.master.kmsReq == d.kmsReq;
    assert t.asked == s.asked + extra;
    if forall kind :: !Lacks(a, kind) {
      assert !Lacks(a, Encryption) && !Lacks(a, Authentication);
      assert d == a && Supplied(a);
    }
  }

  /** In every run of settings that are not keyless, a master that has not stopped never
      stalls.  Its next SendDataPacket is pending; in READY that sends one packet, in WAIT
      it makes ManageStores pending, and that asks for every key the master lacks, or ends
      the wait if it lacks none. */
  lemma {:induction false} MasterNeverStalls(c: Config, ticks: seq<Tick>, t: Timed)
    requires !Keyless(c) && TimedRun(c, Begin(c), ticks) && t == AfterAll(c, Begin(c), ticks)
    requires Live(t.s.master)
    ensures Due(t, SendFires) && Ticked(c, t, SendFires).send
    ensures t.s.master.state == READY ==> |Ticked(c, t, SendFires).s.sent| == |t.s.sent| + 1
    ensures t.s.master.state == WAIT ==>
              var u := Ticked(c, t, SendFires);
              && Due(u, ManageFires)
              && (forall kind :: Lacks(t.s.master, kind) ==> kind in Ticked(c, u, ManageFires).s.asked)
              && ((forall kind :: !Lacks(t.s.master, kind)) ==> Ticked(c, u, ManageFires).s.master.state == READY)
  {
    InitialInv(c);
    RunTicks(c, Begin(c), ticks);
    if t.s.master.state == WAIT {
      var u := Ticked(c, t, SendFires);
      assert u.s == t.s;
      ManageAsks(c, u.s, Ticked(c, u, ManageFires).s);
    }
  }
}
