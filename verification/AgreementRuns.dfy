/**
 What holds in every run of a QKDApp014 pair (see module Agreement014 for the system).
 */
module AgreementRuns {
  import opened App014
  import opened Agreement014
  import opened AgreementSteps
  import opened UInt32

  predicate Run(c: Config, s: System, events: seq<Event>)
    decreases |events|
  {
    events == [] || (Enabled(s, events[0]) && Run(c, Next(c, s, events[0]), events[1..]))
  }

  function After(c: Config, s: System, events: seq<Event>): System
    requires Run(c, s, events)
    decreases |events|
  {
    if events == [] then s else After(c, Next(c, s, events[0]), events[1..])
  }

  function NewApp(c: Config, master: bool, state: State): App {
    App(master, state, c.encryption, c.authentication, c.size, c.lifetime, map[], map[], map[], [], [], {})
  }

  predicate NeedsKeys(c: Config) {
    EncryptionKeySize(c.encryption, c.size) != 0 || AuthenticationKeySize(c.authentication) != 0
  }

  lemma StartedIs(c: Config)
    ensures Started(NewApp(c, true, INITIALIZED)) == NewApp(c, true, if NeedsKeys(c) then WAIT else READY)
    ensures Started(NewApp(c, false, INITIALIZED)) == NewApp(c, false, READY)
  {
  }

  lemma InitialInv(c: Config)
    ensures Inv(c, Initial(c))
  {
    StartedIs(c);
    var s := Initial(c);
    var m := NewApp(c, true, if NeedsKeys(c) then WAIT else READY);
    assert s == System(m, NewApp(c, false, READY), [], [], [], [], [], [], [], {}, {}, {}, {}, false);
    NothingUsed(c, m);
    assert MasterOk(c, m) && Queues(s) && Filed(c, m);
  }

  lemma NothingUsed(c: Config, m: App)
    requires m.common == map[] && m.enc == map[] && m.auth == map[] && m.appReq == []
    ensures KeysPlaced(m, {}, {}, {}) && KeysUsedWell(c, m, [], {})
    ensures StoreHolds(c, map[], {}, []) && PacketsOk(c, [], [], [])
  {
    forall k: nat ensures SlaveKeyOk(c, map[], {}, k, Uses([], k)) {
    }
  }

  /** The one step that can go wrong is a keyless master that sends. */
  lemma StepKeeps(c: Config, s: System, e: Event)
    requires Inv(c, s) && Enabled(s, e)
    requires Keyless(c) ==> !(e == Transmit && s.master.state == READY)
    ensures Inv(c, Next(c, s, e))
  {
    var t := Next(c, s, e);
    match e
    case Manage => ManageKeeps(c, s, t.master, t);
    case Transmit =>
      if s.master.state == READY {
        TransmitKeeps(c, s, t.master, t);
      } else {
        assert t.master == s.master && t == s;
      }
    case Grant(ids) => GrantKeeps(c, s, ids, t);
    case Deny =>
    case Propose => ProposeKeeps(c, s, t);
    case Lookup(ok) => LookupKeeps(c, s, ok, t);
    case Reply =>
      if s.answers[0].ok {
        ConfirmKeeps(c, s, t.master, t);
      } else {
        RefuseKeeps(c, s, t.master, t);
      }
    case Deliver(i) => DeliverKeeps(c, s, i, t.slave, t);
    case Drop(i) => DropKeeps(c, s, i, t);
    case StopMaster => StopMasterKeeps(c, s, t.master, t);
    case StopSlave => StopSlaveKeeps(c, s, t.slave, t);
  }

  /** No packet leaves the master during these events. */
  predicate Quiet(c: Config, s: System, events: seq<Event>)
    requires Run(c, s, events)
    decreases |events|
  {
    events == []
    || (!(events[0] == Transmit && s.master.state == READY) && Quiet(c, Next(c, s, events[0]), events[1..]))
  }

  lemma {:induction false} RunKeeps(c: Config, s: System, events: seq<Event>)
    requires Inv(c, s) && Run(c, s, events) && (Keyless(c) ==> Quiet(c, s, events))
    ensures Inv(c, After(c, s, events))
    decreases |events|
  {
    if events != [] {
      StepKeeps(c, s, events[0]);
      RunKeeps(c, Next(c, s, events[0]), events[1..]);
    }
  }

  // ----- What a run never does

  /** With the settings StartApplication lets through, keyless means one-time pad and a
      packet whose length in bits is a multiple of 2^32. */
  lemma KeylessMeans(c: Config)
    requires c.encryption <= 2
    ensures Keyless(c) <==> c.encryption == 1 && c.size % 0x2000_0000 == 0
  {
    assert c.size * 8 % UINT32_RANGE == 8 * (c.size % 0x2000_0000) by {
      var q, r := c.size / 0x2000_0000, c.size % 0x2000_0000;
      assert c.size * 8 == UINT32_RANGE * q + 8 * r;
    }
  }

  /** At a handler boundary the master is in WAIT, READY or STOPPED, the slave in READY
      or STOPPED, a READY master has every key it needs, and nothing went wrong: no
      unsupported transition, no missing key, no request for a key of size 0, no reply
      without a pending request. */
  lemma {:induction false} NothingGoesWrong(c: Config, events: seq<Event>, s: System)
    requires !Keyless(c)
    requires Run(c, Initial(c), events) && s == After(c, Initial(c), events)
    ensures s.master.faults == {} && s.slave.faults == {}
    ensures s.master.state == WAIT || s.master.state == READY || s.master.state == STOPPED
    ensures s.master.state == READY ==> Supplied(s.master)
    ensures s.slave.state == READY || s.slave.state == STOPPED
  {
    InitialInv(c);
    RunKeeps(c, Initial(c), events);
  }

  lemma FaultsStay(a: App)
    ensures a.faults <= Managed(a).faults
  {
    var e := RequestedIfDry(a, Encryption, a.enc);
    RequestedIs(a, Encryption, a.enc, e);
    RequestedIs(e, Authentication, a.auth, RequestedIfDry(e, Authentication, a.auth));
  }

  lemma SendsWithoutKey(a: App)
    requires a.state == READY && a.encryption != 0 && a.enc == map[]
    ensures MissingKey in Transmitted(a).faults
  {
    var b := a.(state := SEND_DATA);
    var e := Secured(b);
    assert MissingKey in e.faults;
    var d := Switched(e, READY);
    assert MissingKey in d.faults;
    FaultsStay(d);
    assert Transmitted(a) == Managed(d);
  }

  lemma NoKeyOfSizeZero(c: Config, m: App)
    requires Filed(c, m) && KeySize(m, Encryption) == 0
    ensures m.enc == map[]
  {
    assert forall k :: k in m.enc ==> KeySize(m, m.enc[k].kind) != 0;
  }

  /** Up to its first packet every run is sound, and that packet goes wrong exactly for
      keyless settings: the master takes a key from a store it never fills. */
  lemma {:induction false} FirstPacketFailsIff(c: Config, events: seq<Event>, s: System)
    requires Run(c, Initial(c), events) && Quiet(c, Initial(c), events) && s == After(c, Initial(c), events)
    requires s.master.state == READY
    ensures s.master.faults == {}
    ensures Transmitted(s.master).faults != {} <==> Keyless(c)
  {
    InitialInv(c);
    RunKeeps(c, Initial(c), events);
    if Keyless(c) {
      NoKeyOfSizeZero(c, s.master);
      SendsWithoutKey(s.master);
    } else {
      TransmittedIs(c, s.master, Transmitted(s.master));
    }
  }

  // ----- Where the keys are

  /** While the master runs, every key it was ever granted is in exactly one place: its
      common, encryption or authentication store, used up, or refused by the slave; and
      the common store holds exactly the keys of the proposals under way, each once. */
  lemma {:induction false} NoKeyLostOrDoubled(c: Config, events: seq<Event>, s: System, k: nat)
    requires !Keyless(c) && Run(c, Initial(c), events) && s == After(c, Initial(c), events) && Live(s.master)
    ensures Places(s, k) == if k in s.issued then 1 else 0
    ensures multiset(Flat(AnswerIds(s.answers) + s.lookups + s.proposals))[k] == if k in s.master.common then 1 else 0
    ensures k in s.master.enc ==> s.master.enc[k].kind == Encryption
    ensures k in s.master.auth ==> s.master.auth[k].kind == Authentication
  {
    InitialInv(c);
    RunKeeps(c, Initial(c), events);
    assert PlaceCount(s.master, s.retired, s.rejected, k) == if k in s.issued then 1 else 0;
  }

  // ----- Under which type keys are filed

  /** The type queue of the master lists exactly the requests under way if and only if
      none was denied. */
  lemma {:induction false} RequestsLineUpIff(c: Config, events: seq<Event>, s: System)
    requires !Keyless(c) && Run(c, Initial(c), events) && s == After(c, Initial(c), events)
    requires Live(s.master)
    ensures s.asked == s.master.kmsReq <==> !s.denied
  {
    InitialInv(c);
    RunKeeps(c, Initial(c), events);
  }

  /** The keys of an answer are filed under the type they were asked for if and only if
      the head of the type queue is the oldest request. */
  lemma {:induction false} FiledAsAskedIff(c: Config, events: seq<Event>, s: System, ids: seq<nat>, t: System)
    requires !Keyless(c) && Run(c, Initial(c), events) && s == After(c, Initial(c), events)
    requires Enabled(s, Grant(ids)) && t == Next(c, s, Grant(ids))
    ensures s.master.kmsReq != []
    ensures (forall k :: k in ids ==> k in t.master.common && t.master.common[k].kind == s.asked[0])
            <==> s.asked[0] == s.master.kmsReq[0]
  {
    InitialInv(c);
    RunKeeps(c, Initial(c), events);
    GrantedIs(c, s.master, ids, t.master);
    forall k | k in ids ensures k in t.master.common && t.master.common[k].kind == s.master.kmsReq[0] {
      NewKeyFiled(c, s, ids, k, t.master.common);
    }
    assert ids[0] in ids;
  }

  lemma NewKeyFiled(c: Config, s: System, ids: seq<nat>, k: nat, r: Store)
    requires Placed(s) && SetOf(ids) !! s.issued && k in ids && s.master.kmsReq != []
    requires GrantedStore(c, s.master, s.master.kmsReq[0], s.master.common, ids, r)
    ensures k in r && r[k].kind == s.master.kmsReq[0]
  {
    assert k in SetOf(ids) && k !in s.issued;
    assert PlaceCount(s.master, s.retired, s.rejected, k) == 0;
    assert k in r.Keys;
  }

  /** Settings that need keys of both types. */
  predicate NeedsBoth(c: Config) {
    KindSize(c, Encryption) != 0 && KindSize(c, Authentication) != 0
  }

  /** A run at the end of which the next answer will be filed under the wrong type. */
  predicate Misfiling(c: Config, events: seq<Event>) {
    && Run(c, Initial(c), events)
    && var s := After(c, Initial(c), events);
       Live(s.master) && s.asked != [] && s.master.kmsReq != [] && s.asked[0] != s.master.kmsReq[0]
  }

  /** With one type only there is nothing to mix up. */
  lemma OneTypeNeverMisfiles(c: Config, events: seq<Event>)
    requires !Keyless(c) && !NeedsBoth(c)
    ensures !Misfiling(c, events)
  {
    if Run(c, Initial(c), events) {
      InitialInv(c);
      RunKeeps(c, Initial(c), events);
      var s := After(c, Initial(c), events);
      assert s.asked != [] ==> KindSize(c, s.asked[0]) != 0;
      assert s.master.kmsReq != [] ==> KeySize(s.master, s.master.kmsReq[0]) != 0;
    }
  }

  /** With both, one denied request is enough: the master asks for an encryption and an
      authentication key, the former is denied, and the latter will be filed as the
      former. */
  lemma {:induction false} OneDenialMisfiles(c: Config)
    requires NeedsBoth(c)
    ensures Misfiling(c, [Manage, Deny])
    ensures After(c, Initial(c), [Manage, Deny]).asked == [Authentication]
    ensures After(c, Initial(c), [Manage, Deny]).master.kmsReq == [Encryption, Authentication]
  {
    StartedIs(c);
    var s0 := Initial(c);
    var m := NewApp(c, true, WAIT);
    var s1 := Next(c, s0, Manage);
    assert Managed(m) == m.(kmsReq := [Encryption, Authentication]) by {
      assert RequestedIfDry(m, Encryption, map[]) == m.(kmsReq := [Encryption]);
    }
    assert s1 == s0.(master := s1.master, asked := [Encryption, Authentication]);
    var s2 := Next(c, s1, Deny);
    assert [Manage, Deny][1..] == [Deny];
    assert After(c, s0, [Manage, Deny]) == s2;
  }

  /** Some run misfiles a key if and only if the settings need keys of both types. */
  lemma MisfilingPossibleIff(c: Config)
    requires !Keyless(c)
    ensures (exists events :: Misfiling(c, events)) <==> NeedsBoth(c)
  {
    if NeedsBoth(c) {
      OneDenialMisfiles(c);
    } else {
      forall events ensures !Misfiling(c, events) {
        OneTypeNeverMisfiles(c, events);
      }
    }
  }

  // ----- What a refusal asks for

  /** The keys of a proposal that are in the store are of one kind. */
  predicate SameKind(s: Store, ids: seq<nat>) {
    forall j, k :: j in ids && k in ids && j in s && k in s ==> s[j].kind == s[k].kind
  }

  predicate Uniform(m: App) {
    forall i :: 0 <= i < |m.appReq| ==> SameKind(m.common, m.appReq[i])
  }

  lemma {:induction false} InFlat(q: seq<seq<nat>>, i: nat, k: nat)
    requires i < |q| && k in q[i]
    ensures k in Flat(q)
  {
    if i > 0 {
      InFlat(q[1..], i - 1, k);
    }
  }

  lemma GrantUniform(c: Config, s: System, ids: seq<nat>, m: App)
    requires Inv(c, s) && Live(s.master) && Uniform(s.master) && Enabled(s, Grant(ids))
    requires m == Granted(s.master, KeysFor(c, ids))
    ensures Uniform(m)
  {
    GrantedIs(c, s.master, ids, m);
    forall i | 0 <= i < |m.appReq| ensures SameKind(m.common, m.appReq[i]) {
      if i < |s.master.appReq| {
        forall k | k in m.appReq[i] ensures k in s.master.common {
          InFlat(s.master.appReq, i, k);
        }
        assert SameKind(s.master.common, s.master.appReq[i]);
      } else {
        forall k | k in ids ensures k in m.common && m.common[k].kind == s.master.kmsReq[0] {
          NewKeyFiled(c, s, ids, k, m.common);
        }
      }
    }
  }

  lemma FewerUniform(a: App, m: App)
    requires Uniform(a) && a.appReq != [] && m.appReq == a.appReq[1..]
    requires m.common == Without(a.common, a.appReq[0])
    ensures Uniform(m)
  {
    forall i | 0 <= i < |m.appReq| ensures SameKind(m.common, m.appReq[i]) {
      assert SameKind(a.common, a.appReq[i + 1]);
    }
  }

  lemma StepUniform(c: Config, s: System, e: Event, t: System)
    requires !Keyless(c) && Inv(c, s) && Uniform(s.master) && Enabled(s, e) && t == Next(c, s, e)
    ensures Uniform(t.master)
  {
    match e
    case Manage => ManagedIs(s.master, t.master);
    case Transmit =>
      if s.master.state == READY {
        TransmittedIs(c, s.master, t.master);
      }
    case Grant(ids) => GrantUniform(c, s, ids, t.master);
    case Reply =>
      ReplyTo(s);
      if s.answers[0].ok {
        ConfirmedIs(c, s.master, s.answers[0].ids, t.master);
      } else {
        RefusedIs(c, s.master, s.answers[0].ids, t.master);
      }
      FewerUniform(s.master, t.master);
    case _ =>
  }

  lemma {:induction false} RunUniform(c: Config, s: System, events: seq<Event>)
    requires !Keyless(c) && Inv(c, s) && Uniform(s.master) && Run(c, s, events)
    ensures Uniform(After(c, s, events).master)
    decreases |events|
  {
    if events != [] {
      StepKeeps(c, s, events[0]);
      StepUniform(c, s, events[0], Next(c, s, events[0]));
      RunUniform(c, Next(c, s, events[0]), events[1..]);
    }
  }

  /** When the slave refuses, the keys of the proposal, which are all of one kind, leave the
      master for good, and one request is made, for the kind they were of. */
  lemma {:induction false} RefusalAsksAgain(c: Config, events: seq<Event>, s: System, t: System)
    requires !Keyless(c) && Run(c, Initial(c), events) && s == After(c, Initial(c), events)
    requires Enabled(s, Reply) && !s.answers[0].ok && t == Next(c, s, Reply)
    ensures forall k :: k in s.answers[0].ids ==>
              && k in s.master.common && k !in t.master.common && k !in t.master.enc && k !in t.master.auth
              && t.asked == s.asked + [s.master.common[k].kind]
              && t.master.kmsReq == s.master.kmsReq + [s.master.common[k].kind]
  {
    InitialInv(c);
    StartedIs(c);
    RunKeeps(c, Initial(c), events);
    RunUniform(c, Initial(c), events);
    ReplyTo(s);
    RefusedIs(c, s.master, s.answers[0].ids, t.master);
    assert SameKind(s.master.common, s.master.appReq[0]);
    forall k | k in s.answers[0].ids
      ensures k in s.master.common && k !in t.master.common && k !in t.master.enc && k !in t.master.auth
      ensures t.asked == s.asked + [s.master.common[k].kind]
      ensures t.master.kmsReq == s.master.kmsReq + [s.master.common[k].kind]
    {
      RefusedOne(c, s, t, k);
    }
  }

  lemma RefusedOne(c: Config, s: System, t: System, k: nat)
    requires Inv(c, s) && Enabled(s, Reply) && !s.answers[0].ok && t == AfterReply(s)
    requires s.master.appReq != [] && s.master.appReq[0] == s.answers[0].ids && k in s.answers[0].ids
    requires k in s.master.common && SameKind(s.master.common, s.answers[0].ids)
    requires t.master.common == Without(s.master.common, s.answers[0].ids)
    requires t.master.enc == s.master.enc && t.master.auth == s.master.auth
    requires t.master.kmsReq == s.master.kmsReq + Added(s.master.kmsReq, t.master.kmsReq)
    ensures k !in t.master.common && k !in t.master.enc && k !in t.master.auth
    ensures t.master.kmsReq == s.master.kmsReq + [s.master.common[k].kind]
    ensures t.asked == s.asked + [s.master.common[k].kind]
  {
    assert Places(s, k) == if k in s.issued then 1 else 0;
    var kind := LastKind(s.master.common, s.answers[0].ids);
    assert kind == s.master.common[k].kind;
    assert KeySize(s.master, kind) != 0;
  }

  /** A usable key was stored at the slave first: it is still there, with the same
      secret, unless the slave has used it up itself or has stopped. */
  lemma {:induction false} SlaveHasItFirst(c: Config, events: seq<Event>, s: System, k: nat)
    requires !Keyless(c) && Run(c, Initial(c), events) && s == After(c, Initial(c), events)
    requires k in s.master.enc || k in s.master.auth
    ensures k in s.atSlave
    ensures Live(s.slave) && Uses(s.delivered, k) == 0 ==>
              k in s.slave.common && s.slave.common[k].secret == c.secret(k)
    ensures Live(s.master) && k in s.master.enc ==> s.master.enc[k].secret == c.secret(k)
    ensures Live(s.master) && k in s.master.auth ==> s.master.auth[k].secret == c.secret(k)
  {
    InitialInv(c);
    RunKeeps(c, Initial(c), events);
    if Live(s.slave) {
      assert SlaveKeyOk(c, s.slave.common, s.atSlave, k, Uses(s.delivered, k));
    }
  }

  /** Whatever was lost or overtaken, a delivered packet finds the keys it names, with
      the secrets the master used. */
  lemma {:induction false} DeliveryFindsItsKeys(c: Config, events: seq<Event>, s: System, i: nat)
    requires !Keyless(c) && Run(c, Initial(c), events) && s == After(c, Initial(c), events)
    requires Enabled(s, Deliver(i))
    ensures PacketOk(c, s.data[i]) && Found(c, s.data[i], s.slave.common)
    ensures Received(s.slave, s.data[i]).faults == {} && Received(s.slave, s.data[i]).state == READY
  {
    InitialInv(c);
    RunKeeps(c, Initial(c), events);
    DeliveryFinds(c, s, i);
    ReceivedIs(c, s.slave, s.data[i], Received(s.slave, s.data[i]));
  }
}
