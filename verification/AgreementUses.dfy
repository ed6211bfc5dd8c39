/**
 How often a QKDApp014 pair uses a key, and which keys its packets name.
 */
module AgreementUses {
  import opened Options
  import opened OrderedKeys
  import opened UInt32
  import opened App014
  import opened Agreement014
  import opened AgreementSteps
  import opened AgreementRuns
  import Division
  import KeyStream

  /** AES, and packets whose double length is an uint32_t. */
  predicate Aes(c: Config) {
    c.encryption == 2 && 0 < 2 * c.size < UINT32_RANGE
  }

  /** The packets an AES key is good for. */
  function Packets(c: Config): nat
    requires c.size > 0
  {
    if c.lifetime / c.size > 1 then c.lifetime / c.size else 1
  }

  // ----- What is left of a key

  lemma LastUseIff(lifetime: nat, size: nat, n: nat)
    requires 0 < size && n < (if lifetime / size > 1 then lifetime / size else 1)
    ensures n > 0 ==> n * size <= lifetime
    ensures lifetime - n * size < 2 * size <==> n + 1 == if lifetime / size > 1 then lifetime / size else 1
  {
    var q, r := lifetime / size, lifetime % size;
    var k := q - n;
    assert lifetime - n * size == k * size + r by {
      assert (q - n) * size == q * size - n * size;
    }
    Division.Multiples(k, size);
    Division.Multiples(k - 1, size);
    assert (k - 1) * size == k * size - size;
    Division.Multiples(k - 2, size);
    assert (k - 2) * size == k * size - 2 * size;
  }

  /** One more packet. */
  lemma OneLess(c: Config, left: nat, last: bool)
    requires Aes(c) && last == (left < 2 * c.size)
    ensures (if Worn(c.encryption, c.size, StoredKey(Encryption, left, 0)) then None
             else Some(KeyStream.Charge(left, c.size))) == (if last then None else Some(left - c.size))
  {
  }

  /** After n packets an AES key has lost n times their size; the last packet it is good for
      erases it. */
  lemma {:induction false} LifeIs(c: Config, n: nat)
    requires Aes(c)
    ensures Life(c, n) == if n < Packets(c) then Some(c.lifetime - n * c.size) else None
  {
    if n > 0 {
      LifeIs(c, n - 1);
      if n - 1 < Packets(c) {
        LastUseIff(c.lifetime, c.size, n - 1);
        var left := c.lifetime - (n - 1) * c.size;
        OneLess(c, left, left < 2 * c.size);
        assert (n - 1) * c.size == n * c.size - c.size;
      }
    }
  }

  // ----- What a packet names

  /** The packet names the first key of either store it needs one from, which is gone
      afterwards or has been used once more. */
  ghost predicate NamesFirst(c: Config, s: System, p: Packet, t: System) {
    && p.encryption == c.encryption && p.authentication == c.authentication && p.size == c.size
    && (if c.encryption == 0 then p.encId == None && t.master.enc == s.master.enc
        else p.encId.Some? && LeastOf(s.master.enc.Keys, p.encId.value)
             && s.master.enc[p.encId.value].kind == Encryption
             && OthersStay(s.master.enc, p.encId.value, t.master.enc))
    && (if c.authentication != 1 then p.authId == None && t.master.auth == s.master.auth
        else p.authId.Some? && LeastOf(s.master.auth.Keys, p.authId.value)
             && s.master.auth[p.authId.value].kind == Authentication
             && OthersStay(s.master.auth, p.authId.value, t.master.auth)
             && p.authId.value !in t.master.auth)
  }

  ghost predicate OthersStay(before: Store, k: nat, after: Store) {
    && after.Keys <= before.Keys
    && forall j :: j in before && j != k ==> j in after && after[j] == before[j]
  }

  /** In every run a READY master sends such a packet. */
  lemma {:induction false} PacketNamesFirst(c: Config, events: seq<Event>, s: System, t: System)
    requires !Keyless(c) && Run(c, Initial(c), events) && s == After(c, Initial(c), events)
    requires s.master.state == READY && t == Next(c, s, Transmit)
    ensures |t.sent| == |s.sent| + 1 && t.sent[..|s.sent|] == s.sent && t.data == s.data + [t.sent[|s.sent|]]
    ensures NamesFirst(c, s, t.sent[|s.sent|], t)
  {
    InitialInv(c);
    RunKeeps(c, Initial(c), events);
    TransmittedIs(c, s.master, t.master);
    SentNames(c, s, t);
  }

  lemma SentNames(c: Config, s: System, t: System)
    requires MasterOk(c, s.master) && Filed(c, s.master) && SentOne(c, s.master, t.master)
    ensures NamesFirst(c, s, PacketOf(s.master), t)
  {
  }

  // ----- How often a key is named

  /** The uses of key k at the master are within what it is good for, and its lifetime is
      what they leave. */
  lemma KeyOkMeans(c: Config, m: App, k: nat, n: nat)
    requires Aes(c) && KeyOk(c, m, k, n)
    ensures n <= Packets(c)
    ensures k in m.enc ==> n < Packets(c) && m.enc[k].lifetime == c.lifetime - n * c.size
  {
    LifeIs(c, n);
    if n > 0 {
      LifeIs(c, n - 1);
    }
  }

  /** A key that a packet takes out of the encryption store has been used for the last time. */
  lemma {:induction false} SentKeepsUnlessLast(c: Config, s: System, m: App, k: nat)
    requires Aes(c) && MasterOk(c, s.master) && KindOk(s.master.enc, Encryption) && SentOne(c, s.master, m)
    requires KeyOk(c, s.master, k, Uses(s.sent, k)) && k in s.master.enc && k !in m.enc
    ensures Uses(s.sent + [PacketOf(s.master)], k) >= Packets(c)
  {
    var p, n := PacketOf(s.master), Uses(s.sent, k);
    UsesAppend(s.sent, p, k);
    assert k == Least(s.master.enc.Keys) && p.encId == Some(k);
    LifeIs(c, n + 1);
    LifeEnds(c, n, s.master.enc[k]);
  }

  lemma LifeEnds(c: Config, n: nat, key: StoredKey)
    requires Life(c, n) == Some(key.lifetime) && Worn(c.encryption, c.size, key)
    ensures Life(c, n + 1) == None
  {
  }

  /** Every step but these two keeps the keys of the encryption store. */
  lemma OthersKeep(c: Config, s: System, e: Event, t: System, k: nat)
    requires Inv(c, s) && Enabled(s, e) && t == Next(c, s, e) && k in s.master.enc
    requires e != StopMaster && !(e == Transmit && s.master.state == READY)
    ensures k in t.master.enc && t.sent == s.sent
  {
    match e
    case Manage => ManagedIs(s.master, t.master);
    case Grant(ids) => GrantedIs(c, s.master, ids, t.master);
    case Reply =>
      ReplyTo(s);
      if s.answers[0].ok {
        ConfirmedIs(c, s.master, s.answers[0].ids, t.master);
      } else {
        RefusedIs(c, s.master, s.answers[0].ids, t.master);
      }
    case _ =>
  }

  lemma {:induction false} StepUses(c: Config, s: System, e: Event, t: System, k: nat)
    requires Aes(c) && Inv(c, s) && Enabled(s, e) && t == Next(c, s, e) && k in s.master.enc && e != StopMaster
    requires Inv(c, t)
    ensures k in t.master.enc <==> Uses(t.sent, k) < Packets(c)
  {
    assert KeyOk(c, t.master, k, Uses(t.sent, k));
    KeyOkMeans(c, t.master, k, Uses(t.sent, k));
    assert KeyOk(c, s.master, k, Uses(s.sent, k));
    if e == Transmit && s.master.state == READY {
      TransmittedIs(c, s.master, t.master);
      if k !in t.master.enc {
        SentKeepsUnlessLast(c, s, t.master, k);
      }
    } else {
      OthersKeep(c, s, e, t, k);
    }
  }

  /** With AES, in every run: a key is named by at most as many packets as it is good for.
      While it is in the encryption store it has been named less often, and has lost that
      many packets of its lifetime; it leaves the store exactly with the last of them. */
  lemma {:induction false} MasterUses(c: Config, events: seq<Event>, s: System, k: nat)
    requires Aes(c) && Run(c, Initial(c), events) && s == After(c, Initial(c), events)
    ensures Uses(s.sent, k) <= Packets(c)
    ensures k in s.master.enc ==>
              Uses(s.sent, k) < Packets(c) && s.master.enc[k].lifetime == c.lifetime - Uses(s.sent, k) * c.size
    ensures forall e :: k in s.master.enc && Enabled(s, e) && e != StopMaster ==>
              (k in Next(c, s, e).master.enc <==> Uses(Next(c, s, e).sent, k) < Packets(c))
  {
    InitialInv(c);
    RunKeeps(c, Initial(c), events);
    assert KeyOk(c, s.master, k, Uses(s.sent, k));
    KeyOkMeans(c, s.master, k, Uses(s.sent, k));
    forall e | k in s.master.enc && Enabled(s, e) && e != StopMaster
      ensures k in Next(c, s, e).master.enc <==> Uses(Next(c, s, e).sent, k) < Packets(c)
    {
      StepKeeps(c, s, e);
      StepUses(c, s, e, Next(c, s, e), k);
    }
  }

  /** The slave's copy goes after the same number of deliveries. */
  lemma {:induction false} SlaveUses(c: Config, events: seq<Event>, s: System, k: nat)
    requires Aes(c) && Run(c, Initial(c), events) && s == After(c, Initial(c), events) && Live(s.slave)
    ensures k in s.slave.common <==> k in s.atSlave && Uses(s.delivered, k) < Packets(c)
    ensures k in s.slave.common ==> s.slave.common[k].lifetime == c.lifetime - Uses(s.delivered, k) * c.size
  {
    InitialInv(c);
    RunKeeps(c, Initial(c), events);
    assert SlaveKeyOk(c, s.slave.common, s.atSlave, k, Uses(s.delivered, k));
    LifeIs(c, Uses(s.delivered, k));
  }

  // ----- One-time pad

  /** Only AES keys are erased: in every run of a one-time pad a key stays in the encryption
      store until the master stops, whatever is sent with it. */
  lemma {:induction false} PadKeyStays(c: Config, events: seq<Event>, s: System, k: nat, e: Event)
    requires !Keyless(c) && c.encryption == 1 && Run(c, Initial(c), events) && s == After(c, Initial(c), events)
    requires k in s.master.enc && Enabled(s, e) && e != StopMaster
    ensures k in Next(c, s, e).master.enc
  {
    InitialInv(c);
    RunKeeps(c, Initial(c), events);
    PadStep(c, s, k, e, Next(c, s, e));
  }

  lemma PadStep(c: Config, s: System, k: nat, e: Event, t: System)
    requires !Keyless(c) && c.encryption == 1 && Inv(c, s) && Enabled(s, e) && t == Next(c, s, e)
    requires k in s.master.enc && e != StopMaster
    ensures k in t.master.enc
  {
    if e == Transmit && s.master.state == READY {
      TransmittedIs(c, s.master, t.master);
    } else {
      OthersKeep(c, s, e, t, k);
    }
  }

  lemma {:induction false} Extend(c: Config, s: System, events: seq<Event>, t: System, e: Event, u: System)
    requires Run(c, s, events) && t == After(c, s, events) && Enabled(t, e) && u == Next(c, t, e)
    ensures Run(c, s, events + [e]) && After(c, s, events + [e]) == u
    decreases |events|
  {
    if events == [] {
      assert events + [e] == [e] && [e][1..] == [];
    } else {
      Extend(c, Next(c, s, events[0]), events[1..], t, e, u);
      assert (events + [e])[0] == events[0] && (events + [e])[1..] == events[1..] + [e];
    }
  }

  /** The master is READY and has key 0 for its packets, and no other. */
  ghost predicate OneKey(c: Config, s: System) {
    Inv(c, s) && s.master.state == READY && s.master.enc.Keys == {0}
  }

  /** Encryption keys are needed, and no others. */
  predicate OneKind(c: Config) {
    c.authentication != 1 && EncryptionKeySize(c.encryption, c.size) != 0
  }

  lemma FirstRequest(c: Config, s: System)
    requires OneKind(c) && s == Next(c, Initial(c), Manage)
    ensures s.asked == [Encryption] && s.master.kmsReq == [Encryption] && s.master.state == WAIT
    ensures s.proposals == [] && s.lookups == [] && s.answers == [] && s.issued == {} && s.sent == []
    ensures s.slave.state == READY && s.master.enc == map[]
  {
    StartedIs(c);
    var m := NewApp(c, true, WAIT);
    assert Managed(m) == m.(kmsReq := [Encryption]);
  }

  lemma FirstGrant(c: Config, s: System, t: System)
    requires OneKind(c) && Inv(c, s) && s.asked == [Encryption] && s.master.kmsReq == [Encryption]
    requires s.master.state == WAIT && s.issued == {} && s.master.enc == map[]
    requires Enabled(s, Grant([0])) && t == Next(c, s, Grant([0]))
    ensures 0 in t.master.common && t.master.common[0].kind == Encryption
    ensures t.master == s.master.(kmsReq := [], common := t.master.common, appReq := s.master.appReq + [[0]])
    ensures t == s.(master := t.master, asked := [], proposals := s.proposals + [[0]], issued := t.issued)
  {
    GrantedIs(c, s.master, [0], t.master);
    assert 0 in SetOf([0]);
    assert 0 in t.master.common.Keys;
    assert PlaceCount(s.master, s.retired, s.rejected, 0) == 0;
  }

  lemma ConfirmedOne(c: Config, a: App, r: App)
    requires OneKind(c) && MasterOk(c, r) && r.enc == Picked(a.common, [0], Encryption) + a.enc
    requires 0 in a.common && a.common[0].kind == Encryption && a.enc == map[]
    ensures r.enc.Keys == {0} && Supplied(r)
  {
    assert 0 in r.enc;
  }

  lemma FirstConfirmed(c: Config, s: System, t: System)
    requires OneKind(c) && Inv(c, s) && s.answers == [Answer([0], true)] && s.master.state == WAIT
    requires 0 in s.master.common && s.master.common[0].kind == Encryption && s.master.enc == map[]
    requires t == Next(c, s, Reply) && Inv(c, t)
    ensures OneKey(c, t) && t.sent == s.sent
  {
    ReplyTo(s);
    ConfirmedIs(c, s.master, [0], t.master);
    ConfirmedOne(c, s.master, t.master);
    WaitEnds(c, s.master, t.master);
  }

  lemma WaitEnds(c: Config, a: App, r: App)
    requires MasterOk(c, a) && a.state == WAIT && a.appReq != [] && r == Answered(a, true)
    requires Supplied(r)
    ensures r.state == READY
  {
    var b := a.(appReq := a.appReq[1..]);
    MovedIs(b, a.appReq[0]);
    var d := Moved(b, a.appReq[0]);
    assert r == Checked(d) && d.state == WAIT;
    assert r == d.(state := r.state);
  }

  /** The first key arrives. */
  lemma Begins(c: Config) returns (events: seq<Event>, s: System)
    requires OneKind(c)
    ensures Run(c, Initial(c), events) && s == After(c, Initial(c), events) && OneKey(c, s) && s.sent == []
  {
    InitialInv(c);
    StartedIs(c);
    var s0 := Initial(c);
    var s1 := Next(c, s0, Manage);
    FirstRequest(c, s1);
    StepKeeps(c, s0, Manage);
    Extend(c, s0, [], s0, Manage, s1);
    assert SetOf([0]) !! s1.issued && Distinct([0]);
    var s2 := Next(c, s1, Grant([0]));
    FirstGrant(c, s1, s2);
    StepKeeps(c, s1, Grant([0]));
    Extend(c, s0, [] + [Manage], s1, Grant([0]), s2);
    events, s := Agreed(c, [] + [Manage] + [Grant([0])], s2);
  }

  lemma Agreed(c: Config, events: seq<Event>, s: System) returns (more: seq<Event>, t: System)
    requires OneKind(c) && Run(c, Initial(c), events) && s == After(c, Initial(c), events) && Inv(c, s)
    requires s.master.state == WAIT && s.slave.state == READY && s.proposals == [[0]] && s.lookups == []
    requires s.answers == [] && s.master.enc == map[]
    requires 0 in s.master.common && s.master.common[0].kind == Encryption
    ensures Run(c, Initial(c), more) && t == After(c, Initial(c), more) && OneKey(c, t) && t.sent == s.sent
  {
    var s3 := Next(c, s, Propose);
    StepKeeps(c, s, Propose);
    Extend(c, Initial(c), events, s, Propose, s3);
    var s4 := Next(c, s3, Lookup(true));
    StepKeeps(c, s3, Lookup(true));
    Extend(c, Initial(c), events + [Propose], s3, Lookup(true), s4);
    t := Next(c, s4, Reply);
    StepKeeps(c, s4, Reply);
    Extend(c, Initial(c), events + [Propose] + [Lookup(true)], s4, Reply, t);
    FirstConfirmed(c, s4, t);
    more := events + [Propose] + [Lookup(true)] + [Reply];
  }

  lemma SendsUnderOne(c: Config, s: System, t: System)
    requires OneKind(c) && OneKey(c, s) && t == Next(c, s, Transmit) && Inv(c, t)
    ensures Uses(t.sent, 0) == Uses(s.sent, 0) + 1
    ensures c.encryption == 1 ==> OneKey(c, t)
  {
    TransmittedIs(c, s.master, t.master);
    UsesAppend(s.sent, PacketOf(s.master), 0);
    SentUnderOne(c, s.master, t.master);
    if c.encryption == 1 {
      StaysReady(c, s.master, t.master);
    }
  }

  lemma SentUnderOne(c: Config, a: App, r: App)
    requires OneKind(c) && MasterOk(c, a) && MasterOk(c, r) && a.enc.Keys == {0} && SentOne(c, a, r)
    ensures UsesOf(PacketOf(a), 0) == 1
    ensures c.encryption == 1 ==> r.enc.Keys == {0} && Supplied(r)
  {
    assert 0 in a.enc && Least(a.enc.Keys) == 0;
    if c.encryption == 1 {
      assert 0 in r.enc;
    }
  }

  lemma StaysReady(c: Config, a: App, r: App)
    requires MasterOk(c, a) && a.state == READY && !Keyless(c) && r == Transmitted(a) && Supplied(r)
    ensures r.state == READY
  {
    var b := a.(state := SEND_DATA);
    var e := Secured(b);
    SecuredIs(c, b, e);
    var d := e.(state := READY);
    assert r == Managed(d);
    ManagedIs(d, r);
  }

  lemma SendsAgain(c: Config, before: seq<Event>, a: System) returns (events: seq<Event>, s: System)
    requires OneKind(c) && Run(c, Initial(c), before) && a == After(c, Initial(c), before) && OneKey(c, a)
    ensures Run(c, Initial(c), events) && s == After(c, Initial(c), events)
    ensures Uses(s.sent, 0) == Uses(a.sent, 0) + 1
    ensures c.encryption == 1 ==> OneKey(c, s)
  {
    s := Next(c, a, Transmit);
    StepKeeps(c, a, Transmit);
    Extend(c, Initial(c), before, a, Transmit, s);
    SendsUnderOne(c, a, s);
    events := before + [Transmit];
  }

  /** For every number there is a run in which so many packets name the same one-time pad. */
  lemma {:induction false} PadIsReused(c: Config, n: nat) returns (events: seq<Event>, s: System)
    requires OneKind(c) && c.encryption == 1
    ensures Run(c, Initial(c), events) && s == After(c, Initial(c), events) && OneKey(c, s)
    ensures Uses(s.sent, 0) == n
  {
    if n == 0 {
      events, s := Begins(c);
    } else {
      events, s := PadIsReused(c, n - 1);
      events, s := SendsAgain(c, events, s);
    }
  }

  // ----- Keys used beyond their lifetime

  /** A run in which a key is used for more than its lifetime. */
  ghost predicate Overused(c: Config, events: seq<Event>, k: nat) {
    Run(c, Initial(c), events) && c.lifetime < Uses(After(c, Initial(c), events).sent, k) * c.size
  }

  lemma PacketsFit(c: Config, n: nat)
    requires 0 < c.size <= c.lifetime && n <= Packets(c)
    ensures n * c.size <= c.lifetime
  {
    var q := c.lifetime / c.size;
    Division.Multiples(q, c.size);
    assert q >= 1;
    assert (q - n) * c.size == q * c.size - n * c.size;
  }

  /** With a lifetime of at least one packet, which is what StartApplication asks for unless
      it is 0, no AES key is ever used beyond its lifetime. */
  lemma {:induction false} NeverOverused(c: Config, events: seq<Event>, k: nat)
    requires Aes(c) && c.size <= c.lifetime
    ensures !Overused(c, events, k)
  {
    if Run(c, Initial(c), events) {
      MasterUses(c, events, After(c, Initial(c), events), k);
      PacketsFit(c, Uses(After(c, Initial(c), events).sent, k));
    }
  }

  lemma OnePacket(c: Config) returns (events: seq<Event>, s: System)
    requires OneKind(c)
    ensures Run(c, Initial(c), events) && s == After(c, Initial(c), events) && Uses(s.sent, 0) == 1
  {
    events, s := Begins(c);
    UsesNone(0);
    events, s := SendsAgain(c, events, s);
  }

  lemma {:induction false} OverusedBy(c: Config, events: seq<Event>, s: System)
    requires Run(c, Initial(c), events) && s == After(c, Initial(c), events) && Uses(s.sent, 0) == 1
    requires c.lifetime < c.size
    ensures Overused(c, events, 0)
  {
  }

  /** Without VMAC that is exactly the condition: with a smaller lifetime, 0 included, the
      first packet is too much. */
  lemma OverusedIff(c: Config)
    requires Aes(c) && c.authentication != 1
    ensures (exists events, k :: Overused(c, events, k)) <==> c.lifetime < c.size
  {
    if c.lifetime < c.size {
      var events, s := OnePacket(c);
      OverusedBy(c, events, s);
    } else {
      forall events, k ensures !Overused(c, events, k) {
        NeverOverused(c, events, k);
      }
    }
  }

  lemma {:induction false} UsesNone(k: nat)
    ensures Uses([], k) == 0
  {
  }
}
