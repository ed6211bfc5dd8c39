/**
 The ETSI 004 encryption stream between two applications.  The sender charges a key
 twice per packet, the receiver once and after skipping to the key the packet names.
 Keys come from the key managers, which give both sides the same value per index;
 packets travel in order and may be lost.
 */
module Stream004 {
  import opened Options
  import opened KeyStream
  import opened OrderedKeys
  import App004
  import App004Receiver
  import App004Sender

  // ----- How often a key is used

  /** Number of packets the sender encrypts with a key of this lifetime. */
  function SendUses(lifetime: nat, p: nat): nat
    requires 0 < p
    decreases lifetime
  {
    if Charge(lifetime, p) == 0 then 1 else 1 + SendUses(Charge(Charge(lifetime, p), p), p)
  }

  /** Number of packets the receiver could decrypt with it. */
  function ReceiveUses(lifetime: nat, p: nat): nat
    requires 0 < p
    decreases lifetime
  {
    if Charge(lifetime, p) == 0 then 1 else 1 + ReceiveUses(Charge(lifetime, p), p)
  }

  /** n is x divided by d, rounded up. */
  predicate IsCeiling(n: nat, x: nat, d: nat) {
    x <= n * d && (n == 0 || (n - 1) * d < x)
  }

  /** The sender uses a key of lifetime L exactly ceil((L + p) / 2p) times. */
  lemma {:induction false} SendUsesFormula(lifetime: nat, p: nat)
    requires 0 < p
    ensures IsCeiling(SendUses(lifetime, p), lifetime + p, 2 * p)
    decreases lifetime
  {
    var left := Charge(lifetime, p);
    if left != 0 {
      var rest := Charge(left, p);
      SendUsesFormula(rest, p);
      var n := SendUses(rest, p);
      SendUsesPositive(rest, p);
      assert (n + 1) * (2 * p) == n * (2 * p) + 2 * p;
      assert (n - 1) * (2 * p) == n * (2 * p) - 2 * p;
      if left < p {
        assert SendUses(0, p) == 1;
      }
    }
  }

  lemma {:induction false} SendUsesPositive(lifetime: nat, p: nat)
    requires 0 < p
    ensures SendUses(lifetime, p) >= 1
  {
  }

  /** The receiver could use it max(1, ceil(L / p)) times. */
  lemma {:induction false} ReceiveUsesFormula(lifetime: nat, p: nat)
    requires 0 < p
    ensures if lifetime == 0 then ReceiveUses(lifetime, p) == 1 else IsCeiling(ReceiveUses(lifetime, p), lifetime, p)
    decreases lifetime
  {
    var left := Charge(lifetime, p);
    if left != 0 {
      ReceiveUsesFormula(left, p);
      var n := ReceiveUses(left, p);
      assert (n + 1) * p == n * p + p;
      assert (n - 1) * p == n * p - p;
    }
  }

  /** The sender never outlasts the receiver, whatever the lifetime. */
  lemma {:induction false} SenderStopsFirst(lifetime: nat, p: nat)
    requires 0 < p
    ensures SendUses(lifetime, p) <= ReceiveUses(lifetime, p)
    decreases lifetime
  {
    var left := Charge(lifetime, p);
    if left != 0 {
      var rest := Charge(left, p);
      SenderStopsFirst(rest, p);
      if rest != 0 {
        assert ReceiveUses(left, p) == 1 + ReceiveUses(rest, p);
      }
    }
  }

  /** A one-time pad key (lifetime equal to the packet size) is used exactly once. */
  lemma {:induction false} OneTimePadOnce(p: nat)
    requires 0 < p
    ensures SendUses(p, p) == 1 && ReceiveUses(p, p) == 1
  {
  }

  // ----- Runs

  /** Packet size and the lifetimes the two applications give their keys. */
  datatype Config = Config(p: nat, sendLifetime: nat, receiveLifetime: nat)

  /** What runs rely on: the receiver's keys last as long as the sender's. */
  predicate ConfigOk(cfg: Config) {
    0 < cfg.p && SendUses(cfg.sendLifetime, cfg.p) <= ReceiveUses(cfg.receiveLifetime, cfg.p)
  }

  /** Equal AES lifetimes satisfy it, and so does a one-time pad at the sender with any
      lifetime at the receiver. */
  lemma ConfigsThatWork(cfg: Config)
    requires 0 < cfg.p
    requires cfg.sendLifetime == cfg.receiveLifetime || cfg.sendLifetime == cfg.p
    ensures ConfigOk(cfg)
  {
    if cfg.sendLifetime == cfg.receiveLifetime {
      SenderStopsFirst(cfg.sendLifetime, cfg.p);
    }
  }

  /** Both streams, the indices of the packets under way (oldest first), the highest
      index the sender was given, and all indices the receiver was given. */
  datatype System = System(sender: Stream, receiver: Stream, channel: seq<nat>, highest: int, loaded: set<nat>)

  datatype Event = LoadSender(i: nat) | LoadReceiver(i: nat) | Send | Lose(k: nat) | Deliver

  /** A sender in READY with these keys, AES, packets of this size and no VMAC. */
  function Sender(keys: Stream, p: nat): App004.App {
    App004.Installed(true, true, 2, 0, p, p, 0, 0).(state := App004.READY, enc := Session("s", true, 0, keys))
  }

  /** A receiver in READY with these keys. */
  function Receiver(keys: Stream): App004.App {
    App004.Installed(false, true, 2, 0, 0, 0, 0, 0).(state := App004.READY, enc := Session("s", true, 0, keys))
  }

  /** A packet of this size under the encryption key i, without VMAC. */
  function Under(i: nat, p: nat): App004.Data {
    App004.Data(App004.Header(2, i, 0, 0), p, true)
  }

  /** What SendPacket leaves of the keys, and the index in the packet it has sent. */
  function Sent(keys: Stream, p: nat): (Stream, seq<nat>) {
    var b := App004.Transmitted(Sender(keys, p));
    (b.enc.keys, if b.sent != [] && b.sent[0].enc.Some? then [b.sent[0].enc.value.index] else [])
  }

  /** What ProcessDataPacket leaves of the keys. */
  function Received(keys: Stream, i: nat, p: nat): Stream {
    App004.Processed(Receiver(keys), Under(i, p)).enc.keys
  }

  /** Every sender that needs an encryption key and none for authentication sends this way ... */
  lemma AnySender(a: App004.App)
    requires a.state == App004.READY && a.enc.keys != map[]
    requires App004.EncryptionSize(a) != 0 && App004.AuthenticationSize(a) == 0
    ensures var b := App004.Transmitted(a);
            && |b.sent| == |a.sent| + 1 && b.sent[|a.sent|].enc.Some?
            && Sent(a.enc.keys, a.size) == (b.enc.keys, [b.sent[|a.sent|].enc.value.index])
  {
    var b := App004.Transmitted(a);
    App004Sender.SendMakes(a, b);
    SentIs(a.enc.keys, a.size);
    SpendsOne(a.enc.keys, Least(a.enc.keys.Keys), a.size, AfterSend(a.enc.keys, a.size), b.enc.keys);
  }

  lemma SentIs(keys: Stream, p: nat)
    requires keys != map[]
    ensures Sent(keys, p) == (AfterSend(keys, p), [Least(keys.Keys)])
  {
    var a := Sender(keys, p);
    App004Sender.SendMakes(a, App004.Transmitted(a));
    App004Sender.SentKeys(keys, p);
    SpendsOne(keys, Least(keys.Keys), p, AfterSend(keys, p), App004.Transmitted(a).enc.keys);
  }

  lemma SpendsOne(before: Stream, i: nat, size: nat, x: Stream, y: Stream)
    requires App004Sender.Spends(before, i, size, x) && App004Sender.Spends(before, i, size, y)
    ensures x == y
  {
    assert x.Keys == y.Keys;
  }

  /** ... and every receiver takes an encrypted packet that passes that way. */
  lemma AnyReceiver(a: App004.App, packet: App004.Data)
    requires App004Receiver.Passes(a, packet) && packet.h.encryption != 0
    ensures App004.Processed(a, packet).enc.keys == Received(a.enc.keys, packet.h.encKeyId, packet.size)
  {
    App004Receiver.PacketUses(a, packet, App004.Processed(a, packet));
    ReceivedIs(a.enc.keys, packet.h.encKeyId, packet.size);
    UsedAlike(a.enc.keys, packet.h.encKeyId, packet.size, App004.Processed(a, packet).enc.keys);
  }

  lemma UsedAlike(keys: Stream, i: nat, p: nat, after: Stream)
    requires App004Receiver.EncryptionUse(true, keys, i, p, after)
    ensures after == AfterReceive(keys, i, p)
  {
    App004Receiver.ReceivedKeys(keys, i, p);
    if keys != map[] {
      App004Receiver.OpensOne(keys, KeyFor(keys, i), p, after, AfterReceive(keys, i, p));
    }
  }

  lemma ReceivedIs(keys: Stream, i: nat, p: nat)
    ensures Received(keys, i, p) == AfterReceive(keys, i, p)
  {
    App004Receiver.PacketUses(Receiver(keys), Under(i, p), App004.Processed(Receiver(keys), Under(i, p)));
    UsedAlike(keys, i, p, Received(keys, i, p));
  }

  const INITIAL: System := System(map[], map[], [], -1, {})

  /** Key managers hand the sender rising indices and the receiver each index once. */
  predicate Enabled(sys: System, e: Event) {
    match e
    case LoadSender(i) => sys.highest < i
    case LoadReceiver(i) => i !in sys.loaded
    case Send => sys.sender != map[]
    case Lose(k) => k < |sys.channel|
    case Deliver => sys.channel != []
  }

  function Next(kms: nat -> string, cfg: Config, sys: System, e: Event): System
    requires Enabled(sys, e)
  {
    match e
    case LoadSender(i) => sys.(sender := Added(sys.sender, i, Key(kms(i), cfg.sendLifetime)), highest := i)
    case LoadReceiver(i) =>
      sys.(receiver := Added(sys.receiver, i, Key(kms(i), cfg.receiveLifetime)), loaded := sys.loaded + {i})
    case Send =>
      sys.(sender := Sent(sys.sender, cfg.p).0, channel := sys.channel + Sent(sys.sender, cfg.p).1)
    case Lose(k) => sys.(channel := sys.channel[..k] + sys.channel[k + 1..])
    case Deliver =>
      sys.(receiver := Received(sys.receiver, sys.channel[0], cfg.p), channel := sys.channel[1..])
  }

  /** The key ProcessDataPacket decrypts the oldest packet with. */
  function UsedByReceiver(sys: System): Option<nat>
    requires sys.channel != []
  {
    if sys.receiver == map[] then None else Some(KeyFor(sys.receiver, sys.channel[0]))
  }

  /** The packet to be delivered names a key the receiver has been given, or meets a
      receiver that has no key to waste on it. */
  predicate Harmless(sys: System) {
    sys.channel != [] ==> sys.channel[0] in sys.loaded || sys.receiver == map[]
  }

  /** The state after a run, if every event was possible, and no packet whose key had not
      been loaded was delivered to a receiver with other keys. */
  function After(kms: nat -> string, cfg: Config, events: seq<Event>): Option<System> {
    if events == [] then Some(INITIAL)
    else
      var before := After(kms, cfg, events[..|events| - 1]);
      var e := events[|events| - 1];
      if before.Some? && Enabled(before.value, e) && (e.Deliver? ==> Harmless(before.value))
      then Some(Next(kms, cfg, before.value, e)) else None
  }

  // ----- The invariant

  /** Uses the sender still has for key i. */
  function Left(cfg: Config, sys: System, i: nat): nat
    requires 0 < cfg.p
  {
    if i in sys.sender then SendUses(sys.sender[i].lifetime, cfg.p) else 0
  }

  /** Deliveries of key i that may still come: packets under way and packets to be sent. */
  function Due(cfg: Config, sys: System, i: nat): nat
    requires 0 < cfg.p
  {
    multiset(sys.channel)[i] + Left(cfg, sys, i)
  }

  ghost predicate Ordered(sys: System) {
    && (forall j, k :: 0 <= j < k < |sys.channel| ==> sys.channel[j] <= sys.channel[k])
    && (forall j, i :: 0 <= j < |sys.channel| && i in sys.sender ==> sys.channel[j] <= i)
    && (forall j :: 0 <= j < |sys.channel| ==> sys.channel[j] <= sys.highest)
    && (forall i :: i in sys.sender ==> i <= sys.highest)
  }

  ghost predicate Genuine(kms: nat -> string, sys: System) {
    && (forall i :: i in sys.sender ==> sys.sender[i].value == kms(i))
    && (forall i :: i in sys.receiver ==> sys.receiver[i].value == kms(i) && i in sys.loaded)
  }

  /** The receiver's key i outlasts everything that may still arrive for it. */
  ghost predicate Covered(cfg: Config, sys: System, i: nat)
    requires 0 < cfg.p
  {
    && Due(cfg, sys, i) <= SendUses(cfg.sendLifetime, cfg.p)
    && (i in sys.loaded && (Due(cfg, sys, i) > 0 || i > sys.highest) ==>
          && i in sys.receiver
          && Due(cfg, sys, i) <= ReceiveUses(sys.receiver[i].lifetime, cfg.p)
          && (i > sys.highest ==> sys.receiver[i].lifetime == cfg.receiveLifetime))
  }

  ghost predicate Inv(kms: nat -> string, cfg: Config, sys: System) {
    && ConfigOk(cfg)
    && Ordered(sys)
    && Genuine(kms, sys)
    && (forall i: nat :: Covered(cfg, sys, i))
  }

  lemma CoveredAt(kms: nat -> string, cfg: Config, sys: System, i: nat)
    requires Inv(kms, cfg, sys)
    ensures Covered(cfg, sys, i)
  {
  }

  // ----- Every step keeps it

  /** What the two steps on the applications come to. */
  function AfterSending(cfg: Config, sys: System): System
    requires sys.sender != map[]
  {
    sys.(sender := AfterSend(sys.sender, cfg.p), channel := sys.channel + [Least(sys.sender.Keys)])
  }

  function AfterDelivery(cfg: Config, sys: System): System
    requires sys.channel != []
  {
    sys.(receiver := AfterReceive(sys.receiver, sys.channel[0], cfg.p), channel := sys.channel[1..])
  }

  lemma NextIs(kms: nat -> string, cfg: Config, sys: System, e: Event)
    requires Enabled(sys, e)
    ensures e.Send? ==> Next(kms, cfg, sys, e) == AfterSending(cfg, sys)
    ensures e.Deliver? ==> Next(kms, cfg, sys, e) == AfterDelivery(cfg, sys)
  {
    if e.Send? {
      SentIs(sys.sender, cfg.p);
    } else if e.Deliver? {
      ReceivedIs(sys.receiver, sys.channel[0], cfg.p);
    }
  }

  lemma LoadSenderKeeps(kms: nat -> string, cfg: Config, sys: System, j: nat, sys': System)
    requires Inv(kms, cfg, sys) && sys.highest < j && sys' == Next(kms, cfg, sys, LoadSender(j))
    ensures Inv(kms, cfg, sys')
  {
    assert j !in sys.sender && j !in sys.channel;
    forall i: nat ensures Covered(cfg, sys', i) {
      CoveredAt(kms, cfg, sys, i);
    }
  }

  lemma LoadReceiverKeeps(kms: nat -> string, cfg: Config, sys: System, j: nat, sys': System)
    requires Inv(kms, cfg, sys) && j !in sys.loaded && sys' == Next(kms, cfg, sys, LoadReceiver(j))
    ensures Inv(kms, cfg, sys')
  {
    forall i: nat ensures Covered(cfg, sys', i) {
      CoveredAt(kms, cfg, sys, i);
    }
  }

  lemma SendCovers(kms: nat -> string, cfg: Config, sys: System, sys': System, i: nat)
    requires Inv(kms, cfg, sys) && sys.sender != map[] && sys' == AfterSending(cfg, sys)
    ensures Due(cfg, sys', i) == Due(cfg, sys, i)
  {
    var f := Least(sys.sender.Keys);
    assert multiset(sys'.channel) == multiset(sys.channel) + multiset{f};
  }

  lemma SendKeeps(kms: nat -> string, cfg: Config, sys: System, sys': System)
    requires Inv(kms, cfg, sys) && sys.sender != map[] && sys' == AfterSending(cfg, sys)
    ensures Inv(kms, cfg, sys')
  {
    var f := Least(sys.sender.Keys);
    assert f in sys.sender;
    forall i: nat ensures Covered(cfg, sys', i) {
      CoveredAt(kms, cfg, sys, i);
      SendCovers(kms, cfg, sys, sys', i);
    }
  }

  lemma LoseCovers(cfg: Config, sys: System, k: nat, sys': System, i: nat)
    requires 0 < cfg.p && k < |sys.channel|
    requires sys' == sys.(channel := sys.channel[..k] + sys.channel[k + 1..]) && Covered(cfg, sys, i)
    ensures Covered(cfg, sys', i)
  {
    assert sys.channel == sys.channel[..k] + [sys.channel[k]] + sys.channel[k + 1..];
    assert multiset(sys.channel) == multiset(sys'.channel) + multiset{sys.channel[k]};
  }

  lemma LoseKeepsOrder(sys: System, k: nat, sys': System)
    requires k < |sys.channel| && Ordered(sys)
    requires sys' == sys.(channel := sys.channel[..k] + sys.channel[k + 1..])
    ensures Ordered(sys')
  {
  }

  lemma LoseKeeps(kms: nat -> string, cfg: Config, sys: System, k: nat, sys': System)
    requires Inv(kms, cfg, sys) && k < |sys.channel| && sys' == Next(kms, cfg, sys, Lose(k))
    ensures Inv(kms, cfg, sys')
  {
    LoseKeepsOrder(sys, k, sys');
    forall i: nat ensures Covered(cfg, sys', i) {
      CoveredAt(kms, cfg, sys, i);
      LoseCovers(cfg, sys, k, sys', i);
    }
  }

  /** The delivery itself: the named key is at the front after the skip. */
  lemma NamedKeyIsUsed(kms: nat -> string, cfg: Config, sys: System)
    requires Inv(kms, cfg, sys) && sys.channel != [] && sys.channel[0] in sys.loaded
    ensures sys.channel[0] in sys.receiver && UsedByReceiver(sys) == Some(sys.channel[0])
    ensures AfterSync(sys.receiver, sys.channel[0]) != map[]
            && Least(AfterSync(sys.receiver, sys.channel[0]).Keys) == sys.channel[0]
  {
    var i := sys.channel[0];
    CoveredAt(kms, cfg, sys, i);
    assert i in AfterSync(sys.receiver, i);
  }

  lemma DeliverCovers(kms: nat -> string, cfg: Config, sys: System, sys': System, i: nat)
    requires Inv(kms, cfg, sys) && sys.channel != [] && sys.channel[0] in sys.loaded
    requires sys' == AfterDelivery(cfg, sys)
    ensures Covered(cfg, sys', i)
  {
    var n := sys.channel[0];
    NamedKeyIsUsed(kms, cfg, sys);
    CoveredAt(kms, cfg, sys, i);
    assert sys.channel == [n] + sys.channel[1..];
    assert multiset(sys.channel) == multiset{n} + multiset(sys'.channel);
    FirstIsLeast(sys.channel, i);
  }

  lemma FirstIsLeast(channel: seq<nat>, i: nat)
    requires channel != [] && forall j, k :: 0 <= j < k < |channel| ==> channel[j] <= channel[k]
    ensures i in channel ==> channel[0] <= i
  {
  }

  /** A packet that meets an empty receiver is dropped. */
  lemma DropCovers(kms: nat -> string, cfg: Config, sys: System, sys': System, i: nat)
    requires Inv(kms, cfg, sys) && sys.channel != [] && sys.receiver == map[]
    requires sys' == AfterDelivery(cfg, sys)
    ensures sys' == sys.(channel := sys.channel[1..]) && Covered(cfg, sys', i)
  {
    assert AfterSync(sys.receiver, sys.channel[0]) == map[];
    CoveredAt(kms, cfg, sys, i);
    assert sys.channel == [sys.channel[0]] + sys.channel[1..];
    assert multiset(sys.channel) == multiset{sys.channel[0]} + multiset(sys'.channel);
  }

  lemma DeliverKeeps(kms: nat -> string, cfg: Config, sys: System, sys': System)
    requires Inv(kms, cfg, sys) && sys.channel != [] && Harmless(sys)
    requires sys' == AfterDelivery(cfg, sys)
    ensures Inv(kms, cfg, sys')
  {
    forall i: nat ensures Covered(cfg, sys', i) {
      if sys.channel[0] in sys.loaded {
        DeliverCovers(kms, cfg, sys, sys', i);
      } else {
        DropCovers(kms, cfg, sys, sys', i);
      }
    }
  }

  lemma {:induction false} EveryRunKeeps(kms: nat -> string, cfg: Config, events: seq<Event>)
    requires ConfigOk(cfg) && After(kms, cfg, events).Some?
    ensures Inv(kms, cfg, After(kms, cfg, events).value)
  {
    if events != [] {
      var before := events[..|events| - 1];
      EveryRunKeeps(kms, cfg, before);
      var sys := After(kms, cfg, before).value;
      var sys' := After(kms, cfg, events).value;
      NextIs(kms, cfg, sys, events[|events| - 1]);
      match events[|events| - 1]
      case LoadSender(j) => LoadSenderKeeps(kms, cfg, sys, j, sys');
      case LoadReceiver(j) => LoadReceiverKeeps(kms, cfg, sys, j, sys');
      case Send => SendKeeps(kms, cfg, sys, sys');
      case Lose(k) => LoseKeeps(kms, cfg, sys, k, sys');
      case Deliver => DeliverKeeps(kms, cfg, sys, sys');
    }
  }

  // ----- Main results

  /** In every run the next packet is decrypted with the key it names, whose value is
      the one the sender encrypted with, if and only if that key has been loaded at
      the receiver: no earlier delivery has erased it. */
  lemma {:induction false} DecryptedWithTheSendersKey(kms: nat -> string, cfg: Config, events: seq<Event>)
    requires ConfigOk(cfg) && After(kms, cfg, events).Some? && After(kms, cfg, events).value.channel != []
    ensures var sys := After(kms, cfg, events).value;
            UsedByReceiver(sys) == Some(sys.channel[0]) <==> sys.channel[0] in sys.loaded
    ensures var sys := After(kms, cfg, events).value;
            sys.channel[0] in sys.loaded ==>
              sys.channel[0] in sys.receiver && sys.receiver[sys.channel[0]].value == kms(sys.channel[0])
  {
    EveryRunKeeps(kms, cfg, events);
    var sys := After(kms, cfg, events).value;
    if sys.channel[0] in sys.loaded {
      NamedKeyIsUsed(kms, cfg, sys);
    }
  }

  /** The sender encrypts with the key manager's value for the index it names. */
  lemma {:induction false} EncryptedWithTheNamedKey(kms: nat -> string, cfg: Config, events: seq<Event>)
    requires ConfigOk(cfg) && After(kms, cfg, events).Some? && After(kms, cfg, events).value.sender != map[]
    ensures var sys := After(kms, cfg, events).value;
            sys.sender[Least(sys.sender.Keys)].value == kms(Least(sys.sender.Keys))
  {
    EveryRunKeeps(kms, cfg, events);
  }

  /** A packet is decrypted with a key it does not name exactly if its own has not been
      loaded while the receiver has others. */
  lemma {:induction false} ForeignKeyUsedIff(kms: nat -> string, cfg: Config, events: seq<Event>)
    requires ConfigOk(cfg) && After(kms, cfg, events).Some? && After(kms, cfg, events).value.channel != []
    ensures var sys := After(kms, cfg, events).value;
            (UsedByReceiver(sys).Some? && UsedByReceiver(sys).value != sys.channel[0]) <==> !Harmless(sys)
  {
    EveryRunKeeps(kms, cfg, events);
    var sys := After(kms, cfg, events).value;
    if sys.channel[0] in sys.loaded {
      NamedKeyIsUsed(kms, cfg, sys);
    }
  }

  lemma {:induction false} Extend(kms: nat -> string, cfg: Config, events: seq<Event>, sys: System, e: Event,
                                  sys': System)
    requires After(kms, cfg, events) == Some(sys) && Enabled(sys, e) && (e.Deliver? ==> Harmless(sys))
    requires sys' == Next(kms, cfg, sys, e)
    ensures After(kms, cfg, events + [e]) == Some(sys')
  {
    assert (events + [e])[..|events|] == events;
  }

  /** The sender has keys 0 and 1, the receiver has only key 1. */
  lemma OneMissing(kms: nat -> string, cfg: Config) returns (events: seq<Event>, sys: System)
    requires cfg == Config(1, 1, 1)
    ensures After(kms, cfg, events) == Some(sys) && sys.channel == [] && sys.loaded == {1}
    ensures sys.sender == map[0 := Key(kms(0), 1), 1 := Key(kms(1), 1)] && sys.receiver == map[1 := Key(kms(1), 1)]
  {
    var s1 := Next(kms, cfg, INITIAL, LoadSender(0));
    var s2 := Next(kms, cfg, s1, LoadSender(1));
    sys := Next(kms, cfg, s2, LoadReceiver(1));
    Extend(kms, cfg, [], INITIAL, LoadSender(0), s1);
    Extend(kms, cfg, [] + [LoadSender(0)], s1, LoadSender(1), s2);
    Extend(kms, cfg, [] + [LoadSender(0)] + [LoadSender(1)], s2, LoadReceiver(1), sys);
    events := [] + [LoadSender(0)] + [LoadSender(1)] + [LoadReceiver(1)];
  }

  lemma SendsFirst(kms: nat -> string, cfg: Config, events: seq<Event>, sys: System, i: nat)
    returns (more: seq<Event>, sys': System)
    requires cfg == Config(1, 1, 1) && After(kms, cfg, events) == Some(sys)
    requires i in sys.sender && sys.sender[i].lifetime == 1 && forall k :: k in sys.sender ==> i <= k
    ensures After(kms, cfg, more) == Some(sys')
    ensures sys' == sys.(sender := sys.sender - {i}, channel := sys.channel + [i])
  {
    more, sys' := events + [Send], Next(kms, cfg, sys, Send);
    NextIs(kms, cfg, sys, Send);
    Extend(kms, cfg, events, sys, Send, sys');
    assert Least(sys.sender.Keys) == i;
  }

  lemma SpendsForeign(kms: nat -> string, cfg: Config, sys: System, sys': System)
    requires cfg == Config(1, 1, 1) && sys.channel == [0, 1] && sys.receiver == map[1 := Key(kms(1), 1)]
    requires sys' == Next(kms, cfg, sys, Deliver)
    ensures UsedByReceiver(sys) == Some(1) && sys' == sys.(channel := [1], receiver := map[])
  {
    assert 1 in sys.receiver;
    NextIs(kms, cfg, sys, Deliver);
    assert Least(sys.receiver.Keys) == 1;
  }

  /** What such a delivery does.  Packet 0 meets a receiver that has only key 1, and
      spends it; packet 1 then finds no key. */
  lemma UnloadedDeliveryHarms(kms: nat -> string) returns (events: seq<Event>, sys: System, sys': System)
    ensures After(kms, Config(1, 1, 1), events) == Some(sys) && sys.channel == [0, 1]
    ensures sys' == Next(kms, Config(1, 1, 1), sys, Deliver) && UsedByReceiver(sys) == Some(1)
    ensures sys'.channel == [1] && 1 in sys'.loaded && UsedByReceiver(sys') == None
  {
    var cfg := Config(1, 1, 1);
    events, sys := OneMissing(kms, cfg);
    events, sys := SendsFirst(kms, cfg, events, sys, 0);
    assert sys.sender == map[1 := Key(kms(1), 1)];
    events, sys := SendsFirst(kms, cfg, events, sys, 1);
    sys' := Next(kms, cfg, sys, Deliver);
    SpendsForeign(kms, cfg, sys, sys');
  }
}
