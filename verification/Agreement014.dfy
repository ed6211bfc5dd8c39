/**
 A QKDApp014 pair with its key managers and channels, one handler per step.

 Key managers answer the requests of one connection in order and hand out the same key
 under the same id on both sides; each id is handed out once.  Signalling is in order;
 data packets may be lost and overtake each other but are not duplicated.
 */
module Agreement014 {
  import opened Options
  import opened App014
  import KeyStream

  /** The settings both sides are started with, and the key under every key id. */
  datatype Config = Config(encryption: nat, authentication: nat, size: nat, lifetime: nat, secret: nat -> int)

  /** The reply of the slave to a proposal; the ids say which one it replies to. */
  datatype Answer = Answer(ids: seq<nat>, ok: bool)

  datatype System = System(
    master: App,
    slave: App,
    asked: seq<Kind>,          // enc_keys requests on their way
    proposals: seq<seq<nat>>,  // key ids on their way to the slave
    lookups: seq<seq<nat>>,    // dec_keys requests on their way
    answers: seq<Answer>,      // replies on their way to the master
    data: seq<Packet>,         // data packets on their way
    // history
    sent: seq<Packet>,
    delivered: seq<Packet>,
    issued: set<nat>,          // ids handed out to the master
    atSlave: set<nat>,         // ids whose key has reached the slave
    retired: set<nat>,         // keys the master erased when it used them
    rejected: set<nat>,        // keys erased because the slave could not get them
    denied: bool)              // some enc_keys request was denied

  datatype Event =
    | Manage | Transmit
    | Grant(ids: seq<nat>) | Deny
    | Propose | Lookup(ok: bool) | Reply
    | Deliver(i: nat) | Drop(i: nat)
    | StopMaster | StopSlave

  predicate Live(a: App) { a.state != STOPPED }

  predicate Distinct(ids: seq<nat>) {
    forall k :: k in ids ==> multiset(ids)[k] == 1
  }

  function SetOf(ids: seq<nat>): set<nat> {
    set k | k in ids
  }

  function KeysFor(c: Config, ids: seq<nat>): seq<Issued> {
    seq(|ids|, i requires 0 <= i < |ids| => Issued(ids[i], c.secret(ids[i])))
  }

  function Initial(c: Config): System {
    System(
      Started(App(true, INITIALIZED, c.encryption, c.authentication, c.size, c.lifetime,
                  map[], map[], map[], [], [], {})),
      Started(App(false, INITIALIZED, c.encryption, c.authentication, c.size, c.lifetime,
                  map[], map[], map[], [], [], {})),
      [], [], [], [], [], [], [], {}, {}, {}, {}, false)
  }

  predicate Enabled(s: System, e: Event) {
    match e
    case Manage | Transmit | StopMaster => Live(s.master)
    case Grant(ids) => Live(s.master) && s.asked != [] && ids != [] && Distinct(ids) && SetOf(ids) !! s.issued
    case Deny => Live(s.master) && s.asked != []
    case Propose => Live(s.slave) && s.proposals != []
    case Lookup(_) => Live(s.slave) && s.lookups != []
    case Reply => Live(s.master) && s.answers != []
    case Deliver(i) => Live(s.slave) && i < |s.data|
    case Drop(i) => i < |s.data|
    case StopSlave => Live(s.slave)
  }

  /** The requests a handler has added. */
  function Added(before: seq<Kind>, after: seq<Kind>): seq<Kind> {
    if |before| <= |after| then after[|before|..] else []
  }

  /** A packet leaves a master that becomes m. */
  function WithPacket(s: System, m: App): System {
    var p := PacketOf(s.master);
    s.(master := m, asked := s.asked + Added(s.master.kmsReq, m.kmsReq),
       data := s.data + [p], sent := s.sent + [p],
       retired := s.retired + ((s.master.enc.Keys + s.master.auth.Keys) - (m.enc.Keys + m.auth.Keys)))
  }

  function AfterTransmit(s: System): System {
    var m := Transmitted(s.master);
    if s.master.state == READY then WithPacket(s, m)
    else s.(master := m, asked := s.asked + Added(s.master.kmsReq, m.kmsReq))
  }

  function AfterGrant(c: Config, s: System, ids: seq<nat>): System
    requires s.asked != []
  {
    s.(master := Granted(s.master, KeysFor(c, ids)), asked := s.asked[1..],
       proposals := s.proposals + [ids], issued := s.issued + SetOf(ids))
  }

  function AfterLookup(c: Config, s: System, ok: bool): System
    requires s.lookups != []
  {
    var ids := s.lookups[0];
    s.(slave := if ok then LookedUp(s.slave, KeysFor(c, ids)) else s.slave,
       atSlave := if ok then s.atSlave + SetOf(ids) else s.atSlave,
       lookups := s.lookups[1..], answers := s.answers + [Answer(ids, ok)])
  }

  function AfterReply(s: System): System
    requires s.answers != []
  {
    var answer := s.answers[0];
    var m := Answered(s.master, answer.ok);
    s.(master := m, asked := s.asked + Added(s.master.kmsReq, m.kmsReq), answers := s.answers[1..],
       rejected := if answer.ok then s.rejected else s.rejected + SetOf(answer.ids))
  }

  function WithoutAt<T>(q: seq<T>, i: nat): seq<T>
    requires i < |q|
  {
    q[..i] + q[i + 1..]
  }

  function Next(c: Config, s: System, e: Event): System
    requires Enabled(s, e)
  {
    match e
    case Manage =>
      var m := Managed(s.master);
      s.(master := m, asked := s.asked + Added(s.master.kmsReq, m.kmsReq))
    case Transmit => AfterTransmit(s)
    case Grant(ids) => AfterGrant(c, s, ids)
    case Deny => s.(asked := s.asked[1..], denied := true)
    case Propose => s.(proposals := s.proposals[1..], lookups := s.lookups + [s.proposals[0]])
    case Lookup(ok) => AfterLookup(c, s, ok)
    case Reply => AfterReply(s)
    case Deliver(i) =>
      s.(slave := Received(s.slave, s.data[i]), data := WithoutAt(s.data, i), delivered := s.delivered + [s.data[i]])
    case Drop(i) => s.(data := WithoutAt(s.data, i))
    case StopMaster => s.(master := Stopped(s.master))
    case StopSlave => s.(slave := Stopped(s.slave))
  }

  // ----- Counting uses

  function One(id: Option<nat>, k: nat): nat {
    if id == Some(k) then 1 else 0
  }

  function UsesOf(p: Packet, k: nat): nat {
    One(p.encId, k) + One(p.authId, k)
  }

  /** How often packets name key k. */
  function Uses(ps: seq<Packet>, k: nat): nat {
    if ps == [] then 0 else Uses(ps[..|ps| - 1], k) + UsesOf(ps[|ps| - 1], k)
  }

  lemma {:induction false} UsesAppend(ps: seq<Packet>, p: Packet, k: nat)
    ensures Uses(ps + [p], k) == Uses(ps, k) + UsesOf(p, k)
  {
    assert (ps + [p])[..|ps|] == ps;
  }

  lemma {:induction false} UsesWithout(ps: seq<Packet>, i: nat, k: nat)
    requires i < |ps|
    ensures Uses(WithoutAt(ps, i), k) + UsesOf(ps[i], k) == Uses(ps, k)
  {
    var front, last := ps[..|ps| - 1], ps[|ps| - 1];
    if i < |front| {
      UsesWithout(front, i, k);
      assert WithoutAt(ps, i) == WithoutAt(front, i) + [last];
      UsesAppend(WithoutAt(front, i), last, k);
    } else {
      assert WithoutAt(ps, i) == front;
    }
  }

  /** What is left of a key's lifetime after n packets; None once it has been erased. */
  function Life(c: Config, n: nat): Option<nat> {
    if n == 0 then Some(c.lifetime)
    else
      match Life(c, n - 1)
      case None => None
      case Some(left) =>
        if Worn(c.encryption, c.size, StoredKey(Encryption, left, 0)) then None
        else Some(KeyStream.Charge(left, c.size))
  }

  lemma {:induction false} LifeShrinks(c: Config, m: nat, n: nat)
    requires m <= n && Life(c, n).Some?
    ensures Life(c, m).Some?
  {
    if m < n {
      LifeShrinks(c, m, n - 1);
    }
  }

  lemma {:induction false} OnlyAesWears(c: Config, n: nat)
    requires c.encryption != 2
    ensures Life(c, n).Some?
  {
    if n > 0 {
      OnlyAesWears(c, n - 1);
    }
  }

  // ----- The invariant

  function Flat(q: seq<seq<nat>>): seq<nat> {
    if q == [] then [] else q[0] + Flat(q[1..])
  }

  lemma {:induction false} FlatAppend(q: seq<seq<nat>>, r: seq<seq<nat>>)
    ensures Flat(q + r) == Flat(q) + Flat(r)
  {
    if q == [] {
      assert q + r == r;
    } else {
      FlatAppend(q[1..], r);
      assert (q + r)[0] == q[0] && (q + r)[1..] == q[1..] + r;
      assert q[0] + (Flat(q[1..]) + Flat(r)) == q[0] + Flat(q[1..]) + Flat(r);
    }
  }

  function AnswerIds(answers: seq<Answer>): seq<seq<nat>> {
    seq(|answers|, i requires 0 <= i < |answers| => answers[i].ids)
  }

  /** At a handler boundary the master waits, is ready with every key it needs, or has
      stopped; nothing has gone wrong. */
  predicate MasterOk(c: Config, m: App) {
    && m.master && m.encryption == c.encryption && m.authentication == c.authentication
    && m.size == c.size && m.aesLifetime == c.lifetime
    && m.faults == {}
    && (m.state == WAIT || m.state == READY || m.state == STOPPED)
    && (m.state == READY ==> Supplied(m))
    && (forall i :: 0 <= i < |m.kmsReq| ==> KeySize(m, m.kmsReq[i]) != 0)
  }

  predicate SlaveOk(c: Config, a: App) {
    !a.master && a.aesLifetime == c.lifetime && a.faults == {} && (a.state == READY || a.state == STOPPED)
  }

  /** The queues of the master list what is under way, oldest first. */
  predicate Queues(s: System) {
    && s.master.appReq == AnswerIds(s.answers) + s.lookups + s.proposals
    && (forall i :: 0 <= i < |s.master.appReq| ==> s.master.appReq[i] != [])
    && |s.asked| <= |s.master.kmsReq|
    && (if s.denied then |s.asked| < |s.master.kmsReq| else s.asked == s.master.kmsReq)
  }

  /** Only keys that are needed are asked for. */
  predicate AskedOk(c: Config, asked: seq<Kind>) {
    forall i :: 0 <= i < |asked| ==> KindSize(c, asked[i]) != 0
  }

  function KindSize(c: Config, kind: Kind): nat {
    if kind == Encryption then EncryptionKeySize(c.encryption, c.size) else AuthenticationKeySize(c.authentication)
  }

  /** In how many places key k is. */
  function PlaceCount(m: App, retired: set<nat>, rejected: set<nat>, k: nat): nat {
    (if k in m.common then 1 else 0) + (if k in m.enc then 1 else 0) + (if k in m.auth then 1 else 0)
    + (if k in retired then 1 else 0) + (if k in rejected then 1 else 0)
  }

  function Places(s: System, k: nat): nat {
    PlaceCount(s.master, s.retired, s.rejected, k)
  }

  ghost predicate KeysPlaced(m: App, retired: set<nat>, rejected: set<nat>, issued: set<nat>) {
    && (forall k :: PlaceCount(m, retired, rejected, k) == if k in issued then 1 else 0)
    && (forall k :: multiset(Flat(m.appReq))[k] == if k in m.common then 1 else 0)
  }

  /** Every key ever issued is in exactly one place; the common store holds exactly the
      keys of the pending proposals, each proposed once. */
  ghost predicate Placed(s: System) {
    KeysPlaced(s.master, s.retired, s.rejected, s.issued)
  }

  /** A store of the master: kinds the settings need keys of, the key manager's keys. */
  predicate StoreOk(c: Config, m: App, store: Store) {
    forall k :: k in store ==> KeySize(m, store[k].kind) != 0 && store[k].secret == c.secret(k)
  }

  predicate KindOk(store: Store, kind: Kind) {
    forall k :: k in store ==> store[k].kind == kind
  }

  predicate Filed(c: Config, m: App) {
    && StoreOk(c, m, m.common) && StoreOk(c, m, m.enc) && StoreOk(c, m, m.auth)
    && KindOk(m.enc, Encryption) && KindOk(m.auth, Authentication)
  }

  /** Key k at the master has been used n times so far. */
  predicate KeyOk(c: Config, m: App, k: nat, n: nat) {
    && (k in m.enc && c.encryption == 2 ==> Life(c, n) == Some(m.enc[k].lifetime))
    && (k in m.auth ==> n == 0)
    && (k in m.common ==> n == 0)
    && (k in m.common && c.encryption == 2 && m.common[k].kind == Encryption ==> m.common[k].lifetime == c.lifetime)
    && (n > 0 ==> Life(c, n - 1).Some?)
  }

  ghost predicate KeysUsedWell(c: Config, m: App, sent: seq<Packet>, atSlave: set<nat>) {
    && (forall k :: KeyOk(c, m, k, Uses(sent, k)))
    && (forall k :: Uses(sent, k) > 0 ==> k in atSlave)
    && m.enc.Keys <= atSlave && m.auth.Keys <= atSlave
  }

  predicate AnswersTrue(answers: seq<Answer>, atSlave: set<nat>) {
    forall i :: 0 <= i < |answers| && answers[i].ok ==> SetOf(answers[i].ids) <= atSlave
  }

  /** Keys are used within their lifetime, and only keys the slave has been given. */
  ghost predicate UsedWell(c: Config, s: System) {
    KeysUsedWell(c, s.master, s.sent, s.atSlave) && AnswersTrue(s.answers, s.atSlave)
  }

  predicate NewToSlave(ids: seq<nat>, atSlave: set<nat>, issued: set<nat>) {
    Distinct(ids) && SetOf(ids) !! atSlave && SetOf(ids) <= issued && atSlave <= issued
  }

  /** What the slave has yet to look up is new to it. */
  predicate Unseen(s: System) {
    NewToSlave(Flat(s.lookups + s.proposals), s.atSlave, s.issued)
  }

  /** The slave's store after n uses of key k. */
  predicate SlaveKeyOk(c: Config, store: Store, atSlave: set<nat>, k: nat, n: nat) {
    && (k in store <==> k in atSlave && Life(c, n).Some?)
    && (k in store ==> store[k] == StoredKey(Encryption, Life(c, n).value, c.secret(k)))
  }

  ghost predicate StoreHolds(c: Config, store: Store, atSlave: set<nat>, delivered: seq<Packet>) {
    forall k: nat :: SlaveKeyOk(c, store, atSlave, k, Uses(delivered, k))
  }

  ghost predicate SlaveHolds(c: Config, s: System) {
    StoreHolds(c, s.slave.common, s.atSlave, s.delivered)
  }

  predicate PacketOk(c: Config, p: Packet) {
    && p.encryption == c.encryption && p.authentication == c.authentication && p.size == c.size
    && (p.encId.Some? <==> c.encryption != 0)
    && (p.authId.Some? <==> AuthenticationKeySize(c.authentication) != 0)
  }

  ghost predicate PacketsOk(c: Config, sent: seq<Packet>, data: seq<Packet>, delivered: seq<Packet>) {
    && (forall k :: Uses(delivered, k) + Uses(data, k) <= Uses(sent, k))
    && (forall i :: 0 <= i < |data| ==> PacketOk(c, data[i]))
  }

  /** No packet is duplicated. */
  ghost predicate Channel(c: Config, s: System) {
    PacketsOk(c, s.sent, s.data, s.delivered)
  }

  ghost predicate Inv(c: Config, s: System) {
    && MasterOk(c, s.master) && SlaveOk(c, s.slave)
    && Unseen(s) && Channel(c, s) && AskedOk(c, s.asked)
    && (Live(s.master) ==> Queues(s) && Placed(s) && Filed(c, s.master))
    && UsedWell(c, s)
    && (Live(s.slave) ==> SlaveHolds(c, s))
  }
}
