/**
 Every step of the system of module Agreement014 keeps its invariant.
 */
module AgreementSteps {
  import opened Options
  import opened App014
  import opened Agreement014
  import opened OrderedKeys

  /** Settings that encrypt without ever asking for an encryption key. */
  predicate Keyless(c: Config) {
    c.encryption != 0 && EncryptionKeySize(c.encryption, c.size) == 0
  }

  // ----- The master alone

  lemma RequestedIs(a: App, kind: Kind, store: Store, r: App)
    requires r == RequestedIfDry(a, kind, store)
    ensures r == a.(kmsReq := r.kmsReq)
    ensures r.kmsReq == a.kmsReq || (r.kmsReq == a.kmsReq + [kind] && KeySize(a, kind) != 0)
  {
  }

  lemma CheckedIs(a: App, r: App)
    requires a.state == WAIT || a.state == READY || a.state == STOPPED
    requires r == Checked(a)
    ensures r == a.(state := r.state)
    ensures r.state == STOPPED <==> a.state == STOPPED
    ensures r.state == WAIT || r.state == READY || r.state == STOPPED
    ensures r.state == READY ==> Supplied(r)
  {
  }

  lemma ManagedIs(a: App, r: App)
    requires a.master && (a.state == WAIT || a.state == READY || a.state == STOPPED)
    requires r == Managed(a)
    ensures r == a.(state := r.state, kmsReq := r.kmsReq)
    ensures r.state == STOPPED <==> a.state == STOPPED
    ensures r.state == WAIT || r.state == READY || r.state == STOPPED
    ensures r.state == READY ==> Supplied(r)
    ensures r.kmsReq == a.kmsReq + Added(a.kmsReq, r.kmsReq)
    ensures forall i :: |a.kmsReq| <= i < |r.kmsReq| ==> KeySize(a, r.kmsReq[i]) != 0
  {
    var e := RequestedIfDry(a, Encryption, a.enc);
    var b := RequestedIfDry(e, Authentication, a.auth);
    RequestedIs(a, Encryption, a.enc, e);
    RequestedIs(e, Authentication, a.auth, b);
    CheckedIs(b, r);
  }

  /** What sending a packet makes of a READY master with the keys it needs. */
  predicate SentOne(c: Config, a: App, r: App) {
    && r == a.(state := r.state, kmsReq := r.kmsReq, enc := r.enc, auth := r.auth)
    && r.kmsReq == a.kmsReq + Added(a.kmsReq, r.kmsReq)
    && (if c.encryption == 0 then r.enc == a.enc
        else a.enc != map[] && r.enc == UsedUp(a.enc, Least(a.enc.Keys), c.encryption, c.size))
    && (if AuthenticationKeySize(c.authentication) == 0 then r.auth == a.auth
        else a.auth != map[] && r.auth == a.auth - {Least(a.auth.Keys)})
  }

  lemma SecuredIs(c: Config, a: App, r: App)
    requires a.faults == {} && Supplied(a) && r == Secured(a)
    requires a.encryption == c.encryption && a.authentication == c.authentication && a.size == c.size && !Keyless(c)
    ensures r.state == a.state && SentOne(c, a, r)
  {
  }

  /** A READY master that is not keyless sends under real keys and is at a boundary again. */
  lemma TransmittedIs(c: Config, a: App, r: App)
    requires MasterOk(c, a) && a.state == READY && !Keyless(c) && r == Transmitted(a)
    ensures MasterOk(c, r) && Live(r) && SentOne(c, a, r)
  {
    var b := a.(state := SEND_DATA);
    var e := Secured(b);
    SecuredIs(c, b, e);
    var d := e.(state := READY);
    assert r == Managed(d);
    ManagedIs(d, r);
  }

  lemma MasterAfterManage(c: Config, a: App, r: App)
    requires MasterOk(c, a) && r == Managed(a)
    ensures MasterOk(c, r)
  {
    ManagedIs(a, r);
  }

  /** What a handler asks for is needed. */
  lemma AskedKeeps(c: Config, asked: seq<Kind>, before: seq<Kind>, m: App)
    requires AskedOk(c, asked) && MasterOk(c, m) && m.kmsReq == before + Added(before, m.kmsReq)
    ensures AskedOk(c, asked + Added(before, m.kmsReq))
  {
    var more := Added(before, m.kmsReq);
    forall i | 0 <= i < |more| ensures KindSize(c, more[i]) != 0 {
      assert more[i] == m.kmsReq[|before| + i] && KeySize(m, more[i]) != 0;
    }
  }

  // ----- Keys the master uses

  lemma UsedUpKey(c: Config, s: Store, f: nat, k: nat, n: nat, r: Store)
    requires f in s && r == UsedUp(s, f, c.encryption, c.size)
    requires s[f].kind == Encryption
    requires k in s && c.encryption == 2 ==> Life(c, n) == Some(s[k].lifetime)
    ensures k in r ==> k in s
    ensures k in r && c.encryption == 2 ==> Life(c, if k == f then n + 1 else n) == Some(r[k].lifetime)
  {
  }

  /** What one packet does to key k: its count, its lifetime and its place. */
  lemma SentUses(c: Config, a: App, r: App, k: nat, n: nat)
    requires MasterOk(c, a) && SentOne(c, a, r)
    requires KindOk(a.enc, Encryption) && !(k in a.enc && k in a.auth) && KeyOk(c, a, k, n)
    requires k in a.enc || k in a.auth ==> k !in a.common
    ensures KeyOk(c, r, k, n + UsesOf(PacketOf(a), k))
    ensures UsesOf(PacketOf(a), k) > 0 ==> k in a.enc || k in a.auth
  {
    if c.encryption != 0 {
      UsedUpKey(c, a.enc, Least(a.enc.Keys), k, n, r.enc);
    }
    if c.encryption != 2 {
      OnlyAesWears(c, n);
    }
  }

  lemma {:induction false} SentUsesKey(c: Config, a: App, r: App, k: nat, sent: seq<Packet>)
    requires MasterOk(c, a) && SentOne(c, a, r)
    requires KindOk(a.enc, Encryption) && !(k in a.enc && k in a.auth) && KeyOk(c, a, k, Uses(sent, k))
    requires k in a.enc || k in a.auth ==> k !in a.common
    ensures KeyOk(c, r, k, Uses(sent + [PacketOf(a)], k))
    ensures Uses(sent + [PacketOf(a)], k) > 0 ==> Uses(sent, k) > 0 || k in a.enc || k in a.auth
  {
    UsesAppend(sent, PacketOf(a), k);
    SentUses(c, a, r, k, Uses(sent, k));
  }

  lemma UsedUpStore(c: Config, a: App, f: nat, r: Store)
    requires f in a.enc && r == UsedUp(a.enc, f, c.encryption, c.size)
    requires StoreOk(c, a, a.enc) && KindOk(a.enc, Encryption)
    ensures StoreOk(c, a, r) && KindOk(r, Encryption) && r.Keys <= a.enc.Keys
  {
  }

  lemma SameSettings(c: Config, a: App, r: App, store: Store)
    requires StoreOk(c, a, store)
    requires r.encryption == a.encryption && r.authentication == a.authentication && r.size == a.size
    ensures StoreOk(c, r, store)
  {
    forall k | k in store ensures KeySize(r, store[k].kind) != 0 && store[k].secret == c.secret(k) {
      assert KeySize(a, store[k].kind) != 0;
    }
  }

  lemma SentStores(c: Config, a: App, r: App)
    requires SentOne(c, a, r) && Filed(c, a)
    ensures Filed(c, r) && r.enc.Keys <= a.enc.Keys && r.auth.Keys <= a.auth.Keys && r.common == a.common
  {
    if c.encryption != 0 {
      UsedUpStore(c, a, Least(a.enc.Keys), r.enc);
    }
    SameSettings(c, a, r, r.common);
    SameSettings(c, a, r, r.enc);
    SameSettings(c, a, r, r.auth);
  }

  lemma SentUsed(c: Config, s: System, m: App)
    requires MasterOk(c, s.master) && Filed(c, s.master) && Placed(s) && UsedWell(c, s)
    requires SentOne(c, s.master, m)
    ensures KeysUsedWell(c, m, s.sent + [PacketOf(s.master)], s.atSlave)
  {
    forall k
      ensures KeyOk(c, m, k, Uses(s.sent + [PacketOf(s.master)], k))
      ensures Uses(s.sent + [PacketOf(s.master)], k) > 0 ==> k in s.atSlave
    {
      assert PlaceCount(s.master, s.retired, s.rejected, k) == if k in s.issued then 1 else 0;
      assert KeyOk(c, s.master, k, Uses(s.sent, k));
      SentUsesKey(c, s.master, m, k, s.sent);
    }
    SentStores(c, s.master, m);
  }

  lemma SentPlace(s: System, m: App, k: nat)
    requires m.enc.Keys <= s.master.enc.Keys && m.auth.Keys <= s.master.auth.Keys && m.common == s.master.common
    requires Places(s, k) <= 1
    ensures Places(WithPacket(s, m), k) == Places(s, k)
  {
  }

  lemma SentPlaces(c: Config, s: System, m: App, t: System)
    requires Filed(c, s.master) && Placed(s)
    requires SentOne(c, s.master, m) && t == WithPacket(s, m)
    ensures Placed(t)
  {
    SentStores(c, s.master, m);
    forall k ensures Places(t, k) == if k in t.issued then 1 else 0 {
      assert Places(s, k) == if k in s.issued then 1 else 0;
      SentPlace(s, m, k);
    }
  }

  lemma SentQueues(c: Config, s: System, m: App, t: System)
    requires Queues(s) && SentOne(c, s.master, m) && t == WithPacket(s, m)
    ensures Queues(t)
  {
  }

  lemma SentChannel(c: Config, s: System, m: App, t: System)
    requires MasterOk(c, s.master) && Channel(c, s) && SentOne(c, s.master, m) && t == WithPacket(s, m)
    ensures Channel(c, t)
  {
    forall k ensures Uses(t.delivered, k) + Uses(t.data, k) <= Uses(t.sent, k) {
      UsesAppend(s.sent, PacketOf(s.master), k);
      UsesAppend(s.data, PacketOf(s.master), k);
    }
  }

  lemma TransmitKeeps(c: Config, s: System, m: App, t: System)
    requires Inv(c, s) && s.master.state == READY && !Keyless(c)
    requires m == Transmitted(s.master) && t == WithPacket(s, m)
    ensures Inv(c, t)
  {
    TransmittedIs(c, s.master, m);
    SentStores(c, s.master, m);
    SentUsed(c, s, m);
    SentPlaces(c, s, m, t);
    SentQueues(c, s, m, t);
    AskedKeeps(c, s.asked, s.master.kmsReq, m);
    SentChannel(c, s, m, t);
  }

  // ----- Key ids in sequences

  lemma {:induction false} FlatOne(q: seq<seq<nat>>, ids: seq<nat>)
    ensures Flat(q + [ids]) == Flat(q) + ids
  {
    FlatAppend(q, [ids]);
    assert [ids][1..] == [];
  }

  // ----- Granted requests

  lemma KeysForIds(c: Config, ids: seq<nat>)
    ensures Ids(KeysFor(c, ids)) == ids
    ensures forall k, x :: Issued(k, x) in KeysFor(c, ids) ==> k in ids && x == c.secret(k)
  {
  }

  lemma {:induction false} StoredFor(c: Config, s: Store, ids: seq<nat>, kind: Kind, lifetime: nat, r: Store)
    requires r == Stored(s, KeysFor(c, ids), kind, lifetime)
    ensures r.Keys == s.Keys + SetOf(ids)
    ensures forall k :: k in r ==> r[k] == if k in s then s[k] else StoredKey(kind, lifetime, c.secret(k))
  {
    KeysForIds(c, ids);
    StoredIs(s, KeysFor(c, ids), kind, lifetime, r);
  }

  /** The common store r after keys with these ids have been added to store s. */
  predicate GrantedStore(c: Config, a: App, kind: Kind, s: Store, ids: seq<nat>, r: Store) {
    && r.Keys == s.Keys + SetOf(ids)
    && (forall k :: k in r ==>
          if k in s then r[k] == s[k]
          else r[k] == StoredKey(kind, if kind == Encryption && c.encryption == 2 then c.lifetime else c.size,
                                 c.secret(k)))
  }

  lemma GrantedIs(c: Config, a: App, ids: seq<nat>, r: App)
    requires MasterOk(c, a) && a.kmsReq != [] && r == Granted(a, KeysFor(c, ids))
    ensures r == a.(kmsReq := a.kmsReq[1..], common := r.common, appReq := a.appReq + [ids])
    ensures GrantedStore(c, a, a.kmsReq[0], a.common, ids, r.common)
    ensures MasterOk(c, r)
  {
    var kind := a.kmsReq[0];
    StoredFor(c, a.common, ids, kind,
              if kind == Encryption && a.encryption == 2 then a.aesLifetime else a.size, r.common);
    KeysForIds(c, ids);
  }

  lemma GrantFiled(c: Config, a: App, ids: seq<nat>, r: App)
    requires a.kmsReq != [] && KeySize(a, a.kmsReq[0]) != 0 && Filed(c, a)
    requires GrantedStore(c, a, a.kmsReq[0], a.common, ids, r.common)
    requires r == a.(kmsReq := a.kmsReq[1..], common := r.common, appReq := a.appReq + [ids])
    ensures Filed(c, r)
  {
    SameSettings(c, a, r, r.enc);
    SameSettings(c, a, r, r.auth);
    SameSettings(c, a, r, a.common);
    assert KeySize(a, a.kmsReq[0]) == KeySize(r, a.kmsReq[0]);
  }

  lemma GrantPlace(m: App, r: App, s: System, ids: seq<nat>, k: nat)
    requires r.enc == m.enc && r.auth == m.auth && r.common.Keys == m.common.Keys + SetOf(ids)
    requires PlaceCount(m, s.retired, s.rejected, k) == if k in s.issued then 1 else 0
    requires SetOf(ids) !! s.issued
    ensures PlaceCount(r, s.retired, s.rejected, k) == if k in s.issued + SetOf(ids) then 1 else 0
    ensures k in r.common <==> k in m.common || k in ids
    ensures k in ids ==> k !in m.common
  {
    assert k in ids <==> k in SetOf(ids);
    assert k in r.common <==> k in r.common.Keys;
  }

  lemma GrantPlaces(s: System, ids: seq<nat>, r: App)
    requires Placed(s) && SetOf(ids) !! s.issued && Distinct(ids)
    requires r.enc == s.master.enc && r.auth == s.master.auth
    requires r.common.Keys == s.master.common.Keys + SetOf(ids) && r.appReq == s.master.appReq + [ids]
    ensures KeysPlaced(r, s.retired, s.rejected, s.issued + SetOf(ids))
  {
    FlatOne(s.master.appReq, ids);
    forall k
      ensures PlaceCount(r, s.retired, s.rejected, k) == if k in s.issued + SetOf(ids) then 1 else 0
      ensures multiset(Flat(r.appReq))[k] == if k in r.common then 1 else 0
    {
      GrantPlace(s.master, r, s, ids, k);
    }
  }

  lemma GrantUsed(c: Config, s: System, ids: seq<nat>, t: System)
    requires s.master.kmsReq != [] && UsedWell(c, s) && s.atSlave <= s.issued
    requires SetOf(ids) !! s.issued
    requires GrantedStore(c, s.master, s.master.kmsReq[0], s.master.common, ids, t.master.common)
    requires t.master == s.master.(kmsReq := s.master.kmsReq[1..], common := t.master.common,
                                   appReq := s.master.appReq + [ids])
    requires t == s.(master := t.master, asked := t.asked, proposals := s.proposals + [ids],
                     issued := s.issued + SetOf(ids))
    ensures UsedWell(c, t)
  {
    forall k ensures KeyOk(c, t.master, k, Uses(t.sent, k)) {
      assert KeyOk(c, s.master, k, Uses(s.sent, k));
    }
  }

  lemma GrantUnseen(s: System, ids: seq<nat>, t: System)
    requires Unseen(s) && SetOf(ids) !! s.issued && Distinct(ids)
    requires t.lookups == s.lookups && t.proposals == s.proposals + [ids]
    requires t.atSlave == s.atSlave && t.issued == s.issued + SetOf(ids)
    ensures Unseen(t)
  {
    FlatOne(s.lookups + s.proposals, ids);
    assert t.lookups + t.proposals == s.lookups + s.proposals + [ids];
    var before, after := Flat(s.lookups + s.proposals), Flat(t.lookups + t.proposals);
    forall k | k in after ensures multiset(after)[k] == 1 && k !in t.atSlave && k in t.issued {
      assert k in before ==> k in SetOf(before);
      assert k in ids ==> k in SetOf(ids);
    }
  }

  lemma GrantKeeps(c: Config, s: System, ids: seq<nat>, t: System)
    requires Inv(c, s) && Enabled(s, Grant(ids)) && t == AfterGrant(c, s, ids)
    ensures Inv(c, t)
  {
    GrantedIs(c, s.master, ids, t.master);
    GrantFiled(c, s.master, ids, t.master);
    GrantPlaces(s, ids, t.master);
    GrantUsed(c, s, ids, t);
    GrantUnseen(s, ids, t);
    GrantQueues(s, ids, t);
  }

  lemma GrantQueues(s: System, ids: seq<nat>, t: System)
    requires Queues(s) && s.asked != [] && ids != []
    requires t.master.kmsReq == s.master.kmsReq[1..] && t.master.appReq == s.master.appReq + [ids]
    requires t == s.(master := t.master, asked := s.asked[1..], proposals := s.proposals + [ids], issued := t.issued)
    ensures Queues(t)
  {
  }

  // ----- Proposals and lookups

  lemma ProposeKeeps(c: Config, s: System, t: System)
    requires Inv(c, s) && Enabled(s, Propose) && t == Next(c, s, Propose)
    ensures Inv(c, t)
  {
    assert t.lookups + t.proposals == s.lookups + s.proposals;
    assert AnswerIds(t.answers) + t.lookups + t.proposals == AnswerIds(s.answers) + s.lookups + s.proposals;
  }

  lemma LookupUnseen(s: System, ok: bool, t: System)
    requires Unseen(s) && s.lookups != []
    requires t.lookups == s.lookups[1..] && t.proposals == s.proposals && t.issued == s.issued
    requires t.atSlave == if ok then s.atSlave + SetOf(s.lookups[0]) else s.atSlave
    ensures Unseen(t)
    ensures SetOf(s.lookups[0]) !! s.atSlave
  {
    var ids := s.lookups[0];
    var before, after := Flat(s.lookups + s.proposals), Flat(t.lookups + t.proposals);
    assert (s.lookups + s.proposals)[1..] == t.lookups + t.proposals;
    assert before == ids + after;
    forall k
      ensures k in after ==> multiset(after)[k] == 1 && k !in t.atSlave && k in t.issued
      ensures k in SetOf(ids) ==> k in s.issued && k !in s.atSlave
    {
      assert k in before <==> k in SetOf(before);
      assert k in ids <==> k in SetOf(ids);
    }
  }

  lemma LookupQueues(s: System, ok: bool, t: System)
    requires Queues(s) && s.lookups != []
    requires t.master == s.master && t.asked == s.asked && t.denied == s.denied && t.proposals == s.proposals
    requires t.lookups == s.lookups[1..] && t.answers == s.answers + [Answer(s.lookups[0], ok)]
    ensures Queues(t)
  {
    assert AnswerIds(t.answers) == AnswerIds(s.answers) + [s.lookups[0]];
    assert AnswerIds(t.answers) + t.lookups + t.proposals == AnswerIds(s.answers) + s.lookups + s.proposals;
  }

  lemma LookupHolds(c: Config, s: System, t: System)
    requires SlaveOk(c, s.slave) && SlaveHolds(c, s) && UsedWell(c, s) && Channel(c, s)
    requires s.lookups != [] && SetOf(s.lookups[0]) !! s.atSlave
    requires t.slave == LookedUp(s.slave, KeysFor(c, s.lookups[0])) && t.delivered == s.delivered
    requires t.atSlave == s.atSlave + SetOf(s.lookups[0])
    ensures SlaveHolds(c, t)
  {
    StoredFor(c, s.slave.common, s.lookups[0], Encryption, s.slave.aesLifetime, t.slave.common);
    forall k ensures SlaveKeyOk(c, t.slave.common, t.atSlave, k, Uses(t.delivered, k)) {
      assert SlaveKeyOk(c, s.slave.common, s.atSlave, k, Uses(s.delivered, k));
      assert Uses(s.delivered, k) + Uses(s.data, k) <= Uses(s.sent, k);
      assert Uses(s.sent, k) > 0 ==> k in s.atSlave;
    }
  }

  lemma LookupKeeps(c: Config, s: System, ok: bool, t: System)
    requires Inv(c, s) && Enabled(s, Lookup(ok)) && t == AfterLookup(c, s, ok)
    ensures Inv(c, t)
  {
    LookupUnseen(s, ok, t);
    if Live(s.master) {
      LookupQueues(s, ok, t);
    }
    if ok {
      LookupHolds(c, s, t);
    }
    LookupUsed(c, s, ok, t);
  }

  lemma LookupUsed(c: Config, s: System, ok: bool, t: System)
    requires UsedWell(c, s) && s.lookups != [] && t == AfterLookup(c, s, ok)
    ensures UsedWell(c, t)
  {
  }

  // ----- Replies

  lemma ConfirmedIs(c: Config, a: App, ids: seq<nat>, r: App)
    requires MasterOk(c, a) && a.appReq != [] && a.appReq[0] == ids && r == Answered(a, true)
    ensures MasterOk(c, r) && (Live(r) <==> Live(a))
    ensures r == a.(state := r.state, appReq := a.appReq[1..], common := Without(a.common, ids),
                    enc := Picked(a.common, ids, Encryption) + a.enc,
                    auth := Picked(a.common, ids, Authentication) + a.auth)
  {
    var b := a.(appReq := a.appReq[1..]);
    MovedIs(b, ids);
    CheckedIs(Moved(b, ids), r);
  }

  lemma RefusedIs(c: Config, a: App, ids: seq<nat>, r: App)
    requires MasterOk(c, a) && Filed(c, a) && a.appReq != [] && a.appReq[0] == ids && r == Answered(a, false)
    requires ids != [] && ids[0] in a.common
    ensures MasterOk(c, r) && r.state == a.state
    ensures r == a.(appReq := a.appReq[1..], common := Without(a.common, ids), kmsReq := r.kmsReq)
    ensures r.kmsReq == a.kmsReq + Added(a.kmsReq, r.kmsReq)
  {
    var kind := LastKind(a.common, ids);
    var k :| k in ids && k in a.common && a.common[k].kind == kind;
    assert KeySize(a, a.common[k].kind) != 0;
  }

  /** The reply is to the oldest proposal, whose keys are all in the common store. */
  lemma ReplyTo(s: System)
    requires Queues(s) && Placed(s) && s.answers != []
    ensures s.master.appReq != [] && s.master.appReq[0] == s.answers[0].ids && s.answers[0].ids != []
    ensures multiset(Flat(s.master.appReq)) == multiset(s.answers[0].ids) + multiset(Flat(s.master.appReq[1..]))
    ensures forall k :: k in s.answers[0].ids ==> k in s.master.common
  {
    assert s.master.appReq[0] == AnswerIds(s.answers)[0];
    var ids := s.answers[0].ids;
    assert Flat(s.master.appReq) == ids + Flat(s.master.appReq[1..]);
    forall k | k in ids ensures k in s.master.common {
      assert multiset(ids)[k] > 0;
    }
  }

  lemma ReplyPlaces(s: System, t: System)
    requires Queues(s) && Placed(s) && s.answers != []
    requires t.master == s.master.(state := t.master.state, kmsReq := t.master.kmsReq, appReq := s.master.appReq[1..],
                                   common := Without(s.master.common, s.answers[0].ids),
                                   enc := t.master.enc, auth := t.master.auth)
    requires t.issued == s.issued && t.retired == s.retired
    requires if s.answers[0].ok then
               && t.rejected == s.rejected
               && t.master.enc == Picked(s.master.common, s.answers[0].ids, Encryption) + s.master.enc
               && t.master.auth == Picked(s.master.common, s.answers[0].ids, Authentication) + s.master.auth
             else t.rejected == s.rejected + SetOf(s.answers[0].ids)
                  && t.master.enc == s.master.enc && t.master.auth == s.master.auth
    ensures Placed(t)
  {
    ReplyTo(s);
    var ids := s.answers[0].ids;
    forall k
      ensures Places(t, k) == if k in t.issued then 1 else 0
      ensures multiset(Flat(t.master.appReq))[k] == if k in t.master.common then 1 else 0
    {
      assert Places(s, k) == if k in s.issued then 1 else 0;
      assert multiset(Flat(s.master.appReq))[k] == multiset(ids)[k] + multiset(Flat(s.master.appReq[1..]))[k];
      assert k in SetOf(ids) <==> k in ids;
    }
  }

  lemma ReplyQueues(s: System, t: System)
    requires Queues(s) && s.answers != []
    requires t.master.appReq == s.master.appReq[1..] && t.answers == s.answers[1..]
    requires t.lookups == s.lookups && t.proposals == s.proposals && t.denied == s.denied
    requires t.master.kmsReq == s.master.kmsReq + Added(s.master.kmsReq, t.master.kmsReq)
    requires t.asked == s.asked + Added(s.master.kmsReq, t.master.kmsReq)
    ensures Queues(t)
  {
    assert AnswerIds(s.answers) == [s.answers[0].ids] + AnswerIds(t.answers);
  }

  lemma PickedOk(c: Config, a: App, ids: seq<nat>, kind: Kind, store: Store, r: Store)
    requires StoreOk(c, a, a.common) && StoreOk(c, a, store) && KindOk(store, kind)
    requires r == Picked(a.common, ids, kind) + store
    ensures StoreOk(c, a, r) && KindOk(r, kind)
  {
  }

  lemma ConfirmedFiled(c: Config, a: App, ids: seq<nat>, r: App)
    requires Filed(c, a)
    requires r == a.(state := r.state, appReq := r.appReq, common := Without(a.common, ids),
                     enc := Picked(a.common, ids, Encryption) + a.enc,
                     auth := Picked(a.common, ids, Authentication) + a.auth)
    ensures Filed(c, r)
  {
    PickedOk(c, a, ids, Encryption, a.enc, r.enc);
    PickedOk(c, a, ids, Authentication, a.auth, r.auth);
    SameSettings(c, a, r, r.enc);
    SameSettings(c, a, r, r.auth);
    SameSettings(c, a, r, a.common);
  }

  lemma ConfirmedUsed(c: Config, s: System, t: System)
    requires UsedWell(c, s) && Placed(s) && s.answers != [] && s.answers[0].ok
    requires t.master == s.master.(state := t.master.state, appReq := t.master.appReq,
                                   common := Without(s.master.common, s.answers[0].ids),
                                   enc := Picked(s.master.common, s.answers[0].ids, Encryption) + s.master.enc,
                                   auth := Picked(s.master.common, s.answers[0].ids, Authentication) + s.master.auth)
    requires t.sent == s.sent && t.atSlave == s.atSlave && t.answers == s.answers[1..]
    ensures UsedWell(c, t)
  {
    var ids := s.answers[0].ids;
    forall k ensures KeyOk(c, t.master, k, Uses(t.sent, k)) {
      assert KeyOk(c, s.master, k, Uses(s.sent, k));
    }
    forall k | k in t.master.enc || k in t.master.auth ensures k in t.atSlave {
      assert k in ids ==> k in SetOf(ids);
    }
  }

  lemma RefusedFiled(c: Config, s: System, t: System)
    requires Filed(c, s.master) && UsedWell(c, s) && s.answers != []
    requires t.master == s.master.(appReq := t.master.appReq, kmsReq := t.master.kmsReq,
                                   common := Without(s.master.common, s.answers[0].ids))
    requires t.sent == s.sent && t.atSlave == s.atSlave && t.answers == s.answers[1..]
    ensures Filed(c, t.master) && UsedWell(c, t)
  {
    SameSettings(c, s.master, t.master, s.master.common);
    SameSettings(c, s.master, t.master, s.master.enc);
    SameSettings(c, s.master, t.master, s.master.auth);
    forall k ensures KeyOk(c, t.master, k, Uses(t.sent, k)) {
      assert KeyOk(c, s.master, k, Uses(s.sent, k));
    }
  }

  lemma ConfirmKeeps(c: Config, s: System, m: App, t: System)
    requires Inv(c, s) && Live(s.master) && s.answers != [] && s.answers[0].ok
    requires m == Answered(s.master, true)
    requires t == s.(master := m, asked := s.asked + Added(s.master.kmsReq, m.kmsReq), answers := s.answers[1..])
    ensures Inv(c, t)
  {
    ReplyTo(s);
    ConfirmedIs(c, s.master, s.answers[0].ids, m);
    ConfirmedFiled(c, s.master, s.answers[0].ids, m);
    ConfirmedUsed(c, s, t);
    AskedKeeps(c, s.asked, s.master.kmsReq, m);
    ReplyPlaces(s, t);
    ReplyQueues(s, t);
  }

  lemma RefuseKeeps(c: Config, s: System, m: App, t: System)
    requires Inv(c, s) && Live(s.master) && s.answers != [] && !s.answers[0].ok
    requires m == Answered(s.master, false)
    requires t == s.(master := m, asked := s.asked + Added(s.master.kmsReq, m.kmsReq), answers := s.answers[1..],
                     rejected := s.rejected + SetOf(s.answers[0].ids))
    ensures Inv(c, t)
  {
    ReplyTo(s);
    RefusedIs(c, s.master, s.answers[0].ids, m);
    RefusedFiled(c, s, t);
    AskedKeeps(c, s.asked, s.master.kmsReq, m);
    ReplyPlaces(s, t);
    ReplyQueues(s, t);
  }

  // ----- Deliveries

  /** The slave's store after the deliveries so far and two more uses. */
  ghost predicate Holding(c: Config, store: Store, atSlave: set<nat>, delivered: seq<Packet>,
                          first: Option<nat>, second: Option<nat>) {
    forall k: nat :: SlaveKeyOk(c, store, atSlave, k, Uses(delivered, k) + One(first, k) + One(second, k))
  }

  lemma UsedUpSlaveKey(c: Config, store: Store, atSlave: set<nat>, f: nat, k: nat, n: nat, r: Store)
    requires f in store && r == UsedUp(store, f, c.encryption, c.size)
    requires SlaveKeyOk(c, store, atSlave, k, n) && store[f].kind == Encryption
    ensures SlaveKeyOk(c, r, atSlave, k, if k == f then n + 1 else n)
  {
  }

  lemma UsedUpHolds(c: Config, store: Store, atSlave: set<nat>, delivered: seq<Packet>, first: Option<nat>, f: nat,
                    r: Store)
    requires Holding(c, store, atSlave, delivered, first, None)
    requires f in store && store[f].kind == Encryption && r == UsedUp(store, f, c.encryption, c.size)
    ensures Holding(c, r, atSlave, delivered, first, Some(f))
  {
    forall k: nat ensures SlaveKeyOk(c, r, atSlave, k, Uses(delivered, k) + One(first, k) + One(Some(f), k)) {
      var n := Uses(delivered, k) + One(first, k) + One(None, k);
      assert SlaveKeyOk(c, store, atSlave, k, n);
      UsedUpSlaveKey(c, store, atSlave, f, k, n, r);
    }
  }

  /** A key with a use to spare is there. */
  lemma KeyThere(c: Config, store: Store, atSlave: set<nat>, k: nat, n: nat, sent: nat)
    requires SlaveKeyOk(c, store, atSlave, k, n) && n < sent && k in atSlave && Life(c, sent - 1).Some?
    ensures k in store && store[k].kind == Encryption && store[k].secret == c.secret(k)
  {
    LifeShrinks(c, n, sent - 1);
  }

  /** Key k, if the packet names it, can stand the uses the packet makes of it. */
  predicate Spare(c: Config, s: System, p: Packet, k: nat) {
    UsesOf(p, k) > 0 ==>
      && k in s.atSlave
      && Uses(s.delivered, k) + UsesOf(p, k) <= Uses(s.sent, k)
      && Life(c, Uses(s.sent, k) - 1).Some?
  }

  lemma InFlight(c: Config, s: System, i: nat, k: nat)
    requires Channel(c, s) && UsedWell(c, s) && i < |s.data|
    ensures Spare(c, s, s.data[i], k)
  {
    UsesWithout(s.data, i, k);
    assert Uses(s.delivered, k) + Uses(s.data, k) <= Uses(s.sent, k);
    assert KeyOk(c, s.master, k, Uses(s.sent, k));
  }

  lemma NextKeyThere(c: Config, s: System, p: Packet, store: Store, first: Option<nat>, f: nat)
    requires Holding(c, store, s.atSlave, s.delivered, first, None)
    requires Spare(c, s, p, f) && One(first, f) < UsesOf(p, f)
    ensures f in store && store[f].kind == Encryption && store[f].secret == c.secret(f)
  {
    var n := Uses(s.delivered, f) + One(first, f) + One(None, f);
    assert SlaveKeyOk(c, store, s.atSlave, f, n);
    KeyThere(c, store, s.atSlave, f, n, Uses(s.sent, f));
  }

  /** The store after the authentication key and then the encryption key of a packet. */
  function AuthStore(p: Packet, store: Store): Store {
    if p.authId.Some? && p.authId.value in store then UsedUp(store, p.authId.value, p.encryption, p.size) else store
  }

  function EncStore(p: Packet, store: Store): Store {
    if p.encId.Some? && p.encId.value in store then UsedUp(store, p.encId.value, p.encryption, p.size) else store
  }

  lemma AuthHolds(c: Config, s: System, p: Packet, store: Store, r: Store)
    requires PacketOk(c, p) && forall k: nat :: Spare(c, s, p, k)
    requires Holding(c, store, s.atSlave, s.delivered, None, None) && r == AuthStore(p, store)
    ensures p.authId.Some? ==> p.authId.value in store && store[p.authId.value].kind == Encryption
                               && store[p.authId.value].secret == c.secret(p.authId.value)
    ensures Holding(c, r, s.atSlave, s.delivered, p.authId, None)
  {
    if p.authId.Some? {
      var f := p.authId.value;
      assert Spare(c, s, p, f);
      NextKeyThere(c, s, p, store, None, f);
      UsedUpHolds(c, store, s.atSlave, s.delivered, None, f, r);
      HoldingSwaps(c, r, s.atSlave, s.delivered, p.authId);
    }
  }

  lemma HoldingSwaps(c: Config, store: Store, atSlave: set<nat>, delivered: seq<Packet>, id: Option<nat>)
    requires Holding(c, store, atSlave, delivered, None, id)
    ensures Holding(c, store, atSlave, delivered, id, None)
  {
    forall k: nat ensures SlaveKeyOk(c, store, atSlave, k, Uses(delivered, k) + One(id, k) + One(None, k)) {
      assert SlaveKeyOk(c, store, atSlave, k, Uses(delivered, k) + One(None, k) + One(id, k));
    }
  }

  lemma EncHolds(c: Config, s: System, p: Packet, store: Store, r: Store)
    requires PacketOk(c, p) && forall k: nat :: Spare(c, s, p, k)
    requires Holding(c, store, s.atSlave, s.delivered, p.authId, None) && r == EncStore(p, store)
    ensures p.encId.Some? ==> p.encId.value in store && store[p.encId.value].kind == Encryption
                              && store[p.encId.value].secret == c.secret(p.encId.value)
    ensures Holding(c, r, s.atSlave, s.delivered, p.authId, p.encId)
  {
    if p.encId.Some? {
      var f := p.encId.value;
      assert Spare(c, s, p, f);
      NextKeyThere(c, s, p, store, p.authId, f);
      UsedUpHolds(c, store, s.atSlave, s.delivered, p.authId, f, r);
    }
  }

  /** The keys a packet names are in the slave's store, under the master's secrets. */
  predicate Found(c: Config, p: Packet, store: Store) {
    && (p.authId.Some? ==> p.authId.value in store && store[p.authId.value].secret == c.secret(p.authId.value))
    && (p.authId.Some? ==> store[p.authId.value].kind == Encryption)
    && (p.encId.Some? ==> p.encId.value in AuthStore(p, store)
                          && AuthStore(p, store)[p.encId.value].kind == Encryption
                          && AuthStore(p, store)[p.encId.value].secret == c.secret(p.encId.value))
  }

  lemma ReceivedIs(c: Config, a: App, p: Packet, r: App)
    requires a.state == READY && PacketOk(c, p) && Found(c, p, a.common) && r == Received(a, p)
    ensures r == a.(encryption := p.encryption, authentication := p.authentication, size := p.size, common := r.common)
    ensures r.common == EncStore(p, AuthStore(p, a.common))
  {
    var b := Switched(a, DECRYPT_DATA).(encryption := p.encryption, authentication := p.authentication, size := p.size);
    var d := if KeySize(b, Authentication) != 0 then Resolved(b, p.authId) else b;
    assert d == b.(common := AuthStore(p, a.common));
    var e := if p.encryption != 0 then Resolved(d, p.encId) else d;
    assert e == b.(common := EncStore(p, AuthStore(p, a.common)));
  }

  lemma DeliveryFinds(c: Config, s: System, i: nat)
    requires Inv(c, s) && Enabled(s, Deliver(i))
    ensures Found(c, s.data[i], s.slave.common)
    ensures Holding(c, EncStore(s.data[i], AuthStore(s.data[i], s.slave.common)), s.atSlave, s.delivered,
                    s.data[i].authId, s.data[i].encId)
  {
    var p, store := s.data[i], s.slave.common;
    forall k: nat ensures Spare(c, s, p, k) { InFlight(c, s, i, k); }
    NoneYet(c, s);
    AuthHolds(c, s, p, store, AuthStore(p, store));
    EncHolds(c, s, p, AuthStore(p, store), EncStore(p, AuthStore(p, store)));
  }

  lemma NoneYet(c: Config, s: System)
    requires SlaveHolds(c, s)
    ensures Holding(c, s.slave.common, s.atSlave, s.delivered, None, None)
  {
    forall k: nat
      ensures SlaveKeyOk(c, s.slave.common, s.atSlave, k, Uses(s.delivered, k) + One(None, k) + One(None, k))
    {
      assert SlaveKeyOk(c, s.slave.common, s.atSlave, k, Uses(s.delivered, k));
    }
  }

  lemma DeliverHolds(c: Config, s: System, p: Packet, store: Store, t: System)
    requires Holding(c, store, s.atSlave, s.delivered, p.authId, p.encId)
    requires t.slave.common == store && t.atSlave == s.atSlave && t.delivered == s.delivered + [p]
    ensures SlaveHolds(c, t)
  {
    forall k: nat ensures SlaveKeyOk(c, t.slave.common, t.atSlave, k, Uses(t.delivered, k)) {
      UsesAppend(s.delivered, p, k);
      assert SlaveKeyOk(c, store, s.atSlave, k, Uses(s.delivered, k) + One(p.authId, k) + One(p.encId, k));
    }
  }

  lemma DeliverChannel(c: Config, s: System, i: nat, t: System)
    requires Channel(c, s) && i < |s.data|
    requires t.data == WithoutAt(s.data, i) && t.sent == s.sent
    requires t.delivered == s.delivered + [s.data[i]] || t.delivered == s.delivered
    ensures Channel(c, t)
  {
    forall k ensures Uses(t.delivered, k) + Uses(t.data, k) <= Uses(t.sent, k) {
      UsesWithout(s.data, i, k);
      UsesAppend(s.delivered, s.data[i], k);
      assert Uses(s.delivered, k) + Uses(s.data, k) <= Uses(s.sent, k);
    }
    forall j | 0 <= j < |t.data| ensures PacketOk(c, t.data[j]) {
      assert t.data[j] == s.data[if j < i then j else j + 1];
    }
  }

  lemma DeliverKeeps(c: Config, s: System, i: nat, a: App, t: System)
    requires Inv(c, s) && Enabled(s, Deliver(i)) && a == Received(s.slave, s.data[i])
    requires t == s.(slave := a, data := WithoutAt(s.data, i), delivered := s.delivered + [s.data[i]])
    ensures Inv(c, t)
  {
    DeliveryFinds(c, s, i);
    ReceivedIs(c, s.slave, s.data[i], a);
    DeliverChannel(c, s, i, t);
    DeliverHolds(c, s, s.data[i], a.common, t);
  }

  lemma DropKeeps(c: Config, s: System, i: nat, t: System)
    requires Inv(c, s) && i < |s.data| && t == s.(data := WithoutAt(s.data, i))
    ensures Inv(c, t)
  {
    DeliverChannel(c, s, i, t);
  }

  // ----- Stopping

  lemma StopMasterKeeps(c: Config, s: System, m: App, t: System)
    requires Inv(c, s) && Live(s.master) && m == Stopped(s.master) && t == s.(master := m)
    ensures Inv(c, t)
  {
    forall k ensures KeyOk(c, t.master, k, Uses(t.sent, k)) {
      assert KeyOk(c, s.master, k, Uses(s.sent, k));
    }
  }

  lemma StopSlaveKeeps(c: Config, s: System, a: App, t: System)
    requires Inv(c, s) && Live(s.slave) && a == Stopped(s.slave) && t == s.(slave := a)
    ensures Inv(c, t)
  {
  }

  // ----- Requests

  lemma SameKeys(c: Config, s: System, m: App, t: System)
    requires UsedWell(c, s) && m == s.master.(state := m.state, kmsReq := m.kmsReq)
    requires t == s.(master := m, asked := t.asked)
    ensures UsedWell(c, t)
    ensures Placed(s) ==> Placed(t)
  {
    forall k ensures KeyOk(c, m, k, Uses(t.sent, k)) {
      assert KeyOk(c, s.master, k, Uses(s.sent, k));
    }
    if Placed(s) {
      forall k ensures Places(t, k) == if k in t.issued then 1 else 0 {
        assert Places(s, k) == if k in s.issued then 1 else 0;
      }
    }
  }

  lemma ManageKeeps(c: Config, s: System, m: App, t: System)
    requires Inv(c, s) && Live(s.master) && m == Managed(s.master)
    requires t == s.(master := m, asked := s.asked + Added(s.master.kmsReq, m.kmsReq))
    ensures Inv(c, t)
  {
    MasterAfterManage(c, s.master, m);
    ManagedIs(s.master, m);
    SameSettings(c, s.master, m, m.common);
    SameSettings(c, s.master, m, m.enc);
    SameSettings(c, s.master, m, m.auth);
    SameKeys(c, s, m, t);
    AskedKeeps(c, s.asked, s.master.kmsReq, m);
  }
}
