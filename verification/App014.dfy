/**
 QKDApp014: an ETSI 014 application, the primary (master) or the replica (slave) of a
 pair.  The functions say what a handler makes of the application seen as a value; the
 class at the end is the application itself, proved against them.
 */
module App014 {
  import opened Options
  import opened OrderedKeys
  import opened UInt32
  import KeyStream

  datatype State = NOT_STARTED | INITIALIZED | WAIT | READY | SEND_DATA | DECRYPT_DATA | STOPPED

  /** AppKey::Type, and the key type named in a request to the key manager. */
  datatype Kind = Encryption | Authentication

  /** A key in a store; the secret is what the key manager handed out under its id. */
  datatype StoredKey = StoredKey(kind: Kind, lifetime: nat, secret: int)

  type Store = map<nat, StoredKey>

  /** A key as an answer of the key manager carries it. */
  datatype Issued = Issued(id: nat, secret: int)

  /** What a data packet says to its receiver: settings, key ids and payload length. */
  datatype Packet = Packet(encryption: nat, authentication: nat, encId: Option<nat>, authId: Option<nat>, size: nat)

  /** Where the original stops the simulation (NS_FATAL_ERROR) or is undefined (a null
      key, the front of an empty queue).  The model notes the fault and goes on. */
  datatype Fault = UnsupportedTransition | InvalidKeySize | MissingKey | EmptyQueue | InvalidSettings

  datatype App = App(
    master: bool,
    state: State,
    encryption: nat,      // 0 none, 1 one-time pad, 2 AES
    authentication: nat,  // 0 none, 1 VMAC, 2 MD5, 3 SHA1
    size: nat,
    aesLifetime: nat,
    common: Store,
    enc: Store,
    auth: Store,
    kmsReq: seq<Kind>,
    appReq: seq<seq<nat>>,
    faults: set<Fault>)

  // ----- States and settings

  predicate Supported(from: State, to: State) {
    match from
    case NOT_STARTED => to == INITIALIZED
    case INITIALIZED => to == WAIT || to == READY
    case WAIT => to == READY || to == STOPPED
    case READY => to == WAIT || to == SEND_DATA || to == DECRYPT_DATA || to == STOPPED
    case SEND_DATA => to == READY || to == STOPPED
    case DECRYPT_DATA => to == READY || to == STOPPED
    case STOPPED => false
  }

  /** The matrix, pair by pair. */
  lemma TransitionsAre(from: State, to: State)
    ensures Supported(from, to) <==> (from, to) in {
              (NOT_STARTED, INITIALIZED), (INITIALIZED, WAIT), (INITIALIZED, READY), (WAIT, READY), (READY, WAIT),
              (READY, SEND_DATA), (SEND_DATA, READY), (READY, DECRYPT_DATA), (DECRYPT_DATA, READY),
              (WAIT, STOPPED), (READY, STOPPED), (SEND_DATA, STOPPED), (DECRYPT_DATA, STOPPED)}
  {
  }

  function Noted(a: App, fault: Fault): App {
    a.(faults := a.faults + {fault})
  }

  function Switched(a: App, to: State): App {
    if Supported(a.state, to) then a.(state := to) else Noted(a, UnsupportedTransition)
  }

  /** In bits, as uint32_t. */
  function EncryptionKeySize(encryption: nat, size: nat): nat {
    if encryption == 1 then size * 8 % UINT32_RANGE else if encryption == 2 then 256 else 0
  }

  function AuthenticationKeySize(authentication: nat): nat {
    if authentication == 1 then 128 else 0
  }

  function KeySize(a: App, kind: Kind): nat {
    if kind == Encryption then EncryptionKeySize(a.encryption, a.size) else AuthenticationKeySize(a.authentication)
  }

  /** A key for everything the settings need one for. */
  predicate Supplied(a: App) {
    && (KeySize(a, Encryption) != 0 ==> a.enc != map[])
    && (KeySize(a, Authentication) != 0 ==> a.auth != map[])
  }

  function Checked(a: App): App {
    if a.state == WAIT && Supplied(a) then Switched(a, READY)
    else if a.state == READY && !Supplied(a) then Switched(a, WAIT)
    else a
  }

  function Requested(a: App, kind: Kind): App {
    if KeySize(a, kind) == 0 then Noted(a, InvalidKeySize) else a.(kmsReq := a.kmsReq + [kind])
  }

  function RequestedIfDry(a: App, kind: Kind, store: Store): App {
    if KeySize(a, kind) != 0 && store == map[] then Requested(a, kind) else a
  }

  function Managed(a: App): App {
    if a.master then Checked(RequestedIfDry(RequestedIfDry(a, Encryption, a.enc), Authentication, a.auth)) else a
  }

  /** StartApplication, or the encryptor it sets up, is fatal for these settings. */
  predicate BadSettings(a: App, tagSize: nat) {
    a.encryption > 2 || a.authentication > 3 || 0 < a.aesLifetime < a.size || (tagSize != 128 && tagSize != 256)
  }

  function Started(a: App): App {
    if a.state != INITIALIZED then Noted(a, UnsupportedTransition)
    else if a.master && (KeySize(a, Encryption) != 0 || KeySize(a, Authentication) != 0) then Switched(a, WAIT)
    else Switched(a, READY)
  }

  /** StartApplication. */
  function StartedWith(a: App, tagSize: nat): App {
    if BadSettings(a, tagSize) then Noted(a, InvalidSettings) else Started(a)
  }

  lemma GoodSettingsAre(a: App, tagSize: nat)
    ensures !BadSettings(a, tagSize) <==>
              a.encryption in {0, 1, 2} && a.authentication in {0, 1, 2, 3}
              && (a.aesLifetime == 0 || a.size <= a.aesLifetime) && tagSize in {128, 256}
  {
  }

  lemma StartedInto(a: App, b: App)
    requires a.state == INITIALIZED && b == Started(a)
    ensures b == a.(state := if a.master && (a.encryption == 2 || a.authentication == 1
                                             || (a.encryption == 1 && a.size * 8 % 0x1_0000_0000 != 0))
                             then WAIT else READY)
  {
  }

  /** It takes these settings and no others, and waits exactly for the keys it will need. */
  lemma AcceptedIff(a: App, tagSize: nat, b: App)
    requires a.state == INITIALIZED && a.faults == {} && b == StartedWith(a, tagSize)
    ensures b.faults == {} <==>
              a.encryption in {0, 1, 2} && a.authentication in {0, 1, 2, 3}
              && (a.aesLifetime == 0 || a.size <= a.aesLifetime) && tagSize in {128, 256}
    ensures b.faults == {} ==>
              b == a.(state := if a.master && (a.encryption == 2 || a.authentication == 1
                                               || (a.encryption == 1 && a.size * 8 % 0x1_0000_0000 != 0))
                               then WAIT else READY)
    ensures b.faults != {} ==> b == a.(faults := {InvalidSettings})
  {
    GoodSettingsAre(a, tagSize);
    StartedInto(a, Started(a));
  }

  function Stopped(a: App): App {
    Switched(a.(common := map[], enc := map[], auth := map[]), STOPPED)
  }

  // ----- Using keys

  /** An AES key with less than two packets of lifetime left is used one last time. */
  predicate Worn(encryption: nat, size: nat, key: StoredKey) {
    encryption == 2 && key.lifetime < 2 * size % UINT32_RANGE
  }

  /** A store after its encryption key k has been used for one packet. */
  function UsedUp(s: Store, k: nat, encryption: nat, size: nat): Store
    requires k in s
  {
    if Worn(encryption, size, s[k]) then s - {k}
    else s[k := s[k].(lifetime := KeyStream.Charge(s[k].lifetime, size))]
  }

  function FrontId(s: Store): Option<nat> {
    if s == map[] then None else Some(Least(s.Keys))
  }

  /** GetLocalKey at the master: the store of that kind afterwards. */
  function Taken(a: App, kind: Kind): App {
    if kind == Encryption then
      if a.enc == map[] then a else a.(enc := UsedUp(a.enc, Least(a.enc.Keys), a.encryption, a.size))
    else
      if a.auth == map[] then a else a.(auth := a.auth - {Least(a.auth.Keys)})
  }

  /** GetLocalKey at the slave. */
  function Fetched(a: App, id: nat): App {
    if id !in a.common then a
    else if a.common[id].kind == Encryption then a.(common := UsedUp(a.common, id, a.encryption, a.size))
    else a.(common := a.common - {id})
  }

  /** SendDataPacket takes an encryption key whenever it encrypts, an authentication key
      only if one is needed, and uses what it took without looking. */
  function Secured(a: App): App {
    var e := if a.encryption == 0 then a
             else if a.enc == map[] then Noted(a, MissingKey) else Taken(a, Encryption);
    if KeySize(e, Authentication) == 0 then e
    else if e.auth == map[] then Noted(e, MissingKey) else Taken(e, Authentication)
  }

  function PacketOf(a: App): Packet {
    Packet(a.encryption, a.authentication,
           if a.encryption == 0 then None else FrontId(a.enc),
           if KeySize(a, Authentication) == 0 then None else FrontId(a.auth),
           a.size)
  }

  function Transmitted(a: App): App {
    var b := if a.state == READY then Switched(a, SEND_DATA) else a;
    if b.state == SEND_DATA then Managed(Switched(Secured(b), READY)) else b
  }

  /** A key the slave looks up and uses. */
  function Resolved(a: App, id: Option<nat>): App {
    if id.Some? && id.value in a.common then Fetched(a, id.value) else Noted(a, MissingKey)
  }

  /** ProcessDataPacket behind the guard of QAppPacketReceived. */
  function Received(a: App, p: Packet): App {
    if a.state != READY then a
    else
      var b := Switched(a, DECRYPT_DATA).(encryption := p.encryption, authentication := p.authentication,
                                          size := p.size);
      var c := if KeySize(b, Authentication) != 0 then Resolved(b, p.authId) else b;
      var d := if p.encryption != 0 then Resolved(c, p.encId) else c;
      Switched(d, READY)
  }

  // ----- What a packet does to a slave

  /** Key k has been used for one packet: an authentication key, or an AES key with less than
      two packets left (as uint32_t), is gone; any other has lost the size of the packet. */
  ghost predicate UsedOnce(before: Store, k: nat, encryption: nat, size: nat, after: Store) {
    && k in before
    && (forall j :: j in after <==>
          && j in before
          && !(j == k && (before[k].kind == Authentication
                          || (encryption == 2 && before[k].lifetime < 2 * size % 0x1_0000_0000))))
    && (forall j :: j in after && j != k ==> after[j] == before[j])
    && (k in after ==>
          after[k] == StoredKey(Encryption, if size <= before[k].lifetime then before[k].lifetime - size else 0,
                                before[k].secret))
  }

  /** The key a packet names for one purpose, if it has one. */
  ghost predicate UseOf(needed: bool, before: Store, id: Option<nat>, p: Packet, after: Store) {
    if needed && Names(id, before) then UsedOnce(before, id.value, p.encryption, p.size, after) else after == before
  }

  predicate Names(id: Option<nat>, s: Store) {
    id.Some? && id.value in s
  }

  lemma ResolvedMeans(a: App, id: Option<nat>, p: Packet, b: App)
    requires a.encryption == p.encryption && a.size == p.size && b == Resolved(a, id)
    ensures UseOf(true, a.common, id, p, b.common)
    ensures b == a.(common := b.common, faults := if Names(id, a.common) then a.faults else a.faults + {MissingKey})
  {
  }

  /** What a READY slave makes of a packet: it goes by the settings of the packet, uses the
      authentication key it names, if VMAC needs one, then the encryption key, and is READY. */
  lemma ReceivedMeans(a: App, p: Packet, b: App) returns (between: Store)
    requires a.state == READY && b == Received(a, p)
    ensures UseOf(p.authentication == 1, a.common, p.authId, p, between)
    ensures UseOf(p.encryption != 0, between, p.encId, p, b.common)
    ensures b == a.(encryption := p.encryption, authentication := p.authentication, size := p.size,
                    common := b.common, faults := b.faults)
    ensures b.faults == a.faults + if (p.authentication == 1 && !Names(p.authId, a.common))
                                      || (p.encryption != 0 && !Names(p.encId, between)) then {MissingKey} else {}
  {
    var c := a.(state := DECRYPT_DATA, encryption := p.encryption, authentication := p.authentication, size := p.size);
    var d := if p.authentication == 1 then Resolved(c, p.authId) else c;
    between := d.common;
    ResolvedIf(p.authentication == 1, c, p.authId, p, d);
    var f := if p.encryption != 0 then Resolved(d, p.encId) else d;
    ResolvedIf(p.encryption != 0, d, p.encId, p, f);
    assert b == f.(state := READY);
  }

  lemma ResolvedIf(needed: bool, a: App, id: Option<nat>, p: Packet, b: App)
    requires a.encryption == p.encryption && a.size == p.size && b == if needed then Resolved(a, id) else a
    ensures UseOf(needed, a.common, id, p, b.common)
    ensures b == a.(common := b.common,
                    faults := if !needed || Names(id, a.common) then a.faults else a.faults + {MissingKey})
  {
    if needed {
      ResolvedMeans(a, id, p, b);
    }
  }

  // ----- Agreeing on keys

  /** insert, for every key of an answer: an id that is taken keeps its key. */
  function Stored(s: Store, keys: seq<Issued>, kind: Kind, lifetime: nat): Store {
    if keys == [] then s
    else
      var last := keys[|keys| - 1];
      var t := Stored(s, keys[..|keys| - 1], kind, lifetime);
      if last.id in t then t else t[last.id := StoredKey(kind, lifetime, last.secret)]
  }

  function Ids(keys: seq<Issued>): (ids: seq<nat>)
    ensures |ids| == |keys| && forall i :: 0 <= i < |keys| ==> ids[i] == keys[i].id
  {
    seq(|keys|, i requires 0 <= i < |keys| => keys[i].id)
  }

  /** enc_keys, granted: the request at the head of the queue gives the keys their kind. */
  function Granted(a: App, keys: seq<Issued>): App {
    if a.kmsReq == [] then Noted(a, EmptyQueue)
    else
      var kind := a.kmsReq[0];
      a.(kmsReq := a.kmsReq[1..],
         common := Stored(a.common, keys, kind,
                          if kind == Encryption && a.encryption == 2 then a.aesLifetime else a.size),
         appReq := a.appReq + [Ids(keys)])
  }

  /** dec_keys at the slave. */
  function LookedUp(a: App, keys: seq<Issued>): App {
    a.(common := Stored(a.common, keys, Encryption, a.aesLifetime))
  }

  function MovedOne(a: App, id: nat): App {
    if id !in a.common then a
    else
      var key := a.common[id];
      var b := a.(common := a.common - {id});
      if key.kind == Encryption then
        if id in a.enc then b else b.(enc := a.enc[id := key])
      else
        if id in a.auth then b else b.(auth := a.auth[id := key])
  }

  /** The keys the peer confirmed leave the common store for the store of their kind. */
  function Moved(a: App, ids: seq<nat>): App {
    if ids == [] then a else MovedOne(Moved(a, ids[..|ids| - 1]), ids[|ids| - 1])
  }

  /** The kind of the last of the ids that was in the store. */
  function LastKind(s: Store, ids: seq<nat>): (kind: Kind)
    ensures (exists k :: k in ids && k in s) ==> exists k :: k in ids && k in s && s[k].kind == kind
  {
    if ids == [] then Encryption
    else
      var last := ids[|ids| - 1];
      assert ids == ids[..|ids| - 1] + [last];
      if last in s && last !in ids[..|ids| - 1] then s[last].kind else LastKind(s, ids[..|ids| - 1])
  }

  function Without(s: Store, ids: seq<nat>): Store {
    map k | k in s && k !in ids :: s[k]
  }

  /** The answer to the oldest proposal. */
  function Answered(a: App, ok: bool): App {
    if a.appReq == [] then Noted(a, EmptyQueue)
    else
      var ids := a.appReq[0];
      var b := a.(appReq := a.appReq[1..]);
      if ok then Checked(Moved(b, ids))
      else Requested(b.(common := Without(b.common, ids)), LastKind(b.common, ids))
  }

  // ----- What the loops over keys come to

  lemma {:induction false} StoredIs(s: Store, keys: seq<Issued>, kind: Kind, lifetime: nat, r: Store)
    requires r == Stored(s, keys, kind, lifetime)
    ensures forall k :: k in r <==> k in s || k in Ids(keys)
    ensures forall k :: k in s ==> r[k] == s[k]
    ensures forall k :: k in r && k !in s ==>
              r[k] == StoredKey(kind, lifetime, r[k].secret) && Issued(k, r[k].secret) in keys
  {
    if keys != [] {
      var last := keys[|keys| - 1];
      var t := Stored(s, keys[..|keys| - 1], kind, lifetime);
      StoredIs(s, keys[..|keys| - 1], kind, lifetime, t);
      assert Ids(keys) == Ids(keys[..|keys| - 1]) + [last.id];
    }
  }

  function Picked(s: Store, ids: seq<nat>, kind: Kind): Store {
    map k | k in s && k in ids && s[k].kind == kind :: s[k]
  }

  /** Every confirmed key leaves the common store and is, unchanged, in the store of its
      kind; nothing else moves. */
  lemma {:induction false} MovedIs(a: App, ids: seq<nat>)
    ensures Moved(a, ids) == a.(common := Without(a.common, ids),
                                enc := Picked(a.common, ids, Encryption) + a.enc,
                                auth := Picked(a.common, ids, Authentication) + a.auth)
  {
    if ids == [] {
      assert Without(a.common, ids) == a.common;
      assert Picked(a.common, ids, Encryption) + a.enc == a.enc;
      assert Picked(a.common, ids, Authentication) + a.auth == a.auth;
    } else {
      var front, last := ids[..|ids| - 1], ids[|ids| - 1];
      MovedIs(a, front);
      MovedOneMore(a.common, a.enc, front, last, Encryption);
      MovedOneMore(a.common, a.auth, front, last, Authentication);
      assert ids == front + [last];
    }
  }

  lemma MovedOneMore(s: Store, dest: Store, front: seq<nat>, last: nat, kind: Kind)
    ensures Without(s, front + [last]) == Without(s, front) - {last}
    ensures Picked(s, front + [last], kind) + dest
            == if last in Without(s, front) && s[last].kind == kind && last !in dest
               then (Picked(s, front, kind) + dest)[last := s[last]]
               else Picked(s, front, kind) + dest
  {
    assert forall k :: k in front + [last] <==> k in front || k == last;
  }

  // ----- The application

  class QKDApp014 {
    const m_master: bool
    const m_aesLifetime: nat
    const m_authTagSize: nat
    var m_state: State
    var m_encryptionType: nat
    var m_authenticationType: nat
    var m_size: nat
    var m_commonStore: Store
    var m_encStore: Store
    var m_authStore: Store
    var m_kmsHttpReqQueue: seq<Kind>
    var m_appHttpReqQueue: seq<seq<nat>>
    var faults: set<Fault>

    constructor (master: bool, encryption: nat, authentication: nat, tagSize: nat, size: nat, aesLifetime: nat)
      ensures m_authTagSize == tagSize
      ensures View() == App(master, INITIALIZED, encryption, authentication, size, aesLifetime,
                            map[], map[], map[], [], [], {})
    {
      m_master, m_aesLifetime, m_authTagSize, m_state := master, aesLifetime, tagSize, INITIALIZED;
      m_encryptionType, m_authenticationType, m_size := encryption, authentication, size;
      m_commonStore, m_encStore, m_authStore := map[], map[], map[];
      m_kmsHttpReqQueue, m_appHttpReqQueue, faults := [], [], {};
    }

    function View(): App
      reads this
    {
      App(m_master, m_state, m_encryptionType, m_authenticationType, m_size, m_aesLifetime,
          m_commonStore, m_encStore, m_authStore, m_kmsHttpReqQueue, m_appHttpReqQueue, faults)
    }

    method SwitchAppState(to: State)
      modifies this`m_state, this`faults
      ensures View() == Switched(old(View()), to)
    {
      if Supported(m_state, to) {
        m_state := to;
      } else {
        faults := faults + {UnsupportedTransition};
      }
    }

    method CheckAppState()
      modifies this`m_state, this`faults
      ensures View() == Checked(old(View()))
    {
      var encryptionReady, authenticationReady := true, true;
      if EncryptionKeySize(m_encryptionType, m_size) != 0 && m_encStore == map[] {
        encryptionReady := false;
      }
      if AuthenticationKeySize(m_authenticationType) != 0 && m_authStore == map[] {
        authenticationReady := false;
      }
      if m_state == WAIT && encryptionReady && authenticationReady {
        SwitchAppState(READY);
      } else if m_state == READY && !(encryptionReady && authenticationReady) {
        SwitchAppState(WAIT);
      }
    }

    method GetKeysFromKMS(kind: Kind)
      modifies this`m_kmsHttpReqQueue, this`faults
      ensures View() == Requested(old(View()), kind)
    {
      var size := if kind == Encryption then EncryptionKeySize(m_encryptionType, m_size)
                  else AuthenticationKeySize(m_authenticationType);
      if size == 0 {
        faults := faults + {InvalidKeySize};
      } else {
        m_kmsHttpReqQueue := m_kmsHttpReqQueue + [kind];
      }
    }

    method ManageStores()
      modifies this`m_state, this`m_kmsHttpReqQueue, this`faults
      ensures View() == Managed(old(View()))
    {
      if m_master {
        if EncryptionKeySize(m_encryptionType, m_size) != 0 && m_encStore == map[] {
          GetKeysFromKMS(Encryption);
        }
        if AuthenticationKeySize(m_authenticationType) != 0 && m_authStore == map[] {
          GetKeysFromKMS(Authentication);
        }
        CheckAppState();
      }
    }

    /** The key is the one handed out, its lifetime as it was before this use. */
    method GetLocalKey(kind: Kind, keyId: nat) returns (localKey: Option<nat>, key: StoredKey)
      modifies this`m_commonStore, this`m_encStore, this`m_authStore
      ensures View() == if m_master then Taken(old(View()), kind) else Fetched(old(View()), keyId)
      ensures m_master ==> localKey == FrontId(old(if kind == Encryption then m_encStore else m_authStore))
      ensures !m_master ==> localKey == if keyId in old(m_commonStore) then Some(keyId) else None
      ensures m_master && localKey.Some? ==>
                key == old(if kind == Encryption then m_encStore else m_authStore)[localKey.value]
      ensures !m_master && localKey.Some? ==> key == old(m_commonStore)[keyId]
    {
      localKey, key := None, StoredKey(kind, 0, 0);
      if m_master {
        if kind == Encryption {
          if m_encStore != map[] {
            var id := Least(m_encStore.Keys);
            localKey, key := Some(id), m_encStore[id];
            if m_encryptionType == 2 && key.lifetime < 2 * m_size % UINT32_RANGE {
              m_encStore := m_encStore - {id};
            } else {
              m_encStore := m_encStore[id := key.(lifetime := KeyStream.Charge(key.lifetime, m_size))];
            }
          }
        } else {
          if m_authStore != map[] {
            var id := Least(m_authStore.Keys);
            localKey, key := Some(id), m_authStore[id];
            m_authStore := m_authStore - {id};
          }
        }
      } else if keyId in m_commonStore {
        localKey, key := Some(keyId), m_commonStore[keyId];
        if key.kind == Encryption {
          if m_encryptionType == 2 && key.lifetime < 2 * m_size % UINT32_RANGE {
            m_commonStore := m_commonStore - {keyId};
          } else {
            m_commonStore := m_commonStore[keyId := key.(lifetime := KeyStream.Charge(key.lifetime, m_size))];
          }
        } else {
          m_commonStore := m_commonStore - {keyId};
        }
      }
    }

    method StartApplication()
      modifies this`m_state, this`faults
      ensures View() == StartedWith(old(View()), m_authTagSize)
    {
      if m_encryptionType > 2 || m_authenticationType > 3 || (m_aesLifetime < m_size && m_aesLifetime != 0)
         || (m_authTagSize != 128 && m_authTagSize != 256) {
        faults := faults + {InvalidSettings};
      } else if m_state != INITIALIZED {
        faults := faults + {UnsupportedTransition};
      } else if m_master {
        if EncryptionKeySize(m_encryptionType, m_size) == 0 && AuthenticationKeySize(m_authenticationType) == 0 {
          SwitchAppState(READY);
        } else {
          SwitchAppState(WAIT);
        }
      } else {
        SwitchAppState(READY);
      }
    }

    method StopApplication()
      modifies this`m_state, this`m_commonStore, this`m_encStore, this`m_authStore, this`faults
      ensures View() == Stopped(old(View()))
    {
      m_commonStore, m_encStore, m_authStore := map[], map[], map[];
      SwitchAppState(STOPPED);
    }

    method SendDataPacket() returns (packet: Option<Packet>)
      requires m_master
      modifies this`m_state, this`m_commonStore, this`m_encStore, this`m_authStore, this`m_kmsHttpReqQueue, this`faults
      ensures View() == Transmitted(old(View()))
      ensures packet == if old(m_state) == READY || old(m_state) == SEND_DATA
                        then Some(PacketOf(old(View()))) else None
    {
      packet := None;
      if m_state == READY {
        SwitchAppState(SEND_DATA);
      }
      if m_state == SEND_DATA {
        var encId, authId, key := None, None, StoredKey(Encryption, 0, 0);
        if m_encryptionType != 0 {
          encId, key := GetLocalKey(Encryption, 0);
          if encId == None {
            faults := faults + {MissingKey};
          }
        }
        if AuthenticationKeySize(m_authenticationType) != 0 {
          authId, key := GetLocalKey(Authentication, 0);
          if authId == None {
            faults := faults + {MissingKey};
          }
        }
        packet := Some(Packet(m_encryptionType, m_authenticationType, encId, authId, m_size));
        SwitchAppState(READY);
        ManageStores();
      }
    }

    /** QAppPacketReceived lets a packet through only in READY. */
    method ProcessDataPacket(p: Packet)
      requires !m_master
      modifies this`m_state, this`m_encryptionType, this`m_authenticationType, this`m_size
      modifies this`m_commonStore, this`m_encStore, this`m_authStore, this`faults
      ensures View() == Received(old(View()), p)
    {
      if m_state == READY {
        SwitchAppState(DECRYPT_DATA);
        m_encryptionType, m_authenticationType := p.encryption, p.authentication;
        m_size := p.size;
        if AuthenticationKeySize(m_authenticationType) != 0 {
          ResolveKey(Authentication, p.authId);
        }
        if p.encryption != 0 {
          ResolveKey(Encryption, p.encId);
        }
        SwitchAppState(READY);
      }
    }

    /** The key a header names; a header without a key id names no key the slave has. */
    method ResolveKey(kind: Kind, id: Option<nat>)
      requires !m_master
      modifies this`m_commonStore, this`m_encStore, this`m_authStore, this`faults
      ensures View() == Resolved(old(View()), id)
    {
      if id.Some? {
        var localKey, key := GetLocalKey(kind, id.value);
        if localKey == None {
          faults := faults + {MissingKey};
        }
      } else {
        faults := faults + {MissingKey};
      }
    }

    /** The loop of ProcessResponseFromKMS over the keys of an answer. */
    method StoreKeys(keys: seq<Issued>, kind: Kind, lifetime: nat) returns (keyIds: seq<nat>)
      modifies this`m_commonStore
      ensures m_commonStore == Stored(old(m_commonStore), keys, kind, lifetime)
      ensures keyIds == Ids(keys)
    {
      keyIds := [];
      for i := 0 to |keys|
        invariant m_commonStore == Stored(old(m_commonStore), keys[..i], kind, lifetime)
        invariant keyIds == Ids(keys[..i])
      {
        assert keys[..i + 1][..i] == keys[..i];
        if keys[i].id !in m_commonStore {
          m_commonStore := m_commonStore[keys[i].id := StoredKey(kind, lifetime, keys[i].secret)];
        }
        keyIds := keyIds + [keys[i].id];
      }
      assert keys[..|keys|] == keys;
    }

    method ProcessEncKeys(keys: seq<Issued>)
      modifies this`m_commonStore, this`m_kmsHttpReqQueue, this`m_appHttpReqQueue, this`faults
      ensures View() == Granted(old(View()), keys)
    {
      if m_kmsHttpReqQueue == [] {
        faults := faults + {EmptyQueue};
        return;
      }
      var kind := m_kmsHttpReqQueue[0];
      m_kmsHttpReqQueue := m_kmsHttpReqQueue[1..];
      var lifetime := if kind == Encryption && m_encryptionType == 2 then m_aesLifetime else m_size;
      var keyIds := StoreKeys(keys, kind, lifetime);
      m_appHttpReqQueue := m_appHttpReqQueue + [keyIds];
    }

    /** The slave answers the proposal with the status it got. */
    method ProcessDecKeys(ok: bool, keys: seq<Issued>) returns (answer: bool)
      modifies this`m_commonStore
      ensures answer == ok
      ensures View() == if ok then LookedUp(old(View()), keys) else old(View())
    {
      if ok {
        var _ := StoreKeys(keys, Encryption, m_aesLifetime);
      }
      answer := ok;
    }

    method MoveKeys(ids: seq<nat>)
      modifies this`m_commonStore, this`m_encStore, this`m_authStore
      ensures View() == Moved(old(View()), ids)
    {
      for i := 0 to |ids|
        invariant View() == Moved(old(View()), ids[..i])
      {
        assert ids[..i + 1][..i] == ids[..i];
        if ids[i] in m_commonStore {
          var key := m_commonStore[ids[i]];
          if key.kind == Encryption {
            if ids[i] !in m_encStore {
              m_encStore := m_encStore[ids[i] := key];
            }
          } else if ids[i] !in m_authStore {
            m_authStore := m_authStore[ids[i] := key];
          }
          m_commonStore := m_commonStore - {ids[i]};
        }
      }
      assert ids[..|ids|] == ids;
    }

    method RemoveKeys(ids: seq<nat>) returns (kind: Kind)
      modifies this`m_commonStore
      ensures m_commonStore == Without(old(m_commonStore), ids)
      ensures kind == LastKind(old(m_commonStore), ids)
    {
      kind := Encryption;
      for i := 0 to |ids|
        invariant m_commonStore == Without(old(m_commonStore), ids[..i])
        invariant kind == LastKind(old(m_commonStore), ids[..i])
      {
        assert ids[..i + 1][..i] == ids[..i] && ids[..i + 1] == ids[..i] + [ids[i]];
        if ids[i] in m_commonStore {
          kind := m_commonStore[ids[i]].kind;
          m_commonStore := m_commonStore - {ids[i]};
        }
      }
      assert ids[..|ids|] == ids;
    }

    /** ProcessSignalingPacketFromApp at the master. */
    method ProcessKeyIdsResponse(ok: bool)
      modifies this`m_state, this`m_commonStore, this`m_encStore, this`m_authStore
      modifies this`m_kmsHttpReqQueue, this`m_appHttpReqQueue, this`faults
      ensures View() == Answered(old(View()), ok)
    {
      if m_appHttpReqQueue == [] {
        faults := faults + {EmptyQueue};
        return;
      }
      var keyIds := m_appHttpReqQueue[0];
      m_appHttpReqQueue := m_appHttpReqQueue[1..];
      if ok {
        MoveKeys(keyIds);
        CheckAppState();
      } else {
        var kind := RemoveKeys(keyIds);
        GetKeysFromKMS(kind);
      }
    }
  }
}
