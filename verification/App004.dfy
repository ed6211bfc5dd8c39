/**
 QKDApp004: an ETSI 004 application, the sender (master) or the receiver of a pair.  The
 functions say what a handler makes of the application seen as a value; the class at the
 end is the application itself, proved against them.
 */
module App004 {
  import opened Options
  import opened KeyStream
  import opened OrderedKeys
  import App014

  datatype State =
    | INITIALIZED
    | ESTABLISHING_ASSOCIATIONS
    | ASSOCIATIONS_ESTABLISHED
    | ESTABLISHING_KEY_QUEUES
    | KEY_QUEUES_ESTABLISHED
    | READY
    | WAIT
    | SEND_DATA
    | DECRYPT_DATA
    | STOPPED

  /** Request URIs at the key manager; those of open_connect are all the same. */
  datatype Uri = OpenConnect | GetKey(ksid: string) | Close(ksid: string)

  /** m_httpRequestsKMS: the session types noted under a URI, oldest first. */
  type Requests = map<Uri, seq<SessionType>>

  /** Index and value of a key. */
  datatype Named = Named(index: nat, value: string)

  /** A data packet: what its header says, and the keys it was made with. */
  datatype Packet = Packet(encryption: nat, enc: Option<Named>, authentication: nat, auth: Option<Named>, size: nat)

  datatype App = App(
    master: bool,
    useCrypto: bool,      // tags are computed and checked, not only carried
    state: State,
    encryption: nat,      // 0 none, 1 one-time pad, 2 AES
    authentication: nat,  // 0 none, 1 VMAC, 2 MD5, 3 SHA1
    size: nat,
    aesLifetime: nat,
    enc: Session,
    auth: Session,
    requests: Requests,   // at the key manager, unanswered
    timers: seq<string>,  // GET_KEY requests to be sent later
    primary: bool,        // the queues are filled on this side
    replica: bool,        // and on the other
    asked: bool,          // establish_queues has been sent
    scheduled: bool,      // the next SendPacket
    sent: seq<Packet>,
    fatal: bool)          // NS_FATAL_ERROR or a failed assertion

  /** The application as Setup leaves it; the settings in use are not set yet. */
  function Installed(master: bool, useCrypto: bool, encryption: nat, authentication: nat, size: nat,
                     aesLifetime: nat, encBuffer: nat, authBuffer: nat): App {
    App(master, useCrypto, INITIALIZED, encryption, authentication, size, aesLifetime,
        Session("", false, encBuffer, map[]), Session("", false, authBuffer, map[]),
        map[], [], false, false, false, false, [], false)
  }

  // ----- Settings and requests

  /** In bits, as uint32_t. */
  function EncryptionSize(a: App): nat {
    App014.EncryptionKeySize(a.encryption, a.size)
  }

  function AuthenticationSize(a: App): nat {
    App014.AuthenticationKeySize(a.authentication)
  }

  /** SetCryptoSettings: types outside the switch leave a setting as it is. */
  function Configured(a: App, encryption: nat, authentication: nat): App {
    a.(encryption := if encryption <= 2 then encryption else a.encryption,
       authentication := if authentication <= 1 then authentication
                         else if authentication == 2 then 3 else a.authentication)
  }

  function Noted(requests: Requests, uri: Uri): seq<SessionType> {
    if uri in requests then requests[uri] else []
  }

  /** PushHttpKmsRequest. */
  function Pushed(a: App, uri: Uri, t: SessionType): App {
    a.(requests := a.requests[uri := Noted(a.requests, uri) + [t]])
  }

  /** PopHttpKmsRequest: the type, and the requests without it. */
  function Oldest(requests: Requests, uri: Uri): SessionType {
    if Noted(requests, uri) == [] then EMPTY else requests[uri][0]
  }

  function Popped(a: App, uri: Uri): App {
    if Noted(a.requests, uri) == [] then a else a.(requests := a.requests[uri := a.requests[uri][1..]])
  }

  /** GetKeyFromKMS: the request is noted without its session type, so under the default. */
  function Asked(a: App, ksid: string): App {
    if a.state == STOPPED then a else Pushed(a, GetKey(ksid), ENCRYPTION)
  }

  /** A session that is open has no keys. */
  predicate Drained(a: App) {
    (a.enc.id != "" && a.enc.keys == map[]) || (a.auth.id != "" && a.auth.keys == map[])
  }

  /** SetState: on the way back from SEND_DATA a session without keys means WAIT. */
  function Entered(a: App, state: State): App {
    a.(state := if a.state == SEND_DATA && state == READY && Drained(a) then WAIT else state)
  }

  // ----- Sending

  /** Index and value of the front key of a stream. */
  function KeyAtFront(s: Stream): Option<Named> {
    if s == map[] then None else Some(Named(Least(s.Keys), s[Least(s.Keys)].value))
  }

  /** Another key is asked for when out of step, and when there is none left of this one. */
  function AskedAgain(a: App, ksid: string, inSync: bool, spent: bool): App {
    var b := if inSync then a else Asked(a, ksid);
    if spent then Asked(b, ksid) else b
  }

  lemma AskedAgainStays(a: App, ksid: string, inSync: bool, spent: bool, b: App)
    requires b == AskedAgain(a, ksid, inSync, spent)
    ensures b == a.(requests := b.requests)
  {
    var c := if inSync then a else Asked(a, ksid);
    AskedStays(a, ksid);
    AskedStays(c, ksid);
  }

  lemma AskedStays(a: App, ksid: string)
    ensures Asked(a, ksid) == a.(requests := Asked(a, ksid).requests)
  {
    var b := Asked(a, ksid);
    assert a.state != STOPPED ==> b == Pushed(a, GetKey(ksid), ENCRYPTION);
  }

  /** So many requests for the encryption stream. */
  function Times(n: nat): seq<SessionType> {
    seq(n, _ => ENCRYPTION)
  }

  lemma AskedAsks(a: App, ksid: string, b: App, uri: Uri)
    requires a.state != STOPPED && b == Asked(a, ksid)
    ensures Noted(b.requests, uri) == Noted(a.requests, uri) + Times(if uri == GetKey(ksid) then 1 else 0)
  {
    assert Times(1) == [ENCRYPTION];
  }

  lemma AskedAgainAsks(a: App, ksid: string, inSync: bool, spent: bool, b: App, uri: Uri)
    requires a.state != STOPPED && b == AskedAgain(a, ksid, inSync, spent)
    ensures var n := (if inSync then 0 else 1) + (if spent then 1 else 0);
            Noted(b.requests, uri) == Noted(a.requests, uri) + Times(if uri == GetKey(ksid) then n else 0)
  {
    var c := if inSync then a else Asked(a, ksid);
    AskedStays(a, ksid);
    AskedAsks(a, ksid, Asked(a, ksid), uri);
    AskedAsks(c, ksid, Asked(c, ksid), uri);
    assert Times(2) == Times(1) + Times(1) && Times(0) == [];
  }

  /** The front key after both charges of SendPacket. */
  function Charged(a: App): App {
    a.(enc := a.enc.(keys := AfterSend(a.enc.keys, a.size)))
  }

  /** The encryption key of a packet is charged; a spent one is asked for again. */
  function Encrypted(a: App): App {
    if EncryptionSize(a) == 0 then a else Used(a)
  }

  function Used(a: App): App {
    if a.enc.keys == map[] then a
    else AskedAgain(Charged(a), a.enc.id, true, FrontAfterSend(a.enc.keys, a.size) == 0)
  }

  /** The front key of the authentication stream has left. */
  function Spent(a: App): App {
    a.(auth := a.auth.(keys := AfterGet(a.auth.keys, AUTHENTICATION, 0)))
  }

  /** The authentication key of a packet leaves; another one is asked for. */
  function Authenticated(a: App): App {
    if AuthenticationSize(a) == 0 || a.auth.keys == map[] then a else Asked(Spent(a), a.auth.id)
  }

  /** The key the next packet is encrypted with, and the one it is authenticated with. */
  function EncryptionKeyOf(a: App): Option<Named> {
    if EncryptionSize(a) == 0 then None else KeyAtFront(a.enc.keys)
  }

  function AuthenticationKeyOf(a: App): Option<Named> {
    if AuthenticationSize(a) == 0 then None else KeyAtFront(a.auth.keys)
  }

  predicate LacksEncryptionKey(a: App) {
    EncryptionSize(a) != 0 && a.enc.keys == map[]
  }

  predicate LacksAuthenticationKey(a: App) {
    AuthenticationSize(a) != 0 && a.auth.keys == map[]
  }

  /** A packet leaves, and the next one is scheduled. */
  function Delivered(a: App, packet: Packet): App {
    Entered(a.(sent := a.sent + [packet]), READY).(scheduled := true)
  }

  /** The second half of SendPacket: the packet has been encrypted with the key named. */
  function Tagged(a: App, enc: Option<Named>): App {
    if LacksAuthenticationKey(a) then Entered(a, READY)
    else Delivered(Authenticated(a), Packet(a.encryption, enc, a.authentication, AuthenticationKeyOf(a), a.size))
  }

  /** SendPacket in SEND_DATA.  Without a key it returns early, and schedules nothing; a
      missing authentication key is found out after the encryption key has been charged. */
  function Secured(a: App): App {
    if LacksEncryptionKey(a) then Entered(a, READY) else Tagged(Encrypted(a), EncryptionKeyOf(a))
  }

  /** SendPacket. */
  function Transmitted(a: App): App {
    var b := if a.state == READY then Entered(a, SEND_DATA) else a;
    if b.state == SEND_DATA then Secured(b) else Missed(b)
  }

  /** SendPacket in a state in which there is nothing to send. */
  function Missed(a: App): App {
    if a.state == WAIT then a.(scheduled := true) else a.(fatal := true)
  }

  // ----- Receiving

  /** The authentication key a packet names: skip to it and take the front key. */
  function AuthTaken(a: App, keyId: nat): App {
    a.(auth := a.auth.(keys := AfterGet(AfterSync(a.auth.keys, keyId), AUTHENTICATION, 0)))
  }

  function AuthFetched(a: App, keyId: nat): App {
    AskedAgain(AuthTaken(a, keyId), a.auth.id, InSync(a.auth.keys, keyId), AfterSync(a.auth.keys, keyId) != map[])
  }

  /** The encryption key a packet names. */
  function EncTaken(a: App, keyId: nat): App {
    a.(enc := a.enc.(keys := AfterReceive(a.enc.keys, keyId, a.size)))
  }

  function EncFetched(a: App, keyId: nat): App {
    var synced := AfterSync(a.enc.keys, keyId);
    AskedAgain(EncTaken(a, keyId), a.enc.id, InSync(a.enc.keys, keyId),
               synced == map[] || FrontAfterGet(synced, a.size) == 0)
  }

  /** What the header of a data packet says. */
  datatype Header = Header(encryption: nat, encKeyId: nat, authentication: nat, authKeyId: nat)

  /** A data packet as it is processed: header, payload size, and the verdict of
      CheckAuthentication, which is asked for only if crypto is performed. */
  datatype Data = Data(h: Header, size: nat, tagOk: bool)

  /** ProcessDataPacket up to the settings: they follow the header. */
  function Opened(a: App, h: Header, size: nat): App {
    var b := Entered(a, DECRYPT_DATA);
    Configured(b.(size := size, aesLifetime := if a.encryption != 2 then size else a.aesLifetime),
               h.encryption, h.authentication)
  }

  /** ProcessDataPacket.  It looks at no state. */
  function Processed(a: App, p: Data): App {
    Checked(Opened(a, p.h, p.size), p.h, p.tagOk)
  }

  /** The tag is checked and wrong. */
  predicate Refused(a: App, h: Header, tagOk: bool) {
    (AuthenticationSize(a) != 0 || h.authentication != 0) && a.useCrypto && !tagOk
  }

  /** Without the authentication key the packet is dropped; with a wrong tag too, but then
      the application stays in DECRYPT_DATA. */
  function Checked(a: App, h: Header, tagOk: bool): App {
    if AuthenticationSize(a) == 0 then VerdictTaken(a, h, tagOk)
    else if AfterSync(a.auth.keys, h.authKeyId) == map[] then Entered(AuthFetched(a, h.authKeyId), READY)
    else VerdictTaken(AuthFetched(a, h.authKeyId), h, tagOk)
  }

  function VerdictTaken(a: App, h: Header, tagOk: bool): App {
    if Refused(a, h, tagOk) then a else Decrypted(a, h)
  }

  /** Only an encrypted packet brings the application back to READY. */
  function Decrypted(a: App, h: Header): App {
    if h.encryption == 0 then a else Entered(EncFetched(a, h.encKeyId), READY)
  }

  /** The packets that one arrival completes, in turn. */
  function AllProcessed(a: App, ps: seq<Data>): App {
    if ps == [] then a else Processed(AllProcessed(a, ps[..|ps| - 1]), ps[|ps| - 1])
  }

  /** DataPacketReceived: READY is asked for once per arrival. */
  function Arrived(a: App, ps: seq<Data>): App {
    if a.state == READY then AllProcessed(a, ps) else a
  }

  // ----- Establishing the queues

  predicate Short(s: Session) {
    s.verified && |s.keys| < s.size
  }

  /** AppTransitionTree in KEY_QUEUES_ESTABLISHED: the sender sends at once. */
  function QueuesUp(a: App): App {
    if a.master then Transmitted(Entered(a, READY)) else Entered(a, READY).(asked := true)
  }

  function AskedIfShort(a: App, s: Session): App {
    if Short(s) then Asked(a, s.id) else a
  }

  /** CheckQueues: one more request for every session that is short of keys. */
  function QueuesChecked(a: App): App {
    if Short(a.enc) || Short(a.auth) then AskedIfShort(AskedIfShort(a, a.enc), a.auth) else QueuesFilled(a)
  }

  /** Both queues are filled on this side. */
  function QueuesFilled(a: App): App {
    if !a.master || a.replica then QueuesUp(Entered(a, KEY_QUEUES_ESTABLISHED)) else a.(primary := true)
  }

  /** CheckStreamSessions: no session is open and unconfirmed. */
  function SessionsChecked(a: App): App {
    if (a.enc.id != "" && !a.enc.verified) || (a.auth.id != "" && !a.auth.verified)
       || a.state != ESTABLISHING_ASSOCIATIONS
    then a
    else QueuesChecked(a.(state := ESTABLISHING_KEY_QUEUES, asked := true))
  }

  /** StartApplication is fatal for these settings. */
  predicate BadSettings(encryption: nat, authentication: nat, tagLength: nat, size: nat, aesLifetime: nat) {
    encryption > 2 || authentication > 3 || 0 < aesLifetime < size || (tagLength != 128 && tagLength != 256)
  }

  /** CreateKeyStreamSessions. */
  function SessionsAsked(a: App): App {
    var b := if EncryptionSize(a) != 0 && a.enc.id == "" then Pushed(a, OpenConnect, ENCRYPTION) else a;
    if AuthenticationSize(a) != 0 && a.auth.id == "" then Pushed(b, OpenConnect, AUTHENTICATION) else b
  }

  /** AppTransitionTree in INITIALIZED. */
  function Begun(a: App): App {
    if !a.master then Entered(a, READY)
    else if EncryptionSize(a) == 0 && AuthenticationSize(a) == 0 then Transmitted(Entered(a, READY))
    else SessionsAsked(Entered(a, ESTABLISHING_ASSOCIATIONS))
  }

  /** The settings of the attributes; with one-time pad a key lasts one packet. */
  function Set(a: App, encryption: nat, authentication: nat): App {
    Configured(a.(aesLifetime := if encryption == 1 then a.size else a.aesLifetime), encryption, authentication)
  }

  function Started(a: App, encryption: nat, authentication: nat, tagLength: nat): App {
    if BadSettings(encryption, authentication, tagLength, a.size, a.aesLifetime) || a.state != INITIALIZED
    then a.(fatal := true)
    else Begun(Set(a, encryption, authentication))
  }

  // ----- Answers

  /** open_connect at the sender. */
  function SessionOpened(a: App, ok: bool, ksid: string): App {
    var b := Popped(a, OpenConnect);
    if ok then Identified(b, Oldest(a.requests, OpenConnect), ksid) else b
  }

  function Identified(a: App, t: SessionType, ksid: string): App {
    if ksid == "" then a.(fatal := true)
    else if t == ENCRYPTION then a.(enc := a.enc.(id := ksid)) else a.(auth := a.auth.(id := ksid))
  }

  /** open_connect at the receiver: the session is confirmed or cleared. */
  function SessionGranted(a: App, ok: bool): App {
    Settled(Popped(a, OpenConnect), Oldest(a.requests, OpenConnect), ok)
  }

  function Settled(a: App, t: SessionType, ok: bool): App {
    if ok then Verified(a, if t == ENCRYPTION then ENCRYPTION else AUTHENTICATION) else WithoutStream(a, t)
  }

  /** send_ksid at the receiver: the session gets its id, and is opened here, too. */
  function KsidReceived(a: App, ksid: string, scope: SessionType): App {
    Pushed(Entered(WithId(a, ksid, scope), ESTABLISHING_ASSOCIATIONS), OpenConnect, scope)
  }

  function WithId(a: App, ksid: string, scope: SessionType): App {
    if scope == ENCRYPTION then a.(enc := a.enc.(id := ksid))
    else if scope == AUTHENTICATION then a.(auth := a.auth.(id := ksid)) else a
  }

  /** establish_queues at the receiver. */
  function QueuesRequested(a: App): App {
    QueuesChecked(Entered(a, ESTABLISHING_KEY_QUEUES))
  }

  function Cleared(s: Session): Session {
    Session("", false, s.size, map[])
  }

  /** Close: the session of that id is cleared. */
  function Closed(a: App, ksid: string): App {
    Pushed(WithoutSession(a, ksid), Close(ksid), ENCRYPTION)
  }

  function WithoutSession(a: App, ksid: string): App {
    if a.enc.id == ksid then a.(enc := Cleared(a.enc))
    else if a.auth.id == ksid then a.(auth := Cleared(a.auth)) else a
  }

  /** close: the stream of the type noted is cleared, whichever session was closed. */
  function CloseAnswered(a: App, ksid: string): App {
    if a.state == STOPPED then a
    else WithoutStream(Popped(a, Close(ksid)), Oldest(a.requests, Close(ksid)))
  }

  function WithoutStream(a: App, t: SessionType): App {
    if t == ENCRYPTION then a.(enc := Cleared(a.enc)) else a.(auth := Cleared(a.auth))
  }

  /** The answer of the peer to send_ksid. */
  function KsidConfirmed(a: App, ok: bool, ksid: string, scope: SessionType): App {
    if !ok then Closed(a, ksid)
    else SessionsChecked(Verified(a, scope))
  }

  function Verified(a: App, scope: SessionType): App {
    if scope == ENCRYPTION then a.(enc := a.enc.(verified := true))
    else if scope == AUTHENTICATION then a.(auth := a.auth.(verified := true)) else a
  }

  /** The answer of the peer to establish_queues. */
  function QueuesConfirmed(a: App): App {
    var b := a.(replica := true);
    if a.primary then QueuesUp(Entered(b, KEY_QUEUES_ESTABLISHED)) else b
  }

  /** get_key: the key joins the stream of the type the request was noted under. */
  function KeyAnswered(a: App, ksid: string, ok: bool, index: nat, value: string): App {
    if a.state == STOPPED then a
    else KeyTaken(Popped(a, GetKey(ksid)), Oldest(a.requests, GetKey(ksid)), ok, index, value)
  }

  function KeyTaken(a: App, t: SessionType, ok: bool, index: nat, value: string): App {
    var session := if t == ENCRYPTION then a.enc else a.auth;
    if session.id == "" then a.(fatal := true)
    else if ok then Resumed(Filed(a, t, index, value))
    else Repeated(a, session.id)
  }

  /** A refused request is made again later. */
  function Repeated(a: App, ksid: string): App {
    if a.state == ESTABLISHING_KEY_QUEUES || a.master then a.(timers := a.timers + [ksid]) else a
  }

  function Filed(a: App, t: SessionType, index: nat, value: string): App {
    var key := Key(value, a.aesLifetime);
    if t == ENCRYPTION then a.(enc := a.enc.(keys := Added(a.enc.keys, index, key)))
    else a.(auth := a.auth.(keys := Added(a.auth.keys, index, key)))
  }

  /** What a new key sets going. */
  function Resumed(a: App): App {
    if a.state == ESTABLISHING_KEY_QUEUES then QueuesChecked(a)
    else if a.state == WAIT then Unblocked(a)
    else a
  }

  function Unblocked(a: App): App {
    if LacksEncryptionKey(a) || LacksAuthenticationKey(a) then a else Entered(a, READY)
  }

  /** The timer behind a refused request. */
  function TimerFired(a: App, k: nat): App
    requires k < |a.timers|
  {
    Asked(a.(timers := a.timers[..k] + a.timers[k + 1..]), a.timers[k])
  }

  function ClosedIfOpen(a: App, ksid: string): App {
    if ksid != "" then Closed(a, ksid) else a
  }

  /** Only the sender closes its sessions. */
  function SessionsClosed(a: App): App {
    if !a.master then a
    else
      var b := ClosedIfOpen(a, a.enc.id);
      ClosedIfOpen(b, b.auth.id)
  }

  function Emptied(a: App): App {
    a.(enc := Cleared(a.enc), auth := Cleared(a.auth), state := STOPPED)
  }

  function Ended(a: App): App {
    Emptied(SessionsClosed(a.(scheduled := false)))
  }

  // ----- The application

  function NameOf(key: AppKey?): Option<Named> {
    if key == null then None else Some(Named(key.m_index, key.m_value))
  }

  class QKDApp004 {
    const m_master: bool
    const m_useCrypto: bool
    const m_encryption: nat
    const m_authentication: nat
    const m_authenticationTagLengthInBits: nat
    var m_state: State
    var m_encryptionType: nat
    var m_authenticationType: nat
    var m_packetSize: nat
    var m_aesLifetime: nat
    const m_encStream: KeyStreamSession
    const m_authStream: KeyStreamSession
    var m_httpRequestsKMS: Requests
    var m_primaryQueueEstablished: bool
    var m_replicaQueueEstablished: bool
    /** The timers of the simulator that concern the application, and what it has sent. */
    var timers: seq<string>
    var queuesAsked: bool
    var sendScheduled: bool
    var sent: seq<Packet>
    var fatal: bool

    /** The settings in use, types and all, are whatever memory held until the start. */
    constructor (master: bool, useCrypto: bool, encryption: nat, authentication: nat, tagLength: nat,
                 packetSize: nat, aesLifetime: nat, encBuffer: nat, authBuffer: nat)
      ensures Valid() && fresh(m_encStream) && fresh(m_authStream)
      ensures m_encryption == encryption && m_authentication == authentication
      ensures m_authenticationTagLengthInBits == tagLength
      ensures View() == Installed(master, useCrypto, m_encryptionType, m_authenticationType, packetSize,
                                  aesLifetime, encBuffer, authBuffer)
    {
      m_master, m_useCrypto, m_state := master, useCrypto, INITIALIZED;
      m_encryption, m_authentication, m_authenticationTagLengthInBits := encryption, authentication, tagLength;
      m_packetSize, m_aesLifetime := packetSize, aesLifetime;
      m_encStream := new KeyStreamSession(ENCRYPTION, encBuffer);
      m_authStream := new KeyStreamSession(AUTHENTICATION, authBuffer);
      m_httpRequestsKMS, m_primaryQueueEstablished, m_replicaQueueEstablished := map[], false, false;
      timers, queuesAsked, sendScheduled, sent, fatal := [], false, false, [], false;
    }

    ghost predicate Valid()
      reads this, m_encStream, m_authStream, m_encStream.m_stream.Values, m_authStream.m_stream.Values
    {
      && m_encStream.Valid() && m_encStream.m_type == ENCRYPTION
      && m_authStream.Valid() && m_authStream.m_type == AUTHENTICATION
      && m_encStream.m_stream.Values !! m_authStream.m_stream.Values
    }

    ghost function View(): App
      reads this, m_encStream, m_authStream
    {
      App(m_master, m_useCrypto, m_state, m_encryptionType, m_authenticationType, m_packetSize, m_aesLifetime,
          m_encStream.View(), m_authStream.View(), m_httpRequestsKMS, timers,
          m_primaryQueueEstablished, m_replicaQueueEstablished, queuesAsked, sendScheduled, sent, fatal)
    }

    method GetEncryptionKeySize() returns (size: nat)
      ensures size == EncryptionSize(View())
    {
      size := App014.EncryptionKeySize(m_encryptionType, m_packetSize);
    }

    method GetAuthenticationKeySize() returns (size: nat)
      ensures size == AuthenticationSize(View())
    {
      size := App014.AuthenticationKeySize(m_authenticationType);
    }

    method SetCryptoSettings(encryptionType: nat, authenticationType: nat)
      modifies this`m_encryptionType, this`m_authenticationType
      ensures View() == Configured(old(View()), encryptionType, authenticationType)
    {
      if encryptionType <= 2 {
        m_encryptionType := encryptionType;
      }
      if authenticationType <= 1 {
        m_authenticationType := authenticationType;
      } else if authenticationType == 2 {
        m_authenticationType := 3;
      }
    }

    method PushHttpKmsRequest(uri: Uri, sessionType: SessionType)
      modifies this`m_httpRequestsKMS
      ensures View() == Pushed(old(View()), uri, sessionType)
    {
      if uri in m_httpRequestsKMS {
        m_httpRequestsKMS := m_httpRequestsKMS[uri := m_httpRequestsKMS[uri] + [sessionType]];
      } else {
        m_httpRequestsKMS := m_httpRequestsKMS[uri := [sessionType]];
        assert [sessionType] == [] + [sessionType];
      }
    }

    method PopHttpKmsRequest(uri: Uri) returns (sessionType: SessionType)
      modifies this`m_httpRequestsKMS
      ensures View() == Popped(old(View()), uri) && sessionType == Oldest(old(m_httpRequestsKMS), uri)
    {
      sessionType := EMPTY;
      if uri in m_httpRequestsKMS && m_httpRequestsKMS[uri] != [] {
        sessionType := m_httpRequestsKMS[uri][0];
        m_httpRequestsKMS := m_httpRequestsKMS[uri := m_httpRequestsKMS[uri][1..]];
      }
    }

    method GetKeyFromKMS(ksid: string)
      modifies this`m_httpRequestsKMS
      ensures View() == Asked(old(View()), ksid)
    {
      if m_state != STOPPED {
        PushHttpKmsRequest(GetKey(ksid), ENCRYPTION);
      }
    }

    method QueuesAreEmpty() returns (empty: bool)
      requires Valid()
      ensures empty == Drained(View())
    {
      var encKeys := m_encStream.GetKeyCount();
      var authKeys := m_authStream.GetKeyCount();
      empty := (m_encStream.m_id != "" && encKeys == 0) || (m_authStream.m_id != "" && authKeys == 0);
    }

    method SetState(state: State)
      requires Valid()
      modifies this`m_state
      ensures View() == Entered(old(View()), state)
    {
      var empty := QueuesAreEmpty();
      m_state := if m_state == SEND_DATA && state == READY && empty then WAIT else state;
    }

    method TakeEncKey() returns (encKey: AppKey?)
      requires Valid()
      modifies m_encStream`m_stream, m_encStream`keys, m_encStream.m_stream.Values`m_lifetime
      ensures Valid() && View() == Charged(old(View()))
      ensures TakenFrom(old(m_encStream.keys), encKey)
      ensures encKey != null ==> encKey.m_lifetime == FrontAfterSend(old(m_encStream.keys), m_packetSize)
    {
      encKey := m_encStream.TakeForSending(m_packetSize);
    }

    /** The encryption key for one packet: charged, and replaced if that was its last. */
    method ChargeKey() returns (encKey: AppKey?)
      requires Valid()
      modifies this`m_httpRequestsKMS
      modifies m_encStream`m_stream, m_encStream`keys, m_encStream.m_stream.Values`m_lifetime
      ensures Valid() && TakenFrom(old(m_encStream.keys), encKey)
      ensures View() == Used(old(View()))
    {
      encKey := TakeEncKey();
      AskAgain(m_encStream.m_id, true, encKey != null && encKey.m_lifetime == 0);
    }

    method EncryptionKey() returns (missing: bool, enc: Option<Named>)
      requires Valid()
      modifies this`m_httpRequestsKMS
      modifies m_encStream`m_stream, m_encStream`keys, m_encStream.m_stream.Values`m_lifetime
      ensures Valid() && View() == Encrypted(old(View()))
      ensures missing == LacksEncryptionKey(old(View())) && enc == EncryptionKeyOf(old(View()))
    {
      missing, enc := false, None;
      var size := GetEncryptionKeySize();
      if size != 0 {
        var encKey := ChargeKey();
        missing := encKey == null;
        enc := NameOf(encKey);
      }
    }

    /** The authentication key for one packet; it is replaced at once. */
    method SpendKey() returns (authKey: AppKey?)
      requires Valid()
      modifies this`m_httpRequestsKMS
      modifies m_authStream`m_stream, m_authStream`keys, m_authStream.m_stream.Values`m_lifetime
      ensures Valid() && TakenFrom(old(m_authStream.keys), authKey)
      ensures AuthenticationSize(old(View())) != 0 ==> View() == Authenticated(old(View()))
    {
      authKey := m_authStream.GetKey(0);
      assert View() == Spent(old(View()));
      AskAgain(m_authStream.m_id, true, authKey != null);
    }

    method AuthenticationKey() returns (missing: bool, auth: Option<Named>)
      requires Valid()
      modifies this`m_httpRequestsKMS
      modifies m_authStream`m_stream, m_authStream`keys, m_authStream.m_stream.Values`m_lifetime
      ensures Valid() && View() == Authenticated(old(View()))
      ensures missing == LacksAuthenticationKey(old(View())) && auth == AuthenticationKeyOf(old(View()))
    {
      missing, auth := false, None;
      var size := GetAuthenticationKeySize();
      if size != 0 {
        var authKey := SpendKey();
        missing := authKey == null;
        auth := NameOf(authKey);
      }
    }

    method Deliver(packet: Packet)
      requires Valid()
      modifies this`m_state, this`sendScheduled, this`sent
      ensures View() == Delivered(old(View()), packet)
    {
      sent := sent + [packet];
      SetState(READY);
      sendScheduled := true;
    }

    /** SendPacket; packet contents and the tag are left to QKDEncryptor. */
    method SendPacket()
      requires Valid() && m_master
      modifies this`m_state, this`m_httpRequestsKMS, this`sendScheduled, this`sent, this`fatal
      modifies m_encStream`m_stream, m_encStream`keys, m_encStream.m_stream.Values`m_lifetime
      modifies m_authStream`m_stream, m_authStream`keys, m_authStream.m_stream.Values`m_lifetime
      ensures Valid() && View() == Transmitted(old(View()))
    {
      if m_state == READY {
        SetState(SEND_DATA);
      }
      if m_state == SEND_DATA {
        SecurePacket();
      } else {
        MissPacket();
      }
    }

    method MissPacket()
      modifies this`sendScheduled, this`fatal
      ensures View() == Missed(old(View()))
    {
      if m_state == WAIT {
        sendScheduled := true;
      } else {
        fatal := true;
      }
    }

    method SecurePacket()
      requires Valid()
      modifies this`m_state, this`m_httpRequestsKMS, this`sendScheduled, this`sent
      modifies m_encStream`m_stream, m_encStream`keys, m_encStream.m_stream.Values`m_lifetime
      modifies m_authStream`m_stream, m_authStream`keys, m_authStream.m_stream.Values`m_lifetime
      ensures Valid() && View() == Secured(old(View()))
    {
      var missing, enc := EncryptionKey();
      if missing {
        SetState(READY);
      } else {
        TagPacket(enc);
      }
    }

    method TagPacket(enc: Option<Named>)
      requires Valid()
      modifies this`m_state, this`m_httpRequestsKMS, this`sendScheduled, this`sent
      modifies m_authStream`m_stream, m_authStream`keys, m_authStream.m_stream.Values`m_lifetime
      ensures Valid() && View() == Tagged(old(View()), enc)
    {
      var missing, auth := AuthenticationKey();
      if missing {
        SetState(READY);
      } else {
        Deliver(Packet(m_encryptionType, enc, m_authenticationType, auth, m_packetSize));
      }
    }

    method AskAgain(ksid: string, inSync: bool, spent: bool)
      modifies this`m_httpRequestsKMS
      ensures View() == AskedAgain(old(View()), ksid, inSync, spent)
    {
      if !inSync {
        GetKeyFromKMS(ksid);
      }
      if spent {
        GetKeyFromKMS(ksid);
      }
    }

    method FetchAuthKey(keyId: nat) returns (authKey: AppKey?)
      requires Valid()
      modifies this`m_httpRequestsKMS
      modifies m_authStream`m_stream, m_authStream`keys, m_authStream.m_stream.Values`m_lifetime
      ensures Valid() && View() == AuthFetched(old(View()), keyId)
      ensures if authKey == null then old(m_authStream.keys) == map[]
              else old(m_authStream.keys) != map[] && authKey.m_index == KeyFor(old(m_authStream.keys), keyId)
                   && authKey.m_value == old(m_authStream.keys)[authKey.m_index].value
      ensures authKey == null <==> AfterSync(old(m_authStream.keys), keyId) == map[]
      ensures m_authStream.m_stream.Values <= old(m_authStream.m_stream).Values
    {
      var inSync;
      inSync, authKey := m_authStream.TakeForReceiving(keyId, 0);
      assert View() == AuthTaken(old(View()), keyId);
      AskAgain(m_authStream.m_id, inSync, authKey != null);
    }

    method FetchEncKey(keyId: nat) returns (encKey: AppKey?)
      requires Valid()
      modifies this`m_httpRequestsKMS
      modifies m_encStream`m_stream, m_encStream`keys, m_encStream.m_stream.Values`m_lifetime
      ensures Valid() && View() == EncFetched(old(View()), keyId)
      ensures if encKey == null then old(m_encStream.keys) == map[]
              else old(m_encStream.keys) != map[] && encKey.m_index == KeyFor(old(m_encStream.keys), keyId)
                   && encKey.m_value == old(m_encStream.keys)[encKey.m_index].value
      ensures m_encStream.m_stream.Values <= old(m_encStream.m_stream).Values
    {
      var inSync;
      inSync, encKey := m_encStream.TakeForReceiving(keyId, m_packetSize);
      assert View() == EncTaken(old(View()), keyId);
      AskAgain(m_encStream.m_id, inSync, encKey == null || encKey.m_lifetime == 0);
    }

    /** DataPacketReceived with the packets that the arrival completes. */
    method DataPacketReceived(ps: seq<Data>)
      requires Valid() && !m_master
      modifies this`m_state, this`m_packetSize, this`m_aesLifetime, this`m_encryptionType, this`m_authenticationType
      modifies this`m_httpRequestsKMS
      modifies m_encStream`m_stream, m_encStream`keys, m_encStream.m_stream.Values`m_lifetime
      modifies m_authStream`m_stream, m_authStream`keys, m_authStream.m_stream.Values`m_lifetime
      ensures Valid() && View() == Arrived(old(View()), ps)
    {
      if m_state == READY {
        for i := 0 to |ps|
          invariant Valid() && View() == AllProcessed(old(View()), ps[..i])
          invariant m_encStream.m_stream.Values <= old(m_encStream.m_stream).Values
          invariant m_authStream.m_stream.Values <= old(m_authStream.m_stream).Values
        {
          assert ps[..i + 1][..i] == ps[..i];
          ProcessDataPacket(ps[i]);
        }
        assert ps[..|ps|] == ps;
      }
    }

    method ProcessDataPacket(p: Data)
      requires Valid() && !m_master
      modifies this`m_state, this`m_packetSize, this`m_aesLifetime, this`m_encryptionType, this`m_authenticationType
      modifies this`m_httpRequestsKMS
      modifies m_encStream`m_stream, m_encStream`keys, m_encStream.m_stream.Values`m_lifetime
      modifies m_authStream`m_stream, m_authStream`keys, m_authStream.m_stream.Values`m_lifetime
      ensures Valid() && View() == Processed(old(View()), p)
      ensures m_encStream.m_stream.Values <= old(m_encStream.m_stream).Values
      ensures m_authStream.m_stream.Values <= old(m_authStream.m_stream).Values
    {
      OpenPacket(p.h, p.size);
      CheckPacket(p.h, p.tagOk);
    }

    method OpenPacket(h: Header, payloadSize: nat)
      requires Valid()
      modifies this`m_state, this`m_packetSize, this`m_aesLifetime, this`m_encryptionType, this`m_authenticationType
      ensures View() == Opened(old(View()), h, payloadSize)
    {
      SetState(DECRYPT_DATA);
      m_packetSize := payloadSize;
      if m_encryptionType != 2 {
        m_aesLifetime := m_packetSize;
      }
      SetCryptoSettings(h.encryption, h.authentication);
    }

    method CheckPacket(h: Header, tagOk: bool)
      requires Valid()
      modifies this`m_state, this`m_httpRequestsKMS
      modifies m_encStream`m_stream, m_encStream`keys, m_encStream.m_stream.Values`m_lifetime
      modifies m_authStream`m_stream, m_authStream`keys, m_authStream.m_stream.Values`m_lifetime
      ensures Valid() && View() == Checked(old(View()), h, tagOk)
      ensures m_encStream.m_stream.Values <= old(m_encStream.m_stream).Values
      ensures m_authStream.m_stream.Values <= old(m_authStream.m_stream).Values
    {
      var size := GetAuthenticationKeySize();
      if size == 0 {
        TakeVerdict(h, tagOk);
      } else {
        var authKey := FetchAuthKey(h.authKeyId);
        if authKey == null {
          SetState(READY);
        } else {
          TakeVerdict(h, tagOk);
        }
      }
    }

    method TakeVerdict(h: Header, tagOk: bool)
      requires Valid()
      modifies this`m_state, this`m_httpRequestsKMS
      modifies m_encStream`m_stream, m_encStream`keys, m_encStream.m_stream.Values`m_lifetime
      ensures Valid() && View() == VerdictTaken(old(View()), h, tagOk)
      ensures m_encStream.m_stream.Values <= old(m_encStream.m_stream).Values
    {
      var authSuccessful := true;
      var size := GetAuthenticationKeySize();
      if (size != 0 || h.authentication != 0) && m_useCrypto {
        authSuccessful := tagOk;
      }
      if authSuccessful {
        DecryptPacket(h);
      }
    }

    method DecryptPacket(h: Header)
      requires Valid()
      modifies this`m_state, this`m_httpRequestsKMS
      modifies m_encStream`m_stream, m_encStream`keys, m_encStream.m_stream.Values`m_lifetime
      ensures Valid() && View() == Decrypted(old(View()), h)
      ensures m_encStream.m_stream.Values <= old(m_encStream.m_stream).Values
    {
      if h.encryption != 0 {
        UseEncKey(h.encKeyId);
      }
    }

    method UseEncKey(keyId: nat)
      requires Valid()
      modifies this`m_state, this`m_httpRequestsKMS
      modifies m_encStream`m_stream, m_encStream`keys, m_encStream.m_stream.Values`m_lifetime
      ensures Valid() && View() == Entered(EncFetched(old(View()), keyId), READY)
      ensures m_encStream.m_stream.Values <= old(m_encStream.m_stream).Values
    {
      var encKey := FetchEncKey(keyId);
      SetState(READY);
    }

    /** AppTransitionTree in KEY_QUEUES_ESTABLISHED. */
    method QueuesAreUp()
      requires Valid() && m_state == KEY_QUEUES_ESTABLISHED
      modifies this`m_state, this`m_httpRequestsKMS, this`sendScheduled, this`sent, this`fatal, this`queuesAsked
      modifies m_encStream`m_stream, m_encStream`keys, m_encStream.m_stream.Values`m_lifetime
      modifies m_authStream`m_stream, m_authStream`keys, m_authStream.m_stream.Values`m_lifetime
      ensures Valid() && View() == QueuesUp(old(View()))
    {
      SetState(READY);
      if m_master {
        SendPacket();
      } else {
        queuesAsked := true;
      }
    }

    method AskIfShort(session: KeyStreamSession) returns (ready: bool)
      requires Valid() && session.Valid()
      modifies this`m_httpRequestsKMS
      ensures ready == !Short(session.View()) && View() == AskedIfShort(old(View()), session.View())
    {
      var count := session.GetKeyCount();
      ready := true;
      if session.m_verified && count < session.m_size {
        GetKeyFromKMS(session.m_id);
        ready := false;
      }
    }

    method CheckQueues()
      requires Valid()
      modifies this`m_state, this`m_httpRequestsKMS, this`sendScheduled, this`sent, this`fatal, this`queuesAsked
      modifies this`m_primaryQueueEstablished
      modifies m_encStream`m_stream, m_encStream`keys, m_encStream.m_stream.Values`m_lifetime
      modifies m_authStream`m_stream, m_authStream`keys, m_authStream.m_stream.Values`m_lifetime
      ensures Valid() && View() == QueuesChecked(old(View()))
    {
      var encQueueReady := AskIfShort(m_encStream);
      var authQueueReady := AskIfShort(m_authStream);
      if encQueueReady && authQueueReady {
        QueuesAreFilled();
      }
    }

    method QueuesAreFilled()
      requires Valid()
      modifies this`m_state, this`m_httpRequestsKMS, this`sendScheduled, this`sent, this`fatal, this`queuesAsked
      modifies this`m_primaryQueueEstablished
      modifies m_encStream`m_stream, m_encStream`keys, m_encStream.m_stream.Values`m_lifetime
      modifies m_authStream`m_stream, m_authStream`keys, m_authStream.m_stream.Values`m_lifetime
      ensures Valid() && View() == QueuesFilled(old(View()))
    {
      if !m_master || m_replicaQueueEstablished {
        SetState(KEY_QUEUES_ESTABLISHED);
        QueuesAreUp();
      } else {
        m_primaryQueueEstablished := true;
      }
    }

    /** CheckStreamSessions, and AppTransitionTree in ASSOCIATIONS_ESTABLISHED. */
    method CheckStreamSessions()
      requires Valid() && m_master
      modifies this`m_state, this`m_httpRequestsKMS, this`sendScheduled, this`sent, this`fatal, this`queuesAsked
      modifies this`m_primaryQueueEstablished
      modifies m_encStream`m_stream, m_encStream`keys, m_encStream.m_stream.Values`m_lifetime
      modifies m_authStream`m_stream, m_authStream`keys, m_authStream.m_stream.Values`m_lifetime
      ensures Valid() && View() == SessionsChecked(old(View()))
    {
      var encStream := m_encStream.m_id == "" || m_encStream.m_verified;
      var authStream := m_authStream.m_id == "" || m_authStream.m_verified;
      if encStream && authStream && m_state == ESTABLISHING_ASSOCIATIONS {
        m_state := ESTABLISHING_KEY_QUEUES;
        queuesAsked := true;
        CheckQueues();
      }
    }

    /** AppTransitionTree in INITIALIZED. */
    method Begin()
      requires Valid() && m_state == INITIALIZED
      modifies this`m_state, this`m_httpRequestsKMS, this`sendScheduled, this`sent, this`fatal
      modifies m_encStream`m_stream, m_encStream`keys, m_encStream.m_stream.Values`m_lifetime
      modifies m_authStream`m_stream, m_authStream`keys, m_authStream.m_stream.Values`m_lifetime
      ensures Valid() && View() == Begun(old(View()))
    {
      var keys := KeysAreNeeded();
      if !m_master {
        SetState(READY);
      } else if keys {
        OpenSessions();
      } else {
        SendAtOnce();
      }
    }

    method KeysAreNeeded() returns (needed: bool)
      ensures needed <==> EncryptionSize(View()) != 0 || AuthenticationSize(View()) != 0
    {
      var encryptionSize := GetEncryptionKeySize();
      var authenticationSize := GetAuthenticationKeySize();
      needed := encryptionSize != 0 || authenticationSize != 0;
    }

    method OpenSessions()
      requires Valid()
      modifies this`m_state, this`m_httpRequestsKMS
      ensures View() == SessionsAsked(Entered(old(View()), ESTABLISHING_ASSOCIATIONS))
    {
      SetState(ESTABLISHING_ASSOCIATIONS);
      CreateKeyStreamSessions();
    }

    method SendAtOnce()
      requires Valid() && m_master
      modifies this`m_state, this`m_httpRequestsKMS, this`sendScheduled, this`sent, this`fatal
      modifies m_encStream`m_stream, m_encStream`keys, m_encStream.m_stream.Values`m_lifetime
      modifies m_authStream`m_stream, m_authStream`keys, m_authStream.m_stream.Values`m_lifetime
      ensures Valid() && View() == Transmitted(Entered(old(View()), READY))
    {
      SetState(READY);
      SendPacket();
    }

    method CreateKeyStreamSessions()
      requires Valid()
      modifies this`m_httpRequestsKMS
      ensures View() == SessionsAsked(old(View()))
    {
      var encryptionSize := GetEncryptionKeySize();
      var authenticationSize := GetAuthenticationKeySize();
      if encryptionSize != 0 && m_encStream.m_id == "" {
        PushHttpKmsRequest(OpenConnect, ENCRYPTION);
      }
      if authenticationSize != 0 && m_authStream.m_id == "" {
        PushHttpKmsRequest(OpenConnect, AUTHENTICATION);
      }
    }

    method StartApplication()
      requires Valid()
      modifies this`m_aesLifetime, this`m_encryptionType, this`m_authenticationType
      modifies this`m_state, this`m_httpRequestsKMS, this`sendScheduled, this`sent, this`fatal
      modifies m_encStream`m_stream, m_encStream`keys, m_encStream.m_stream.Values`m_lifetime
      modifies m_authStream`m_stream, m_authStream`keys, m_authStream.m_stream.Values`m_lifetime
      ensures Valid()
      ensures View() == Started(old(View()), m_encryption, m_authentication, m_authenticationTagLengthInBits)
    {
      if m_encryption > 2 || m_authentication > 3 || (m_aesLifetime != 0 && m_aesLifetime < m_packetSize)
         || (m_authenticationTagLengthInBits != 128 && m_authenticationTagLengthInBits != 256)
         || m_state != INITIALIZED {
        fatal := true;
        return;
      }
      ApplySettings();
      Begin();
    }

    method ApplySettings()
      modifies this`m_aesLifetime, this`m_encryptionType, this`m_authenticationType
      ensures View() == Set(old(View()), m_encryption, m_authentication)
    {
      if m_encryption == 1 {
        m_aesLifetime := m_packetSize;
      }
      SetCryptoSettings(m_encryption, m_authentication);
    }

    /** The answer of the key manager to open_connect. */
    method ProcessOpenConnectResponse(ok: bool, ksid: string)
      requires Valid()
      modifies this`m_httpRequestsKMS, this`fatal, m_encStream, m_authStream
      ensures Valid()
      ensures View() == if m_master then SessionOpened(old(View()), ok, ksid) else SessionGranted(old(View()), ok)
    {
      var sessionType := PopHttpKmsRequest(OpenConnect);
      if !m_master {
        Settle(sessionType, ok);
      } else if ok {
        SetId(sessionType, ksid);
      }
    }

    method Settle(sessionType: SessionType, ok: bool)
      requires Valid()
      modifies m_encStream, m_authStream
      ensures Valid() && View() == Settled(old(View()), sessionType, ok)
    {
      if !ok {
        ClearStream(sessionType);
      } else if sessionType == ENCRYPTION {
        m_encStream.m_verified := true;
      } else {
        m_authStream.m_verified := true;
      }
    }

    method SetId(sessionType: SessionType, ksid: string)
      requires Valid()
      modifies this`fatal, m_encStream`m_id, m_authStream`m_id
      ensures Valid() && View() == Identified(old(View()), sessionType, ksid)
    {
      if ksid == "" {
        fatal := true;
      } else if sessionType == ENCRYPTION {
        m_encStream.m_id := ksid;
      } else {
        m_authStream.m_id := ksid;
      }
    }

    method Close(ksid: string)
      requires Valid()
      modifies this`m_httpRequestsKMS, m_encStream, m_authStream
      ensures Valid() && View() == Closed(old(View()), ksid)
      ensures m_encStream.m_stream.Values <= old(m_encStream.m_stream).Values
      ensures m_authStream.m_stream.Values <= old(m_authStream.m_stream).Values
    {
      if m_encStream.m_id == ksid {
        m_encStream.ClearStream();
      } else if m_authStream.m_id == ksid {
        m_authStream.ClearStream();
      }
      PushHttpKmsRequest(Uri.Close(ksid), ENCRYPTION);
    }

    /** A CLOSE answer; nothing is done once the application has stopped. */
    method ProcessCloseResponse(ksid: string)
      requires Valid()
      modifies this`m_httpRequestsKMS, m_encStream, m_authStream
      ensures Valid() && View() == CloseAnswered(old(View()), ksid)
    {
      if m_state != STOPPED {
        var sessionType := PopHttpKmsRequest(Uri.Close(ksid));
        ClearStream(sessionType);
      }
    }

    method ClearStream(sessionType: SessionType)
      requires Valid()
      modifies m_encStream, m_authStream
      ensures Valid() && View() == WithoutStream(old(View()), sessionType)
    {
      if sessionType == ENCRYPTION {
        m_encStream.ClearStream();
      } else {
        m_authStream.ClearStream();
      }
    }

    /** The answer of the peer to send_ksid, at the sender. */
    method ProcessKsidResponse(ok: bool, ksid: string, scope: SessionType)
      requires Valid() && m_master
      modifies this`m_state, this`m_httpRequestsKMS, this`sendScheduled, this`sent, this`fatal, this`queuesAsked
      modifies this`m_primaryQueueEstablished
      modifies m_encStream, m_encStream.m_stream.Values`m_lifetime
      modifies m_authStream, m_authStream.m_stream.Values`m_lifetime
      ensures Valid() && View() == KsidConfirmed(old(View()), ok, ksid, scope)
    {
      if !ok {
        Close(ksid);
      } else {
        if scope == ENCRYPTION {
          m_encStream.m_verified := true;
        } else if scope == AUTHENTICATION {
          m_authStream.m_verified := true;
        }
        CheckStreamSessions();
      }
    }

    /** The answer of the peer to establish_queues, at the sender. */
    method ProcessQueuesResponse()
      requires Valid() && m_master
      modifies this`m_replicaQueueEstablished
      modifies this`m_state, this`m_httpRequestsKMS, this`sendScheduled, this`sent, this`fatal, this`queuesAsked
      modifies m_encStream`m_stream, m_encStream`keys, m_encStream.m_stream.Values`m_lifetime
      modifies m_authStream`m_stream, m_authStream`keys, m_authStream.m_stream.Values`m_lifetime
      ensures Valid() && View() == QueuesConfirmed(old(View()))
    {
      m_replicaQueueEstablished := true;
      if m_primaryQueueEstablished {
        SetState(KEY_QUEUES_ESTABLISHED);
        QueuesAreUp();
      }
    }

    /** send_ksid at the receiver. */
    method ProcessKsidRequest(ksid: string, scope: SessionType)
      requires Valid() && !m_master
      modifies this`m_state, this`m_httpRequestsKMS, m_encStream`m_id, m_authStream`m_id
      ensures Valid() && View() == KsidReceived(old(View()), ksid, scope)
    {
      NameSession(ksid, scope);
      SetState(ESTABLISHING_ASSOCIATIONS);
      PushHttpKmsRequest(OpenConnect, scope);
    }

    method NameSession(ksid: string, scope: SessionType)
      requires Valid()
      modifies m_encStream`m_id, m_authStream`m_id
      ensures Valid() && View() == WithId(old(View()), ksid, scope)
    {
      if scope == ENCRYPTION {
        m_encStream.m_id := ksid;
      } else if scope == AUTHENTICATION {
        m_authStream.m_id := ksid;
      }
    }

    /** establish_queues at the receiver. */
    method ProcessQueuesRequest()
      requires Valid() && !m_master
      modifies this`m_state, this`m_httpRequestsKMS, this`sendScheduled, this`sent, this`fatal, this`queuesAsked
      modifies this`m_primaryQueueEstablished
      modifies m_encStream`m_stream, m_encStream`keys, m_encStream.m_stream.Values`m_lifetime
      modifies m_authStream`m_stream, m_authStream`keys, m_authStream.m_stream.Values`m_lifetime
      ensures Valid() && View() == QueuesRequested(old(View()))
    {
      SetState(ESTABLISHING_KEY_QUEUES);
      CheckQueues();
    }

    /** A GET_KEY answer. */
    method ProcessGetKeyResponse(ksid: string, ok: bool, index: nat, keyValue: string)
      requires Valid()
      modifies this`timers
      modifies this`m_state, this`m_httpRequestsKMS, this`sendScheduled, this`sent, this`fatal, this`queuesAsked
      modifies this`m_primaryQueueEstablished
      modifies m_encStream`m_stream, m_encStream`keys, m_encStream.m_stream.Values`m_lifetime
      modifies m_authStream`m_stream, m_authStream`keys, m_authStream.m_stream.Values`m_lifetime
      ensures Valid() && View() == KeyAnswered(old(View()), ksid, ok, index, keyValue)
    {
      if m_state != STOPPED {
        var sessionType := PopHttpKmsRequest(GetKey(ksid));
        TakeKey(sessionType, ok, index, keyValue);
      }
    }

    method TakeKey(sessionType: SessionType, ok: bool, index: nat, keyValue: string)
      requires Valid()
      modifies this`timers
      modifies this`m_state, this`m_httpRequestsKMS, this`sendScheduled, this`sent, this`fatal, this`queuesAsked
      modifies this`m_primaryQueueEstablished
      modifies m_encStream`m_stream, m_encStream`keys, m_encStream.m_stream.Values`m_lifetime
      modifies m_authStream`m_stream, m_authStream`keys, m_authStream.m_stream.Values`m_lifetime
      ensures Valid() && View() == KeyTaken(old(View()), sessionType, ok, index, keyValue)
    {
      var id := if sessionType == ENCRYPTION then m_encStream.m_id else m_authStream.m_id;
      if id == "" {
        fatal := true;
      } else if ok {
        ProcessKey(sessionType, index, keyValue);
      } else {
        RepeatLater(id);
      }
    }

    method RepeatLater(ksid: string)
      modifies this`timers
      ensures View() == Repeated(old(View()), ksid)
    {
      if m_state == ESTABLISHING_KEY_QUEUES || m_master {
        timers := timers + [ksid];
      }
    }

    method ProcessKey(sessionType: SessionType, index: nat, keyValue: string)
      requires Valid()
      modifies this`m_state, this`m_httpRequestsKMS, this`sendScheduled, this`sent, this`fatal, this`queuesAsked
      modifies this`m_primaryQueueEstablished
      modifies m_encStream`m_stream, m_encStream`keys, m_encStream.m_stream.Values`m_lifetime
      modifies m_authStream`m_stream, m_authStream`keys, m_authStream.m_stream.Values`m_lifetime
      ensures Valid() && View() == Resumed(Filed(old(View()), sessionType, index, keyValue))
    {
      FileKey(sessionType, index, keyValue);
      Resume();
    }

    method FileKey(sessionType: SessionType, index: nat, keyValue: string)
      requires Valid()
      modifies m_encStream`m_stream, m_encStream`keys, m_authStream`m_stream, m_authStream`keys
      ensures Valid() && View() == Filed(old(View()), sessionType, index, keyValue)
      ensures forall key :: key in m_encStream.m_stream.Values ==>
                key in old(m_encStream.m_stream).Values || fresh(key)
      ensures forall key :: key in m_authStream.m_stream.Values ==>
                key in old(m_authStream.m_stream).Values || fresh(key)
    {
      var key := new AppKey(index, keyValue, m_aesLifetime);
      if sessionType == ENCRYPTION {
        m_encStream.AddKey(key);
      } else {
        m_authStream.AddKey(key);
      }
    }

    /** What a new key sets going. */
    method Resume()
      requires Valid()
      modifies this`m_state, this`m_httpRequestsKMS, this`sendScheduled, this`sent, this`fatal, this`queuesAsked
      modifies this`m_primaryQueueEstablished
      modifies m_encStream`m_stream, m_encStream`keys, m_encStream.m_stream.Values`m_lifetime
      modifies m_authStream`m_stream, m_authStream`keys, m_authStream.m_stream.Values`m_lifetime
      ensures Valid() && View() == Resumed(old(View()))
    {
      if m_state == ESTABLISHING_KEY_QUEUES {
        CheckQueues();
      } else if m_state == WAIT {
        EndWait();
      }
    }

    method EndWait()
      requires Valid()
      modifies this`m_state
      ensures View() == Unblocked(old(View()))
    {
      var missing := KeysAreMissing();
      if !missing {
        SetState(READY);
      }
    }

    method KeysAreMissing() returns (missing: bool)
      requires Valid()
      ensures missing <==> LacksEncryptionKey(View()) || LacksAuthenticationKey(View())
    {
      var encryptionSize := GetEncryptionKeySize();
      var authenticationSize := GetAuthenticationKeySize();
      var encKeys := m_encStream.GetKeyCount();
      var authKeys := m_authStream.GetKeyCount();
      missing := (encryptionSize != 0 && encKeys == 0) || (authenticationSize != 0 && authKeys == 0);
    }

    /** The timer behind a refused request fires. */
    method AskLater(k: nat)
      requires k < |timers|
      modifies this`timers, this`m_httpRequestsKMS
      ensures View() == TimerFired(old(View()), k)
    {
      var ksid := timers[k];
      timers := timers[..k] + timers[k + 1..];
      GetKeyFromKMS(ksid);
    }

    method StopApplication()
      requires Valid()
      modifies this`m_state, this`m_httpRequestsKMS, this`sendScheduled, m_encStream, m_authStream
      ensures Valid() && View() == Ended(old(View()))
    {
      sendScheduled := false;
      CloseSessions();
      ClearStreams();
    }

    method ClearStreams()
      requires Valid()
      modifies this`m_state, m_encStream, m_authStream
      ensures Valid() && View() == Emptied(old(View()))
    {
      m_encStream.ClearStream();
      m_authStream.ClearStream();
      m_state := STOPPED;
    }

    method CloseSessions()
      requires Valid()
      modifies this`m_httpRequestsKMS, m_encStream, m_authStream
      ensures Valid() && View() == SessionsClosed(old(View()))
    {
      if m_master {
        CloseIfOpen(m_encStream.m_id);
        CloseIfOpen(m_authStream.m_id);
      }
    }

    method CloseIfOpen(ksid: string)
      requires Valid()
      modifies this`m_httpRequestsKMS, m_encStream, m_authStream
      ensures Valid() && View() == ClosedIfOpen(old(View()), ksid)
    {
      if ksid != "" {
        Close(ksid);
      }
    }
  }
}
