/**
 A QKDApp004 receiver: which arrivals it takes, and when it takes none any more.
 */
module App004Receiver {
  import opened KeyStream
  import opened OrderedKeys
  import opened App004

  lemma DecryptedState(a: App, h: Header)
    requires a.state == DECRYPT_DATA
    ensures Decrypted(a, h).state == if h.encryption == 0 then DECRYPT_DATA else READY
  {
    var synced := AfterSync(a.enc.keys, h.encKeyId);
    AskedAgainStays(EncTaken(a, h.encKeyId), a.enc.id, InSync(a.enc.keys, h.encKeyId),
                    synced == map[] || FrontAfterGet(synced, a.size) == 0, EncFetched(a, h.encKeyId));
  }

  lemma AuthFetchedState(a: App, keyId: nat)
    ensures AuthFetched(a, keyId).state == a.state && AuthFetched(a, keyId).authentication == a.authentication
    ensures AuthFetched(a, keyId).useCrypto == a.useCrypto
    ensures AfterSync(a.auth.keys, keyId) == map[] <==> a.auth.keys == map[]
  {
    AskedAgainStays(AuthTaken(a, keyId), a.auth.id, InSync(a.auth.keys, keyId),
                    AfterSync(a.auth.keys, keyId) != map[], AuthFetched(a, keyId));
    assert keyId in a.auth.keys ==> keyId in AfterSync(a.auth.keys, keyId);
  }

  lemma VerdictState(a: App, h: Header, tagOk: bool)
    requires a.state == DECRYPT_DATA
    ensures VerdictTaken(a, h, tagOk).state ==
            if !Refused(a, h, tagOk) && h.encryption != 0 then READY else DECRYPT_DATA
  {
    DecryptedState(a, h);
  }

  lemma CheckedState(a: App, h: Header, tagOk: bool)
    requires a.state == DECRYPT_DATA
    ensures Checked(a, h, tagOk).state == if Reopens(a, h, tagOk) then READY else DECRYPT_DATA
  {
    if AuthenticationSize(a) == 0 {
      VerdictState(a, h, tagOk);
    } else {
      AuthFetchedState(a, h.authKeyId);
      if a.auth.keys != map[] {
        FetchedState(a, AuthFetched(a, h.authKeyId), h, tagOk);
      }
    }
  }

  lemma FetchedState(a: App, b: App, h: Header, tagOk: bool)
    requires b.state == DECRYPT_DATA && b.authentication == a.authentication && b.useCrypto == a.useCrypto
    ensures VerdictTaken(b, h, tagOk).state ==
            if !Refused(a, h, tagOk) && h.encryption != 0 then READY else DECRYPT_DATA
  {
    VerdictState(b, h, tagOk);
  }

  /** The key to check the packet is missing, or the packet passes and is encrypted. */
  predicate Reopens(a: App, h: Header, tagOk: bool) {
    (AuthenticationSize(a) != 0 && a.auth.keys == map[]) || (!Refused(a, h, tagOk) && h.encryption != 0)
  }

  /** An arrival that completes packets opens every one of them.  Afterwards the receiver
      takes another arrival exactly if its last packet leaves it so: the key to check that
      one was missing, or it passed and was encrypted. */
  lemma {:induction false} ReadyAgainIff(a: App, ps: seq<Data>)
    requires a.state == READY && ps != []
    ensures var last := ps[|ps| - 1];
            var b := Opened(AllProcessed(a, ps[..|ps| - 1]), last.h, last.size);
            Arrived(a, ps).state == if Reopens(b, last.h, last.tagOk) then READY else DECRYPT_DATA
  {
    var last := ps[|ps| - 1];
    CheckedState(Opened(AllProcessed(a, ps[..|ps| - 1]), last.h, last.size), last.h, last.tagOk);
  }

  lemma {:induction false} FrontOf(a: App, first: Data, second: Data)
    ensures AllProcessed(a, [first, second]) == Processed(Processed(a, first), second)
  {
    assert [first, second][..1] == [first] && [first][..0] == [];
    assert AllProcessed(a, [first]) == Processed(a, first);
  }

  /** A packet that is not encrypted makes the receiver drop the next arrival, but not what
      arrives with it: an encrypted packet behind it is opened and ends in READY. */
  lemma SameArrivalOrNext(a: App, plain: Data, secret: Data)
    requires a.state == READY && plain.h.encryption == 0 && secret.h.encryption != 0
    requires plain.h.authentication == 0 && secret.h.authentication == 0
    ensures Arrived(a, [plain, secret]).state == READY
    ensures Arrived(Arrived(a, [plain]), [secret]) == Arrived(a, [plain])
    ensures Arrived(a, [plain]).state == DECRYPT_DATA
  {
    ReadyAgainIff(a, [plain, secret]);
    ReadyAgainIff(a, [plain]);
    FrontOf(a, plain, secret);
  }

  // ----- The keys a packet uses

  /** With a packet of this size under the key at index i, everything before it is gone, it
      has lost so much of its lifetime or is gone, too, and all behind it is as it was. */
  ghost predicate Opens(before: Stream, i: nat, size: nat, after: Stream) {
    && i in before
    && (forall k :: k in after <==> k in before && (i < k || (k == i && size < before[i].lifetime)))
    && (i in after ==> after[i] == Key(before[i].value, before[i].lifetime - size))
    && (forall k :: k in after && k != i ==> after[k] == before[k])
  }

  /** There is only one such stream. */
  lemma OpensOne(before: Stream, i: nat, size: nat, x: Stream, y: Stream)
    requires Opens(before, i, size, x) && Opens(before, i, size, y)
    ensures x == y
  {
    assert x.Keys == y.Keys;
  }

  lemma ReceivedKeys(keys: Stream, index: nat, size: nat)
    ensures if keys == map[] then AfterReceive(keys, index, size) == map[]
            else Opens(keys, KeyFor(keys, index), size, AfterReceive(keys, index, size))
  {
    SyncFinds(keys, index);
  }

  /** An authentication key is used once: it goes with everything before it. */
  ghost predicate Checks(before: Stream, i: nat, after: Stream) {
    && i in before
    && (forall k :: k in after <==> k in before && i < k)
    && (forall k :: k in after ==> after[k] == before[k])
  }

  lemma CheckedKeys(keys: Stream, index: nat, after: Stream)
    requires after == AfterGet(AfterSync(keys, index), AUTHENTICATION, 0)
    ensures if keys == map[] then after == map[] else Checks(keys, KeyFor(keys, index), after)
  {
    SyncFinds(keys, index);
  }

  /** The authentication by which a packet with this header is checked. */
  function CheckedBy(a: App, h: Header): nat {
    if h.authentication <= 1 then h.authentication else if h.authentication == 2 then 3 else a.authentication
  }

  /** VMAC takes a key of the application to check a packet. */
  predicate NeedsKey(a: App, p: Data) {
    CheckedBy(a, p.h) == 1
  }

  /** The packet is not dropped: the key to check it is there, and if crypto is performed
      its tag is right, unless it says that it has none and needs no key. */
  predicate Passes(a: App, p: Data) {
    && (NeedsKey(a, p) ==> a.auth.keys != map[])
    && (a.useCrypto && (NeedsKey(a, p) || p.h.authentication != 0) ==> p.tagOk)
  }

  /** The settings behind a packet. */
  predicate Follows(a: App, p: Data, b: App) {
    && b.size == p.size && b.authentication == CheckedBy(a, p.h)
    && b.encryption == (if p.h.encryption <= 2 then p.h.encryption else a.encryption)
    && b.aesLifetime == if a.encryption == 2 then a.aesLifetime else p.size
  }

  /** What becomes of the encryption keys, if one of them is used. */
  ghost predicate EncryptionUse(used: bool, before: Stream, index: nat, size: nat, after: Stream) {
    if !used || before == map[] then after == before else Opens(before, KeyFor(before, index), size, after)
  }

  /** And of the authentication keys. */
  ghost predicate AuthenticationUse(used: bool, before: Stream, index: nat, after: Stream) {
    if !used || before == map[] then after == before else Checks(before, KeyFor(before, index), after)
  }

  lemma EncFetchedUses(a: App, keyId: nat, b: App)
    requires b == EncFetched(a, keyId)
    ensures b == a.(requests := b.requests, enc := a.enc.(keys := b.enc.keys))
    ensures EncryptionUse(true, a.enc.keys, keyId, a.size, b.enc.keys)
  {
    var synced := AfterSync(a.enc.keys, keyId);
    AskedAgainStays(EncTaken(a, keyId), a.enc.id, InSync(a.enc.keys, keyId),
                    synced == map[] || FrontAfterGet(synced, a.size) == 0, b);
    ReceivedKeys(a.enc.keys, keyId, a.size);
  }

  lemma DecryptedUses(a: App, h: Header, b: App)
    requires a.state == DECRYPT_DATA && b == Decrypted(a, h)
    ensures b == a.(state := b.state, requests := b.requests, enc := a.enc.(keys := b.enc.keys))
    ensures EncryptionUse(h.encryption != 0, a.enc.keys, h.encKeyId, a.size, b.enc.keys)
  {
    if h.encryption != 0 {
      var c := EncFetched(a, h.encKeyId);
      EncFetchedUses(a, h.encKeyId, c);
      assert b == c.(state := b.state);
    }
  }

  lemma AuthFetchedUses(a: App, keyId: nat, b: App)
    requires b == AuthFetched(a, keyId)
    ensures b == a.(requests := b.requests, auth := a.auth.(keys := b.auth.keys))
    ensures AuthenticationUse(true, a.auth.keys, keyId, b.auth.keys)
  {
    AskedAgainStays(AuthTaken(a, keyId), a.auth.id, InSync(a.auth.keys, keyId),
                    AfterSync(a.auth.keys, keyId) != map[], b);
    CheckedKeys(a.auth.keys, keyId, b.auth.keys);
  }

  lemma VerdictUses(a: App, h: Header, tagOk: bool, b: App)
    requires a.state == DECRYPT_DATA && b == VerdictTaken(a, h, tagOk)
    ensures b == a.(state := b.state, requests := b.requests, enc := a.enc.(keys := b.enc.keys))
    ensures EncryptionUse(!Refused(a, h, tagOk) && h.encryption != 0, a.enc.keys, h.encKeyId, a.size, b.enc.keys)
  {
    if !Refused(a, h, tagOk) {
      DecryptedUses(a, h, b);
    }
  }

  /** b is a with other keys and requests, and perhaps in another state. */
  predicate OnlyKeys(a: App, b: App) {
    b == a.(state := b.state, requests := b.requests, enc := a.enc.(keys := b.enc.keys),
            auth := a.auth.(keys := b.auth.keys))
  }

  lemma FetchedVerdictUses(a: App, c: App, h: Header, tagOk: bool, b: App)
    requires c == a.(requests := c.requests, auth := a.auth.(keys := c.auth.keys))
    requires a.state == DECRYPT_DATA && b == VerdictTaken(c, h, tagOk)
    ensures OnlyKeys(a, b) && b.auth == c.auth
    ensures EncryptionUse(!Refused(a, h, tagOk) && h.encryption != 0, a.enc.keys, h.encKeyId, a.size, b.enc.keys)
  {
    VerdictUses(c, h, tagOk, b);
  }

  lemma CheckedUses(a: App, h: Header, tagOk: bool, b: App)
    requires a.state == DECRYPT_DATA && b == Checked(a, h, tagOk)
    ensures OnlyKeys(a, b)
    ensures AuthenticationUse(a.authentication == 1, a.auth.keys, h.authKeyId, b.auth.keys)
    ensures var passes := !(a.authentication == 1 && a.auth.keys == map[]) && !Refused(a, h, tagOk);
            EncryptionUse(passes && h.encryption != 0, a.enc.keys, h.encKeyId, a.size, b.enc.keys)
  {
    if a.authentication != 1 {
      FetchedVerdictUses(a, a, h, tagOk, b);
    } else {
      var c := AuthFetched(a, h.authKeyId);
      AuthFetchedState(a, h.authKeyId);
      AuthFetchedUses(a, h.authKeyId, c);
      if a.auth.keys != map[] {
        FetchedVerdictUses(a, c, h, tagOk, b);
      }
    }
  }

  lemma OpenedFollows(a: App, p: Data, b: App)
    requires b == Opened(a, p.h, p.size)
    ensures Follows(a, p, b) && b.state == DECRYPT_DATA && b.enc == a.enc && b.auth == a.auth
    ensures Refused(b, p.h, p.tagOk) <==> a.useCrypto && (NeedsKey(a, p) || p.h.authentication != 0) && !p.tagOk
  {
  }

  lemma OnlyKeysFollow(a: App, p: Data, b: App, c: App)
    requires Follows(a, p, b) && OnlyKeys(b, c)
    ensures Follows(a, p, c)
  {
  }

  /** What any data packet does to the keys of a receiver.  An encryption key is used
      exactly by an encrypted packet that passes: the key named, or the first one if there
      is no such key. */
  lemma PacketUses(a: App, p: Data, b: App)
    requires b == Processed(a, p)
    ensures Follows(a, p, b)
    ensures EncryptionUse(Passes(a, p) && p.h.encryption != 0, a.enc.keys, p.h.encKeyId, p.size, b.enc.keys)
    ensures AuthenticationUse(NeedsKey(a, p), a.auth.keys, p.h.authKeyId, b.auth.keys)
  {
    var c := Opened(a, p.h, p.size);
    OpenedFollows(a, p, c);
    CheckedUses(c, p.h, p.tagOk, b);
    OnlyKeysFollow(a, p, c, b);
  }

  /** The last packet of an arrival does this to what the packets before it have left. */
  lemma {:induction false} ArrivalUses(a: App, ps: seq<Data>)
    requires a.state == READY && ps != []
    ensures var b, p, c := AllProcessed(a, ps[..|ps| - 1]), ps[|ps| - 1], Arrived(a, ps);
            && EncryptionUse(Passes(b, p) && p.h.encryption != 0, b.enc.keys, p.h.encKeyId, p.size, c.enc.keys)
            && AuthenticationUse(NeedsKey(b, p), b.auth.keys, p.h.authKeyId, c.auth.keys)
  {
    PacketUses(AllProcessed(a, ps[..|ps| - 1]), ps[|ps| - 1], Arrived(a, ps));
  }

  // ----- The keys a packet makes the receiver ask for

  /** One request for a stream that was not at the key named, one for a key used up, and
      one for a stream that has none. */
  function EncryptionAsks(keys: Stream, index: nat, size: nat): nat {
    if keys == map[] then 1
    else (if LeastOf(keys.Keys, index) then 0 else 1) + (if size < keys[KeyFor(keys, index)].lifetime then 0 else 1)
  }

  function AuthenticationAsks(keys: Stream, index: nat): nat {
    if keys == map[] then 0 else if LeastOf(keys.Keys, index) then 1 else 2
  }

  /** How often a packet makes the receiver note a request under this URI. */
  function Asks(a: App, p: Data, uri: Uri): nat {
    (if NeedsKey(a, p) && uri == GetKey(a.auth.id) then AuthenticationAsks(a.auth.keys, p.h.authKeyId) else 0) +
    (if Passes(a, p) && p.h.encryption != 0 && uri == GetKey(a.enc.id)
     then EncryptionAsks(a.enc.keys, p.h.encKeyId, p.size) else 0)
  }

  lemma InSyncIs(keys: Stream, index: nat)
    ensures InSync(keys, index) <==> keys == map[] || LeastOf(keys.Keys, index)
  {
    SyncFinds(keys, index);
  }

  lemma EncFetchedAsks(a: App, keyId: nat, b: App, uri: Uri)
    requires a.state != STOPPED && b == EncFetched(a, keyId)
    ensures Noted(b.requests, uri) == Noted(a.requests, uri) +
              Times(if uri == GetKey(a.enc.id) then EncryptionAsks(a.enc.keys, keyId, a.size) else 0)
  {
    InSyncIs(a.enc.keys, keyId);
    SyncFinds(a.enc.keys, keyId);
    var synced := AfterSync(a.enc.keys, keyId);
    AskedAgainAsks(EncTaken(a, keyId), a.enc.id, InSync(a.enc.keys, keyId),
                   synced == map[] || FrontAfterGet(synced, a.size) == 0, b, uri);
  }

  lemma AuthFetchedAsks(a: App, keyId: nat, b: App, uri: Uri)
    requires a.state != STOPPED && b == AuthFetched(a, keyId)
    ensures Noted(b.requests, uri) == Noted(a.requests, uri) +
              Times(if uri == GetKey(a.auth.id) then AuthenticationAsks(a.auth.keys, keyId) else 0)
  {
    InSyncIs(a.auth.keys, keyId);
    SyncFinds(a.auth.keys, keyId);
    AskedAgainAsks(AuthTaken(a, keyId), a.auth.id, InSync(a.auth.keys, keyId),
                   AfterSync(a.auth.keys, keyId) != map[], b, uri);
  }

  lemma VerdictAsks(a: App, h: Header, tagOk: bool, b: App, uri: Uri)
    requires a.state == DECRYPT_DATA && b == VerdictTaken(a, h, tagOk)
    ensures Noted(b.requests, uri) == Noted(a.requests, uri) +
              Times(if !Refused(a, h, tagOk) && h.encryption != 0 && uri == GetKey(a.enc.id)
                    then EncryptionAsks(a.enc.keys, h.encKeyId, a.size) else 0)
  {
    if !Refused(a, h, tagOk) && h.encryption != 0 {
      EncFetchedAsks(a, h.encKeyId, EncFetched(a, h.encKeyId), uri);
    }
  }

  lemma FetchedVerdictAsks(a: App, c: App, h: Header, tagOk: bool, b: App, uri: Uri)
    requires c == a.(requests := c.requests, auth := a.auth.(keys := c.auth.keys))
    requires a.state == DECRYPT_DATA && b == VerdictTaken(c, h, tagOk)
    ensures Noted(b.requests, uri) == Noted(c.requests, uri) +
              Times(if !Refused(a, h, tagOk) && h.encryption != 0 && uri == GetKey(a.enc.id)
                    then EncryptionAsks(a.enc.keys, h.encKeyId, a.size) else 0)
  {
    VerdictAsks(c, h, tagOk, b, uri);
  }

  /** What the decryption asks for under this URI, if it comes to that. */
  function DecryptionAsks(a: App, p: Data, uri: Uri): nat {
    if !Refused(a, p.h, p.tagOk) && p.h.encryption != 0 && uri == GetKey(a.enc.id)
    then EncryptionAsks(a.enc.keys, p.h.encKeyId, a.size) else 0
  }

  lemma CheckedAsks(a: App, p: Data, b: App, uri: Uri)
    requires a.state == DECRYPT_DATA && b == Checked(a, p.h, p.tagOk) && a.authentication == 1
    ensures Noted(b.requests, uri) == Noted(a.requests, uri) +
              (Times(if uri == GetKey(a.auth.id) then AuthenticationAsks(a.auth.keys, p.h.authKeyId) else 0) +
               Times(if a.auth.keys == map[] then 0 else DecryptionAsks(a, p, uri)))
  {
    var c := AuthFetched(a, p.h.authKeyId);
    AuthFetchedState(a, p.h.authKeyId);
    AuthFetchedUses(a, p.h.authKeyId, c);
    AuthFetchedAsks(a, p.h.authKeyId, c, uri);
    if a.auth.keys != map[] {
      FetchedVerdictAsks(a, c, p.h, p.tagOk, b, uri);
    }
  }

  lemma TimesSum(m: nat, n: nat)
    ensures Times(m) + Times(n) == Times(m + n)
  {
  }

  lemma OpenedAsks(a: App, p: Data, b: App, uri: Uri)
    requires b == Opened(a, p.h, p.size)
    ensures var check := if NeedsKey(a, p) && uri == GetKey(a.auth.id)
                         then AuthenticationAsks(a.auth.keys, p.h.authKeyId) else 0;
            var open := if NeedsKey(a, p) && a.auth.keys == map[] then 0 else DecryptionAsks(b, p, uri);
            Asks(a, p, uri) == check + open
  {
    OpenedFollows(a, p, b);
  }

  lemma KeyedAsks(a: App, p: Data, b: App, c: App, uri: Uri)
    requires b == Opened(a, p.h, p.size) && c == Checked(b, p.h, p.tagOk) && NeedsKey(a, p)
    ensures Noted(c.requests, uri) == Noted(a.requests, uri) + Times(Asks(a, p, uri))
  {
    OpenedFollows(a, p, b);
    OpenedAsks(a, p, b, uri);
    CheckedAsks(b, p, c, uri);
    TimesSum(if uri == GetKey(a.auth.id) then AuthenticationAsks(a.auth.keys, p.h.authKeyId) else 0,
             if a.auth.keys == map[] then 0 else DecryptionAsks(b, p, uri));
  }

  /** Every request a data packet leads to, under every URI; all are noted as requests for
      the encryption stream. */
  lemma PacketAsks(a: App, p: Data, b: App, uri: Uri)
    requires b == Processed(a, p)
    ensures Noted(b.requests, uri) == Noted(a.requests, uri) + Times(Asks(a, p, uri))
  {
    var c := Opened(a, p.h, p.size);
    if NeedsKey(a, p) {
      KeyedAsks(a, p, c, b, uri);
    } else {
      OpenedFollows(a, p, c);
      OpenedAsks(a, p, c, uri);
      FetchedVerdictAsks(c, c, p.h, p.tagOk, b, uri);
    }
  }

  datatype Incoming =
    | Arrival(ps: seq<Data>)
    | KeyAnswer(ksid: string, ok: bool, index: nat, value: string)
    | Due

  function Takes(a: App, input: Incoming): App {
    match input
    case Arrival(ps) => Arrived(a, ps)
    case KeyAnswer(ksid, ok, index, value) => KeyAnswered(a, ksid, ok, index, value)
    case Due => if a.timers == [] then a else TimerFired(a, 0)
  }

  function Receives(a: App, inputs: seq<Incoming>): App {
    if inputs == [] then a else Takes(Receives(a, inputs[..|inputs| - 1]), inputs[|inputs| - 1])
  }

  /** All keys of a stream are still there as they were. */
  predicate Grown(s: Stream, t: Stream) {
    forall i :: i in s ==> i in t && t[i] == s[i]
  }

  predicate Untouched(a: App, b: App) {
    b.state == a.state && b.size == a.size && b.encryption == a.encryption
    && Grown(a.enc.keys, b.enc.keys) && Grown(a.auth.keys, b.auth.keys)
  }

  lemma FiledUntouched(a: App, t: SessionType, index: nat, value: string, b: App)
    requires b == Filed(a, t, index, value)
    ensures Untouched(a, b)
  {
  }

  lemma AskedUntouched(a: App, k: nat)
    requires k < |a.timers|
    ensures Untouched(a, TimerFired(a, k))
  {
    var b := a.(timers := a.timers[..k] + a.timers[k + 1..]);
    assert Untouched(a, b) && Untouched(b, Asked(b, a.timers[k]));
  }

  lemma KeyTakenUntouched(a: App, t: SessionType, ok: bool, index: nat, value: string, b: App)
    requires a.state == DECRYPT_DATA && b == KeyTaken(a, t, ok, index, value)
    ensures Untouched(a, b)
  {
    var session := if t == ENCRYPTION then a.enc else a.auth;
    if session.id != "" && ok {
      FiledUntouched(a, t, index, value, b);
    } else {
      assert b == a.(fatal := b.fatal, timers := b.timers);
    }
  }

  lemma TakesUntouched(a: App, input: Incoming, b: App)
    requires a.state == DECRYPT_DATA && b == Takes(a, input)
    ensures Untouched(a, b)
  {
    match input
    case Arrival(ps) =>
    case KeyAnswer(ksid, ok, index, value) =>
      var c := Popped(a, GetKey(ksid));
      assert Untouched(a, c);
      KeyTakenUntouched(c, Oldest(a.requests, GetKey(ksid)), ok, index, value, b);
    case Due =>
      if a.timers != [] {
        AskedUntouched(a, 0);
      }
  }

  /** A receiver that an arrival left in DECRYPT_DATA, as by a packet without encryption at
      its end, stays there whatever arrives later: it opens no packet and uses no key again. */
  lemma {:induction false} LeftInDecryptData(a: App, inputs: seq<Incoming>)
    requires a.state == DECRYPT_DATA
    ensures Untouched(a, Receives(a, inputs))
  {
    if inputs != [] {
      LeftInDecryptData(a, inputs[..|inputs| - 1]);
      TakesUntouched(Receives(a, inputs[..|inputs| - 1]), inputs[|inputs| - 1], Receives(a, inputs));
    }
  }
}
