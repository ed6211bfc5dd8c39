/**
 A QKDApp004 sender: which packet SendPacket makes, with which keys, and which packets
 there can be in a run.
 */
module App004Sender {
  import opened Options
  import opened OrderedKeys
  import opened KeyStream
  import opened App004
  import App014
  import opened App004Runs

  // ----- One packet

  /** The packet names a key, and it is the first of these. */
  ghost predicate Front(keys: Stream, name: Option<Named>) {
    && name.Some? && LeastOf(keys.Keys, name.value.index)
    && keys[name.value.index].value == name.value.value
  }

  /** Made with the settings in use, and with the first key of each stream in use. */
  ghost predicate MadeBy(a: App, packet: Packet) {
    && packet.encryption == a.encryption && packet.authentication == a.authentication && packet.size == a.size
    && (if EncryptionSize(a) == 0 then packet.enc == None else Front(a.enc.keys, packet.enc))
    && (if AuthenticationSize(a) == 0 then packet.auth == None else Front(a.auth.keys, packet.auth))
  }

  /** The key at index i is charged twice; it stays exactly if one packet leaves something
      of it.  All others are as they were. */
  ghost predicate Spends(before: Stream, i: nat, size: nat, after: Stream) {
    && i in before
    && (forall k :: k in after <==> k in before && (k != i || size < before[i].lifetime))
    && (i in after ==> after[i] == Key(before[i].value,
                                       if 2 * size < before[i].lifetime then before[i].lifetime - 2 * size else 0))
    && (forall k :: k in after && k != i ==> after[k] == before[k])
  }

  /** The key at index i is gone. */
  ghost predicate Loses(before: Stream, i: nat, after: Stream) {
    && i in before
    && (forall k :: k in after <==> k in before && k != i)
    && (forall k :: k in after ==> after[k] == before[k])
  }

  lemma SentKeys(keys: Stream, size: nat)
    requires keys != map[]
    ensures Spends(keys, Least(keys.Keys), size, AfterSend(keys, size))
    ensures FrontAfterSend(keys, size) == 0 <==> keys[Least(keys.Keys)].lifetime <= 2 * size
  {
  }

  /** What encryption does to the keys. */
  ghost predicate EncryptionSpent(a: App, b: App) {
    if EncryptionSize(a) == 0 then b.enc == a.enc
    else b.enc == a.enc.(keys := b.enc.keys) && a.enc.keys != map[]
         && Spends(a.enc.keys, Least(a.enc.keys.Keys), a.size, b.enc.keys)
  }

  ghost predicate AuthenticationSpent(a: App, b: App) {
    if AuthenticationSize(a) == 0 then b.auth == a.auth
    else b.auth == a.auth.(keys := b.auth.keys) && a.auth.keys != map[]
         && Loses(a.auth.keys, Least(a.auth.keys.Keys), b.auth.keys)
  }

  predicate SameSettings(a: App, b: App) {
    b.encryption == a.encryption && b.authentication == a.authentication && b.size == a.size
  }

  lemma EncryptedSpends(a: App, b: App)
    requires !LacksEncryptionKey(a) && b == Encrypted(a)
    ensures EncryptionSpent(a, b) && b == a.(requests := b.requests, enc := b.enc)
  {
    if EncryptionSize(a) != 0 {
      SentKeys(a.enc.keys, a.size);
      AskedAgainStays(Charged(a), a.enc.id, true, FrontAfterSend(a.enc.keys, a.size) == 0, b);
    }
  }

  lemma AuthenticatedSpends(a: App, b: App)
    requires !LacksAuthenticationKey(a) && b == Authenticated(a)
    ensures AuthenticationSpent(a, b) && b == a.(requests := b.requests, auth := b.auth)
  {
    if AuthenticationSize(a) != 0 {
      AskedStays(Spent(a), a.auth.id);
    }
  }

  /** The second half of SendPacket. */
  lemma TaggedMakes(a: App, enc: Option<Named>, b: App)
    requires a.state == SEND_DATA && b == Tagged(a, enc)
    ensures SameSettings(a, b)
    ensures if LacksAuthenticationKey(a) then b == a.(state := b.state)
            else AuthenticationSpent(a, b) && b.enc == a.enc && b.scheduled
                 && b.sent == a.sent + [Packet(a.encryption, enc, a.authentication, AuthenticationKeyOf(a), a.size)]
  {
    if !LacksAuthenticationKey(a) {
      AuthenticatedSpends(a, Authenticated(a));
    }
  }

  /** One packet more has been sent, made by a. */
  ghost predicate OneMore(a: App, b: App) {
    |b.sent| == |a.sent| + 1 && b.sent[..|a.sent|] == a.sent && MadeBy(a, b.sent[|a.sent|])
  }

  lemma MadeFromFronts(a: App)
    requires !LacksEncryptionKey(a) && !LacksAuthenticationKey(a)
    ensures MadeBy(a, Packet(a.encryption, EncryptionKeyOf(a), a.authentication, AuthenticationKeyOf(a), a.size))
  {
  }

  lemma EncryptedMakes(a: App, b: App, c: App)
    requires a.state == SEND_DATA && !LacksEncryptionKey(a)
    requires b == a.(requests := b.requests, enc := b.enc) && c == Tagged(b, EncryptionKeyOf(a))
    ensures c.enc == b.enc && SameSettings(a, c)
    ensures if LacksAuthenticationKey(a) then c.sent == a.sent && c.auth == a.auth && c.scheduled == a.scheduled
            else OneMore(a, c) && AuthenticationSpent(a, c) && c.scheduled
  {
    TaggedMakes(b, EncryptionKeyOf(a), c);
    assert AuthenticationKeyOf(b) == AuthenticationKeyOf(a);
    if !LacksAuthenticationKey(a) {
      MadeFromFronts(a);
    }
  }

  /** SendPacket in READY.  Exactly one packet leaves if the keys in use are there, made with
      the first of each stream; a missing authentication key costs an encryption key. */
  lemma SendMakes(a: App, b: App)
    requires a.state == READY && b == Transmitted(a)
    ensures SameSettings(a, b)
    ensures if LacksEncryptionKey(a) then b == a.(state := b.state)
            else EncryptionSpent(a, b)
                 && if LacksAuthenticationKey(a) then b.sent == a.sent && b.auth == a.auth && b.scheduled == a.scheduled
                    else OneMore(a, b) && AuthenticationSpent(a, b) && b.scheduled
  {
    var c := a.(state := SEND_DATA);
    if !LacksEncryptionKey(a) {
      EncryptedSpends(c, Encrypted(c));
      EncryptedMakes(c, Encrypted(c), b);
    }
  }

  /** SendPacket asks once for a key of which the two charges leave nothing, ... */
  function EncryptionAsks(a: App, uri: Uri): nat
    requires !LacksEncryptionKey(a)
  {
    if EncryptionSize(a) != 0 && uri == GetKey(a.enc.id) && a.enc.keys[Least(a.enc.keys.Keys)].lifetime <= 2 * a.size
    then 1 else 0
  }

  /** ... and once for every authentication key. */
  function AuthenticationAsks(a: App, uri: Uri): nat {
    if AuthenticationSize(a) != 0 && a.auth.keys != map[] && uri == GetKey(a.auth.id) then 1 else 0
  }

  lemma EncryptedAsks(a: App, b: App, uri: Uri)
    requires !LacksEncryptionKey(a) && a.state == SEND_DATA && b == Encrypted(a)
    ensures Noted(b.requests, uri) == Noted(a.requests, uri) + Times(EncryptionAsks(a, uri))
  {
    if EncryptionSize(a) != 0 {
      SentKeys(a.enc.keys, a.size);
      AskedAgainAsks(Charged(a), a.enc.id, true, FrontAfterSend(a.enc.keys, a.size) == 0, b, uri);
    }
  }

  lemma TaggedAsks(a: App, enc: Option<Named>, b: App, uri: Uri)
    requires a.state == SEND_DATA && b == Tagged(a, enc)
    ensures Noted(b.requests, uri) == Noted(a.requests, uri) + Times(AuthenticationAsks(a, uri))
  {
    if AuthenticationSize(a) != 0 && a.auth.keys != map[] {
      AskedAsks(Spent(a), a.auth.id, Authenticated(a), uri);
    }
  }

  lemma TaggedOf(a: App, uri: Uri, b: App)
    requires !LacksEncryptionKey(a) && a.state == SEND_DATA && b == Tagged(Encrypted(a), EncryptionKeyOf(a))
    ensures Noted(b.requests, uri) ==
            Noted(a.requests, uri) + (Times(EncryptionAsks(a, uri)) + Times(AuthenticationAsks(a, uri)))
  {
    var c := Encrypted(a);
    EncryptedSpends(a, c);
    EncryptedAsks(a, c, uri);
    TaggedAsks(c, EncryptionKeyOf(a), b, uri);
  }

  /** Every request of SendPacket in READY; all are noted for the encryption stream. */
  lemma SendAsks(a: App, b: App, uri: Uri)
    requires a.state == READY && b == Transmitted(a)
    ensures LacksEncryptionKey(a) ==> Noted(b.requests, uri) == Noted(a.requests, uri)
    ensures !LacksEncryptionKey(a) ==>
              Noted(b.requests, uri) ==
              Noted(a.requests, uri) + (Times(EncryptionAsks(a, uri)) + Times(AuthenticationAsks(a, uri)))
  {
    var c := a.(state := SEND_DATA);
    if !LacksEncryptionKey(c) {
      TaggedOf(c, uri, b);
      assert EncryptionAsks(c, uri) == EncryptionAsks(a, uri);
      assert AuthenticationAsks(c, uri) == AuthenticationAsks(a, uri);
    }
  }

  /** SendPacket where there is nothing to send: while the application waits it tries again
      later; in any other state that is fatal.  Nothing leaves, and no key is used. */
  lemma SendElsewhere(a: App, b: App)
    requires a.state != READY && a.state != SEND_DATA && b == Transmitted(a)
    ensures b.sent == a.sent && b.enc == a.enc && b.auth == a.auth && b.state == a.state && b.requests == a.requests
    ensures b.scheduled <==> a.scheduled || a.state == WAIT
    ensures b.fatal <==> a.fatal || a.state != WAIT
  {
  }

  // ----- Starting, confirming and closing

  lemma GoodSettingsAre(encryption: nat, authentication: nat, tagLength: nat, size: nat, aesLifetime: nat)
    ensures !BadSettings(encryption, authentication, tagLength, size, aesLifetime) <==>
              encryption in {0, 1, 2} && authentication in {0, 1, 2, 3} && tagLength in {128, 256}
              && (aesLifetime == 0 || size <= aesLifetime)
  {
  }

  /** StartApplication accepts these settings and no others. */
  lemma AcceptedIff(a: App, encryption: nat, authentication: nat, tagLength: nat, b: App)
    requires a.state == INITIALIZED && !a.fatal && b == Started(a, encryption, authentication, tagLength)
    ensures !b.fatal <==> encryption in {0, 1, 2} && authentication in {0, 1, 2, 3} && tagLength in {128, 256}
                          && (a.aesLifetime == 0 || a.size <= a.aesLifetime)
  {
    GoodSettingsAre(encryption, authentication, tagLength, a.size, a.aesLifetime);
    if !BadSettings(encryption, authentication, tagLength, a.size, a.aesLifetime) {
      BegunIsFine(Set(a, encryption, authentication), b);
    }
  }

  /** SendPacket changes nothing else, where there is something to send. */
  predicate OnlySends(a: App, b: App) {
    b == a.(state := b.state, requests := b.requests, enc := b.enc, auth := b.auth, sent := b.sent,
            scheduled := b.scheduled)
  }

  lemma TaggedOnlySends(a: App, enc: Option<Named>, b: App)
    requires b == Tagged(a, enc)
    ensures OnlySends(a, b)
  {
    if !LacksAuthenticationKey(a) {
      var c := Authenticated(a);
      AuthenticatedSpends(a, c);
      var packet := Packet(a.encryption, enc, a.authentication, AuthenticationKeyOf(a), a.size);
      assert b == Delivered(c, packet);
      assert b == c.(state := b.state, sent := b.sent, scheduled := true);
    }
  }

  lemma SecuredOnlySends(a: App, b: App)
    requires b == Secured(a)
    ensures OnlySends(a, b)
  {
    if !LacksEncryptionKey(a) {
      var c := Encrypted(a);
      EncryptedSpends(a, c);
      TaggedOnlySends(c, EncryptionKeyOf(a), b);
    }
  }

  lemma TransmitOnlySends(a: App, b: App)
    requires b == Transmitted(a)
    ensures OnlySends(a, b) || b == a.(fatal := true)
  {
    if a.state == READY || a.state == SEND_DATA {
      SecuredOnlySends(a.(state := SEND_DATA), b);
    }
  }

  lemma BegunIsFine(a: App, b: App)
    requires b == Begun(a) && !a.fatal
    ensures !b.fatal
  {
    if a.master && EncryptionSize(a) == 0 && AuthenticationSize(a) == 0 {
      StartSendsOrWaits(Entered(a, READY), b);
    } else if a.master {
      SessionsAskedIs(Entered(a, ESTABLISHING_ASSOCIATIONS), b);
    }
  }

  lemma SessionsAskedIs(a: App, b: App)
    requires b == SessionsAsked(a)
    ensures b == a.(requests := b.requests)
  {
    var c := if EncryptionSize(a) != 0 && a.enc.id == "" then Pushed(a, OpenConnect, ENCRYPTION) else a;
    PushedOnly(a, OpenConnect, ENCRYPTION);
    assert c == a.(requests := c.requests);
    SecondAskedIs(c, b);
  }

  lemma SecondAskedIs(a: App, b: App)
    requires b == if AuthenticationSize(a) != 0 && a.auth.id == "" then Pushed(a, OpenConnect, AUTHENTICATION) else a
    ensures b == a.(requests := b.requests)
  {
  }

  lemma PushedOnly(a: App, uri: Uri, t: SessionType)
    ensures Pushed(a, uri, t) == a.(requests := Pushed(a, uri, t).requests)
  {
  }

  lemma StartSendsOrWaits(a: App, b: App)
    requires (a.state == READY || a.state == WAIT) && b == Transmitted(a)
    ensures b.fatal == a.fatal
  {
    if a.state == READY {
      SecuredOnlySends(a.(state := SEND_DATA), b);
    }
  }

  /** An answer to open_connect is fatal exactly if it opens a session without an id. */
  lemma OpenedFatalIff(a: App, ok: bool, ksid: string, b: App)
    requires !a.fatal && b == SessionOpened(a, ok, ksid)
    ensures b.fatal <==> ok && ksid == ""
  {
    var c, t := Popped(a, OpenConnect), Oldest(a.requests, OpenConnect);
    PoppedAlike(a, OpenConnect);
    if ok {
      IdentifiedFatalIff(c, t, ksid);
    }
  }

  lemma IdentifiedFatalIff(a: App, t: SessionType, ksid: string)
    requires !a.fatal
    ensures Identified(a, t, ksid).fatal <==> ksid == ""
  {
    if t == ENCRYPTION && ksid != "" {
      var enc := a.enc.(id := ksid);
      assert Identified(a, t, ksid) == a.(enc := enc);
    } else if ksid != "" {
      var auth := a.auth.(id := ksid);
      assert Identified(a, t, ksid) == a.(auth := auth);
    }
  }

  lemma QueuesFine(a: App, b: App)
    requires !a.fatal && b == QueuesChecked(a)
    ensures !b.fatal
  {
    if Short(a.enc) || Short(a.auth) {
      AskedStays(a, a.enc.id);
      AskedStays(AskedIfShort(a, a.enc), a.auth.id);
    } else if !a.master || a.replica {
      var c := Entered(Entered(a, KEY_QUEUES_ESTABLISHED), READY);
      if a.master {
        StartSendsOrWaits(c, b);
      }
    }
  }

  /** An answer to get_key is fatal exactly if the session of the type noted is not open, as
      when it has been cleared meanwhile. */
  lemma AnswerFatalIff(a: App, ksid: string, ok: bool, index: nat, value: string, b: App)
    requires !a.fatal && b == KeyAnswered(a, ksid, ok, index, value)
    ensures b.fatal <==>
              && a.state != STOPPED
              && (if Oldest(a.requests, GetKey(ksid)) == ENCRYPTION then a.enc.id else a.auth.id) == ""
  {
    var c, t := Popped(a, GetKey(ksid)), Oldest(a.requests, GetKey(ksid));
    PoppedRest(a, GetKey(ksid));
    if a.state != STOPPED {
      TakenFatalIff(c, t, ok, index, value, b);
    }
  }

  lemma PoppedRest(a: App, uri: Uri)
    ensures Popped(a, uri) == a.(requests := Popped(a, uri).requests)
  {
  }

  lemma TakenFatalIff(a: App, t: SessionType, ok: bool, index: nat, value: string, b: App)
    requires !a.fatal && b == KeyTaken(a, t, ok, index, value)
    ensures b.fatal <==> (if t == ENCRYPTION then a.enc.id else a.auth.id) == ""
  {
    if (if t == ENCRYPTION then a.enc.id else a.auth.id) != "" && ok {
      var c := Filed(a, t, index, value);
      FiledFine(a, t, index, value);
      if c.state == ESTABLISHING_KEY_QUEUES {
        QueuesFine(c, b);
      }
    }
  }

  lemma FiledFine(a: App, t: SessionType, index: nat, value: string)
    ensures Filed(a, t, index, value).fatal == a.fatal && Filed(a, t, index, value).state == a.state
  {
    var key := Key(value, a.aesLifetime);
    if t == ENCRYPTION {
      var enc := a.enc.(keys := Added(a.enc.keys, index, key));
      assert Filed(a, t, index, value) == a.(enc := enc);
    } else {
      var auth := a.auth.(keys := Added(a.auth.keys, index, key));
      assert Filed(a, t, index, value) == a.(auth := auth);
    }
  }

  /** An answer to send_ksid makes the sender ask for the queues exactly if it confirms the
      last open session that was not confirmed. */
  lemma AsksForQueuesIff(a: App, ok: bool, ksid: string, scope: SessionType, b: App)
    requires !a.asked && scope != EMPTY && b == KsidConfirmed(a, ok, ksid, scope)
    ensures b.asked <==>
              && ok && a.state == ESTABLISHING_ASSOCIATIONS
              && (a.enc.id == "" || a.enc.verified || scope == ENCRYPTION)
              && (a.auth.id == "" || a.auth.verified || scope == AUTHENTICATION)
  {
    if ok {
      var c := Verified(a, scope);
      VerifiedIs(a, scope, c);
      CheckedAsksIff(c, b);
    } else {
      WithoutSessionIs(a, ksid);
      PushedIs(WithoutSession(a, ksid), Uri.Close(ksid));
    }
  }

  lemma VerifiedIs(a: App, scope: SessionType, b: App)
    requires scope != EMPTY && b == Verified(a, scope)
    ensures b.state == a.state && b.asked == a.asked && b.enc.id == a.enc.id && b.auth.id == a.auth.id
    ensures b.enc.verified <==> a.enc.verified || scope == ENCRYPTION
    ensures b.auth.verified <==> a.auth.verified || scope == AUTHENTICATION
  {
    if scope == ENCRYPTION {
      var enc := a.enc.(verified := true);
      assert b == a.(enc := enc);
    } else {
      var auth := a.auth.(verified := true);
      assert b == a.(auth := auth);
    }
  }

  lemma CheckedAsksIff(a: App, b: App)
    requires !a.asked && b == SessionsChecked(a)
    ensures b.asked <==>
              && a.state == ESTABLISHING_ASSOCIATIONS
              && (a.enc.id == "" || a.enc.verified) && (a.auth.id == "" || a.auth.verified)
  {
    if b.asked {
      assert b != a;
    } else {
      var c := a.(state := ESTABLISHING_KEY_QUEUES, asked := true);
      QueuesStayAsked(c, QueuesChecked(c));
    }
  }

  lemma QueuesStayAsked(a: App, b: App)
    requires a.asked && b == QueuesChecked(a)
    ensures b.asked
  {
    if Short(a.enc) || Short(a.auth) {
      AskedStays(a, a.enc.id);
      AskedStays(AskedIfShort(a, a.enc), a.auth.id);
    } else if !a.master || a.replica {
      var c := Entered(Entered(a, KEY_QUEUES_ESTABLISHED), READY);
      if a.master {
        TransmitOnlySends(c, Transmitted(c));
      }
    }
  }

  /** The peer refuses the authentication session, which is then closed: the answer to that
      clears the encryption session, too, confirmed or not, with all its keys. */
  lemma CloseLosesEncryption(a: App, b: App, c: App)
    requires a.state != STOPPED && a.enc.id != a.auth.id && Noted(a.requests, Uri.Close(a.auth.id)) == []
    requires b == KsidConfirmed(a, false, a.auth.id, AUTHENTICATION) && c == CloseAnswered(b, a.auth.id)
    ensures b.enc == a.enc && b.auth == Session("", false, a.auth.size, map[])
    ensures c.enc == Session("", false, a.enc.size, map[]) && c.auth == b.auth
  {
    assert b == Pushed(a.(auth := Cleared(a.auth)), Uri.Close(a.auth.id), ENCRYPTION);
    assert [] + [ENCRYPTION] == [ENCRYPTION];
    assert Noted(b.requests, Uri.Close(a.auth.id)) == [ENCRYPTION];
    assert c == WithoutStream(Popped(b, Uri.Close(a.auth.id)), ENCRYPTION);
  }

  /** How often StopApplication asks for a session to be closed: the sender once for each
      of its sessions that is open. */
  function Closings(a: App, uri: Uri): nat {
    if !a.master then 0
    else (if a.enc.id != "" && uri == Uri.Close(a.enc.id) then 1 else 0)
         + (if a.auth.id != "" && uri == Uri.Close(a.auth.id) then 1 else 0)
  }

  lemma PushedAsks(a: App, under: Uri, b: App, uri: Uri)
    requires b == Pushed(a, under, ENCRYPTION)
    ensures Noted(b.requests, uri) == Noted(a.requests, uri) + Times(if uri == under then 1 else 0)
  {
    assert Times(1) == [ENCRYPTION] && Times(0) == [];
  }

  lemma ClosedAsks(a: App, ksid: string, b: App, uri: Uri)
    requires b == ClosedIfOpen(a, ksid)
    ensures Noted(b.requests, uri) ==
            Noted(a.requests, uri) + Times(if ksid != "" && uri == Uri.Close(ksid) then 1 else 0)
  {
    if ksid != "" {
      var c := WithoutSession(a, ksid);
      WithoutSessionIs(a, ksid);
      PushedAsks(c, Uri.Close(ksid), b, uri);
    }
  }

  lemma ClosedFirst(a: App, b: App)
    requires b == ClosedIfOpen(a, a.enc.id)
    ensures b.auth == a.auth && b.state == a.state && b.sent == a.sent && b.scheduled == a.scheduled
    ensures b.enc == if a.enc.id == "" then a.enc else Cleared(a.enc)
  {
  }

  /** After StopApplication both sessions are closed and empty, and nothing is scheduled. */
  lemma StopCloses(a: App, b: App)
    requires b == Ended(a)
    ensures b.state == STOPPED && !b.scheduled && b.sent == a.sent
    ensures b.enc == Session("", false, a.enc.size, map[]) && b.auth == Session("", false, a.auth.size, map[])
  {
    var c := a.(scheduled := false);
    var d := ClosedIfOpen(c, c.enc.id);
    var f := ClosedIfOpen(d, d.auth.id);
    if a.master {
      ClosedFirst(c, d);
      ClosedLast(d, f);
      assert b == Emptied(f);
    }
  }

  /** What it asks for. */
  lemma StopAsks(a: App, b: App, uri: Uri)
    requires b == Ended(a)
    ensures Noted(b.requests, uri) == Noted(a.requests, uri) + Times(Closings(a, uri))
  {
    var c := a.(scheduled := false);
    var d := ClosedIfOpen(c, c.enc.id);
    var f := ClosedIfOpen(d, d.auth.id);
    if a.master {
      ClosedFirst(c, d);
      ClosedAsks(c, c.enc.id, d, uri);
      ClosedAsks(d, d.auth.id, f, uri);
      assert Times(2) == Times(1) + Times(1) && Times(0) == [];
    }
  }

  lemma ClosedLast(a: App, b: App)
    requires b == ClosedIfOpen(a, a.auth.id)
    ensures b.enc.size == a.enc.size && b.auth.size == a.auth.size && b.sent == a.sent && b.scheduled == a.scheduled
  {
    if a.auth.id != "" {
      WithoutSessionIs(a, a.auth.id);
    }
  }

  // ----- The packets of a run

  /** From a to b no key appears, and at most one packet leaves, made by a. */
  ghost predicate Sends(a: App, b: App) {
    && SameSettings(a, b)
    && (forall i :: i in b.enc.keys ==> i in a.enc.keys && b.enc.keys[i].value == a.enc.keys[i].value)
    && (b.sent == a.sent || OneMore(a, b))
  }

  /** Nothing that matters to the next packet is different. */
  predicate Alike(a: App, b: App) {
    && SameSettings(a, b)
    && b.enc.keys == a.enc.keys && b.auth.keys == a.auth.keys && b.sent == a.sent
  }

  lemma AlikeSends(a: App, b: App, c: App)
    requires Alike(a, b) && Sends(b, c)
    ensures Sends(a, c)
  {
  }

  lemma AskedAlike(a: App, ksid: string, b: App)
    requires Alike(a, b)
    ensures Alike(a, Asked(b, ksid))
  {
    AskedStays(b, ksid);
  }

  lemma ReadySends(a: App, b: App)
    requires a.state == READY && b == Transmitted(a)
    ensures Sends(a, b)
  {
    SendMakes(a, b);
  }

  lemma TransmittedSends(a: App, b: App)
    requires b == Transmitted(a)
    ensures Sends(a, b)
  {
    if a.state == READY || a.state == SEND_DATA {
      var c := a.(state := READY);
      ReadySends(c, b);
      AlikeSends(a, c, b);
    }
  }

  lemma QueuesUpSends(a: App, b: App)
    requires b == QueuesUp(a)
    ensures Sends(a, b)
  {
    var c := Entered(a, READY);
    if a.master {
      TransmittedSends(c, b);
      AlikeSends(a, c, b);
    }
  }

  lemma QueuesCheckedSends(a: App, b: App)
    requires b == QueuesChecked(a)
    ensures Sends(a, b)
  {
    if Short(a.enc) || Short(a.auth) {
      AskedAlike(a, a.enc.id, a);
      AskedAlike(a, a.auth.id, AskedIfShort(a, a.enc));
      assert Alike(a, b);
    } else if !a.master || a.replica {
      var c := Entered(a, KEY_QUEUES_ESTABLISHED);
      QueuesUpSends(c, b);
      AlikeSends(a, c, b);
    }
  }

  lemma SessionsCheckedSends(a: App, b: App)
    requires b == SessionsChecked(a)
    ensures Sends(a, b)
  {
    if b != a {
      var c := a.(state := ESTABLISHING_KEY_QUEUES, asked := true);
      QueuesCheckedSends(c, b);
      AlikeSends(a, c, b);
    }
  }

  lemma ClosedSends(a: App, ksid: string)
    ensures Sends(a, App004.Closed(a, ksid)) && App004.Closed(a, ksid).sent == a.sent
  {
    var b := WithoutSession(a, ksid);
    WithoutSessionIs(a, ksid);
    PushedIs(b, Uri.Close(ksid));
  }

  lemma VerifiedAlike(a: App, scope: SessionType)
    ensures Alike(a, Verified(a, scope))
  {
    if scope == ENCRYPTION {
      var enc := a.enc.(verified := true);
      assert enc.keys == a.enc.keys && Verified(a, scope) == a.(enc := enc);
    } else if scope == AUTHENTICATION {
      var auth := a.auth.(verified := true);
      assert auth.keys == a.auth.keys && Verified(a, scope) == a.(auth := auth);
    }
  }

  lemma ConfirmedSends(a: App, ok: bool, ksid: string, scope: SessionType, b: App)
    requires b == KsidConfirmed(a, ok, ksid, scope)
    ensures Sends(a, b)
  {
    if ok {
      var c := Verified(a, scope);
      VerifiedAlike(a, scope);
      SessionsCheckedSends(c, b);
      AlikeSends(a, c, b);
    } else {
      ClosedSends(a, ksid);
    }
  }

  lemma QueuesConfirmedSends(a: App, b: App)
    requires b == QueuesConfirmed(a)
    ensures Sends(a, b)
  {
    if a.primary {
      var c := Entered(a.(replica := true), KEY_QUEUES_ESTABLISHED);
      QueuesUpSends(c, b);
      AlikeSends(a, c, b);
    }
  }

  lemma ResumedSends(a: App, b: App)
    requires b == Resumed(a)
    ensures Sends(a, b)
  {
    if a.state == ESTABLISHING_KEY_QUEUES {
      QueuesCheckedSends(a, b);
    }
  }

  lemma PoppedAlike(a: App, uri: Uri)
    ensures Alike(a, Popped(a, uri)) && Popped(a, uri).state == a.state
    ensures Popped(a, uri).enc == a.enc && Popped(a, uri).aesLifetime == a.aesLifetime
  {
  }

  lemma FiledAlike(a: App, b: App, index: nat, value: string)
    requires Alike(a, b) && b.aesLifetime == a.aesLifetime
    ensures Alike(Filed(a, ENCRYPTION, index, value), Filed(b, ENCRYPTION, index, value))
  {
  }

  lemma RepeatedAlike(a: App, ksid: string)
    ensures Alike(a, Repeated(a, ksid))
  {
  }

  lemma FiledSends(a: App, b: App, ok: bool, index: nat, value: string, c: App)
    requires Alike(a, b) && b.aesLifetime == a.aesLifetime
    requires c == KeyTaken(b, ENCRYPTION, ok, index, value)
    ensures Sends(a, c) || (ok && Sends(Filed(a, ENCRYPTION, index, value), c))
  {
    if ok && b.enc.id != "" {
      var d := Filed(b, ENCRYPTION, index, value);
      ResumedSends(d, c);
      FiledAlike(a, b, index, value);
      AlikeSends(Filed(a, ENCRYPTION, index, value), d, c);
    } else if b.enc.id != "" {
      RepeatedAlike(b, b.enc.id);
      AlikeSends(a, b, c);
    } else {
      AlikeSends(a, b, c);
    }
  }

  /** A key that was asked for joins the encryption stream. */
  lemma AnsweredSends(a: App, ksid: string, ok: bool, index: nat, value: string, b: App)
    requires UnderEncryption(a.requests) && Noted(a.requests, GetKey(ksid)) != []
    requires b == KeyAnswered(a, ksid, ok, index, value)
    ensures Sends(a, b) || (ok && Sends(Filed(a, ENCRYPTION, index, value), b))
  {
    var c := Popped(a, GetKey(ksid));
    assert Noted(a.requests, GetKey(ksid))[0] == ENCRYPTION;
    PoppedAlike(a, GetKey(ksid));
    if a.state != STOPPED {
      FiledSends(a, c, ok, index, value, b);
    }
  }

  lemma IdentifiedSends(a: App, t: SessionType, ksid: string)
    ensures Alike(a, Identified(a, t, ksid))
  {
    if ksid == "" {
      assert Identified(a, t, ksid) == a.(fatal := true);
    } else if t == ENCRYPTION {
      var enc := a.enc.(id := ksid);
      assert enc.keys == a.enc.keys && Identified(a, t, ksid) == a.(enc := enc);
    } else {
      var auth := a.auth.(id := ksid);
      assert auth.keys == a.auth.keys && Identified(a, t, ksid) == a.(auth := auth);
    }
  }

  lemma OpenedSends(a: App, ok: bool, ksid: string, b: App)
    requires b == SessionOpened(a, ok, ksid)
    ensures Alike(a, b) && Sends(a, b)
  {
    var c := Popped(a, OpenConnect);
    PoppedAlike(a, OpenConnect);
    IdentifiedSends(c, Oldest(a.requests, OpenConnect), ksid);
  }

  lemma WithoutStreamSends(a: App, t: SessionType, b: App)
    requires b == WithoutStream(a, t)
    ensures Sends(a, b) && b.sent == a.sent
  {
  }

  lemma CloseAnsweredSends(a: App, ksid: string, b: App)
    requires b == CloseAnswered(a, ksid)
    ensures Sends(a, b)
  {
    var c := Popped(a, Uri.Close(ksid));
    PoppedAlike(a, Uri.Close(ksid));
    WithoutStreamSends(c, Oldest(a.requests, Uri.Close(ksid)), WithoutStream(c, Oldest(a.requests, Uri.Close(ksid))));
    AlikeSends(a, c, WithoutStream(c, Oldest(a.requests, Uri.Close(ksid))));
  }

  lemma TimerSends(a: App, k: nat, b: App)
    requires k < |a.timers| && b == TimerFired(a, k)
    ensures Sends(a, b)
  {
    var c := a.(timers := a.timers[..k] + a.timers[k + 1..]);
    AskedAlike(a, a.timers[k], c);
  }

  lemma EndedSends(a: App, b: App)
    requires b == Ended(a)
    ensures Sends(a, b)
  {
    var c := a.(scheduled := false);
    var d := ClosedIfOpen(c, c.enc.id);
    ClosedSends(c, c.enc.id);
    ClosedSends(d, d.auth.id);
    var f := ClosedIfOpen(d, d.auth.id);
    assert d.sent == a.sent && f.sent == a.sent && Sends(c, d) && Sends(d, f);
  }

  /** Every step of a started sender sends at most one packet, made with the first key of
      its stream, or of its stream with the key that has just been answered. */
  lemma StepSends(cfg: Config, a: App, e: Event, b: App)
    requires Safe(cfg, a) && Enabled(a, e) && !e.Start? && b == Next(cfg, a, e)
    ensures Sends(a, b) || (e.Answer? && e.ok && Sends(Filed(a, ENCRYPTION, e.index, e.value), b))
  {
    match e
    case Opened(ok, ksid) => OpenedSends(a, ok, ksid, b);
    case Confirmed(ok, scope) => ConfirmedSends(a, ok, SessionOf(a, scope).id, scope, b);
    case Queues => QueuesConfirmedSends(a, b);
    case Answer(ksid, ok, index, value) => AnsweredSends(a, ksid, ok, index, value, b);
    case Closed(ksid) => CloseAnsweredSends(a, ksid, b);
    case Timer(k) => TimerSends(a, k, b);
    case Send =>
      TransmittedSends(a.(scheduled := false), b);
      AlikeSends(a, a.(scheduled := false), b);
    case Stop => EndedSends(a, b);
  }

  /** The key manager has answered with this key. */
  ghost predicate Given(events: seq<Event>, index: nat, value: string) {
    exists ksid :: Answer(ksid, true, index, value) in events
  }

  /** A packet with the settings given, the index and value of a key that came in an answer
      if its encryption takes one, and no authentication key. */
  ghost predicate Right(cfg: Config, events: seq<Event>, packet: Packet) {
    && packet.encryption == cfg.encryption && packet.size == cfg.size
    && packet.authentication == AuthenticationOf(cfg) && packet.auth == None
    && if NeedsKeys(cfg) then packet.enc.Some? && Given(events, packet.enc.value.index, packet.enc.value.value)
       else packet.enc == None
  }

  ghost predicate Backed(cfg: Config, events: seq<Event>, a: App) {
    && (forall i :: i in a.enc.keys ==> Given(events, i, a.enc.keys[i].value))
    && (forall k :: 0 <= k < |a.sent| ==> Right(cfg, events, a.sent[k]))
  }

  lemma GivenMore(events: seq<Event>, e: Event, index: nat, value: string)
    requires Given(events, index, value)
    ensures Given(events + [e], index, value)
  {
    var ksid :| Answer(ksid, true, index, value) in events;
    assert Answer(ksid, true, index, value) in events + [e];
  }

  lemma BackedMore(cfg: Config, events: seq<Event>, e: Event, a: App)
    requires Backed(cfg, events, a)
    ensures Backed(cfg, events + [e], a)
  {
    forall i | i in a.enc.keys ensures Given(events + [e], i, a.enc.keys[i].value) {
      GivenMore(events, e, i, a.enc.keys[i].value);
    }
    forall k | 0 <= k < |a.sent| ensures Right(cfg, events + [e], a.sent[k]) {
      var enc := a.sent[k].enc;
      assert Right(cfg, events, a.sent[k]);
      if NeedsKeys(cfg) {
        GivenMore(events, e, enc.value.index, enc.value.value);
      }
    }
  }

  lemma FiledBacked(cfg: Config, events: seq<Event>, ksid: string, index: nat, value: string, a: App)
    requires Backed(cfg, events, a) && Answer(ksid, true, index, value) in events
    ensures Backed(cfg, events, Filed(a, ENCRYPTION, index, value))
  {
    assert Given(events, index, value);
  }

  lemma SendsBacked(cfg: Config, events: seq<Event>, a: App, b: App)
    requires Backed(cfg, events, a) && Sends(a, b) && a.authentication != 1
    requires a.encryption == cfg.encryption && a.authentication == AuthenticationOf(cfg) && a.size == cfg.size
    ensures Backed(cfg, events, b)
  {
    forall k | 0 <= k < |b.sent| ensures Right(cfg, events, b.sent[k]) {
      if k < |a.sent| {
        assert b.sent[k] == a.sent[k];
      }
    }
  }

  lemma StartSends(cfg: Config, a: App, b: App)
    requires GoodSettings(cfg) && a == Fresh(cfg)
    requires b == Started(a, cfg.encryption, cfg.authentication, cfg.tagLength)
    ensures Sends(Set(a, cfg.encryption, cfg.authentication), b)
  {
    var c := Set(a, cfg.encryption, cfg.authentication);
    if EncryptionSize(c) == 0 && AuthenticationSize(c) == 0 {
      TransmittedSends(c.(state := READY), b);
      AlikeSends(c, c.(state := READY), b);
    } else {
      assert Alike(c, b);
    }
  }

  lemma StepBacked(cfg: Config, events: seq<Event>, a: App, e: Event, b: App)
    requires GoodSettings(cfg) && AuthenticationOf(cfg) != 1
    requires Kept(cfg, a) && Enabled(a, e) && b == Next(cfg, a, e) && Backed(cfg, events, a) && e in events
    ensures Backed(cfg, events, b)
  {
    if a.state == INITIALIZED {
      StartSends(cfg, a, b);
      SendsBacked(cfg, events, Set(a, cfg.encryption, cfg.authentication), b);
    } else {
      StepSends(cfg, a, e, b);
      if Sends(a, b) {
        SendsBacked(cfg, events, a, b);
      } else {
        FiledBacked(cfg, events, e.ksid, e.index, e.value, a);
        SendsBacked(cfg, events, Filed(a, ENCRYPTION, e.index, e.value), b);
      }
    }
  }

  lemma OneMoreEvent(cfg: Config, before: seq<Event>, a: App, e: Event, b: App, events: seq<Event>)
    requires GoodSettings(cfg) && AuthenticationOf(cfg) != 1 && events == before + [e]
    requires Kept(cfg, a) && Enabled(a, e) && b == Next(cfg, a, e) && Backed(cfg, before, a)
    ensures Backed(cfg, events, b)
  {
    BackedMore(cfg, before, e, a);
    assert events[|before|] == e;
    StepBacked(cfg, events, a, e, b);
  }

  lemma LastEvent(events: seq<Event>) returns (before: seq<Event>, e: Event)
    requires events != []
    ensures events == before + [e] && before == events[..|events| - 1] && e == events[|events| - 1]
  {
    before, e := events[..|events| - 1], events[|events| - 1];
  }

  lemma LastStep(cfg: Config, events: seq<Event>) returns (a: App, b: App)
    requires Run(cfg, events).Some? && events != []
    ensures Run(cfg, events[..|events| - 1]) == Some(a) && Run(cfg, events) == Some(b)
    ensures Enabled(a, events[|events| - 1]) && b == Next(cfg, a, events[|events| - 1])
  {
    a, b := Run(cfg, events[..|events| - 1]).value, Run(cfg, events).value;
  }

  lemma {:induction false} RunBacked(cfg: Config, events: seq<Event>, last: App)
    requires GoodSettings(cfg) && AuthenticationOf(cfg) != 1 && Run(cfg, events) == Some(last)
    ensures Backed(cfg, events, last)
    decreases |events|
  {
    if events != [] {
      var before, e := LastEvent(events);
      var a, b := LastStep(cfg, events);
      RunKeeps(cfg, before);
      RunBacked(cfg, before, a);
      OneMoreEvent(cfg, before, a, e, b, events);
    }
  }

  /** Every packet of every run has the settings given, names a key that the key manager
      has answered with, under its index and with its value, exactly if the encryption
      takes one, and never an authentication key. */
  lemma {:induction false} PacketsAreRight(cfg: Config, events: seq<Event>, k: nat)
    requires Run(cfg, events).Some? && k < |Run(cfg, events).value.sent|
    ensures Right(cfg, events, Run(cfg, events).value.sent[k])
  {
    if GoodSettings(cfg) && AuthenticationOf(cfg) != 1 {
      RunBacked(cfg, events, Run(cfg, events).value);
    } else {
      NoPacket(cfg, events);
    }
  }

  // ----- After the end

  /** Whatever comes after StopApplication, only timers run out. */
  lemma StoppedStep(cfg: Config, a: App, e: Event, b: App)
    requires a.state == STOPPED && !a.scheduled && Enabled(a, e) && b == Next(cfg, a, e)
    ensures b == a.(timers := b.timers)
  {
    match e
    case Timer(k) =>
      var c := a.(timers := a.timers[..k] + a.timers[k + 1..]);
      assert b == Asked(c, a.timers[k]);
    case _ =>
  }

  /** Nothing more is sent, asked for or stored once the sender has been stopped. */
  lemma {:induction false} StoppedForGood(cfg: Config, events: seq<Event>, k: nat, stopped: App, last: App)
    requires 0 < k <= |events| && events[k - 1] == Stop
    requires Run(cfg, events[..k]) == Some(stopped) && Run(cfg, events) == Some(last)
    ensures last == stopped.(timers := last.timers) && last.state == STOPPED && !last.scheduled
    decreases |events|
  {
    var before, e := LastEvent(events);
    var a, b := LastStep(cfg, events);
    if k == |events| {
      assert events[..k] == events;
      StopCloses(a, b);
    } else {
      assert before[..k] == events[..k];
      StoppedForGood(cfg, before, k, stopped, a);
      StoppedStep(cfg, a, e, b);
    }
  }
}
