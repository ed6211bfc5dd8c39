/**
 Whole runs of a QKDApp004 sender, from the start over open_connect, the filling of its
 queues and the packets it sends, in whatever order the answers arrive.
 */
module App004Runs {
  import opened Options
  import opened OrderedKeys
  import opened KeyStream
  import opened App004
  import App014

  /** The attributes, and what the two settings in use hold before they are first set. */
  datatype Config = Config(
    encryption: nat, authentication: nat, tagLength: nat, size: nat, aesLifetime: nat,
    encBuffer: nat, authBuffer: nat, useCrypto: bool, initialEnc: nat, initialAuth: nat)

  datatype Event =
    | Start
    | Opened(ok: bool, ksid: string)
    | Confirmed(ok: bool, scope: SessionType)
    | Queues
    | Answer(ksid: string, ok: bool, index: nat, value: string)
    | Closed(ksid: string)
    | Timer(k: nat)
    | Send
    | Stop

  function Fresh(cfg: Config): App {
    Installed(true, cfg.useCrypto, cfg.initialEnc, cfg.initialAuth, cfg.size, cfg.aesLifetime,
              cfg.encBuffer, cfg.authBuffer)
  }

  function SessionOf(a: App, scope: SessionType): Session {
    if scope == ENCRYPTION then a.enc else a.auth
  }

  /** The key manager answers requests that were made, with an id, and with an index it has
      not handed out for that session: two sessions count independently.  The peer confirms
      a session once, and the queues if it was asked to. */
  predicate Enabled(a: App, e: Event) {
    && !a.fatal
    && match e
       case Start => a.state == INITIALIZED
       case Opened(ok, ksid) =>
         a.state != STOPPED && Noted(a.requests, OpenConnect) != [] && (ok ==> ksid != "")
       case Confirmed(ok, scope) =>
         a.state != STOPPED && scope != EMPTY && SessionOf(a, scope).id != "" && !SessionOf(a, scope).verified
       case Queues => a.state != STOPPED && a.asked && !a.replica
       case Answer(ksid, ok, index, value) =>
         Noted(a.requests, GetKey(ksid)) != [] && (ok && a.auth.id == "" ==> index !in a.enc.keys)
       case Closed(ksid) => Noted(a.requests, Close(ksid)) != []
       case Timer(k) => k < |a.timers|
       case Send => a.scheduled
       case Stop => a.state != INITIALIZED && a.state != STOPPED
  }

  function Next(cfg: Config, a: App, e: Event): App
    requires Enabled(a, e)
  {
    match e
    case Start => Started(a, cfg.encryption, cfg.authentication, cfg.tagLength)
    case Opened(ok, ksid) => SessionOpened(a, ok, ksid)
    case Confirmed(ok, scope) => KsidConfirmed(a, ok, SessionOf(a, scope).id, scope)
    case Queues => QueuesConfirmed(a)
    case Answer(ksid, ok, index, value) => KeyAnswered(a, ksid, ok, index, value)
    case Closed(ksid) => CloseAnswered(a, ksid)
    case Timer(k) => TimerFired(a, k)
    case Send => Transmitted(a.(scheduled := false))
    case Stop => Ended(a)
  }

  /** The sender after a run, if every event was possible. */
  function Run(cfg: Config, events: seq<Event>): Option<App> {
    if events == [] then Some(Fresh(cfg))
    else
      var before, e := Run(cfg, events[..|events| - 1]), events[|events| - 1];
      if before.Some? && Enabled(before.value, e) then Some(Next(cfg, before.value, e)) else None
  }

  // ----- What never changes, and what the authentication stream never gets

  /** The settings a started sender goes by. */
  predicate SetAs(cfg: Config, a: App) {
    && a.master && a.size == cfg.size && a.enc.size == cfg.encBuffer
    && (if a.state == INITIALIZED then a.authentication == cfg.initialAuth
        else a.encryption == cfg.encryption <= 2 && a.authentication == AuthenticationOf(cfg)
             && a.aesLifetime == LifetimeOf(cfg)
             && !BadSettings(cfg.encryption, cfg.authentication, cfg.tagLength, cfg.size, cfg.aesLifetime))
  }

  /** With one-time pad a key lasts one packet. */
  function LifetimeOf(cfg: Config): nat {
    if cfg.encryption == 1 then cfg.size else cfg.aesLifetime
  }

  /** SetCryptoSettings has no case for type 3. */
  function AuthenticationOf(cfg: Config): nat {
    if cfg.authentication <= 1 then cfg.authentication else if cfg.authentication == 2 then 3 else cfg.initialAuth
  }

  /** Every get_key request is noted under the encryption stream. */
  ghost predicate UnderEncryption(requests: Requests) {
    forall k: string, i :: 0 <= i < |Noted(requests, GetKey(k))| ==> Noted(requests, GetKey(k))[i] == ENCRYPTION
  }

  /** A started sender, or one that has not been started. */
  ghost predicate Safe(cfg: Config, a: App) {
    SetAs(cfg, a) && a.auth.keys == map[] && UnderEncryption(a.requests)
  }

  /** b is a with other keys and requests. */
  ghost predicate SafeAfter(cfg: Config, a: App, b: App) {
    && Safe(cfg, b) && b.sent == a.sent
    && b.authentication == a.authentication && b.state == a.state
  }

  lemma PushedKeeps(cfg: Config, a: App, uri: Uri, t: SessionType)
    requires Safe(cfg, a) && (uri.GetKey? ==> t == ENCRYPTION)
    ensures SafeAfter(cfg, a, Pushed(a, uri, t))
  {
    var r := Pushed(a, uri, t).requests;
    forall k: string, i | 0 <= i < |Noted(r, GetKey(k))| ensures Noted(r, GetKey(k))[i] == ENCRYPTION {
      if GetKey(k) == uri && i == |Noted(a.requests, uri)| {
        assert r[uri] == Noted(a.requests, uri) + [t];
      } else {
        assert Noted(r, GetKey(k))[i] == Noted(a.requests, GetKey(k))[i];
      }
    }
  }

  lemma PoppedKeeps(cfg: Config, a: App, uri: Uri)
    requires Safe(cfg, a)
    ensures SafeAfter(cfg, a, Popped(a, uri))
    ensures uri.GetKey? && Noted(a.requests, uri) != [] ==> Oldest(a.requests, uri) == ENCRYPTION
  {
    var r := Popped(a, uri).requests;
    forall k: string, i | 0 <= i < |Noted(r, GetKey(k))| ensures Noted(r, GetKey(k))[i] == ENCRYPTION {
      var j := if GetKey(k) == uri && Noted(a.requests, uri) != [] then i + 1 else i;
      assert Noted(r, GetKey(k))[i] == Noted(a.requests, GetKey(k))[j];
    }
    if uri.GetKey? && Noted(a.requests, uri) != [] {
      assert Noted(a.requests, GetKey(uri.ksid))[0] == ENCRYPTION;
    }
  }

  lemma AskedKeeps(cfg: Config, a: App, ksid: string)
    requires Safe(cfg, a)
    ensures SafeAfter(cfg, a, Asked(a, ksid))
  {
    PushedKeeps(cfg, a, GetKey(ksid), ENCRYPTION);
  }

  lemma EncryptedKeeps(cfg: Config, a: App)
    requires Safe(cfg, a)
    ensures SafeAfter(cfg, a, Encrypted(a))
  {
    AskedKeeps(cfg, Charged(a), a.enc.id);
  }

  lemma DeliveredKeeps(cfg: Config, a: App, packet: Packet, b: App)
    requires Safe(cfg, a) && a.state == SEND_DATA && b == Delivered(a, packet)
    ensures Safe(cfg, b) && b.state != INITIALIZED && b.authentication == a.authentication
  {
    assert b == a.(sent := b.sent, state := b.state, scheduled := true);
  }

  /** Nothing is sent where an authentication key is needed: there is none. */
  lemma TaggedKeeps(cfg: Config, a: App, enc: Option<Named>, b: App)
    requires Safe(cfg, a) && a.state == SEND_DATA && b == Tagged(a, enc)
    ensures Safe(cfg, b) && b.state != INITIALIZED && b.authentication == a.authentication
    ensures AuthenticationSize(a) != 0 ==> b.sent == a.sent
  {
    if LacksAuthenticationKey(a) {
      assert b == a.(state := b.state);
    } else {
      assert Authenticated(a) == a;
      DeliveredKeeps(cfg, a, Packet(a.encryption, enc, a.authentication, AuthenticationKeyOf(a), a.size), b);
    }
  }

  lemma SecuredKeeps(cfg: Config, a: App, b: App)
    requires Safe(cfg, a) && a.state == SEND_DATA && b == Secured(a)
    ensures Safe(cfg, b) && b.state != INITIALIZED && b.authentication == a.authentication
    ensures AuthenticationSize(a) != 0 ==> b.sent == a.sent
  {
    if !LacksEncryptionKey(a) {
      EncryptedKeeps(cfg, a);
      TaggedKeeps(cfg, Encrypted(a), EncryptionKeyOf(a), b);
    }
  }

  lemma TransmittedKeeps(cfg: Config, a: App, b: App)
    requires Safe(cfg, a) && a.state != INITIALIZED && b == Transmitted(a)
    ensures Safe(cfg, b) && b.state != INITIALIZED && b.authentication == a.authentication
    ensures AuthenticationSize(a) != 0 ==> b.sent == a.sent
  {
    var c := if a.state == READY then Entered(a, SEND_DATA) else a;
    if c.state == SEND_DATA {
      SecuredKeeps(cfg, c, b);
    }
  }

  lemma QueuesUpKeeps(cfg: Config, a: App, b: App)
    requires Safe(cfg, a) && a.state != INITIALIZED && b == QueuesUp(Entered(a, KEY_QUEUES_ESTABLISHED))
    ensures Safe(cfg, b) && b.state != INITIALIZED && b.authentication == a.authentication
    ensures AuthenticationSize(a) != 0 ==> b.sent == a.sent
  {
    TransmittedKeeps(cfg, a.(state := READY), b);
  }

  lemma QueuesCheckedKeeps(cfg: Config, a: App, b: App)
    requires Safe(cfg, a) && a.state != INITIALIZED && b == QueuesChecked(a)
    ensures Safe(cfg, b) && b.state != INITIALIZED && b.authentication == a.authentication
    ensures AuthenticationSize(a) != 0 ==> b.sent == a.sent
  {
    if Short(a.enc) || Short(a.auth) {
      AskedKeeps(cfg, a, a.enc.id);
      AskedKeeps(cfg, AskedIfShort(a, a.enc), a.auth.id);
    } else if a.replica {
      QueuesUpKeeps(cfg, a, b);
    }
  }

  /** What every step keeps. */
  ghost predicate Kept(cfg: Config, a: App) {
    && Safe(cfg, a)
    && (a.state == INITIALIZED ==> a == Fresh(cfg).(fatal := a.fatal))
    && (a.state != INITIALIZED && AuthenticationSize(a) != 0 ==> a.sent == [])
  }

  lemma StartKeeps(cfg: Config, a: App, b: App)
    requires a == Fresh(cfg) && b == Started(a, cfg.encryption, cfg.authentication, cfg.tagLength)
    ensures Kept(cfg, b)
  {
    var c := Set(a, cfg.encryption, cfg.authentication);
    if !BadSettings(cfg.encryption, cfg.authentication, cfg.tagLength, cfg.size, cfg.aesLifetime) {
      if EncryptionSize(c) == 0 && AuthenticationSize(c) == 0 {
        TransmittedKeeps(cfg, c.(state := READY), b);
      } else {
        SessionsAskedKeeps(cfg, c.(state := ESTABLISHING_ASSOCIATIONS), b);
      }
    }
  }

  lemma SessionsAskedKeeps(cfg: Config, a: App, b: App)
    requires Safe(cfg, a) && b == SessionsAsked(a)
    ensures SafeAfter(cfg, a, b)
  {
    var c := if EncryptionSize(a) != 0 && a.enc.id == "" then Pushed(a, OpenConnect, ENCRYPTION) else a;
    PushedKeeps(cfg, a, OpenConnect, ENCRYPTION);
    PushedKeeps(cfg, c, OpenConnect, AUTHENTICATION);
  }

  lemma OpenedKeeps(cfg: Config, a: App, ok: bool, ksid: string, b: App)
    requires Safe(cfg, a) && b == SessionOpened(a, ok, ksid)
    ensures SafeAfter(cfg, a, b)
  {
    PoppedKeeps(cfg, a, OpenConnect);
    if ok {
      IdentifiedKeeps(cfg, Popped(a, OpenConnect), Oldest(a.requests, OpenConnect), ksid);
    }
  }

  lemma IdentifiedKeeps(cfg: Config, a: App, t: SessionType, ksid: string)
    requires Safe(cfg, a)
    ensures SafeAfter(cfg, a, Identified(a, t, ksid))
  {
    if ksid != "" && t == ENCRYPTION {
      var b := a.(enc := a.enc.(id := ksid));
      assert SafeAfter(cfg, a, b);
    } else if ksid != "" {
      var b := a.(auth := a.auth.(id := ksid));
      assert SafeAfter(cfg, a, b);
    } else {
      assert SafeAfter(cfg, a, a.(fatal := true));
    }
  }

  lemma ClosedKeeps(cfg: Config, a: App, ksid: string)
    requires Safe(cfg, a)
    ensures SafeAfter(cfg, a, App004.Closed(a, ksid))
  {
    WithoutSessionIs(a, ksid);
    WithoutStreamKeeps(cfg, a, ENCRYPTION);
    WithoutStreamKeeps(cfg, a, AUTHENTICATION);
    assert SafeAfter(cfg, a, WithoutSession(a, ksid));
    PushedKeeps(cfg, WithoutSession(a, ksid), Close(ksid), ENCRYPTION);
  }

  lemma ConfirmedKeeps(cfg: Config, a: App, ok: bool, ksid: string, scope: SessionType, b: App)
    requires Safe(cfg, a) && a.state != INITIALIZED && b == KsidConfirmed(a, ok, ksid, scope)
    ensures Safe(cfg, b) && b.state != INITIALIZED && b.authentication == a.authentication
    ensures AuthenticationSize(a) != 0 ==> b.sent == a.sent
  {
    if !ok {
      ClosedKeeps(cfg, a, ksid);
    } else {
      VerifiedKeeps(cfg, a, scope, Verified(a, scope));
      SessionsCheckedKeeps(cfg, Verified(a, scope), b);
    }
  }

  lemma VerifiedKeeps(cfg: Config, a: App, scope: SessionType, b: App)
    requires Safe(cfg, a) && b == Verified(a, scope)
    ensures SafeAfter(cfg, a, b)
  {
    if scope == ENCRYPTION {
      assert b == a.(enc := b.enc);
    } else {
      assert b == a.(auth := b.auth);
    }
  }

  lemma SessionsCheckedKeeps(cfg: Config, a: App, b: App)
    requires Safe(cfg, a) && a.state != INITIALIZED && b == SessionsChecked(a)
    ensures Safe(cfg, b) && b.state != INITIALIZED && b.authentication == a.authentication
    ensures AuthenticationSize(a) != 0 ==> b.sent == a.sent
  {
    if b != a {
      QueuesCheckedKeeps(cfg, a.(state := ESTABLISHING_KEY_QUEUES, asked := true), b);
    }
  }

  lemma QueuesConfirmedKeeps(cfg: Config, a: App, b: App)
    requires Safe(cfg, a) && a.state != INITIALIZED && b == QueuesConfirmed(a)
    ensures Safe(cfg, b) && b.state != INITIALIZED && b.authentication == a.authentication
    ensures AuthenticationSize(a) != 0 ==> b.sent == a.sent
  {
    if a.primary {
      QueuesUpKeeps(cfg, a.(replica := true), b);
    }
  }

  lemma ResumedKeeps(cfg: Config, a: App, b: App)
    requires Safe(cfg, a) && a.state != INITIALIZED && b == Resumed(a)
    ensures Safe(cfg, b) && b.state != INITIALIZED && b.authentication == a.authentication
    ensures AuthenticationSize(a) != 0 ==> b.sent == a.sent
  {
    if a.state == ESTABLISHING_KEY_QUEUES {
      QueuesCheckedKeeps(cfg, a, b);
    }
  }

  /** Whatever session a key was asked for, it is filed in the encryption stream. */
  lemma AnsweredKeeps(cfg: Config, a: App, ksid: string, ok: bool, index: nat, value: string, b: App)
    requires Safe(cfg, a) && a.state != INITIALIZED && Noted(a.requests, GetKey(ksid)) != []
    requires b == KeyAnswered(a, ksid, ok, index, value)
    ensures Safe(cfg, b) && b.state != INITIALIZED && b.authentication == a.authentication
    ensures AuthenticationSize(a) != 0 ==> b.sent == a.sent
  {
    PoppedKeeps(cfg, a, GetKey(ksid));
    if a.state != STOPPED {
      TakenKeeps(cfg, Popped(a, GetKey(ksid)), ok, index, value, b);
    }
  }

  lemma TakenKeeps(cfg: Config, a: App, ok: bool, index: nat, value: string, b: App)
    requires Safe(cfg, a) && a.state != INITIALIZED && b == KeyTaken(a, ENCRYPTION, ok, index, value)
    ensures Safe(cfg, b) && b.state != INITIALIZED && b.authentication == a.authentication
    ensures AuthenticationSize(a) != 0 ==> b.sent == a.sent
  {
    if a.enc.id != "" && ok {
      ResumedKeeps(cfg, Filed(a, ENCRYPTION, index, value), b);
    }
  }

  lemma CloseAnsweredKeeps(cfg: Config, a: App, ksid: string, b: App)
    requires Safe(cfg, a) && b == CloseAnswered(a, ksid)
    ensures SafeAfter(cfg, a, b)
  {
    PoppedKeeps(cfg, a, Close(ksid));
    WithoutStreamKeeps(cfg, Popped(a, Close(ksid)), Oldest(a.requests, Close(ksid)));
  }

  lemma WithoutStreamKeeps(cfg: Config, a: App, t: SessionType)
    requires Safe(cfg, a)
    ensures SafeAfter(cfg, a, WithoutStream(a, t))
  {
    if t == ENCRYPTION {
      assert SafeAfter(cfg, a, a.(enc := Cleared(a.enc)));
    } else {
      assert SafeAfter(cfg, a, a.(auth := Cleared(a.auth)));
    }
  }

  lemma TimerKeeps(cfg: Config, a: App, k: nat)
    requires Safe(cfg, a) && k < |a.timers|
    ensures SafeAfter(cfg, a, TimerFired(a, k))
  {
    AskedKeeps(cfg, a.(timers := a.timers[..k] + a.timers[k + 1..]), a.timers[k]);
  }

  lemma EndedKeeps(cfg: Config, a: App, b: App)
    requires Safe(cfg, a) && a.state != INITIALIZED && b == Ended(a)
    ensures Safe(cfg, b) && b.state == STOPPED && b.sent == a.sent && b.authentication == a.authentication
  {
    var c := a.(scheduled := false);
    ClosedKeeps(cfg, c, c.enc.id);
    var d := ClosedIfOpen(c, c.enc.id);
    ClosedKeeps(cfg, d, d.auth.id);
    EmptiedKeeps(cfg, SessionsClosed(c));
  }

  lemma EmptiedKeeps(cfg: Config, a: App)
    requires Safe(cfg, a) && a.state != INITIALIZED
    ensures var b := Emptied(a);
            Safe(cfg, b) && b.state == STOPPED && b.sent == a.sent && b.authentication == a.authentication
  {
  }

  lemma StepKeeps(cfg: Config, a: App, e: Event, b: App)
    requires Kept(cfg, a) && Enabled(a, e) && b == Next(cfg, a, e)
    ensures Kept(cfg, b)
  {
    match e
    case Start => StartKeeps(cfg, a, b);
    case Opened(ok, ksid) => OpenedKeeps(cfg, a, ok, ksid, b);
    case Confirmed(ok, scope) => ConfirmedKeeps(cfg, a, ok, SessionOf(a, scope).id, scope, b);
    case Queues => QueuesConfirmedKeeps(cfg, a, b);
    case Answer(ksid, ok, index, value) => AnsweredKeeps(cfg, a, ksid, ok, index, value, b);
    case Closed(ksid) => CloseAnsweredKeeps(cfg, a, ksid, b);
    case Timer(k) => TimerKeeps(cfg, a, k);
    case Send => TransmittedKeeps(cfg, a.(scheduled := false), b);
    case Stop => EndedKeeps(cfg, a, b);
  }

  lemma {:induction false} RunKeeps(cfg: Config, events: seq<Event>)
    requires Run(cfg, events).Some?
    ensures Kept(cfg, Run(cfg, events).value)
  {
    if events != [] {
      RunKeeps(cfg, events[..|events| - 1]);
      StepKeeps(cfg, Run(cfg, events[..|events| - 1]).value, events[|events| - 1], Run(cfg, events).value);
    }
  }

  /** No key ever reaches the authentication stream, although it is asked for. */
  lemma {:induction false} AuthenticationStreamStaysEmpty(cfg: Config, events: seq<Event>)
    requires Run(cfg, events).Some?
    ensures Run(cfg, events).value.auth.keys == map[]
  {
    RunKeeps(cfg, events);
  }

  /** A sender with VMAC sends no packet, in no run. */
  lemma {:induction false} NothingSentWithVmac(cfg: Config, events: seq<Event>)
    requires Run(cfg, events).Some? && AuthenticationOf(cfg) == 1
    ensures Run(cfg, events).value.sent == []
  {
    RunKeeps(cfg, events);
  }

  /** The authentication a started sender uses: type 3 leaves what memory held. */
  lemma {:induction false} AuthenticationInUse(cfg: Config, events: seq<Event>)
    requires Run(cfg, events).Some? && Run(cfg, events).value.state != INITIALIZED
    ensures Run(cfg, events).value.authentication ==
            if cfg.authentication == 2 then 3 else if cfg.authentication == 3 then cfg.initialAuth
            else cfg.authentication
  {
    RunKeeps(cfg, events);
  }

  // ----- A run with VMAC

  /** Both sessions are confirmed, and a key has been asked for each of them. */
  predicate BothAsked(a: App) {
    && a.master && a.state == ESTABLISHING_KEY_QUEUES && !a.fatal
    && a.enc.id == "e" && a.enc.verified && a.auth.id == "a" && a.auth.verified
    && a.auth.keys == map[] && a.auth.size > 0
    && Noted(a.requests, GetKey("e")) != [] && Noted(a.requests, GetKey("e"))[0] == ENCRYPTION
    && Noted(a.requests, GetKey("a")) != [] && Noted(a.requests, GetKey("a"))[0] == ENCRYPTION
  }

  lemma AskedKeepsOthers(a: App, ksid: string, b: App)
    requires b == Asked(a, ksid)
    ensures b == a.(requests := b.requests)
    ensures forall uri :: Noted(a.requests, uri) <= Noted(b.requests, uri)
  {
    forall uri ensures Noted(a.requests, uri) <= Noted(b.requests, uri) {
      if a.state != STOPPED && uri == GetKey(ksid) {
        assert Noted(b.requests, uri) == Noted(a.requests, uri) + [ENCRYPTION];
      } else {
        assert Noted(b.requests, uri) == Noted(a.requests, uri);
      }
    }
  }

  lemma FirstOfEncryption(a: App, value: string, b: App)
    requires BothAsked(a) && a.enc.keys == map[] && b == KeyAnswered(a, "e", true, 0, value)
    ensures b.enc.keys == map[0 := Key(value, a.aesLifetime)] && b.auth == a.auth && b.state == a.state && !b.fatal
    ensures b.enc.id == a.enc.id
    ensures Noted(b.requests, GetKey("a")) != [] && Noted(b.requests, GetKey("a"))[0] == ENCRYPTION
  {
    var c := Popped(a, GetKey("e"));
    assert Noted(c.requests, GetKey("a")) == Noted(a.requests, GetKey("a"));
    var d := Filed(c, ENCRYPTION, 0, value);
    var f := AskedIfShort(d, d.enc);
    AskedKeepsOthers(d, d.enc.id, Asked(d, d.enc.id));
    AskedKeepsOthers(f, f.auth.id, b);
  }

  /** The key for the authentication session meets its own index in the encryption stream. */
  lemma FirstOfAuthentication(a: App, index: nat, value: string, b: App)
    requires a.state == ESTABLISHING_KEY_QUEUES && !a.fatal && a.enc.id != "" && index in a.enc.keys
    requires a.auth.verified && a.auth.keys == map[] && a.auth.size > 0
    requires Noted(a.requests, GetKey("a")) != [] && Noted(a.requests, GetKey("a"))[0] == ENCRYPTION
    requires b == KeyAnswered(a, "a", true, index, value)
    ensures b.enc.keys == a.enc.keys && b.auth == a.auth && b.state == a.state && b.enc.id == a.enc.id
  {
    var c := Popped(a, GetKey("a"));
    assert Filed(c, ENCRYPTION, index, value) == c;
    var f := AskedIfShort(c, c.enc);
    AskedKeepsOthers(c, c.enc.id, Asked(c, c.enc.id));
    AskedKeepsOthers(f, f.auth.id, b);
  }

  /** Settings that need keys of both sessions, and queues for them. */
  predicate NeedsBoth(cfg: Config) {
    && GoodSettings(cfg) && cfg.authentication == 1 && NeedsKeys(cfg) && cfg.encBuffer > 0 && cfg.authBuffer > 0
  }

  /** Both sessions are asked for. */
  lemma BothOpen(cfg: Config, a: App)
    requires NeedsBoth(cfg) && a == Started(Fresh(cfg), cfg.encryption, cfg.authentication, cfg.tagLength)
    ensures a == Set(Fresh(cfg), cfg.encryption, cfg.authentication).(state := ESTABLISHING_ASSOCIATIONS,
                   requests := map[OpenConnect := [ENCRYPTION, AUTHENTICATION]])
  {
    var b := Set(Fresh(cfg), cfg.encryption, cfg.authentication).(state := ESTABLISHING_ASSOCIATIONS);
    var c := Pushed(b, OpenConnect, ENCRYPTION);
    assert c.requests == map[OpenConnect := [] + [ENCRYPTION]];
    assert a == Pushed(c, OpenConnect, AUTHENTICATION);
    assert [] + [ENCRYPTION] == [ENCRYPTION] && [ENCRYPTION] + [AUTHENTICATION] == [ENCRYPTION, AUTHENTICATION];
    assert a.requests == map[OpenConnect := [ENCRYPTION, AUTHENTICATION]];
  }

  lemma BothIdentified(a: App, b: App, c: App)
    requires a.requests == map[OpenConnect := [ENCRYPTION, AUTHENTICATION]]
    requires b == SessionOpened(a, true, "e") && c == SessionOpened(b, true, "a")
    ensures b == a.(requests := map[OpenConnect := [AUTHENTICATION]], enc := a.enc.(id := "e"))
    ensures c == a.(requests := map[OpenConnect := []], enc := a.enc.(id := "e"), auth := a.auth.(id := "a"))
  {
    assert Popped(a, OpenConnect).requests == map[OpenConnect := [AUTHENTICATION]];
    assert Popped(b, OpenConnect).requests == map[OpenConnect := []];
  }

  lemma BothConfirmed(a: App, b: App, c: App)
    requires a.requests == map[OpenConnect := []] && a.state == ESTABLISHING_ASSOCIATIONS && a.master && !a.fatal
    requires a.enc == Session("e", false, a.enc.size, map[]) && a.auth == Session("a", false, a.auth.size, map[])
    requires a.enc.size > 0 && a.auth.size > 0
    requires b == KsidConfirmed(a, true, "e", ENCRYPTION) && c == KsidConfirmed(b, true, "a", AUTHENTICATION)
    ensures b == a.(enc := a.enc.(verified := true))
    ensures BothAsked(c) && c.enc.keys == map[] && c.auth.size == a.auth.size && c.aesLifetime == a.aesLifetime
  {
    var d := b.(auth := b.auth.(verified := true), state := ESTABLISHING_KEY_QUEUES, asked := true);
    var f := Asked(d, "e");
    assert Noted(f.requests, GetKey("e")) == [] + [ENCRYPTION];
    AskedKeepsOthers(d, "e", f);
    AskedKeepsOthers(f, "a", c);
    assert Noted(c.requests, GetKey("a")) == [] + [ENCRYPTION];
  }

  lemma {:induction false} Extend(cfg: Config, events: seq<Event>, a: App, e: Event, b: App)
    requires Run(cfg, events) == Some(a) && Enabled(a, e) && b == Next(cfg, a, e)
    ensures Run(cfg, events + [e]) == Some(b)
  {
    RunAppend(cfg, events, e);
  }

  /** Both sessions have their ids. */
  predicate BothOpened(cfg: Config, a: App) {
    && a.requests == map[OpenConnect := []] && a.state == ESTABLISHING_ASSOCIATIONS && a.master && !a.fatal
    && a.enc == Session("e", false, cfg.encBuffer, map[]) && a.auth == Session("a", false, cfg.authBuffer, map[])
    && a.aesLifetime == LifetimeOf(cfg)
  }

  lemma OpensBoth(cfg: Config) returns (events: seq<Event>, c: App)
    requires NeedsBoth(cfg)
    ensures Run(cfg, events) == Some(c) && BothOpened(cfg, c)
    ensures events == [Start, Opened(true, "e"), Opened(true, "a")]
  {
    var a := Started(Fresh(cfg), cfg.encryption, cfg.authentication, cfg.tagLength);
    var b := SessionOpened(a, true, "e");
    c := SessionOpened(b, true, "a");
    BothOpen(cfg, a);
    BothIdentified(a, b, c);
    Extend(cfg, [], Fresh(cfg), Start, a);
    Extend(cfg, [] + [Start], a, Opened(true, "e"), b);
    Extend(cfg, [] + [Start] + [Opened(true, "e")], b, Opened(true, "a"), c);
    events := [] + [Start] + [Opened(true, "e")] + [Opened(true, "a")];
  }

  lemma ConfirmsBoth(cfg: Config, events: seq<Event>, a: App) returns (more: seq<Event>, c: App)
    requires NeedsBoth(cfg) && Run(cfg, events) == Some(a) && BothOpened(cfg, a)
    ensures Run(cfg, more) == Some(c) && BothAsked(c) && c.enc.keys == map[] && c.aesLifetime == LifetimeOf(cfg)
    ensures events <= more
  {
    var b := KsidConfirmed(a, true, "e", ENCRYPTION);
    c := KsidConfirmed(b, true, "a", AUTHENTICATION);
    BothConfirmed(a, b, c);
    Extend(cfg, events, a, Confirmed(true, ENCRYPTION), b);
    more := events + [Confirmed(true, ENCRYPTION)];
    Extend(cfg, more, b, Confirmed(true, AUTHENTICATION), c);
    more := more + [Confirmed(true, AUTHENTICATION)];
  }

  /** The first authentication key is lost on the first encryption key. */
  predicate FirstLost(a: App, key: Key) {
    a.enc.keys == map[0 := key] && a.auth.verified && a.auth.keys == map[]
  }

  lemma AnswersBoth(cfg: Config, events: seq<Event>, a: App, x: string, y: string)
    returns (more: seq<Event>, c: App)
    requires Run(cfg, events) == Some(a) && BothAsked(a) && a.enc.keys == map[]
    ensures Run(cfg, more) == Some(c) && Answer("e", true, 0, x) in more && Answer("a", true, 0, y) in more
    ensures FirstLost(c, Key(x, a.aesLifetime)) && events <= more && c.enc.id == "e" && c.auth.id == "a"
  {
    var b := KeyAnswered(a, "e", true, 0, x);
    FirstOfEncryption(a, x, b);
    Extend(cfg, events, a, Answer("e", true, 0, x), b);
    more := events + [Answer("e", true, 0, x)];
    more, c := AnswersSecond(cfg, more, b, x, y);
  }

  lemma AnswersSecond(cfg: Config, events: seq<Event>, a: App, x: string, y: string)
    returns (more: seq<Event>, b: App)
    requires Run(cfg, events) == Some(a) && a.state == ESTABLISHING_KEY_QUEUES && !a.fatal && a.enc.id != ""
    requires 0 in a.enc.keys && FirstLost(a, a.enc.keys[0]) && a.auth.id != "" && a.auth.size > 0
    requires Noted(a.requests, GetKey("a")) != [] && Noted(a.requests, GetKey("a"))[0] == ENCRYPTION
    ensures Run(cfg, more) == Some(b) && events <= more && Answer("a", true, 0, y) in more
    ensures FirstLost(b, a.enc.keys[0]) && b.enc.id == a.enc.id && b.auth.id == a.auth.id
  {
    b := KeyAnswered(a, "a", true, 0, y);
    FirstOfAuthentication(a, 0, y, b);
    Extend(cfg, events, a, Answer("a", true, 0, y), b);
    more := events + [Answer("a", true, 0, y)];
  }

  /** The key manager counts the keys of either session from 0.  In such a run the first
      authentication key is lost. */
  lemma EqualIndices(cfg: Config, x: string, y: string) returns (events: seq<Event>, a: App)
    requires NeedsBoth(cfg)
    ensures Answer("e", true, 0, x) in events && Answer("a", true, 0, y) in events
    ensures Run(cfg, events) == Some(a) && FirstLost(a, Key(x, LifetimeOf(cfg)))
    ensures [Start, Opened(true, "e"), Opened(true, "a")] <= events && a.enc.id == "e" && a.auth.id == "a"
  {
    events, a := OpensBoth(cfg);
    events, a := ConfirmsBoth(cfg, events, a);
    events, a := AnswersBoth(cfg, events, a, x, y);
  }

  // ----- Without VMAC: the sender never stalls

  /** Nothing but the encryption session is in use, and requests are made for it. */
  ghost predicate Single(a: App) {
    && a.auth.id == "" && !a.auth.verified && a.auth.keys == map[] && AuthenticationSize(a) == 0
    && a.master && !a.fatal
    && UnderEncryption(a.requests)
    && (forall k: string :: Noted(a.requests, GetKey(k)) != [] ==> k == a.enc.id)
    && (forall i :: 0 <= i < |a.timers| ==> a.timers[i] == a.enc.id)
    && (forall i :: 0 <= i < |Noted(a.requests, OpenConnect)| ==> Noted(a.requests, OpenConnect)[i] == ENCRYPTION)
    && (forall k: string :: Noted(a.requests, Close(k)) != [] ==>
          a.enc.id == "" && Noted(a.requests, OpenConnect) == [])
    && (forall k: string, i :: 0 <= i < |Noted(a.requests, Close(k))| ==> Noted(a.requests, Close(k))[i] == ENCRYPTION)
  }

  /** Requests for keys that are under way, or will be when a timer fires. */
  function Asking(a: App): nat {
    |Noted(a.requests, GetKey(a.enc.id))| + |a.timers|
  }

  function InPlay(a: App): nat {
    |a.enc.keys| + Asking(a)
  }

  /** The session is open and confirmed. */
  predicate OnStream(a: App) {
    EncryptionSize(a) != 0 && a.enc.id != "" && a.enc.verified && Noted(a.requests, OpenConnect) == []
  }

  /** Before the session is confirmed. */
  predicate Opening(a: App) {
    && EncryptionSize(a) != 0 && a.state == ESTABLISHING_ASSOCIATIONS
    && !a.enc.verified && a.enc.keys == map[] && Asking(a) == 0
    && !a.primary && !a.replica && !a.asked && !a.scheduled && a.sent == []
    && |Noted(a.requests, OpenConnect)| + (if a.enc.id == "" then 0 else 1) <= 1
  }

  /** While the queue is being filled. */
  predicate Filling(a: App) {
    && OnStream(a) && a.state == ESTABLISHING_KEY_QUEUES && a.asked && !a.scheduled && a.sent == []
    && (a.primary <==> |a.enc.keys| >= a.enc.size) && (a.primary ==> !a.replica)
    && |a.enc.keys| <= a.enc.size
    && Asking(a) == if |a.enc.keys| < a.enc.size then 1 else 0
  }

  /** Afterwards, with a queue of some length: a packet is always scheduled, READY means
      that there is a key, and keys in the queue or on their way make up its length. */
  predicate Running(a: App) {
    && OnStream(a) && (a.state == READY || a.state == WAIT) && a.scheduled && a.replica
    && (a.state == READY <==> a.enc.keys != map[])
    && InPlay(a) >= a.enc.size > 0
  }

  /** A queue of no length: nobody ever asks for a key. */
  predicate Starved(a: App) {
    OnStream(a) && a.state == WAIT && !a.scheduled && a.replica && a.enc.size == 0 && InPlay(a) == 0 && a.sent == []
  }

  /** No key is needed. */
  predicate Unkeyed(a: App) {
    && EncryptionSize(a) == 0 && a.state == READY && a.scheduled && !a.asked
    && a.enc.id == "" && a.enc.keys == map[] && a.requests == map[] && a.timers == []
  }

  /** What a sender without VMAC keeps. */
  ghost predicate Flowing(a: App) {
    Single(a) && (Opening(a) || Filling(a) || Running(a) || Starved(a) || Unkeyed(a))
  }

  lemma AskedCounts(a: App)
    requires Single(a) && a.enc.id != "" && a.state != STOPPED
    ensures var b := Asked(a, a.enc.id);
            && Single(b) && Asking(b) == Asking(a) + 1 && b == a.(requests := b.requests)
            && Noted(b.requests, OpenConnect) == Noted(a.requests, OpenConnect)
  {
    var b := Asked(a, a.enc.id);
    var uri := GetKey(a.enc.id);
    assert Noted(b.requests, OpenConnect) == Noted(a.requests, OpenConnect);
    assert forall k: string :: Noted(b.requests, Close(k)) == Noted(a.requests, Close(k));
    assert Noted(b.requests, uri) == Noted(a.requests, uri) + [ENCRYPTION];
    forall k: string, i | 0 <= i < |Noted(b.requests, GetKey(k))|
      ensures Noted(b.requests, GetKey(k))[i] == ENCRYPTION
    {
      if k != a.enc.id || i < |Noted(a.requests, uri)| {
        assert Noted(b.requests, GetKey(k))[i] == Noted(a.requests, GetKey(k))[i];
      }
    }
    forall k: string | Noted(b.requests, GetKey(k)) != [] ensures k == a.enc.id {
      assert k != a.enc.id ==> Noted(b.requests, GetKey(k)) == Noted(a.requests, GetKey(k));
    }
  }

  lemma PoppedCounts(a: App, ksid: string)
    requires Single(a) && Noted(a.requests, GetKey(ksid)) != []
    ensures ksid == a.enc.id && Oldest(a.requests, GetKey(ksid)) == ENCRYPTION
    ensures var b := Popped(a, GetKey(ksid));
            && Single(b) && Asking(b) == Asking(a) - 1 && b == a.(requests := b.requests)
            && Noted(b.requests, OpenConnect) == Noted(a.requests, OpenConnect)
  {
    var b := Popped(a, GetKey(ksid));
    assert Noted(b.requests, OpenConnect) == Noted(a.requests, OpenConnect);
    assert forall k: string :: Noted(b.requests, Close(k)) == Noted(a.requests, Close(k));
    assert Noted(a.requests, GetKey(ksid))[0] == ENCRYPTION;
    forall k: string, i | 0 <= i < |Noted(b.requests, GetKey(k))|
      ensures Noted(b.requests, GetKey(k))[i] == ENCRYPTION
    {
      var j := if k == ksid then i + 1 else i;
      assert Noted(b.requests, GetKey(k))[i] == Noted(a.requests, GetKey(k))[j];
    }
    forall k: string | Noted(b.requests, GetKey(k)) != [] ensures k == a.enc.id {
      assert k != ksid ==> Noted(b.requests, GetKey(k)) == Noted(a.requests, GetKey(k));
    }
  }

  /** A front key with more than one packet of lifetime and at most two is asked for
      again while it stays; it will be once more when it leaves. */
  predicate AskedEarly(lifetime: nat, p: nat) {
    p < lifetime <= 2 * p
  }

  /** The requests that a packet costs beyond the keys it uses up. */
  function Surplus(a: App): nat
    requires a.enc.keys != map[]
  {
    if AskedEarly(a.enc.keys[Least(a.enc.keys.Keys)].lifetime, a.size) then 1 else 0
  }

  /** A key leaves the stream when one packet uses it up. */
  lemma SizeAfterSend(keys: Stream, p: nat)
    requires keys != map[]
    ensures |AfterSend(keys, p)| == if FrontAfterGet(keys, p) == 0 then |keys| - 1 else |keys|
  {
    var i := Least(keys.Keys);
    assert |keys| == |keys.Keys| && |AfterSend(keys, p)| == |AfterSend(keys, p).Keys|;
    if FrontAfterGet(keys, p) == 0 {
      assert (keys - {i}).Keys == keys.Keys - {i};
    } else {
      assert AfterSend(keys, p).Keys == keys.Keys;
    }
  }

  /** And then another one is asked for. */
  lemma EncryptedCounts(a: App, b: App)
    requires Single(a) && OnStream(a) && a.enc.keys != map[] && a.state == SEND_DATA && b == Encrypted(a)
    ensures Single(b) && OnStream(b) && InPlay(b) == InPlay(a) + Surplus(a)
    ensures b == a.(enc := a.enc.(keys := AfterSend(a.enc.keys, a.size)), requests := b.requests)
  {
    SizeAfterSend(a.enc.keys, a.size);
    var c := Charged(a);
    assert Single(c) && OnStream(c);
    AskedCounts(c);
  }

  lemma DeliveredCounts(a: App, packet: Packet, b: App)
    requires Single(a) && OnStream(a) && a.state == SEND_DATA && a.replica && InPlay(a) >= a.enc.size > 0
    requires b == Delivered(a, packet)
    ensures Single(b) && Running(b) && b.sent == a.sent + [packet]
    ensures b.enc == a.enc && b.requests == a.requests && b.timers == a.timers
  {
  }

  /** SendPacket in READY sends exactly one packet. */
  lemma SendCounts(a: App, b: App)
    requires Single(a) && OnStream(a) && a.enc.keys != map[] && a.state == READY && a.replica
    requires InPlay(a) >= a.enc.size > 0 && b == Transmitted(a)
    ensures Single(b) && Running(b) && |b.sent| == |a.sent| + 1
    ensures InPlay(b) == InPlay(a) + Surplus(a)
    ensures b.enc == a.enc.(keys := AfterSend(a.enc.keys, a.size))
    ensures b.size == a.size && b.aesLifetime == a.aesLifetime
  {
    var c := a.(state := SEND_DATA);
    var d := Encrypted(c);
    EncryptedCounts(c, d);
    DeliveredCounts(d, Packet(d.encryption, EncryptionKeyOf(c), d.authentication, None, d.size), b);
  }

  // ----- Its steps

  lemma FilledRuns(a: App, b: App)
    requires Single(a) && OnStream(a) && a.replica && a.sent == [] && !a.scheduled && a.state != SEND_DATA
    requires |a.enc.keys| == a.enc.size && Asking(a) == 0
    requires b == QueuesUp(Entered(a, KEY_QUEUES_ESTABLISHED))
    ensures Single(b) && (Running(b) || Starved(b))
    ensures a.enc.size > 0 ==> b == Transmitted(a.(state := READY)) && b.sent != []
  {
    var c := a.(state := READY);
    if a.enc.size > 0 {
      SendCounts(c, b);
    }
  }

  /** CheckQueues while the queue is being filled; asking counts what is under way. */
  lemma CheckedFills(a: App, b: App)
    requires Single(a) && OnStream(a) && a.state == ESTABLISHING_KEY_QUEUES && a.asked && !a.scheduled
    requires a.sent == [] && |a.enc.keys| <= a.enc.size && Asking(a) == 0
    requires a.primary ==> |a.enc.keys| == a.enc.size
    requires b == QueuesChecked(a)
    ensures Single(b) && (Filling(b) || Running(b) || Starved(b))
  {
    if Short(a.enc) {
      AskedCounts(a);
    } else if a.replica {
      FilledRuns(a, b);
    }
  }

  lemma ConfirmedFlows(a: App, ok: bool, b: App)
    requires Single(a) && Opening(a) && a.enc.id != "" && b == KsidConfirmed(a, ok, a.enc.id, ENCRYPTION)
    ensures Flowing(b)
  {
    if ok {
      var c := a.(enc := a.enc.(verified := true), state := ESTABLISHING_KEY_QUEUES, asked := true);
      CheckedFills(c, b);
    } else {
      ClosedOpens(a, b);
    }
  }

  lemma ClosedOpens(a: App, b: App)
    requires Single(a) && Opening(a) && a.enc.id != "" && b == App004.Closed(a, a.enc.id)
    ensures Single(b) && Opening(b)
  {
    assert forall uri: Uri :: !uri.Close? ==> Noted(b.requests, uri) == Noted(a.requests, uri);
  }

  lemma QueuesFlow(a: App, b: App)
    requires Single(a) && Filling(a) && b == QueuesConfirmed(a)
    ensures Flowing(b)
  {
    if a.primary {
      FilledRuns(a.(replica := true), b);
    }
  }

  lemma FiledCounts(a: App, index: nat, value: string, b: App)
    requires Single(a) && index !in a.enc.keys && b == Filed(a, ENCRYPTION, index, value)
    ensures Single(b) && Asking(b) == Asking(a) && |b.enc.keys| == |a.enc.keys| + 1
    ensures b == a.(enc := a.enc.(keys := b.enc.keys))
  {
  }

  lemma KeyFlows(a: App, b: App)
    requires Single(a) && OnStream(a) && a.enc.keys != map[] && b == Resumed(a)
    requires a.state == ESTABLISHING_KEY_QUEUES ==>
               a.asked && !a.scheduled && a.sent == [] && !a.primary && |a.enc.keys| <= a.enc.size && Asking(a) == 0
    requires a.state != ESTABLISHING_KEY_QUEUES ==>
               (a.state == READY || a.state == WAIT) && a.scheduled && a.replica && InPlay(a) >= a.enc.size > 0
    ensures Flowing(b)
  {
    if a.state == ESTABLISHING_KEY_QUEUES {
      CheckedFills(a, b);
    }
  }

  /** A key answer. */
  lemma AnswerFlows(a: App, ksid: string, ok: bool, index: nat, value: string, b: App)
    requires Single(a) && (Filling(a) || Running(a)) && Noted(a.requests, GetKey(ksid)) != []
    requires (ok ==> index !in a.enc.keys) && b == KeyAnswered(a, ksid, ok, index, value)
    ensures Flowing(b)
  {
    PoppedCounts(a, ksid);
    var c := Popped(a, GetKey(ksid));
    if ok {
      var d := Filed(c, ENCRYPTION, index, value);
      FiledCounts(c, index, value, d);
      KeyFlows(d, b);
    }
  }

  /** Only a session the peer refused is closed before the sender stops. */
  lemma CloseAnsweredFlows(a: App, ksid: string, b: App)
    requires Flowing(a) && Noted(a.requests, Close(ksid)) != [] && b == CloseAnswered(a, ksid)
    ensures Flowing(b)
  {
    var c := Popped(a, Close(ksid));
    assert Noted(a.requests, Close(ksid))[0] == ENCRYPTION;
    assert Opening(a) && b == c;
    forall k: string, i | 0 <= i < |Noted(c.requests, Close(k))|
      ensures Noted(c.requests, Close(k))[i] == ENCRYPTION
    {
      var j := if k == ksid then i + 1 else i;
      assert Noted(c.requests, Close(k))[i] == Noted(a.requests, Close(k))[j];
    }
    assert forall uri: Uri :: !uri.Close? ==> Noted(c.requests, uri) == Noted(a.requests, uri);
    assert forall k: string :: k != ksid ==> Noted(c.requests, Close(k)) == Noted(a.requests, Close(k));
  }

  lemma TimerFlows(a: App, k: nat, b: App)
    requires Single(a) && (Filling(a) || Running(a)) && k < |a.timers| && b == TimerFired(a, k)
    ensures Flowing(b)
  {
    var c := a.(timers := a.timers[..k] + a.timers[k + 1..]);
    assert Single(c);
    AskedCounts(c);
  }

  // ----- Its runs

  predicate NeedsKeys(cfg: Config) {
    App014.EncryptionKeySize(cfg.encryption, cfg.size) != 0
  }

  predicate GoodSettings(cfg: Config) {
    !BadSettings(cfg.encryption, cfg.authentication, cfg.tagLength, cfg.size, cfg.aesLifetime)
  }

  /** What the runs of a sender without VMAC keep. */
  ghost predicate Flow(cfg: Config, a: App) {
    && (if a.state == INITIALIZED then a == Fresh(cfg)
        else if a.state == STOPPED then !a.scheduled && !a.fatal
        else Flowing(a))
    && (NeedsKeys(cfg) && cfg.encBuffer == 0 ==> a.sent == [])
  }

  lemma StartFlows(cfg: Config, b: App)
    requires GoodSettings(cfg) && AuthenticationOf(cfg) != 1
    requires b == Started(Fresh(cfg), cfg.encryption, cfg.authentication, cfg.tagLength)
    ensures Flowing(b)
    ensures if NeedsKeys(cfg)
            then b.sent == [] && Opening(b) && b.enc.id == "" && Oldest(b.requests, OpenConnect) == ENCRYPTION
            else b.sent != [] && Unkeyed(b)
  {
    if NeedsKeys(cfg) {
      var c := Set(Fresh(cfg), cfg.encryption, cfg.authentication).(state := ESTABLISHING_ASSOCIATIONS);
      assert b == Pushed(c, OpenConnect, ENCRYPTION);
      assert b.requests == map[OpenConnect := [] + [ENCRYPTION]];
    } else {
      var c := Set(Fresh(cfg), cfg.encryption, cfg.authentication).(state := READY);
      UnkeyedSends(c, b);
    }
  }

  lemma UnkeyedSends(a: App, b: App)
    requires Unkeyed(a.(scheduled := true)) && Single(a) && b == Transmitted(a)
    ensures Unkeyed(b) && Single(b) && |b.sent| == |a.sent| + 1
  {
  }

  lemma OpenedFlows(a: App, ok: bool, ksid: string, b: App)
    requires Single(a) && Opening(a) && Noted(a.requests, OpenConnect) != [] && (ok ==> ksid != "")
    requires b == SessionOpened(a, ok, ksid)
    ensures Single(b) && Opening(b) && b.enc.id == (if ok then ksid else a.enc.id)
  {
    var c := Popped(a, OpenConnect);
    assert Oldest(a.requests, OpenConnect) == Noted(a.requests, OpenConnect)[0] == ENCRYPTION;
    assert Noted(c.requests, OpenConnect) == [];
    assert forall k: string :: Noted(c.requests, GetKey(k)) == Noted(a.requests, GetKey(k));
    assert a.enc.id == "";
    NothingAsked(a, ksid);
  }

  lemma NothingAsked(a: App, ksid: string)
    requires Single(a) && Opening(a)
    ensures Noted(a.requests, GetKey(ksid)) == []
  {
  }

  lemma StopFlows(a: App)
    requires Flowing(a)
    ensures var b := Ended(a); b.state == STOPPED && !b.scheduled && !b.fatal && b.sent == a.sent
  {
    var b := a.(scheduled := false);
    ClosedIfOpenFlows(b, b.enc.id);
    var c := ClosedIfOpen(b, b.enc.id);
    ClosedIfOpenFlows(c, c.auth.id);
  }

  lemma ClosedIfOpenFlows(a: App, ksid: string)
    ensures var b := ClosedIfOpen(a, ksid); b.scheduled == a.scheduled && b.fatal == a.fatal && b.sent == a.sent
  {
    if ksid != "" {
      WithoutSessionIs(a, ksid);
      PushedIs(WithoutSession(a, ksid), Close(ksid));
    }
  }

  lemma PushedIs(a: App, uri: Uri)
    ensures Pushed(a, uri, ENCRYPTION) == a.(requests := Pushed(a, uri, ENCRYPTION).requests)
  {
  }

  lemma WithoutSessionIs(a: App, ksid: string)
    ensures WithoutSession(a, ksid) == a || WithoutSession(a, ksid) == a.(enc := Cleared(a.enc))
            || WithoutSession(a, ksid) == a.(auth := Cleared(a.auth))
  {
  }

  lemma SendFlows(a: App, b: App)
    requires Flowing(a) && a.scheduled && b == Transmitted(a.(scheduled := false))
    ensures Flowing(b)
    ensures |b.sent| == |a.sent| + (if a.state == READY then 1 else 0)
  {
    var c := a.(scheduled := false);
    if Unkeyed(a) {
      UnkeyedSends(c, b);
    } else if a.state == READY {
      SendCounts(c, b);
    }
  }

  lemma StepFlows(cfg: Config, a: App, e: Event, b: App)
    requires Flowing(a) && Enabled(a, e) && !e.Stop? && b == Next(cfg, a, e)
    ensures Flowing(b)
  {
    match e
    case Opened(ok, ksid) => OpenedFlows(a, ok, ksid, b);
    case Confirmed(ok, scope) => ConfirmedFlows(a, ok, b);
    case Queues => QueuesFlow(a, b);
    case Answer(ksid, ok, index, value) =>
      if Opening(a) {
        NothingAsked(a, ksid);
      } else {
        AnswerFlows(a, ksid, ok, index, value, b);
      }
    case Closed(ksid) => CloseAnsweredFlows(a, ksid, b);
    case Timer(k) => TimerFlows(a, k, b);
    case Send => SendFlows(a, b);
  }

  lemma FlowStep(cfg: Config, a: App, e: Event, b: App)
    requires GoodSettings(cfg) && AuthenticationOf(cfg) != 1
    requires Flow(cfg, a) && Enabled(a, e) && b == Next(cfg, a, e) && Kept(cfg, b)
    ensures Flow(cfg, b)
  {
    if a.state == INITIALIZED {
      StartFlows(cfg, b);
    } else if a.state != STOPPED {
      if e.Stop? {
        StopFlows(a);
      } else {
        StepFlows(cfg, a, e, b);
      }
    }
  }

  lemma {:induction false} RunFlows(cfg: Config, events: seq<Event>)
    requires GoodSettings(cfg) && AuthenticationOf(cfg) != 1 && Run(cfg, events).Some?
    ensures Flow(cfg, Run(cfg, events).value)
  {
    if events != [] {
      var before := events[..|events| - 1];
      RunFlows(cfg, before);
      RunKeeps(cfg, events);
      FlowStep(cfg, Run(cfg, before).value, events[|events| - 1], Run(cfg, events).value);
    }
  }

  // ----- Main results

  /** Without VMAC, and with a queue of some length where keys are needed, the sender never
      stalls: once it is READY or waits, its next packet is scheduled; in READY sending
      sends exactly one packet; in WAIT a key has been asked for; and keys in the queue and
      on their way never make up less than the length of the queue. */
  lemma {:induction false} SenderNeverStalls(cfg: Config, events: seq<Event>)
    requires GoodSettings(cfg) && AuthenticationOf(cfg) != 1 && (NeedsKeys(cfg) ==> cfg.encBuffer > 0)
    requires Run(cfg, events).Some?
    ensures var a := Run(cfg, events).value;
            && !a.fatal && a.state != SEND_DATA && a.state != KEY_QUEUES_ESTABLISHED
            && (a.state == READY || a.state == WAIT ==> a.scheduled)
            && (a.state == READY ==> |Transmitted(a.(scheduled := false)).sent| == |a.sent| + 1)
            && (a.state == WAIT ==> Asking(a) > 0)
            && (NeedsKeys(cfg) && (a.state == READY || a.state == WAIT) ==> InPlay(a) >= cfg.encBuffer)
  {
    RunKeeps(cfg, events);
    RunFlows(cfg, events);
    var a := Run(cfg, events).value;
    if a.state == READY {
      SendFlows(a, Transmitted(a.(scheduled := false)));
    }
  }

  /** The session opens, and k keys arrive. */
  function Filled(k: nat): seq<Event> {
    if k == 0 then [Start, Opened(true, "s"), Confirmed(true, ENCRYPTION)]
    else Filled(k - 1) + [Answer("s", true, k - 1, "")]
  }

  /** The queue holds the first k keys and the rest of them is being asked for. */
  predicate Holds(a: App, k: nat) {
    && Filling(a) && !a.replica && a.enc.id == "s" && a.timers == [] && |a.enc.keys| == k
    && forall i :: i in a.enc.keys ==> i < k && a.enc.keys[i].lifetime == a.aesLifetime
  }

  lemma {:induction false} RunAppend(cfg: Config, events: seq<Event>, e: Event)
    requires Run(cfg, events).Some? && Enabled(Run(cfg, events).value, e)
    ensures Run(cfg, events + [e]) == Some(Next(cfg, Run(cfg, events).value, e))
  {
    assert (events + [e])[..|events|] == events;
  }

  lemma OneMore(cfg: Config, a: App, k: nat, b: App)
    requires Single(a) && Holds(a, k) && k < a.enc.size && Noted(a.requests, GetKey("s")) != []
    requires b == KeyAnswered(a, "s", true, k, "")
    ensures Holds(b, k + 1)
  {
    AnswerFlows(a, "s", true, k, "", b);
    var c := Filed(Popped(a, GetKey("s")), ENCRYPTION, k, "");
    assert |c.enc.keys| == k + 1;
    assert b == QueuesChecked(c);
  }

  /** Start, and the session is confirmed. */
  lemma Handshake(cfg: Config, a: App, b: App, c: App)
    requires GoodSettings(cfg) && AuthenticationOf(cfg) != 1 && NeedsKeys(cfg)
    requires a == Started(Fresh(cfg), cfg.encryption, cfg.authentication, cfg.tagLength)
    requires b == SessionOpened(a, true, "s") && c == KsidConfirmed(b, true, "s", ENCRYPTION)
    ensures Enabled(a, Opened(true, "s")) && Enabled(b, Confirmed(true, ENCRYPTION)) && b.enc.id == "s"
    ensures b.enc.keys == map[] && Single(b) && Opening(b)
  {
    StartFlows(cfg, a);
    OpenedFlows(a, true, "s", b);
  }

  lemma ConfirmedHolds(a: App, b: App)
    requires Single(a) && Opening(a) && a.enc.id == "s" && a.enc.size > 0
    requires b == KsidConfirmed(a, true, "s", ENCRYPTION)
    ensures Holds(b, 0)
  {
    ConfirmedFlows(a, true, b);
  }

  lemma {:induction false} HandshakeRun(cfg: Config)
    requires GoodSettings(cfg) && AuthenticationOf(cfg) != 1 && NeedsKeys(cfg) && cfg.encBuffer > 0
    ensures Run(cfg, Filled(0)).Some? && Holds(Run(cfg, Filled(0)).value, 0)
  {
    var a := Started(Fresh(cfg), cfg.encryption, cfg.authentication, cfg.tagLength);
    var b := SessionOpened(a, true, "s");
    var c := KsidConfirmed(b, true, "s", ENCRYPTION);
    Handshake(cfg, a, b, c);
    var e1, e2, e3 := Start, Opened(true, "s"), Confirmed(true, ENCRYPTION);
    RunAppend(cfg, [], e1);
    RunAppend(cfg, [e1], e2);
    RunAppend(cfg, [e1, e2], e3);
    assert [] + [e1] == [e1] && [e1] + [e2] == [e1, e2] && [e1, e2] + [e3] == Filled(0);
    RunKeeps(cfg, [e1, e2]);
    ConfirmedHolds(b, c);
  }

  lemma {:induction false} FilledRun(cfg: Config, k: nat)
    requires GoodSettings(cfg) && AuthenticationOf(cfg) != 1 && NeedsKeys(cfg)
    requires k <= cfg.encBuffer && 0 < cfg.encBuffer
    ensures Run(cfg, Filled(k)).Some? && Holds(Run(cfg, Filled(k)).value, k)
  {
    if k == 0 {
      HandshakeRun(cfg);
    } else {
      FilledRun(cfg, k - 1);
      RunFlows(cfg, Filled(k - 1));
      RunKeeps(cfg, Filled(k - 1));
      var a := Run(cfg, Filled(k - 1)).value;
      RunAppend(cfg, Filled(k - 1), Answer("s", true, k - 1, ""));
      OneMore(cfg, a, k - 1, Run(cfg, Filled(k)).value);
    }
  }

  /** There is a run that sends a packet exactly if the settings are accepted, there is no
      VMAC, and the encryption queue has a length where keys are needed. */
  lemma {:induction false} PacketsFlowIff(cfg: Config)
    ensures (exists events :: Run(cfg, events).Some? && Run(cfg, events).value.sent != [])
            <==> GoodSettings(cfg) && AuthenticationOf(cfg) != 1 && (NeedsKeys(cfg) ==> cfg.encBuffer > 0)
  {
    if GoodSettings(cfg) && AuthenticationOf(cfg) != 1 && (NeedsKeys(cfg) ==> cfg.encBuffer > 0) {
      var _ := SomePacket(cfg);
    } else {
      forall events | Run(cfg, events).Some? ensures Run(cfg, events).value.sent == [] {
        NoPacket(cfg, events);
      }
    }
  }

  lemma {:induction false} NoPacket(cfg: Config, events: seq<Event>)
    requires Run(cfg, events).Some?
    requires !GoodSettings(cfg) || AuthenticationOf(cfg) == 1 || (NeedsKeys(cfg) && cfg.encBuffer == 0)
    ensures Run(cfg, events).value.sent == []
  {
    RunKeeps(cfg, events);
    if GoodSettings(cfg) && AuthenticationOf(cfg) != 1 {
      RunFlows(cfg, events);
    }
  }

  lemma SomePacket(cfg: Config) returns (events: seq<Event>)
    requires GoodSettings(cfg) && AuthenticationOf(cfg) != 1 && (NeedsKeys(cfg) ==> cfg.encBuffer > 0)
    ensures Run(cfg, events).Some? && Run(cfg, events).value.sent != []
  {
    if NeedsKeys(cfg) {
      var k := cfg.encBuffer;
      FilledRun(cfg, k);
      RunFlows(cfg, Filled(k));
      RunKeeps(cfg, Filled(k));
      events := Filled(k) + [Queues];
      RunAppend(cfg, Filled(k), Queues);
      var a := Run(cfg, Filled(k)).value;
      FilledRuns(a.(replica := true), QueuesConfirmed(a));
    } else {
      events := [Start];
      RunAppend(cfg, [], Start);
      assert [] + [Start] == events;
      StartFlows(cfg, Run(cfg, events).value);
    }
  }
}
