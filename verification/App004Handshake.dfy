/**
 The handshake of a QKDApp004 receiver: send_ksid, open_connect at its own key manager,
 establish_queues, and the keys that fill its queue.
 */
module App004Handshake {
  import opened OrderedKeys
  import opened KeyStream
  import opened App004
  import App004Runs

  /** A receiver that has been started and has no session yet. */
  predicate Idle(a: App) {
    && !a.master && a.state == READY && !a.fatal && !a.asked
    && a.enc == Session("", false, a.enc.size, map[]) && a.auth == Session("", false, a.auth.size, map[])
    && a.requests == map[] && a.timers == []
  }

  lemma StartedIsIdle(useCrypto: bool, before: (nat, nat), size: nat, aesLifetime: nat, encBuffer: nat, authBuffer: nat,
                      encryption: nat, authentication: nat, tagLength: nat)
    requires !BadSettings(encryption, authentication, tagLength, size, aesLifetime)
    ensures Idle(Started(Installed(false, useCrypto, before.0, before.1, size, aesLifetime, encBuffer, authBuffer),
                         encryption, authentication, tagLength))
  {
  }

  // ----- The session

  /** The three steps before the keys. */
  function Named(a: App, ksid: string): App {
    KsidReceived(a, ksid, ENCRYPTION)
  }

  function Granted(a: App, ksid: string, ok: bool): App {
    SessionGranted(Named(a, ksid), ok)
  }

  function Requested(a: App, ksid: string, ok: bool): App {
    QueuesRequested(Granted(a, ksid, ok))
  }

  /** Until it is asked for its queues the receiver waits; its session has the id, and is
      confirmed or cleared as its key manager answers. */
  lemma SessionSettles(a: App, ksid: string, ok: bool)
    requires Idle(a) && ksid != ""
    ensures var b := Named(a, ksid);
            b == a.(state := ESTABLISHING_ASSOCIATIONS, requests := map[OpenConnect := [ENCRYPTION]],
                    enc := Session(ksid, false, a.enc.size, map[]))
    ensures Granted(a, ksid, ok) ==
            a.(state := ESTABLISHING_ASSOCIATIONS, requests := map[OpenConnect := []],
               enc := if ok then Session(ksid, true, a.enc.size, map[]) else a.enc)
  {
    assert [] + [ENCRYPTION] == [ENCRYPTION];
    var b := Named(a, ksid);
    assert b.requests == map[OpenConnect := [ENCRYPTION]];
    assert Popped(b, OpenConnect).requests == map[OpenConnect := []];
  }

  // ----- The keys

  datatype Reply = Granting(ksid: string, index: nat, value: string) | Refusal(ksid: string) | Due(k: nat)

  /** The key manager answers a request, with an index it has not used, or a timer fires. */
  predicate Enabled(a: App, r: Reply) {
    match r
    case Granting(ksid, index, _) => Noted(a.requests, GetKey(ksid)) != [] && (a.auth.id == "" ==> index !in a.enc.keys)
    case Refusal(ksid) => Noted(a.requests, GetKey(ksid)) != []
    case Due(k) => k < |a.timers|
  }

  function Next(a: App, r: Reply): App
    requires Enabled(a, r)
  {
    match r
    case Granting(ksid, index, value) => KeyAnswered(a, ksid, true, index, value)
    case Refusal(ksid) => KeyAnswered(a, ksid, false, 0, "")
    case Due(k) => TimerFired(a, k)
  }

  predicate Run(a: App, replies: seq<Reply>)
    decreases |replies|
  {
    replies == [] || (Enabled(a, replies[0]) && Run(Next(a, replies[0]), replies[1..]))
  }

  function After(a: App, replies: seq<Reply>): App
    requires Run(a, replies)
    decreases |replies|
  {
    if replies == [] then a else After(Next(a, replies[0]), replies[1..])
  }

  /** How many keys have come. */
  function Keys(replies: seq<Reply>): nat {
    if replies == [] then 0 else (if replies[0].Granting? then 1 else 0) + Keys(replies[1..])
  }

  /** The stream with the keys that have come, each under its index and with its value. */
  function WithKeys(keys: Stream, replies: seq<Reply>, lifetime: nat): Stream
    decreases |replies|
  {
    if replies == [] then keys
    else if replies[0].Granting? then
      WithKeys(keys[replies[0].index := Key(replies[0].value, lifetime)], replies[1..], lifetime)
    else WithKeys(keys, replies[1..], lifetime)
  }

  /** The receiver has its session, this many keys, each as it came, and asks for nothing. */
  ghost predicate Holds(a: App, ksid: string, n: nat) {
    && !a.master && !a.fatal && ksid != "" && a.enc.id == ksid && a.enc.verified && |a.enc.keys| == n
    && (forall i :: i in a.enc.keys ==> a.enc.keys[i].lifetime == a.aesLifetime)
    && !a.auth.verified && a.auth.id == ""
  }

  /** Nothing is asked for but keys of this session. */
  ghost predicate Only(a: App, ksid: string) {
    forall other: string :: other != ksid ==> Noted(a.requests, GetKey(other)) == []
  }

  /** One request for a key is under way, or waits for its timer. */
  ghost predicate Asking(a: App, ksid: string) {
    && Only(a, ksid)
    && ((Noted(a.requests, GetKey(ksid)) == [ENCRYPTION] && a.timers == [])
        || (Noted(a.requests, GetKey(ksid)) == [] && a.timers == [ksid]))
  }

  /** While keys are missing; the peer has not been answered. */
  ghost predicate Filling(a: App, ksid: string, n: nat) {
    Holds(a, ksid, n) && n < a.enc.size && a.state == ESTABLISHING_KEY_QUEUES && !a.asked && Asking(a, ksid)
  }

  /** Afterwards: the peer has been answered. */
  ghost predicate Filled(a: App, ksid: string) {
    && Holds(a, ksid, a.enc.size) && a.state == READY && a.asked
    && Noted(a.requests, GetKey(ksid)) == [] && Only(a, ksid) && a.timers == []
  }

  lemma ChecksQueue(a: App, ksid: string, n: nat, b: App)
    requires Holds(a, ksid, n) && n <= a.enc.size && a.state == ESTABLISHING_KEY_QUEUES && !a.asked
    requires Noted(a.requests, GetKey(ksid)) == [] && Only(a, ksid) && a.timers == [] && b == QueuesChecked(a)
    ensures if n < a.enc.size then Filling(b, ksid, n) else Filled(b, ksid)
    ensures b.enc == a.enc && b.aesLifetime == a.aesLifetime
  {
    if n < a.enc.size {
      assert [] + [ENCRYPTION] == [ENCRYPTION];
    }
  }

  lemma Files(a: App, ksid: string, n: nat, index: nat, value: string, b: App)
    requires Filling(a, ksid, n) && Noted(a.requests, GetKey(ksid)) != [] && index !in a.enc.keys
    requires b == KeyAnswered(a, ksid, true, index, value)
    ensures if n + 1 < a.enc.size then Filling(b, ksid, n + 1) else Filled(b, ksid)
    ensures b.enc == a.enc.(keys := a.enc.keys[index := Key(value, a.aesLifetime)]) && b.aesLifetime == a.aesLifetime
  {
    var c := Popped(a, GetKey(ksid));
    assert Noted(c.requests, GetKey(ksid)) == [];
    var d := Filed(c, ENCRYPTION, index, value);
    assert |d.enc.keys| == n + 1;
    assert b == QueuesChecked(d);
    ChecksQueue(d, ksid, n + 1, b);
  }

  lemma Repeats(a: App, ksid: string, n: nat, b: App)
    requires Filling(a, ksid, n) && Noted(a.requests, GetKey(ksid)) != [] && b == KeyAnswered(a, ksid, false, 0, "")
    ensures Filling(b, ksid, n) && b.enc == a.enc && b.aesLifetime == a.aesLifetime
  {
    var c := Popped(a, GetKey(ksid));
    assert Noted(c.requests, GetKey(ksid)) == [];
    assert b == c.(timers := [] + [ksid]);
  }

  lemma AsksAgain(a: App, ksid: string, n: nat, b: App)
    requires Filling(a, ksid, n) && a.timers != [] && b == TimerFired(a, 0)
    ensures Filling(b, ksid, n) && b.enc == a.enc && b.aesLifetime == a.aesLifetime
  {
    assert [] + [ENCRYPTION] == [ENCRYPTION];
  }

  lemma NothingEnabled(a: App, ksid: string, r: Reply)
    requires Filled(a, ksid)
    ensures !Enabled(a, r)
  {
  }

  lemma {:induction false} NothingComes(a: App, ksid: string, replies: seq<Reply>)
    requires Filled(a, ksid) && Run(a, replies)
    ensures replies == []
  {
    if replies != [] {
      NothingEnabled(a, ksid, replies[0]);
    }
  }

  /** Filling or filled, by the number of keys. */
  ghost predicate Reached(a: App, ksid: string, n: nat) {
    n <= a.enc.size && if n < a.enc.size then Filling(a, ksid, n) else Filled(a, ksid)
  }

  lemma StepFills(a: App, ksid: string, n: nat, r: Reply, b: App)
    requires Filling(a, ksid, n) && Enabled(a, r) && b == Next(a, r)
    ensures Reached(b, ksid, if r.Granting? then n + 1 else n)
    ensures b.enc.size == a.enc.size && b.aesLifetime == a.aesLifetime
    ensures b.enc.keys == if r.Granting? then a.enc.keys[r.index := Key(r.value, a.aesLifetime)] else a.enc.keys
  {
    assert !r.Due? ==> r.ksid == ksid;
    match r
    case Granting(_, index, value) => Files(a, ksid, n, index, value, b);
    case Refusal(_) => Repeats(a, ksid, n, b);
    case Due(k) => AsksAgain(a, ksid, n, b);
  }

  lemma {:induction false} RunFills(a: App, ksid: string, n: nat, replies: seq<Reply>)
    requires Reached(a, ksid, n) && Run(a, replies)
    ensures var b := After(a, replies);
            && Reached(b, ksid, n + Keys(replies)) && b.enc.size == a.enc.size
            && b.enc.keys == WithKeys(a.enc.keys, replies, a.aesLifetime)
    decreases |replies|
  {
    if n == a.enc.size {
      NothingComes(a, ksid, replies);
    } else if replies != [] {
      var r, b := replies[0], Next(a, replies[0]);
      StepFills(a, ksid, n, r, b);
      RunFills(b, ksid, if r.Granting? then n + 1 else n, replies[1..]);
    }
  }

  /** In every handshake of a receiver, whatever is refused in between: as long as keys are
      missing it fills its queue, asks for one at a time and has not answered; it is READY
      and has answered exactly when as many keys have come as the queue is long. */
  lemma {:induction false} ReceiverHandshake(a: App, ksid: string, replies: seq<Reply>)
    requires Idle(a) && ksid != "" && Run(Requested(a, ksid, true), replies)
    ensures var b := After(Requested(a, ksid, true), replies);
            && Keys(replies) <= a.enc.size
            && b.enc.keys == WithKeys(map[], replies, a.aesLifetime)
            && if Keys(replies) < a.enc.size then Filling(b, ksid, Keys(replies)) else Filled(b, ksid)
  {
    SessionSettles(a, ksid, true);
    var b := Granted(a, ksid, true).(state := ESTABLISHING_KEY_QUEUES);
    ChecksQueue(b, ksid, 0, Requested(a, ksid, true));
    RunFills(Requested(a, ksid, true), ksid, 0, replies);
  }

  /** A receiver whose key manager refused the session has none, answers all the same, and
      is READY without a key. */
  lemma RefusedSession(a: App, ksid: string)
    requires Idle(a) && ksid != ""
    ensures var b := Requested(a, ksid, false);
            b == a.(requests := map[OpenConnect := []], asked := true) && b.enc.keys == map[]
  {
    SessionSettles(a, ksid, false);
  }

  // ----- VMAC

  /** A receiver whose second session is confirmed, with a queue of some length. */
  ghost predicate Stuck(a: App) {
    && !a.master && a.state == ESTABLISHING_KEY_QUEUES && !a.asked
    && a.auth.verified && a.auth.size > 0 && a.auth.keys == map[] && App004Runs.UnderEncryption(a.requests)
  }

  lemma AskedUnder(a: App, ksid: string)
    requires App004Runs.UnderEncryption(a.requests)
    ensures App004Runs.UnderEncryption(Asked(a, ksid).requests)
  {
    forall other: string, i | 0 <= i < |Noted(Asked(a, ksid).requests, GetKey(other))|
      ensures Noted(Asked(a, ksid).requests, GetKey(other))[i] == ENCRYPTION
    {
      if i < |Noted(a.requests, GetKey(other))| {
        assert Noted(Asked(a, ksid).requests, GetKey(other))[i] == Noted(a.requests, GetKey(other))[i];
      }
    }
  }

  lemma PoppedUnder(a: App, ksid: string)
    requires App004Runs.UnderEncryption(a.requests) && Noted(a.requests, GetKey(ksid)) != []
    ensures App004Runs.UnderEncryption(Popped(a, GetKey(ksid)).requests)
    ensures Oldest(a.requests, GetKey(ksid)) == ENCRYPTION
  {
    var r := Popped(a, GetKey(ksid)).requests;
    assert Noted(a.requests, GetKey(ksid))[0] == ENCRYPTION;
    forall other: string, i | 0 <= i < |Noted(r, GetKey(other))| ensures Noted(r, GetKey(other))[i] == ENCRYPTION {
      var j := if other == ksid then i + 1 else i;
      assert Noted(r, GetKey(other))[i] == Noted(a.requests, GetKey(other))[j];
    }
  }

  lemma CheckedStuck(a: App, b: App)
    requires Stuck(a) && b == QueuesChecked(a)
    ensures Stuck(b)
  {
    var c := AskedIfShort(a, a.enc);
    AskedStays(a, a.enc.id);
    AskedUnder(a, a.enc.id);
    AskedStays(c, a.auth.id);
    AskedUnder(c, a.auth.id);
    assert Short(a.auth);
  }

  lemma TakenStuck(a: App, ok: bool, index: nat, value: string, b: App)
    requires Stuck(a) && b == KeyTaken(a, ENCRYPTION, ok, index, value)
    ensures Stuck(b)
  {
    if a.enc.id != "" && ok {
      var c := Filed(a, ENCRYPTION, index, value);
      CheckedStuck(c, b);
    }
  }

  lemma StepStuck(a: App, r: Reply, b: App)
    requires Stuck(a) && Enabled(a, r) && b == Next(a, r)
    ensures Stuck(b)
  {
    match r
    case Granting(ksid, index, value) =>
      PoppedUnder(a, ksid);
      TakenStuck(Popped(a, GetKey(ksid)), true, index, value, b);
    case Refusal(ksid) =>
      PoppedUnder(a, ksid);
      TakenStuck(Popped(a, GetKey(ksid)), false, 0, "", b);
    case Due(k) =>
      var c := a.(timers := a.timers[..k] + a.timers[k + 1..]);
      AskedStays(c, a.timers[k]);
      AskedUnder(c, a.timers[k]);
  }

  lemma {:induction false} RunStuck(a: App, replies: seq<Reply>)
    requires Stuck(a) && Run(a, replies)
    ensures Stuck(After(a, replies))
    decreases |replies|
  {
    if replies != [] {
      StepStuck(a, replies[0], Next(a, replies[0]));
      RunStuck(Next(a, replies[0]), replies[1..]);
    }
  }

  /** Both sessions are named, and the key manager answers to the one and the other. */
  function BothGranted(a: App, enc: string, auth: string, first: bool, second: bool): App {
    var b := KsidReceived(KsidReceived(a, enc, ENCRYPTION), auth, AUTHENTICATION);
    SessionGranted(SessionGranted(b, first), second)
  }

  /** Its answers settle the sessions in the order in which they were named. */
  lemma BothSettle(a: App, enc: string, auth: string, first: bool, second: bool)
    requires Idle(a)
    ensures BothGranted(a, enc, auth, first, second) ==
            a.(state := ESTABLISHING_ASSOCIATIONS, requests := map[OpenConnect := []],
               enc := if first then Session(enc, true, a.enc.size, map[]) else a.enc,
               auth := if second then Session(auth, true, a.auth.size, map[]) else a.auth)
  {
    BothNamed(a, enc, auth);
    var c := KsidReceived(KsidReceived(a, enc, ENCRYPTION), auth, AUTHENTICATION);
    assert [ENCRYPTION] + [AUTHENTICATION] == [ENCRYPTION, AUTHENTICATION] && [AUTHENTICATION] + [] == [AUTHENTICATION];
    GrantIs(c, ENCRYPTION, [AUTHENTICATION], first);
    GrantIs(SessionGranted(c, first), AUTHENTICATION, [], second);
  }

  lemma GrantIs(a: App, t: SessionType, rest: seq<SessionType>, ok: bool)
    requires a.requests == map[OpenConnect := [t] + rest]
    ensures SessionGranted(a, ok) == Settled(a.(requests := map[OpenConnect := rest]), t, ok)
  {
    assert Popped(a, OpenConnect).requests == map[OpenConnect := rest];
  }

  lemma BothNamed(a: App, enc: string, auth: string)
    requires Idle(a)
    ensures KsidReceived(KsidReceived(a, enc, ENCRYPTION), auth, AUTHENTICATION) ==
            a.(state := ESTABLISHING_ASSOCIATIONS, requests := map[OpenConnect := [ENCRYPTION, AUTHENTICATION]],
               enc := Session(enc, false, a.enc.size, map[]), auth := Session(auth, false, a.auth.size, map[]))
  {
    var b := KsidReceived(a, enc, ENCRYPTION);
    assert [] + [ENCRYPTION] == [ENCRYPTION] && [ENCRYPTION] + [AUTHENTICATION] == [ENCRYPTION, AUTHENTICATION];
    assert b.requests == map[OpenConnect := [ENCRYPTION]];
    assert KsidReceived(b, auth, AUTHENTICATION).requests == map[OpenConnect := [ENCRYPTION, AUTHENTICATION]];
  }

  /** With VMAC and a queue for its keys the receiver never answers and never gets READY,
      whatever keys come: all of them join the encryption stream. */
  lemma {:induction false} VmacNeverReady(a: App, enc: string, auth: string, replies: seq<Reply>, start: App)
    requires Idle(a) && a.auth.size > 0
    requires start == QueuesRequested(BothGranted(a, enc, auth, true, true)) && Run(start, replies)
    ensures After(start, replies).state == ESTABLISHING_KEY_QUEUES && !After(start, replies).asked
    ensures After(start, replies).auth.keys == map[]
  {
    BothSettle(a, enc, auth, true, true);
    var b := BothGranted(a, enc, auth, true, true).(state := ESTABLISHING_KEY_QUEUES);
    CheckedStuck(b, start);
    RunStuck(start, replies);
  }

  // ----- Afterwards

  /** A receiver that is READY does not repeat a request that is refused: the key is lost. */
  lemma RefusedWhenReady(a: App, ksid: string, b: App)
    requires !a.master && a.state == READY && a.enc.id != "" && b == KeyAnswered(a, ksid, false, 0, "")
    requires Noted(a.requests, GetKey(ksid)) != [] && Noted(a.requests, GetKey(ksid))[0] == ENCRYPTION
    ensures b.timers == a.timers && b.enc == a.enc && b.state == READY
    ensures Noted(b.requests, GetKey(ksid)) == Noted(a.requests, GetKey(ksid))[1..]
  {
  }
}
