/**
 How long the key queue of a QKDApp004 sender gets.  A key is asked for again when it is
 spent, and some keys are asked for twice.
 */
module App004Queue {
  import opened Options
  import opened OrderedKeys
  import opened Division
  import opened KeyStream
  import opened App004
  import opened App004Runs

  /** Some packet will leave a key of this lifetime with more than one packet and at most two. */
  predicate Wasteful(lifetime: nat, p: nat)
    decreases lifetime
  {
    if lifetime <= 2 * p then p < lifetime else p > 0 && Wasteful(lifetime - 2 * p, p)
  }

  /** That depends on what is left of the lifetime after pairs of packets. */
  lemma {:induction false} WastefulIff(lifetime: nat, p: nat)
    requires p > 0
    ensures Wasteful(lifetime, p) <==> lifetime > 0 && (lifetime - 1) % (2 * p) >= p
    decreases lifetime
  {
    if lifetime > 2 * p {
      WastefulIff(lifetime - 2 * p, p);
      var d := 2 * p;
      Periodic(lifetime - 1 - d, d);
      assert (lifetime - 1) % d == (lifetime - 1 - d) % d;
    } else if lifetime > 0 {
      assert (lifetime - 1) % (2 * p) == lifetime - 1;
    }
  }

  /** No key of the queue, nor one to come, is ever asked for while it stays. */
  predicate Thrifty(a: App) {
    !Wasteful(a.aesLifetime, a.size) && forall i :: i in a.enc.keys ==> !Wasteful(a.enc.keys[i].lifetime, a.size)
  }

  /** Then the keys in the queue and on their way make up its length exactly. */
  predicate Level(a: App) {
    Thrifty(a) && (Running(a) ==> InPlay(a) == a.enc.size)
  }

  lemma SentThrifty(a: App, b: App)
    requires Thrifty(a) && a.enc.keys != map[]
    requires b.enc == a.enc.(keys := AfterSend(a.enc.keys, a.size))
    requires b.size == a.size && b.aesLifetime == a.aesLifetime
    ensures Thrifty(b) && Surplus(a) == 0
  {
  }

  lemma SendLevel(a: App, b: App)
    requires Single(a) && OnStream(a) && a.enc.keys != map[] && a.state == READY && a.replica
    requires InPlay(a) == a.enc.size > 0 && Thrifty(a) && b == Transmitted(a)
    ensures Level(b)
  {
    SendCounts(a, b);
    SentThrifty(a, b);
  }

  lemma FilledLevel(a: App, b: App)
    requires Single(a) && OnStream(a) && a.replica && a.sent == [] && !a.scheduled && a.state != SEND_DATA
    requires |a.enc.keys| == a.enc.size > 0 && Asking(a) == 0 && Thrifty(a)
    requires b == QueuesUp(Entered(a, KEY_QUEUES_ESTABLISHED))
    ensures Level(b)
  {
    FilledRuns(a, b);
    SendLevel(a.(state := READY), b);
  }

  lemma CheckedLevel(a: App, b: App)
    requires Single(a) && OnStream(a) && a.state == ESTABLISHING_KEY_QUEUES && a.asked && !a.scheduled
    requires a.sent == [] && |a.enc.keys| <= a.enc.size && Asking(a) == 0 && a.enc.size > 0 && Thrifty(a)
    requires (a.primary ==> |a.enc.keys| == a.enc.size) && b == QueuesChecked(a)
    ensures Level(b)
  {
    if Short(a.enc) {
      AskedCounts(a);
    } else if a.replica {
      FilledLevel(a, b);
    }
  }

  lemma AnswerLevel(a: App, ksid: string, ok: bool, index: nat, value: string, b: App)
    requires Single(a) && (Filling(a) || Running(a)) && Noted(a.requests, GetKey(ksid)) != [] && Level(a)
    requires (ok ==> index !in a.enc.keys) && b == KeyAnswered(a, ksid, ok, index, value) && a.enc.size > 0
    ensures Level(b)
  {
    PoppedCounts(a, ksid);
    var c := Popped(a, GetKey(ksid));
    if ok {
      var d := Filed(c, ENCRYPTION, index, value);
      FiledCounts(c, index, value, d);
      FiledThrifty(c, index, value, d);
      KeyLevel(d, b);
    }
  }

  lemma KeyLevel(a: App, b: App)
    requires Single(a) && OnStream(a) && a.enc.keys != map[] && b == Resumed(a) && Thrifty(a) && a.enc.size > 0
    requires a.state == ESTABLISHING_KEY_QUEUES ==>
               a.asked && !a.scheduled && a.sent == [] && !a.primary && |a.enc.keys| <= a.enc.size && Asking(a) == 0
    requires a.state != ESTABLISHING_KEY_QUEUES ==> InPlay(a) == a.enc.size
    ensures Level(b)
  {
    if a.state == ESTABLISHING_KEY_QUEUES {
      CheckedLevel(a, b);
    } else {
      assert b == a.(state := b.state);
    }
  }

  lemma FiledThrifty(a: App, index: nat, value: string, b: App)
    requires Thrifty(a) && b == Filed(a, ENCRYPTION, index, value)
    ensures Thrifty(b)
  {
  }

  lemma TimerLevel(a: App, k: nat, b: App)
    requires Single(a) && (Filling(a) || Running(a)) && k < |a.timers| && b == TimerFired(a, k) && Level(a)
    ensures Level(b)
  {
    var c := a.(timers := a.timers[..k] + a.timers[k + 1..]);
    assert Single(c);
    AskedCounts(c);
  }

  // ----- Whole runs

  lemma ConfirmedLevel(a: App, ok: bool, b: App)
    requires Single(a) && Opening(a) && a.enc.id != "" && b == KsidConfirmed(a, ok, a.enc.id, ENCRYPTION)
    requires a.enc.size > 0 && !Wasteful(a.aesLifetime, a.size)
    ensures Level(b)
  {
    if ok {
      var c := a.(enc := a.enc.(verified := true), state := ESTABLISHING_KEY_QUEUES, asked := true);
      CheckedLevel(c, b);
    } else {
      ClosedOpens(a, b);
    }
  }

  lemma QueuesLevel(a: App, b: App)
    requires Single(a) && Filling(a) && Level(a) && a.enc.size > 0 && b == QueuesConfirmed(a)
    ensures Level(b)
  {
    if a.primary {
      FilledLevel(a.(replica := true), b);
    }
  }

  lemma StepLevel(cfg: Config, a: App, e: Event, b: App)
    requires Flowing(a) && Enabled(a, e) && !e.Stop? && b == Next(cfg, a, e) && Level(a)
    requires a.enc.size > 0 && EncryptionSize(a) != 0
    requires b.size == a.size && b.aesLifetime == a.aesLifetime
    ensures Level(b)
  {
    match e
    case Opened(ok, ksid) => OpenedFlows(a, ok, ksid, b);
    case Confirmed(ok, scope) => ConfirmedLevel(a, ok, b);
    case Queues => QueuesLevel(a, b);
    case Answer(ksid, ok, index, value) =>
      AnyAnswerLevel(a, ksid, ok, index, value, b);
    case Closed(ksid) => ClosedLevel(a, ksid, b);
    case Timer(k) => TimerLevel(a, k, b);
    case Send => AnySendLevel(a, b);
  }

  lemma AnyAnswerLevel(a: App, ksid: string, ok: bool, index: nat, value: string, b: App)
    requires Flowing(a) && Level(a) && Noted(a.requests, GetKey(ksid)) != [] && a.enc.size > 0
    requires EncryptionSize(a) != 0 && (ok ==> index !in a.enc.keys) && b == KeyAnswered(a, ksid, ok, index, value)
    ensures Level(b)
  {
    if Opening(a) {
      NothingAsked(a, ksid);
    } else {
      AnswerLevel(a, ksid, ok, index, value, b);
    }
  }

  lemma AnySendLevel(a: App, b: App)
    requires Flowing(a) && Level(a) && a.scheduled && a.enc.size > 0 && EncryptionSize(a) != 0
    requires b == Transmitted(a.(scheduled := false))
    ensures Level(b)
  {
    if a.state == READY {
      SendLevel(a.(scheduled := false), b);
    }
  }

  lemma ClosedLevel(a: App, ksid: string, b: App)
    requires Flowing(a) && Noted(a.requests, Close(ksid)) != [] && b == CloseAnswered(a, ksid) && Level(a)
    ensures Level(b)
  {
    CloseAnsweredFlows(a, ksid, b);
    assert Noted(a.requests, Close(ksid))[0] == ENCRYPTION;
    assert Opening(a);
  }

  lemma AnyStepLevel(cfg: Config, a: App, e: Event, b: App)
    requires GoodSettings(cfg) && AuthenticationOf(cfg) != 1 && NeedsKeys(cfg) && cfg.encBuffer > 0
    requires !Wasteful(LifetimeOf(cfg), cfg.size)
    requires Kept(cfg, a) && Kept(cfg, b) && Flow(cfg, a) && Enabled(a, e) && b == Next(cfg, a, e)
    requires Flowing(a) ==> Level(a)
    ensures Flowing(b) ==> Level(b)
  {
    if a.state == INITIALIZED {
      StartLevel(cfg, b);
    } else if a.state == STOPPED {
      StoppedStays(cfg, a, e, b);
    } else if e.Stop? {
      StopFlows(a);
    } else if b.state != INITIALIZED {
      RunningLevel(cfg, a, e, b);
    }
  }

  lemma RunningLevel(cfg: Config, a: App, e: Event, b: App)
    requires SetAs(cfg, a) && SetAs(cfg, b) && a.state != INITIALIZED && b.state != INITIALIZED
    requires NeedsKeys(cfg) && cfg.encBuffer > 0
    requires Flowing(a) && Level(a) && Enabled(a, e) && !e.Stop? && b == Next(cfg, a, e)
    ensures Level(b)
  {
    StepLevel(cfg, a, e, b);
  }

  lemma StartLevel(cfg: Config, b: App)
    requires GoodSettings(cfg) && AuthenticationOf(cfg) != 1 && NeedsKeys(cfg) && !Wasteful(LifetimeOf(cfg), cfg.size)
    requires b == Started(Fresh(cfg), cfg.encryption, cfg.authentication, cfg.tagLength) && Kept(cfg, b)
    ensures Level(b)
  {
    StartFlows(cfg, b);
  }

  lemma StoppedStays(cfg: Config, a: App, e: Event, b: App)
    requires a.state == STOPPED && !a.scheduled && Enabled(a, e) && b == Next(cfg, a, e)
    ensures b.state == STOPPED
  {
  }

  lemma {:induction false} RunLevel(cfg: Config, events: seq<Event>)
    requires GoodSettings(cfg) && AuthenticationOf(cfg) != 1 && NeedsKeys(cfg) && cfg.encBuffer > 0
    requires Run(cfg, events).Some? && !Wasteful(LifetimeOf(cfg), cfg.size)
    ensures Flowing(Run(cfg, events).value) ==> Level(Run(cfg, events).value)
  {
    if events != [] {
      var before := events[..|events| - 1];
      RunLevel(cfg, before);
      RunFlows(cfg, before);
      RunKeeps(cfg, before);
      RunKeeps(cfg, events);
      AnyStepLevel(cfg, Run(cfg, before).value, events[|events| - 1], Run(cfg, events).value);
    }
  }

  // ----- A run in which the queue grows

  /** One scheduled send. */
  predicate Sends(a: App, b: App) {
    a.scheduled && !a.fatal && b == Transmitted(a.(scheduled := false))
  }

  predicate AllSend(states: seq<App>) {
    forall i :: 0 <= i < |states| - 1 ==> Sends(states[i], states[i + 1])
  }

  /** What every step brings on, all steps do. */
  lemma {:induction false} StepByStep(R: (seq<Event>, App) -> bool, S: (App, App) -> bool, events: seq<Event>,
                                      states: seq<App>) returns (more: seq<Event>)
    requires states != [] && R(events, states[0]) && forall i :: 0 <= i < |states| - 1 ==> S(states[i], states[i + 1])
    requires forall e, a, b :: R(e, a) && S(a, b) ==> R(e + [Send], b)
    ensures R(more, states[|states| - 1])
    decreases |states|
  {
    if |states| == 1 {
      more := events;
    } else {
      assert S(states[0], states[1]);
      more := StepByStep(R, S, events + [Send], states[1..]);
    }
  }

  lemma {:induction false} OneSend(cfg: Config, events: seq<Event>, a: App, b: App)
    requires Run(cfg, events) == Some(a) && Sends(a, b)
    ensures Run(cfg, events + [Send]) == Some(b)
  {
    RunAppend(cfg, events, Send);
  }

  lemma SendRun(cfg: Config, events: seq<Event>, states: seq<App>) returns (more: seq<Event>)
    requires states != [] && Run(cfg, events) == Some(states[0]) && AllSend(states)
    ensures Run(cfg, more) == Some(states[|states| - 1])
  {
    var R := (e: seq<Event>, a: App) => Run(cfg, e) == Some(a);
    var S := (a: App, b: App) => Sends(a, b);
    forall e, a, b | R(e, a) && S(a, b) ensures R(e + [Send], b) {
      OneSend(cfg, e, a, b);
    }
    more := StepByStep(R, S, events, states);
  }

  /** A key whose lifetime leads to a second request while it stays: sending gets there. */
  lemma {:induction false} GrowsFrom(cfg: Config, a: App, lifetime: nat) returns (states: seq<App>)
    requires Grown(cfg, a, lifetime) && 0 < cfg.size
    ensures states != [] && states[0] == a && AllSend(states) && Overlong(cfg, states[|states| - 1])
    decreases lifetime
  {
    var b := OneSendGrows(cfg, a, lifetime);
    if lifetime <= 2 * cfg.size {
      states := [a, b];
    } else {
      var rest := GrowsFrom(cfg, b, lifetime - 2 * cfg.size);
      states := [a] + rest;
      assert forall i :: 0 < i < |states| ==> states[i] == rest[i - 1];
    }
  }

  lemma OneSendGrows(cfg: Config, a: App, lifetime: nat) returns (b: App)
    requires Grown(cfg, a, lifetime)
    ensures Sends(a, b)
    ensures if lifetime <= 2 * cfg.size then Overlong(cfg, b) else Grown(cfg, b, lifetime - 2 * cfg.size)
  {
    b := Transmitted(a.(scheduled := false));
    SendGrows(cfg, a.(scheduled := false), b, lifetime);
  }

  /** A sender that is ready, with this much left of its front key. */
  ghost predicate Grown(cfg: Config, a: App, lifetime: nat) {
    && Single(a) && Running(a) && a.state == READY && a.size == cfg.size && a.enc.size == cfg.encBuffer
    && a.enc.keys != map[] && a.enc.keys[Least(a.enc.keys.Keys)].lifetime == lifetime
    && Wasteful(lifetime, cfg.size)
  }

  predicate Overlong(cfg: Config, a: App) {
    (a.state == READY || a.state == WAIT) && InPlay(a) > cfg.encBuffer
  }

  lemma SendGrows(cfg: Config, a: App, b: App, lifetime: nat)
    requires Grown(cfg, a.(scheduled := true), lifetime) && b == Transmitted(a)
    ensures if lifetime <= 2 * cfg.size then Overlong(cfg, b) else Grown(cfg, b, lifetime - 2 * cfg.size)
  {
    SendCounts(a, b);
    if lifetime > 2 * cfg.size {
      var i := Least(a.enc.keys.Keys);
      assert b.enc.keys == a.enc.keys[i := Key(a.enc.keys[i].value, lifetime - 2 * cfg.size)];
      assert b.enc.keys.Keys == a.enc.keys.Keys;
    }
  }

  ghost predicate RunsLong(cfg: Config, events: seq<Event>) {
    exists a :: Run(cfg, events) == Some(a) && Overlong(cfg, a)
  }

  lemma SomeRunGrows(cfg: Config) returns (events: seq<Event>)
    requires GoodSettings(cfg) && AuthenticationOf(cfg) != 1 && NeedsKeys(cfg) && cfg.encBuffer > 0
    requires Wasteful(LifetimeOf(cfg), cfg.size)
    ensures RunsLong(cfg, events)
  {
    var first, a := FirstPacket(cfg);
    events := ManyPackets(cfg, first, a, LifetimeOf(cfg));
  }

  lemma ManyPackets(cfg: Config, events: seq<Event>, a: App, l: nat) returns (more: seq<Event>)
    requires Run(cfg, events) == Some(a) && cfg.size > 0 && FirstSent(cfg, a, l)
    ensures RunsLong(cfg, more)
  {
    var states := FromFirstPacket(cfg, a, l);
    more := SendRun(cfg, events, states);
  }

  lemma FromFirstPacket(cfg: Config, a: App, l: nat) returns (states: seq<App>)
    requires cfg.size > 0 && FirstSent(cfg, a, l)
    ensures states != [] && states[0] == a && AllSend(states) && Overlong(cfg, states[|states| - 1])
  {
    if l <= 2 * cfg.size {
      states := [a];
    } else {
      states := GrowsFrom(cfg, a, l - 2 * cfg.size);
    }
  }

  /** The sender behind its first packet. */
  ghost predicate FirstSent(cfg: Config, a: App, l: nat) {
    if l <= 2 * cfg.size then Overlong(cfg, a) else Grown(cfg, a, l - 2 * cfg.size)
  }

  lemma FirstPacket(cfg: Config) returns (events: seq<Event>, b: App)
    requires GoodSettings(cfg) && AuthenticationOf(cfg) != 1 && NeedsKeys(cfg) && cfg.encBuffer > 0
    requires Wasteful(LifetimeOf(cfg), cfg.size)
    ensures Run(cfg, events) == Some(b) && cfg.size > 0
    ensures FirstSent(cfg, b, LifetimeOf(cfg))
  {
    var k := cfg.encBuffer;
    FilledRun(cfg, k);
    RunFlows(cfg, Filled(k));
    RunKeeps(cfg, Filled(k));
    RunAppend(cfg, Filled(k), Queues);
    var a := Run(cfg, Filled(k)).value;
    events, b := Filled(k) + [Queues], QueuesConfirmed(a);
    FirstSend(cfg, a.(replica := true), b);
  }

  lemma FirstSend(cfg: Config, a: App, b: App)
    requires Single(a) && OnStream(a) && a.replica && a.sent == [] && !a.scheduled && a.state != SEND_DATA
    requires |a.enc.keys| == a.enc.size == cfg.encBuffer > 0 && Asking(a) == 0
    requires a.size == cfg.size && a.aesLifetime == LifetimeOf(cfg) && Wasteful(LifetimeOf(cfg), cfg.size)
    requires forall i :: i in a.enc.keys ==> a.enc.keys[i].lifetime == a.aesLifetime
    requires b == QueuesUp(Entered(a, KEY_QUEUES_ESTABLISHED))
    ensures FirstSent(cfg, b, LifetimeOf(cfg))
  {
    FilledRuns(a, b);
    SendGrows(cfg, a.(state := READY), b, LifetimeOf(cfg));
  }

  /** Once it is READY or waits, the keys in the queue and on their way make up its length. */
  predicate KeepsLength(cfg: Config, events: seq<Event>) {
    Run(cfg, events).Some? ==>
      var a := Run(cfg, events).value;
      a.state == READY || a.state == WAIT ==> InPlay(a) == cfg.encBuffer
  }

  /** That holds in every run if and only if no key of the configured lifetime is asked for
      while it stays. */
  lemma QueueKeepsLengthIff(cfg: Config)
    requires GoodSettings(cfg) && AuthenticationOf(cfg) != 1 && NeedsKeys(cfg) && cfg.encBuffer > 0
    ensures (forall events :: KeepsLength(cfg, events)) <==> !Wasteful(LifetimeOf(cfg), cfg.size)
  {
    if Wasteful(LifetimeOf(cfg), cfg.size) {
      var events := SomeRunGrows(cfg);
      assert RunsLong(cfg, events);
      assert !KeepsLength(cfg, events);
    } else {
      forall events ensures KeepsLength(cfg, events) {
        if Run(cfg, events).Some? {
          RunLevel(cfg, events);
          RunFlows(cfg, events);
          RunKeeps(cfg, events);
        }
      }
    }
  }
}
