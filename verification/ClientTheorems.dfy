/** The main results about the client's connection: driver errors, losses and reconnects. */
module ClientTheorems {
  import opened Bytes
  import opened SessionFrames
  import opened Parser
  import opened CommitStore
  import opened SessionProtocol
  import opened SessionInduction
  import opened SessionInvariant
  import opened SessionTheorems
  import opened ClientProtocol
  import opened ClientInvariant

  // ---- The driver-error latch ----

  predicate ResumesCommit(d: Data, k: Text) {
    k in d.tables.tracked && Lookup(d.commits, d.tables.tracked[k].topic, d.tables.tracked[k].identifier).Some?
  }

  /** Some tracked subscription has a stored commit. */
  ghost predicate TrackedCommit(d: Data) {
    exists k :: ResumesCommit(d, k)
  }

  /** Resuming goes through exactly the tracked records that the order lists. */
  lemma {:induction false} ResumesTracked(c: Client, w: World, order: seq<Text>, s: Subscription)
    requires c.data.tables.tracked != map[]
    ensures s in ToResume(c, w, order) <==>
            exists k :: k in order && k in c.data.tables.tracked && c.data.tables.tracked[k] == s
    decreases |order|
  {
    if order != [] {
      ResumesTracked(c, w, order[1..], s);
      assert forall k :: k in order <==> k == order[0] || k in order[1..];
    }
  }

  /** With nothing tracked it makes up a LATEST subscription for each subscribed topic, under its identifier. */
  lemma {:induction false} ResumesTopics(c: Client, w: World, order: seq<Text>, s: Subscription)
    requires c.data.tables.tracked == map[]
    ensures var t := c.data.tables;
            s in ToResume(c, w, order) <==>
              && s.topic in order && s.topic in t.topics
              && s.identifier == (if s.topic in t.identifiers then t.identifiers[s.topic] else w.clientId)
              && s.strategy == Ascii("LATEST") && s.instance == c.mode.instance
    decreases |order|
  {
    if order != [] {
      ResumesTopics(c, w, order[1..], s);
      assert forall k :: k in order <==> k == order[0] || k in order[1..];
    }
  }

  lemma {:induction false} TrackedIsResumed(c: Client, w: World, order: seq<Text>, k: Text)
    requires k in c.data.tables.tracked && k in order
    ensures c.data.tables.tracked[k] in ToResume(c, w, order)
    decreases |order|
  {
    if order[0] != k { TrackedIsResumed(c, w, order[1..], k); }
  }

  lemma TrackedCommitIsResumed(c: Client, w: World, order: seq<Text>)
    requires TrackedCommit(c.data) && Covers(c, order)
    ensures HasCommit(c, ToResume(c, w, order))
  {
    var k :| ResumesCommit(c.data, k);
    TrackedIsResumed(c, w, order, k);
  }

  /**
   When a connect reaches CONNECTED: Aeron, egress and session come up, and there is no
   pending driver error together with a commit to resume. Either way the session is left
   exactly as the session manager's own connect left it: resuming offers no frame.
   */
  lemma ConnectReachesConnected(c: Client, w: World, a: Attempt)
    requires c.conn != CONNECTED
    ensures var r := SessionProtocol.Connect(c.session, w.env, w.cfg);
            var k := ConnectClient(c, w, a);
            && (k.client.conn == CONNECTED <==>
                  a.aeronUp && a.egressUp && r.ok && !(c.mode.fatal && HasCommit(c, ToResume(c, w, a.order))))
            && k.ok == (k.client.conn == CONNECTED)
            && k.client.session == (if a.aeronUp && a.egressUp then r.session else c.session)
            && (k.ok ==> !k.client.mode.fatal)
            && (!k.ok ==> k.client.mode.fatal == c.mode.fatal)
  {
    ConnectOutcome(c, w, a);
    AdoptCalm(c.(conn := CONNECTING, mode := c.mode.(egress := true)),
              SessionProtocol.Connect(c.session, w.env, w.cfg).session);
  }

  ghost predicate Latched(c: Client) {
    c.mode.fatal && c.conn != CONNECTED && TrackedCommit(c.data)
  }

  lemma StoreKeepsTracked(d: Data, d': Data, o: CommitOffset)
    requires TrackedCommit(d) && d'.tables == d.tables && d'.commits == Put(d.commits, o)
    ensures TrackedCommit(d')
  {
    var k :| ResumesCommit(d, k);
    assert ResumesCommit(d', k);
  }

  lemma SameStoreKeepsTracked(d: Data, d': Data)
    requires TrackedCommit(d) && d'.tables == d.tables && d'.commits == d.commits
    ensures TrackedCommit(d')
  {
    var k :| ResumesCommit(d, k);
    assert ResumesCommit(d', k);
  }

  lemma HandleKeepsLatch(c: Client, w: World, r: ParseResult, ch: Choice)
    requires Latched(c)
    ensures Latched(Handle(c, w, r, ch))
  {
    NothingKept();
    HandleKeeps(s => true, c, w, r, ch);
    var topic := ExtractTopic(c, w, r, ch.pick);
    var skip := ShouldSkip(r, topic);
    ReceiveTables(c.data, r.messageId, skip, ch);
    var received := Receive(c.data, r.messageId, skip, ch);
    SameStoreKeepsTracked(c.data, received.0);
    if received.1 && w.autoCommit {
      StoreKeepsTracked(received.0, DataAfter(c.data, w, r, topic, skip, ch), OffsetOf(c.data.tables, w, r, topic));
    }
  }

  lemma LinkStepKeepsLatch(c: Client, w: World, st: Step)
    requires Latched(c) && Flags(c) && LinkStep(st) && Possible(c, w, st)
    ensures Latched(PerformStep(c, w, st))
  {
    NothingKept();
    var P := (s: Session) => true;
    match st
    case ConnectStep(a) =>
      TrackedCommitIsResumed(c, w, a.order);
      ConnectReachesConnected(c, w, a);
      ConnectKeeps(P, c, w, a);
    case DisconnectStep => QuietDisconnect(c, w);
    case DriverErrorStep =>
    case ReconnectStep(a) =>
      QuietDisconnect(c, w);
      var d := Dropped(c, w);
      TrackedCommitIsResumed(d, w, a.order);
      ConnectReachesConnected(d, w, a);
      ConnectKeeps(P, d, w, a);
  }

  /** With a driver error pending every call throws at once; only messages and settings get through. */
  lemma CallStepKeepsLatch(c: Client, w: World, st: Step)
    requires Latched(c) && Flags(c) && !LinkStep(st) && !TableStep(st)
    ensures Latched(PerformStep(c, w, st))
  {
    NothingKept();
    var P := (s: Session) => true;
    match st
    case GiveUpStep(_) =>
    case IncomingStep(data, ch) => HandleKeepsLatch(c, w, ParseMessage(data, w.sequenceOf), ch);
    case CommitStep(o) =>
      SendCommitKeeps(P, Stored(c, o), w, o);
      StoreKeepsTracked(c.data, Stored(c, o).data, o);
    case SendOffsetStep(o) => SendCommitKeeps(P, c, w, o);
    case CommitRequestStep(topic) => CommitRequestKeeps(P, c, w, topic);
    case PublishStep(m) => PublishRequestKeeps(P, c, w, m);
    case KeepAliveStep => AdoptCalm(c, SendKeepAlive(c.session, w.env).session);
    case PollingLossStep =>
    case SetAutoReconnect(_) =>
    case SetInstance(_) =>
  }

  /** Every step keeps the latch. */
  lemma LatchKept(c: Client, w: World, st: Step)
    requires Latched(c) && Flags(c)
    ensures Latched(Next(c, w, st))
  {
    if Possible(c, w, st) {
      if LinkStep(st) {
        LinkStepKeepsLatch(c, w, st);
      } else if TableStep(st) {
        NothingKept();
        TableStepKeeps(s => true, c, w, st);
      } else {
        CallStepKeepsLatch(c, w, st);
      }
    }
  }

  lemma {:induction false} LatchHolds(c: Client, w: World, steps: seq<Step>)
    requires Latched(c) && Flags(c)
    ensures Latched(RunFrom(c, w, steps))
    decreases |steps|
  {
    if steps != [] {
      var before := steps[..|steps| - 1];
      LatchHolds(c, w, before);
      NothingKept();
      RunKeepsSession(s => true, c, w, before);
      LatchKept(RunFrom(c, w, before), w, steps[|steps| - 1]);
    }
  }

  /**
   Over whole runs: once a driver error is pending while some tracked subscription has a
   stored commit, no further sequence of calls ever reaches CONNECTED again.
   */
  lemma DriverErrorIsForever(w: World, instance: Text, steps: seq<Step>, more: seq<Step>)
    requires var c := RunFrom(NewClient(instance), w, steps); c.mode.fatal && TrackedCommit(c.data)
    ensures RunFrom(RunFrom(NewClient(instance), w, steps), w, more).conn != CONNECTED
  {
    ClientRunInv(w, instance, steps);
    LatchHolds(RunFrom(NewClient(instance), w, steps), w, more);
  }

  // ---- Loss notification ----

  predicate EndsSession(e: SessionEvent) {
    e.code == CLOSED || e.code == ERROR || e.code == AUTHENTICATION_REJECTED
  }

  lemma EndingEventCallbacks(s: Session, e: SessionEvent)
    requires EndsSession(e)
    ensures NewCallbacks(s, OnEvent(s, e)) == [StateChanged(false), EventSeen(e)]
  {
  }

  /** Both callbacks of such an event, on a connected client: the first one takes effect alone. */
  lemma EndingEventObserved(c: Client, e: SessionEvent)
    requires Flags(c) && c.conn == CONNECTED && EndsSession(e)
    ensures Adopt(c, OnEvent(c.session, e)) ==
            c.(session := OnEvent(c.session, e), conn := DISCONNECTED, notified := true,
               errors := c.errors + [SessionDisconnected], reconnecting := c.mode.autoReconnect,
               scheduled := c.scheduled + if c.mode.autoReconnect then 1 else 0)
  {
    EndingEventCallbacks(c.session, e);
    var s' := OnEvent(c.session, e);
    var lost := OnCallback(c.(session := s'), StateChanged(false));
    var bs := [StateChanged(false), EventSeen(e)];
    assert bs[1..] == [EventSeen(e)] && bs[1..][1..] == [];
    assert OnCallbacks(lost, bs[1..]) == OnCallbacks(OnCallback(lost, EventSeen(e)), []);
  }

  /**
   From the bytes of the event to the user: on a connected client a CLOSED, ERROR or
   AUTHENTICATION_REJECTED event leads to DISCONNECTED with exactly one error callback, and
   a reconnect is scheduled if and only if auto-reconnect is enabled, for all three codes.
   */
  lemma LossNotifiedOnce(c: Client, w: World, e: SessionEvent, detail: seq<byte>, ch: Choice)
    requires Flags(c) && c.conn == CONNECTED && EndsSession(e) && ValidEvent(e)
    ensures var c' := Incoming(c, w, EventBytes(e) + detail, ch);
            && c'.conn == DISCONNECTED && c'.notified
            && c'.errors == c.errors + [SessionDisconnected]
            && c'.reconnecting == c.mode.autoReconnect
            && c'.scheduled == c.scheduled + (if c.mode.autoReconnect then 1 else 0)
            && c'.data.commits == c.data.commits && c'.data.processed == c.data.processed
  {
    SessionEventParses(e, detail, w.sequenceOf);
    var r := ParseMessage(EventBytes(e) + detail, w.sequenceOf);
    EndingEventObserved(c, e);
    assert Observe(c, r) == Adopt(c, OnEvent(c.session, e));
    var topic := ExtractTopic(c, w, r, ch.pick);
    NoIdNoCommit(Observe(c, r), w, r, topic, ShouldSkip(r, topic), ch);
  }

  lemma NoIdNoCommit(c: Client, w: World, r: ParseResult, topic: Text, skip: bool, ch: Choice)
    requires r.messageId == []
    ensures var c' := Finish(c, w, r, topic, skip, ch);
            c' == c.(data := c'.data) && c'.data.commits == c.data.commits && c'.data.processed == c.data.processed
  {
  }

  // ---- Driver errors and reconnects ----

  predicate LossAnswer(o: Offered) { o.outcome.Answer? && ConnectionLoss(o.outcome.code) }

  predicate AnyLoss(os: seq<Offered>) { exists o :: o in os && LossAnswer(o) }

  /** A send from a connected session calls back exactly when an answer means connection loss. */
  ghost predicate CallsBackOnLoss(s: Session, s': Session) {
    && s.trace.offers <= s'.trace.offers
    && var lost := AnyLoss(NewOffers(s, s'));
       && s'.connected == !lost
       && s'.trace.callbacks == s.trace.callbacks + if lost then [StateChanged(false)] else []
  }

  lemma CallsBackTwice(s: Session, s': Session, s'': Session)
    requires CallsBackOnLoss(s, s') && s'.connected && CallsBackOnLoss(s', s'')
    ensures CallsBackOnLoss(s, s'')
  {
    GrowthSplits(s.trace.offers, s'.trace.offers, s''.trace.offers);
    assert forall o :: o in NewOffers(s, s'') <==> o in NewOffers(s, s') || o in NewOffers(s', s'');
    assert AnyLoss(NewOffers(s, s'')) <==> AnyLoss(NewOffers(s', s''));
  }

  lemma SettledCallsBack(s: Session, env: Env, purpose: Purpose, frame: seq<byte>)
    requires s.connected
    ensures CallsBackOnLoss(s, Settled(s, env, purpose, frame))
    ensures NextOffer(s, env).Answer? && Transient(NextOffer(s, env).code) ==> Settled(s, env, purpose, frame).connected
  {
    SettledFrame(s, env, purpose, frame);
    var entry := Offered(purpose, frame, NextOffer(s, env), |s.trace.established|);
    assert NewOffers(s, Settled(s, env, purpose, frame)) == [entry];
    assert AnyLoss([entry]) <==> LossAnswer(entry) by {
      assert entry in [entry];
    }
  }

  lemma {:induction false} OfferCallsBack(
    s: Session, env: Env, cfg: Config, purpose: Purpose, frame: seq<byte>, attempt: nat)
    requires s.connected && attempt < Attempts(cfg) && purpose in {Raw, Combined, Closing}
    ensures CallsBackOnLoss(s, OfferFrom(s, env, cfg, purpose, frame, attempt).session)
    decreases Attempts(cfg) - attempt
  {
    var o, settled := NextOffer(s, env), Settled(s, env, purpose, frame);
    SettledCallsBack(s, env, purpose, frame);
    if o.Answer? && Transient(o.code) && attempt != Attempts(cfg) - 1 {
      var next := Waited(settled, cfg, attempt);
      OfferCallsBack(next, env, cfg, purpose, frame, attempt + 1);
      CallsBackTwice(s, next, OfferFrom(next, env, cfg, purpose, frame, attempt + 1).session);
    }
  }

  lemma {:induction false} CloseCallsBack(s: Session, env: Env, cfg: Config, frame: seq<byte>, left: nat)
    requires s.connected
    ensures CallsBackOnLoss(s, CloseFrom(s, env, cfg, frame, left))
    decreases left
  {
    if left > 0 {
      var c := CheckConnected(s, env);
      var sent := SendRaw(s, env, cfg, Closing, frame);
      if c.ok { OfferCallsBack(c.session, env, cfg, Closing, frame, 0); }
      assert CallsBackOnLoss(s, sent.session);
      if !sent.ok && sent.session.connected {
        CloseCallsBack(sent.session, env, cfg, frame, left - 1);
        CallsBackTwice(s, sent.session, CloseFrom(sent.session, env, cfg, frame, left - 1));
      } else if !sent.ok {
        CloseUnconnected(sent.session, env, cfg, frame, left - 1);
      }
    }
  }

  lemma {:induction false} CloseUnconnected(s: Session, env: Env, cfg: Config, frame: seq<byte>, left: nat)
    requires !s.connected
    ensures CloseFrom(s, env, cfg, frame, left) == s
    decreases left
  {
    if left > 0 { CloseUnconnected(s, env, cfg, frame, left - 1); }
  }

  /** The offers the close request of a disconnect made. */
  function CloseOffers(s: Session, env: Env, cfg: Config): seq<Offered> {
    DisconnectOffers(s, env, cfg);
    NewOffers(s, SessionProtocol.Disconnect(s, env, cfg))
  }

  lemma DisconnectCallsBack(s: Session, env: Env, cfg: Config)
    ensures NewCallbacks(s, SessionProtocol.Disconnect(s, env, cfg))
            == if AnyLoss(CloseOffers(s, env, cfg)) then [StateChanged(false)] else []
  {
    DisconnectOffers(s, env, cfg);
    var probed := s.(trace := s.trace.(probes := s.trace.probes + 1));
    var frame := CloseRequest(s.term, s.sessionId);
    if s.connected {
      CloseCallsBack(probed, env, cfg, frame, CLOSE_ATTEMPTS);
    } else {
      CloseUnconnected(probed, env, cfg, frame, CLOSE_ATTEMPTS);
    }
  }

  /**
   A driver error on a connected client: one error callback, DISCONNECTED, and the latch.
   The handler forbids a reconnect, yet one is scheduled exactly when auto-reconnect is
   enabled and an offer of the close request is itself answered with a connection loss,
   because that answer calls back first.
   */
  lemma DriverErrorOutcome(c: Client, w: World)
    requires Flags(c) && c.conn == CONNECTED
    ensures var c' := OnDriverError(c, w);
            var lost := AnyLoss(CloseOffers(c.session, w.env, w.cfg));
            && c'.mode.fatal && c'.conn == DISCONNECTED && c'.data == c.data
            && c'.errors == c.errors + [if lost then SessionDisconnected else DriverError]
            && c'.reconnecting == (lost && c.mode.autoReconnect)
            && c'.scheduled == c.scheduled + (if lost && c.mode.autoReconnect then 1 else 0)
  {
    DisconnectCallsBack(c.session, w.env, w.cfg);
    var s' := SessionProtocol.Disconnect(c.session, w.env, w.cfg);
    var latched := c.(mode := c.mode.(fatal := true), session := s');
    var bs := [StateChanged(false)];
    assert bs[1..] == [];
    assert OnCallbacks(latched, bs) == OnCallbacks(OnCallback(latched, bs[0]), []);
  }

  // ---- Reconnect episodes ----

  /** What one turn of the reconnect thread may do to the member tries and the flags. */
  ghost predicate GoodTurn(c: Client, r: Check, bound: nat) {
    && |r.client.session.trace.tries| <= |c.session.trace.tries| + bound
    && Flags(r.client) && (r.ok <==> r.client.conn == CONNECTED)
  }

  ghost predicate GoodTurns(turn: (Client, nat) -> Check, bound: nat) {
    forall c, k :: Flags(c) ==> GoodTurn(c, turn(c, k), bound)
  }

  lemma ReconnectTries(c: Client, w: World, a: Attempt)
    requires Flags(c)
    ensures GoodTurn(c, Reconnect(c, w, a), MaxTries(w.cfg))
  {
    QuietDisconnect(c, w);
    var d := Dropped(c, w);
    TriesKept(c.session.trace.tries);
    DisconnectKeeps((s: Session) => s.trace.tries == c.session.trace.tries, c.session, w.env, w.cfg);
    NothingKept();
    ConnectKeeps(s => true, d, w, a);
    if d.conn != CONNECTED {
      ConnectReachesConnected(d, w, a);
      ConnectBound(d.session, w.env, w.cfg);
    }
  }

  lemma TurnsAreGood(w: World, attempts: nat -> Attempt)
    ensures GoodTurns(Turns(w, attempts), MaxTries(w.cfg))
  {
    forall c, k | Flags(c) ensures GoodTurn(c, Turns(w, attempts)(c, k), MaxTries(w.cfg)) {
      ReconnectTries(c, w, attempts(k));
    }
  }

  ghost predicate SwitchedOff(enabled: nat -> bool, attempt: nat) {
    exists k :: attempt <= k <= MAX_RECONNECT_ATTEMPTS && !enabled(k)
  }

  ghost predicate EndsWell(c: Client, enabled: nat -> bool, attempt: nat) {
    && !c.reconnecting && Flags(c)
    && (c.conn == CONNECTED || SwitchedOff(enabled, attempt) || (c.errors != [] && Last(c.errors) == ReconnectFailed))
  }

  /** n * k, as a sum. */
  function Times(n: nat, k: nat): nat
    decreases n, k
  {
    if n == 0 then 0 else k + Times(n - 1, k)
  }

  lemma {:induction false} TimesIs(n: nat, k: nat)
    ensures Times(n, k) == n * k
    decreases n
  {
    if n > 0 {
      TimesIs(n - 1, k);
      OneMore(n, k);
    }
  }

  lemma {:induction false} EpisodeWithin(
    c: Client, turn: (Client, nat) -> Check, enabled: nat -> bool, attempt: nat, bound: nat)
    requires Flags(c) && attempt <= MAX_RECONNECT_ATTEMPTS && GoodTurns(turn, bound)
    ensures var c' := Episode(c, turn, enabled, attempt);
            && |c'.session.trace.tries| <= |c.session.trace.tries| + Times(MAX_RECONNECT_ATTEMPTS - attempt, bound)
            && EndsWell(c', enabled, attempt)
    decreases MAX_RECONNECT_ATTEMPTS - attempt
  {
    if attempt < MAX_RECONNECT_ATTEMPTS && enabled(attempt) {
      var r := turn(c, attempt);
      assert GoodTurn(c, r, bound);
      if !r.ok {
        EpisodeWithin(r.client, turn, enabled, attempt + 1, bound);
      }
    }
  }

  /**
   One auto-reconnect episode makes at most ten times max_retries + n member tries. It ends
   CONNECTED, or switched off, or with its failure reported last, and in all three no
   reconnect is in progress any more, so that the next loss can schedule one.
   */
  lemma EpisodeBound(c: Client, w: World, attempts: nat -> Attempt, enabled: nat -> bool)
    requires Flags(c)
    ensures var c' := Episode(c, Turns(w, attempts), enabled, 0);
            && |c'.session.trace.tries| <= |c.session.trace.tries| + MAX_RECONNECT_ATTEMPTS * MaxTries(w.cfg)
            && EndsWell(c', enabled, 0)
  {
    var turn, bound := Turns(w, attempts), MaxTries(w.cfg);
    TimesIs(MAX_RECONNECT_ATTEMPTS, bound);
    assert GoodTurns(turn, bound) by {
      TurnsAreGood(w, attempts);
    }
    EpisodeWithin(c, turn, enabled, 0, bound);
  }
}
