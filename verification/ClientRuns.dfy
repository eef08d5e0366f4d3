/**
 What the client's disconnects, reconnects and loss notifications leave behind, and that a
 connect after them really opens a session.
 */
module ClientRuns {
  import opened SessionFrames
  import opened SessionProtocol
  import opened SessionInduction
  import opened SessionInvariant
  import opened SessionTheorems
  import opened TopicCodec
  import opened SendRuns
  import opened ClientSends
  import opened ClientProtocol
  import opened ClientInvariant
  import opened ClientTheorems

  // ---- Disconnect ----

  /**
   A disconnect takes the session down, and a CONNECTED client to DISCONNECTED without its
   egress; it reports nothing, schedules nothing and keeps all data. A client that was not
   CONNECTED keeps its state.
   */
  lemma DisconnectOutcome(c: Client, w: World)
    requires Flags(c)
    ensures var c' := DisconnectClient(c, w);
            && c'.conn == (if c.conn == CONNECTED then DISCONNECTED else c.conn)
            && c'.mode == c.mode.(egress := c.mode.egress && c.conn != CONNECTED)
            && !c'.session.connected && !c'.session.publication && c'.session.sessionId == -1
            && c'.errors == c.errors && c'.scheduled == c.scheduled && c'.reconnecting == c.reconnecting
            && c'.data == c.data && (c'.notified ==> c.notified) && Flags(c')
  {
    QuietDisconnect(c, w);
    DisconnectExactly(c.session, w.env, w.cfg);
  }

  /** And its close request goes out exactly when the session can send one. */
  lemma DisconnectCloses(c: Client, w: World)
    requires Flags(c)
    ensures var s' := DisconnectClient(c, w).session;
            && c.session.trace.offers <= s'.trace.offers
            && if Armed(c.session) && UpOnce(Probed(c.session), w.env, CLOSE_ATTEMPTS)
               then StartsClosing(c.session, s', w.env, CloseRequest(c.session.term, c.session.sessionId))
               else NewOffers(c.session, s') == []
  {
    QuietDisconnect(c, w);
    DisconnectExactly(c.session, w.env, w.cfg);
  }

  // ---- Connect ----

  /** A connect on a CONNECTED client does nothing and says yes. */
  lemma ConnectWhenConnected(c: Client, w: World, a: Attempt)
    requires c.conn == CONNECTED
    ensures ConnectClient(c, w, a) == Check(c, true)
  {
  }

  /** The session was opened between the two states, and it is the one that is live. */
  ghost predicate Opened(s: Session, s': Session) {
    && |s.trace.established| < |s'.trace.established| && s'.connected
    && s'.sessionId == Last(s'.trace.established).correlationId
    && s'.term == Last(s'.trace.established).term
  }

  /** A connect from an unconnected session says yes only with a session that was opened during it. */
  lemma ConnectOpens(c: Client, w: World, a: Attempt)
    requires c.conn != CONNECTED && Inv(c.session) && !c.session.connected
    ensures var k := ConnectClient(c, w, a);
            && (k.ok ==> k.client.conn == CONNECTED && Opened(c.session, k.client.session))
            && (a.aeronUp && a.egressUp ==>
                  k.client.session == SessionProtocol.Connect(c.session, w.env, w.cfg).session)
            && (!k.ok ==> k.client.conn == FAILED)
  {
    ConnectReachesConnected(c, w, a);
    ConnectOutcome(c, w, a);
    ConnectSucceedsByOk(c.session, w.env, w.cfg);
  }

  /** After a disconnect, a connect really runs a session connect, and success means a new session. */
  lemma ConnectAfterDisconnect(c: Client, w: World, a: Attempt)
    requires Flags(c) && Inv(c.session)
    ensures var d := DisconnectClient(c, w);
            var k := ConnectClient(d, w, a);
            && (a.aeronUp && a.egressUp ==>
                  k.client.session == SessionProtocol.Connect(d.session, w.env, w.cfg).session)
            && (k.ok ==> k.client.conn == CONNECTED && Opened(d.session, k.client.session))
  {
    DisconnectOutcome(c, w);
    QuietDisconnect(c, w);
    InvKept();
    DisconnectKeeps(Invariant(), c.session, w.env, w.cfg);
    ConnectOpens(DisconnectClient(c, w), w, a);
  }

  // ---- Reconnect ----

  /** What a turn of the reconnect thread starts its connect from. */
  lemma DroppedExactly(c: Client, w: World)
    requires Flags(c) && Inv(c.session)
    ensures var d := Dropped(c, w);
            && !d.session.connected && !d.session.publication && d.session.sessionId == -1 && Inv(d.session)
            && d == c.(session := d.session, notified := d.notified, mode := c.mode.(egress := false))
  {
    QuietDisconnect(c, w);
    DisconnectExactly(c.session, w.env, w.cfg);
    InvKept();
    DisconnectKeeps(Invariant(), c.session, w.env, w.cfg);
  }

  /**
   A turn of the reconnect thread on a client that lost its connection: success means a
   session that was opened in this turn, failure leaves the client FAILED.
   */
  lemma ReconnectOpens(c: Client, w: World, a: Attempt)
    requires Flags(c) && Inv(c.session) && c.conn != CONNECTED
    ensures var r := Reconnect(c, w, a);
            && (r.ok ==> r.client.conn == CONNECTED && !r.client.reconnecting && !r.client.notified)
            && (r.ok ==> Opened(Dropped(c, w).session, r.client.session))
            && (!r.ok ==> r.client.conn == FAILED)
  {
    DroppedExactly(c, w);
    ConnectOpens(Dropped(c, w), w, a);
  }

  /**
   On a client that is CONNECTED again by the time the thread wakes up, the turn closes that
   session and reports success all the same: CONNECTED, with no session.
   */
  lemma ReconnectDropsALiveSession(c: Client, w: World, a: Attempt)
    requires Flags(c) && Inv(c.session) && c.conn == CONNECTED
    ensures var r := Reconnect(c, w, a);
            r.ok && r.client.conn == CONNECTED && !r.client.session.connected && r.client.session.sessionId == -1
  {
    DroppedExactly(c, w);
  }

  // ---- Episodes ----

  /** The client after n turns of the reconnect thread. */
  function AfterTurns(c: Client, turn: (Client, nat) -> Check, attempt: nat, n: nat): Client {
    if n == 0 then c else
      var before := AfterTurns(c, turn, attempt, n - 1);
      turn(before, attempt + (n - 1)).client
  }

  lemma {:induction false} TurnsShift(c: Client, turn: (Client, nat) -> Check, attempt: nat, n: nat)
    ensures AfterTurns(turn(c, attempt).client, turn, attempt + 1, n) == AfterTurns(c, turn, attempt, n + 1)
    decreases n
  {
    if n > 0 { TurnsShift(c, turn, attempt, n - 1); }
  }

  /** The thread is enabled for its turn j, and that turn does not connect. */
  predicate FailedTurn(c: Client, turn: (Client, nat) -> Check, enabled: nat -> bool, attempt: nat, j: nat) {
    enabled(attempt + j) && !turn(AfterTurns(c, turn, attempt, j), attempt + j).ok
  }

  /** The thread goes on to its turn n: all the turns before have failed. */
  ghost predicate GoesOn(c: Client, turn: (Client, nat) -> Check, enabled: nat -> bool, attempt: nat, n: nat) {
    forall j: nat :: j < n ==> FailedTurn(c, turn, enabled, attempt, j)
  }

  /** How the thread ends after n turns that failed. */
  ghost predicate EndsAfter(
    c: Client, turn: (Client, nat) -> Check, enabled: nat -> bool, attempt: nat, n: nat, end: Client)
  {
    var last := AfterTurns(c, turn, attempt, n);
    && GoesOn(c, turn, enabled, attempt, n) && attempt + n <= MAX_RECONNECT_ATTEMPTS
    && if attempt + n < MAX_RECONNECT_ATTEMPTS && enabled(attempt + n)
       then turn(last, attempt + n).ok && end == turn(last, attempt + n).client
       else end == GiveUp(last, enabled(attempt + n))
  }

  lemma GoesOnMore(c: Client, turn: (Client, nat) -> Check, enabled: nat -> bool, attempt: nat, n: nat)
    requires enabled(attempt) && !turn(c, attempt).ok
    requires GoesOn(turn(c, attempt).client, turn, enabled, attempt + 1, n)
    ensures GoesOn(c, turn, enabled, attempt, n + 1)
  {
    forall j: nat | j < n + 1 ensures FailedTurn(c, turn, enabled, attempt, j) {
      if j > 0 {
        TurnsShift(c, turn, attempt, j - 1);
        assert FailedTurn(turn(c, attempt).client, turn, enabled, attempt + 1, j - 1);
        assert attempt + 1 + (j - 1) == attempt + j;
      } else {
        assert attempt + j == attempt;
      }
    }
  }

  /**
   The thread makes its turns one after the other until the first that connects, and stops
   there; it gives up only when all ten have failed, or when it is switched off.
   */
  lemma {:induction false} EpisodeExactly(
    c: Client, turn: (Client, nat) -> Check, enabled: nat -> bool, attempt: nat) returns (n: nat)
    requires attempt <= MAX_RECONNECT_ATTEMPTS
    ensures EndsAfter(c, turn, enabled, attempt, n, Episode(c, turn, enabled, attempt))
    decreases MAX_RECONNECT_ATTEMPTS - attempt
  {
    if attempt < MAX_RECONNECT_ATTEMPTS && enabled(attempt) && !turn(c, attempt).ok {
      var next := turn(c, attempt).client;
      var rest := EpisodeExactly(next, turn, enabled, attempt + 1);
      n := rest + 1;
      EndsAfterMore(c, turn, enabled, attempt, rest, Episode(next, turn, enabled, attempt + 1));
      assert EndsAfter(c, turn, enabled, attempt, n, Episode(next, turn, enabled, attempt + 1));
      assert Episode(c, turn, enabled, attempt) == Episode(next, turn, enabled, attempt + 1);
    } else {
      n := 0;
      assert AfterTurns(c, turn, attempt, n) == c && attempt + n == attempt;
      assert GoesOn(c, turn, enabled, attempt, n);
      assert EndsAfter(c, turn, enabled, attempt, n, Episode(c, turn, enabled, attempt));
    }
  }

  lemma EndsAfterMore(
    c: Client, turn: (Client, nat) -> Check, enabled: nat -> bool, attempt: nat, n: nat, end: Client)
    requires enabled(attempt) && !turn(c, attempt).ok
    requires EndsAfter(turn(c, attempt).client, turn, enabled, attempt + 1, n, end)
    ensures EndsAfter(c, turn, enabled, attempt, n + 1, end)
  {
    GoesOnMore(c, turn, enabled, attempt, n);
    TurnsShift(c, turn, attempt, n);
    assert attempt + 1 + n == attempt + (n + 1);
  }

  // ---- Losses ----

  /** What a connection loss makes of a CONNECTED client. */
  function Lost(c: Client, reason: Reason): Client {
    c.(conn := DISCONNECTED, notified := true, errors := c.errors + [reason],
       reconnecting := c.mode.autoReconnect, scheduled := c.scheduled + if c.mode.autoReconnect then 1 else 0)
  }

  /** A send whose last answer is a connection loss makes a CONNECTED client lose its connection, and no other does. */
  lemma SendLoses(c: Client, s': Session)
    requires Flags(c) && c.conn == CONNECTED && CallsBackOnLoss(c.session, s')
    ensures Adopt(c, s') ==
            if AnyLoss(NewOffers(c.session, s')) then Lost(c.(session := s'), SessionDisconnected)
            else c.(session := s')
  {
    var bs := [StateChanged(false)];
    if AnyLoss(NewOffers(c.session, s')) {
      assert NewCallbacks(c.session, s') == bs && bs[1..] == [];
      assert OnCallbacks(c.(session := s'), bs) == OnCallbacks(OnCallback(c.(session := s'), bs[0]), []);
    } else {
      assert NewCallbacks(c.session, s') == [];
    }
  }

  lemma PublishCallsBack(s: Session, env: Env, cfg: Config, m: TopicMessage)
    requires s.connected
    ensures CallsBackOnLoss(s, Publish(s, env, cfg, m).session)
  {
    var once := CheckConnected(s, env);
    var twice := CheckConnected(once.session, env);
    var thrice := CheckConnected(twice.session, env);
    NothingCallsBack(s, once.session);
    if once.ok && FitsLengthType(m) {
      NothingCallsBack(s, twice.session);
      if twice.ok {
        NothingCallsBack(s, thrice.session);
        if thrice.ok {
          OfferCallsBack(thrice.session, env, cfg, Combined, thrice.session.header + SentFrame(m), 0);
          CallsBackTwice(s, thrice.session, Publish(s, env, cfg, m).session);
        }
      }
    }
  }

  lemma NothingCallsBack(s: Session, s': Session)
    requires s.connected && s' == s.(trace := s.trace.(probes := s'.trace.probes))
    ensures CallsBackOnLoss(s, s')
  {
    assert NewOffers(s, s') == [];
  }

  /**
   A request on a CONNECTED client whose session is up: the client loses its connection, with
   one error and a reconnect as configured, if and only if an answer to its offers means so.
   */
  lemma RequestLoses(c: Client, w: World, m: TopicMessage)
    requires Flags(c) && c.conn == CONNECTED && c.session.connected
    ensures var c' := PublishRequest(c, w, m).client;
            var same := c.(session := c'.session, imageChecks := c'.imageChecks);
            && c.session.trace.offers <= c'.session.trace.offers
            && c' == if AnyLoss(NewOffers(c.session, c'.session)) then Lost(same, SessionDisconnected) else same
  {
    var k := IsConnected(c, w);
    ConnectedExactly(c, w);
    if k.ok {
      PublishCallsBack(k.client.session, w.env, w.cfg, m);
      SendLoses(k.client, Publish(k.client.session, w.env, w.cfg, m).session);
    } else {
      assert NewOffers(c.session, k.client.session) == [];
    }
  }

  /** A loss the polling thread finds on a CONNECTED client is reported and schedules as usual. */
  lemma PollingLossOutcome(c: Client, w: World)
    requires Flags(c) && c.conn == CONNECTED
    ensures Next(c, w, PollingLossStep) == Lost(c, PollingLoss)
  {
  }

  /** A loss is reported once: until a session opens or a connect succeeds, further ones change only the session. */
  lemma LossIsReportedOnce(c: Client, e: SessionEvent)
    requires c.notified && EndsSession(e)
    ensures Adopt(c, OnEvent(c.session, e)) == c.(session := OnEvent(c.session, e))
  {
    EndingEventCallbacks(c.session, e);
    var told := c.(session := OnEvent(c.session, e));
    var bs := [StateChanged(false), EventSeen(e)];
    assert bs[1..] == [EventSeen(e)] && bs[1..][1..] == [];
    assert OnCallbacks(told, bs[1..]) == OnCallbacks(OnCallback(told, EventSeen(e)), []);
  }

  /** An OK event makes the next loss reportable again. */
  lemma OkRearms(c: Client, e: SessionEvent)
    requires e.code == OK
    ensures Adopt(c, OnEvent(c.session, e)) == c.(session := OnEvent(c.session, e), notified := false)
  {
    var s' := OnEvent(c.session, e);
    var bs := [StateChanged(true), EventSeen(e)];
    assert NewCallbacks(c.session, s') == bs;
    var told := c.(session := s', notified := false);
    assert bs[1..] == [EventSeen(e)] && bs[1..][1..] == [];
    assert OnCallbacks(told, bs[1..]) == OnCallbacks(OnCallback(told, EventSeen(e)), []);
  }

  /** A rejection that is reported without a state change before it does not schedule a reconnect; the others do. */
  lemma EventAlone(c: Client, e: SessionEvent)
    requires Flags(c) && c.conn == CONNECTED && EndsSession(e)
    ensures var c' := OnCallback(c, EventSeen(e));
            && c'.conn == DISCONNECTED && c'.notified && |c'.errors| == |c.errors| + 1
            && c'.reconnecting == (c.mode.autoReconnect && e.code != AUTHENTICATION_REJECTED)
  {
  }

  /** What a session event leaves in the session: CLOSED forgets the id, the other two keep it. */
  lemma EndedSession(s: Session, e: SessionEvent)
    requires EndsSession(e)
    ensures var s' := OnEvent(s, e);
            !s'.connected && s'.sessionId == if e.code == CLOSED then -1 else s.sessionId
  {
  }
}
