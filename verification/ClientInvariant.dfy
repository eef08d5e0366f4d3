/** What every step of the client keeps, and the induction behind it. */
module ClientInvariant {
  import opened Bytes
  import opened TopicCodec
  import opened Parser
  import opened CommitStore
  import opened CommitFrames
  import opened SessionProtocol
  import opened SessionInduction
  import opened SessionInvariant
  import opened ClientProtocol

  /**
   Only what callbacks and connection checks may touch has changed; the client has not
   come to be connected, and if it still is, no loss was notified meanwhile.
   */
  ghost predicate Calm(c: Client, c': Client) {
    && c'.mode == c.mode && c'.data == c.data
    && (c'.conn == c.conn || c'.conn == DISCONNECTED)
    && (c'.conn == CONNECTED ==> (c'.notified ==> c.notified) && (c'.reconnecting ==> c.reconnecting))
  }

  lemma CalmTwice(c: Client, c': Client, c'': Client)
    requires Calm(c, c') && Calm(c', c'')
    ensures Calm(c, c'')
  {
  }

  lemma LossCalm(c: Client, reason: Reason, allowReconnect: bool)
    ensures Calm(c, NotifyLoss(c, reason, allowReconnect)) && NotifyLoss(c, reason, allowReconnect).session == c.session
  {
  }

  lemma CallbackCalm(c: Client, b: Callback)
    ensures Calm(c, OnCallback(c, b)) && OnCallback(c, b).session == c.session
  {
    LossCalm(c, SessionDisconnected, true);
    LossCalm(c, SessionClosed, true);
    LossCalm(c, SessionErrored, true);
    LossCalm(c, AuthenticationRejected, false);
  }

  lemma {:induction false} CallbacksCalm(c: Client, bs: seq<Callback>)
    ensures Calm(c, OnCallbacks(c, bs)) && OnCallbacks(c, bs).session == c.session
    decreases |bs|
  {
    if bs != [] {
      var next := OnCallback(c, bs[0]);
      CallbackCalm(c, bs[0]);
      CallbacksCalm(next, bs[1..]);
      CalmTwice(c, next, OnCallbacks(next, bs[1..]));
    }
  }

  lemma AdoptCalm(c: Client, s': Session)
    ensures Calm(c, Adopt(c, s')) && Adopt(c, s').session == s'
  {
    CallbacksCalm(c.(session := s'), NewCallbacks(c.session, s'));
    CalmTwice(c, c.(session := s'), Adopt(c, s'));
  }

  /** While notifications are suppressed, a callback can at most clear the notified flag. */
  lemma {:induction false} SuppressedCallbacks(c: Client, bs: seq<Callback>)
    requires c.mode.suppressed
    ensures var c' := OnCallbacks(c, bs); c' == c.(notified := c'.notified) && (c'.notified ==> c.notified)
    decreases |bs|
  {
    if bs != [] { SuppressedCallbacks(OnCallback(c, bs[0]), bs[1..]); }
  }

  lemma QuietDisconnect(c: Client, w: World)
    requires !c.mode.suppressed
    ensures var c' := DisconnectQuietly(c, w);
            && c' == c.(session := SessionProtocol.Disconnect(c.session, w.env, w.cfg), notified := c'.notified)
            && (c'.notified ==> c.notified)
  {
    var s' := SessionProtocol.Disconnect(c.session, w.env, w.cfg);
    SuppressedCallbacks(c.(mode := c.mode.(suppressed := true), session := s'), NewCallbacks(c.session, s'));
  }

  // ---- Sends are calm, and keep every session property ----

  lemma ConnectionCheck(P: Session -> bool, c: Client, w: World)
    requires KeptByUpkeep(P) && P(c.session)
    ensures var k := IsConnected(c, w); Calm(c, k.client) && P(k.client.session)
    ensures c.conn != CONNECTED ==> IsConnected(c, w) == Check(c, false)
  {
    CheckKeeps(P, c.session, w.env);
  }

  lemma PublishRequestKeeps(P: Session -> bool, c: Client, w: World, m: TopicMessage)
    requires KeptByOffers(P) && KeptByUpkeep(P) && P(c.session)
    ensures var r := PublishRequest(c, w, m); Calm(c, r.client) && P(r.client.session)
    ensures c.mode.fatal || c.conn != CONNECTED ==> PublishRequest(c, w, m) == Did(c, Threw)
  {
    ConnectionCheck(P, c, w);
    var k := IsConnected(c, w);
    if !c.mode.fatal && k.ok {
      var s' := Publish(k.client.session, w.env, w.cfg, m).session;
      PublishKeeps(P, k.client.session, w.env, w.cfg, m);
      AdoptCalm(k.client, s');
      CalmTwice(c, k.client, Adopt(k.client, s'));
    }
  }

  lemma SendCommitKeeps(P: Session -> bool, c: Client, w: World, o: CommitOffset)
    requires KeptByOffers(P) && KeptByUpkeep(P) && P(c.session)
    ensures var r := SendCommitOffset(c, w, o); Calm(c, r.client) && P(r.client.session)
    ensures c.mode.fatal ==> SendCommitOffset(c, w, o) == Did(c, Threw)
    ensures !c.mode.fatal && c.conn != CONNECTED ==> SendCommitOffset(c, w, o) == Did(c, Refused)
  {
    ConnectionCheck(P, c, w);
    var k := IsConnected(c, w);
    if !c.mode.fatal && k.ok {
      var frame := CommitFrame(k.client, w, o);
      if frame.Ok? {
        var s' := SendCombined(k.client.session, w.env, w.cfg, frame.value).session;
        SendCombinedKeeps(P, k.client.session, w.env, w.cfg, frame.value);
        AdoptCalm(k.client, s');
        CalmTwice(c, k.client, Adopt(k.client, s'));
      }
    }
  }

  lemma CommitRequestKeeps(P: Session -> bool, c: Client, w: World, topic: Text)
    requires KeptByOffers(P) && KeptByUpkeep(P) && P(c.session)
    ensures var r := SendCommitRequest(c, w, topic); Calm(c, r.client) && P(r.client.session)
    ensures c.mode.fatal ==> SendCommitRequest(c, w, topic) == Did(c, Threw)
  {
    ConnectionCheck(P, c, w);
    var k := IsConnected(c, w);
    if !c.mode.fatal && k.ok {
      var now := w.clock(|k.client.session.trace.offers|);
      var frame := CommitRequestFrame(topic, w.clientId, now, Decimal(now));
      if frame.Ok? {
        var s' := SendRaw(k.client.session, w.env, w.cfg, Raw, frame.value).session;
        SendRawKeeps(P, k.client.session, w.env, w.cfg, Raw, frame.value);
        AdoptCalm(k.client, s');
        CalmTwice(c, k.client, Adopt(k.client, s'));
      }
    }
  }

  /** Calm except for the subscription tables. */
  lemma SubscribeKeeps(P: Session -> bool, c: Client, w: World, s: Subscription, m: TopicMessage)
    requires KeptByOffers(P) && KeptByUpkeep(P) && P(c.session)
    ensures var r := Subscribe(c, w, s, m);
            && Calm(c, Retabled(r.client, c.data.tables)) && P(r.client.session)
            && r.client.data.tables ==
               if r.ended == Done then Track(c.data.tables, w.clientId, Effective(c, s)) else c.data.tables
    ensures c.mode.fatal || c.conn != CONNECTED ==> Subscribe(c, w, s, m) == Did(c, Threw)
  {
    PublishRequestKeeps(P, c, w, m);
  }

  lemma UnsubscribeKeeps(P: Session -> bool, c: Client, w: World, topic: Text, identifier: Text, m: TopicMessage)
    requires KeptByOffers(P) && KeptByUpkeep(P) && P(c.session)
    ensures var r := Unsubscribe(c, w, topic, identifier, m);
            && Calm(c, Retabled(r.client, c.data.tables)) && P(r.client.session)
            && r.client.data.tables ==
               if r.ended == Done then Untrack(c.data.tables, topic, identifier) else c.data.tables
    ensures c.mode.fatal || c.conn != CONNECTED ==> Unsubscribe(c, w, topic, identifier, m) == Did(c, Threw)
  {
    PublishRequestKeeps(P, c, w, m);
  }

  lemma ResumeOneKeeps(P: Session -> bool, c: Client, w: World, topic: Text, identifier: Text, m: TopicMessage)
    requires KeptByOffers(P) && KeptByUpkeep(P) && P(c.session)
    ensures var r := ResumeOne(c, w, topic, identifier, m);
            && Calm(c, Retabled(r.client, c.data.tables)) && P(r.client.session)
            && (r.client.data.tables == c.data.tables ||
                r.client.data.tables ==
                  Track(c.data.tables, w.clientId, Subscription(topic, identifier, Latest(), c.mode.instance)) ||
                r.client.data.tables == Track(c.data.tables, w.clientId, Subscription(topic, identifier, Latest(), [])))
    ensures c.mode.fatal ==> ResumeOne(c, w, topic, identifier, m) == Did(c, Threw)
  {
    ConnectionCheck(P, c, w);
    var k := IsConnected(c, w);
    if !c.mode.fatal && k.ok {
      var last := Lookup(k.client.data.commits, topic, identifier);
      if last == None {
        var s := Subscription(topic, identifier, Latest(), []);
        SubscribeKeeps(P, k.client, w, s, m);
        CalmTwice(c, k.client, Retabled(Subscribe(k.client, w, s, m).client, c.data.tables));
      } else {
        SendCommitKeeps(P, k.client, w, last.value);
        CalmTwice(c, k.client, SendCommitOffset(k.client, w, last.value).client);
      }
    }
  }

  // ---- Resume ----

  /** Some of the records has a stored commit. */
  predicate HasCommit(c: Client, subs: seq<Subscription>) {
    exists i :: 0 <= i < |subs| && Lookup(c.data.commits, subs[i].topic, subs[i].identifier).Some?
  }

  /**
   Resuming before CONNECTED is set changes nothing and offers nothing: the commits are
   refused and the subscriptions throw. With a driver error pending it throws if and only
   if some record has a stored commit.
   */
  lemma {:induction false} ResumeBeforeConnected(
    c: Client, w: World, subs: seq<Subscription>, request: Subscription -> TopicMessage)
    requires c.conn != CONNECTED
    ensures Resume(c, w, subs, request) == Did(c, if c.mode.fatal && HasCommit(c, subs) then Threw else Done)
    decreases |subs|
  {
    if subs != [] {
      var first, rest := subs[0], subs[1..];
      var last := Lookup(c.data.commits, first.topic, first.identifier);
      SubscribeRefused(c, w, first, request(first));
      ResumeBeforeConnected(c, w, rest, request);
      if last.Some? {
        CommitRefused(c, w, last.value);
      }
      assert HasCommit(c, subs) <==> last.Some? || HasCommit(c, rest) by {
        if HasCommit(c, rest) {
          var i :| 0 <= i < |rest| && Lookup(c.data.commits, rest[i].topic, rest[i].identifier).Some?;
          assert subs[i + 1] == rest[i];
        }
        if HasCommit(c, subs) && last.None? {
          var i :| 0 <= i < |subs| && Lookup(c.data.commits, subs[i].topic, subs[i].identifier).Some?;
          assert rest[i - 1] == subs[i];
        }
      }
    }
  }

  lemma SubscribeRefused(c: Client, w: World, s: Subscription, m: TopicMessage)
    requires c.conn != CONNECTED
    ensures Subscribe(c, w, s, m) == Did(c, Threw)
  {
  }

  lemma CommitRefused(c: Client, w: World, o: CommitOffset)
    requires c.conn != CONNECTED
    ensures SendCommitOffset(c, w, o) == Did(c, if c.mode.fatal then Threw else Refused)
  {
  }

  // ---- Connect ----

  /** connect, with the resume loop replaced by what it does at that point. */
  lemma ConnectOutcome(c: Client, w: World, a: Attempt)
    requires c.conn != CONNECTED
    ensures var trying := c.(conn := CONNECTING, mode := c.mode.(egress := true));
            var r := SessionProtocol.Connect(c.session, w.env, w.cfg);
            var called := Adopt(trying, r.session);
            var k := ConnectClient(c, w, a);
            if !a.aeronUp || !a.egressUp then k == Check(c.(conn := FAILED), false)
            else if !r.ok then k == Check(called.(conn := FAILED), false)
            else if c.mode.fatal && HasCommit(c, ToResume(c, w, a.order)) then
              k == Check(called.(notified := false, reconnecting := false, conn := FAILED), false)
            else
              k == Check(called.(notified := false, reconnecting := false, conn := CONNECTED,
                                 mode := called.mode.(fatal := false)), true)
  {
    var trying := c.(conn := CONNECTING, mode := c.mode.(egress := true));
    var r := SessionProtocol.Connect(c.session, w.env, w.cfg);
    var called := Adopt(trying, r.session);
    AdoptCalm(trying, r.session);
    ToResumeSame(c, called, w, a.order);
    ResumeBeforeConnected(
      called.(notified := false, reconnecting := false), w, ToResume(called, w, a.order), a.request);
  }

  lemma {:induction false} ToResumeSame(c: Client, c': Client, w: World, order: seq<Text>)
    requires c.data.tables == c'.data.tables && c.mode.instance == c'.mode.instance
    ensures ToResume(c, w, order) == ToResume(c', w, order)
    decreases |order|
  {
    if order != [] { ToResumeSame(c, c', w, order[1..]); }
  }

  // ---- The invariant ----

  ghost predicate Flags(c: Client) {
    && !c.mode.suppressed
    && (c.conn == CONNECTED ==> !c.notified && !c.reconnecting && !c.mode.fatal)
  }

  lemma ConnectKeeps(P: Session -> bool, c: Client, w: World, a: Attempt)
    requires KeptInTry(P) && KeptByTries(P) && P(c.session) && Flags(c)
    ensures var k := ConnectClient(c, w, a);
            && P(k.client.session) && Flags(k.client) && k.client.data == c.data
            && (k.ok <==> k.client.conn == CONNECTED)
  {
    if c.conn != CONNECTED {
      ConnectOutcome(c, w, a);
      ConnectFromKeeps(P, c.session, w.env, w.cfg, {}, 0);
      AdoptCalm(c.(conn := CONNECTING, mode := c.mode.(egress := true)),
                SessionProtocol.Connect(c.session, w.env, w.cfg).session);
    }
  }

  lemma AutoCommitKeeps(P: Session -> bool, c: Client, w: World, o: CommitOffset)
    requires KeptByOffers(P) && KeptByUpkeep(P) && P(c.session)
    ensures var c' := AutoCommit(c, w, o);
            P(c'.session) && Calm(if w.autoCommit then Stored(c, o) else c, c')
  {
    SendCommitKeeps(P, Stored(c, o), w, o);
  }

  lemma ObserveKeeps(P: Session -> bool, c: Client, r: ParseResult)
    requires KeptByEvents(P) && P(c.session)
    ensures P(Observe(c, r).session) && Calm(c, Observe(c, r))
  {
    if IsSessionEvent(r) {
      assert P(OnEvent(c.session, r.event));
      AdoptCalm(c, OnEvent(c.session, r.event));
    }
  }

  /** The data after a message: what was received, and the commit if there was one. */
  function DataAfter(d: Data, w: World, r: ParseResult, topic: Text, skip: bool, ch: Choice): Data {
    var received := Receive(d, r.messageId, skip, ch);
    if received.1 && w.autoCommit
    then received.0.(commits := Put(received.0.commits, OffsetOf(d.tables, w, r, topic)))
    else received.0
  }

  lemma FinishKeeps(P: Session -> bool, c: Client, w: World, r: ParseResult, topic: Text, skip: bool, ch: Choice)
    requires KeptByOffers(P) && KeptByUpkeep(P) && P(c.session)
    ensures var c' := Finish(c, w, r, topic, skip, ch);
            && P(c'.session) && Calm(c.(data := c'.data), c')
            && c'.data == DataAfter(c.data, w, r, topic, skip, ch)
  {
    var received := Receive(c.data, r.messageId, skip, ch);
    var kept := c.(data := received.0);
    if received.1 {
      AutoCommitKeeps(P, kept, w, OffsetOf(c.data.tables, w, r, topic));
    }
  }

  lemma ReceiveTables(d: Data, id: Text, skip: bool, ch: Choice)
    ensures Receive(d, id, skip, ch).0.tables == d.tables && Receive(d, id, skip, ch).0.commits == d.commits
  {
  }

  lemma HandleKeeps(P: Session -> bool, c: Client, w: World, r: ParseResult, ch: Choice)
    requires KeptByEvents(P) && KeptByOffers(P) && KeptByUpkeep(P) && P(c.session)
    ensures var c' := Handle(c, w, r, ch);
            var topic := ExtractTopic(c, w, r, ch.pick);
            && P(c'.session) && Calm(c.(data := c'.data), c')
            && c'.data == DataAfter(c.data, w, r, topic, ShouldSkip(r, topic), ch)
  {
    ObserveKeeps(P, c, r);
    var topic := ExtractTopic(c, w, r, ch.pick);
    FinishKeeps(P, Observe(c, r), w, r, topic, ShouldSkip(r, topic), ch);
  }

  /** The steps that connect or disconnect. */
  predicate LinkStep(st: Step) {
    st.ConnectStep? || st.DisconnectStep? || st.DriverErrorStep? || st.ReconnectStep?
  }

  lemma LinkStepKeeps(P: Session -> bool, c: Client, w: World, st: Step)
    requires KeptInTry(P) && KeptByTries(P) && P(c.session) && Flags(c) && LinkStep(st)
    ensures var c' := PerformStep(c, w, st); P(c'.session) && Flags(c') && c'.data == c.data
  {
    match st
    case ConnectStep(a) => ConnectKeeps(P, c, w, a);
    case DisconnectStep =>
      QuietDisconnect(c, w);
      DisconnectKeeps(P, c.session, w.env, w.cfg);
    case DriverErrorStep => DriverErrorKeeps(P, c, w);
    case ReconnectStep(a) =>
      QuietDisconnect(c, w);
      DisconnectKeeps(P, c.session, w.env, w.cfg);
      ConnectKeeps(P, Dropped(c, w), w, a);
  }

  /** The steps that change the subscription tables. */
  predicate TableStep(st: Step) {
    st.SubscribeStep? || st.UnsubscribeStep? || st.ResumeStep?
  }

  lemma TableStepKeeps(P: Session -> bool, c: Client, w: World, st: Step)
    requires KeptByOffers(P) && KeptByUpkeep(P) && P(c.session) && Flags(c) && TableStep(st)
    ensures P(PerformStep(c, w, st).session) && Flags(PerformStep(c, w, st))
    ensures c.mode.fatal ==> PerformStep(c, w, st) == c
  {
    match st
    case SubscribeStep(s, m) => SubscribeKeeps(P, c, w, s, m);
    case UnsubscribeStep(topic, identifier, m) => UnsubscribeKeeps(P, c, w, topic, identifier, m);
    case ResumeStep(topic, identifier, m) => ResumeOneKeeps(P, c, w, topic, identifier, m);
  }

  /** The other calls and handlers leave the client calm, up to its data and its settings. */
  lemma CallStepKeeps(P: Session -> bool, c: Client, w: World, st: Step)
    requires KeptInTry(P) && P(c.session) && Flags(c) && !LinkStep(st) && !TableStep(st)
    ensures P(PerformStep(c, w, st).session) && Flags(PerformStep(c, w, st))
  {
    match st
    case GiveUpStep(_) =>
    case IncomingStep(data, ch) => HandleKeeps(P, c, w, ParseMessage(data, w.sequenceOf), ch);
    case CommitStep(o) => SendCommitKeeps(P, Stored(c, o), w, o);
    case SendOffsetStep(o) => SendCommitKeeps(P, c, w, o);
    case CommitRequestStep(topic) => CommitRequestKeeps(P, c, w, topic);
    case PublishStep(m) => PublishRequestKeeps(P, c, w, m);
    case KeepAliveStep =>
      SendKeepAliveKeeps(P, c.session, w.env);
      AdoptCalm(c, SendKeepAlive(c.session, w.env).session);
    case PollingLossStep =>
    case SetAutoReconnect(_) =>
    case SetInstance(_) =>
  }

  /** Any session property and the flags are kept by every step. */
  lemma NextKeeps(P: Session -> bool, c: Client, w: World, st: Step)
    requires KeptInTry(P) && KeptByTries(P) && P(c.session) && Flags(c)
    ensures P(Next(c, w, st).session) && Flags(Next(c, w, st))
  {
    if LinkStep(st) {
      LinkStepKeeps(P, c, w, st);
    } else if TableStep(st) {
      TableStepKeeps(P, c, w, st);
    } else {
      CallStepKeeps(P, c, w, st);
    }
  }

  lemma DriverErrorKeeps(P: Session -> bool, c: Client, w: World)
    requires KeptByOffers(P) && KeptByUpkeep(P) && P(c.session) && Flags(c)
    ensures P(OnDriverError(c, w).session) && Flags(OnDriverError(c, w))
    ensures OnDriverError(c, w).conn != CONNECTED && OnDriverError(c, w).data == c.data
  {
    var s' := SessionProtocol.Disconnect(c.session, w.env, w.cfg);
    DisconnectKeeps(P, c.session, w.env, w.cfg);
    AdoptCalm(c.(mode := c.mode.(fatal := true)), s');
  }

  // ---- What a step does to the data ----

  lemma NothingKept()
    ensures KeptInTry((s: Session) => true) && KeptByTries((s: Session) => true)
  {
  }

  /** The tables after a subscription with one of the given instances. */
  predicate Tracks(t: Tables, w: World, s: Subscription, instance: Text, t': Tables) {
    t' == t || t' == Track(t, w.clientId, s) || t' == Track(t, w.clientId, s.(instance := instance))
  }

  /** Messages, commits and subscriptions are the only steps that touch the data. */
  ghost predicate DataStep(c: Client, w: World, st: Step, d: Data) {
    match st
    case IncomingStep(data, ch) =>
      var r := ParseMessage(data, w.sequenceOf);
      var topic := ExtractTopic(c, w, r, ch.pick);
      d == if r.success then DataAfter(c.data, w, r, topic, ShouldSkip(r, topic), ch) else c.data
    case CommitStep(o) => d == c.data.(commits := Put(c.data.commits, o))
    case SubscribeStep(s, _) =>
      d == c.data.(tables := d.tables) && Tracks(c.data.tables, w, s, c.mode.instance, d.tables)
    case ResumeStep(topic, identifier, _) =>
      d == c.data.(tables := d.tables) &&
      Tracks(c.data.tables, w, Subscription(topic, identifier, Latest(), []), c.mode.instance, d.tables)
    case UnsubscribeStep(topic, identifier, _) =>
      d == c.data || d == c.data.(tables := Untrack(c.data.tables, topic, identifier))
    case _ => d == c.data
  }

  lemma TableStepData(c: Client, w: World, st: Step)
    requires TableStep(st)
    ensures DataStep(c, w, st, PerformStep(c, w, st).data)
  {
    NothingKept();
    var P := (s: Session) => true;
    match st
    case SubscribeStep(s, m) => SubscribeKeeps(P, c, w, s, m);
    case UnsubscribeStep(topic, identifier, m) => UnsubscribeKeeps(P, c, w, topic, identifier, m);
    case ResumeStep(topic, identifier, m) => ResumeOneKeeps(P, c, w, topic, identifier, m);
  }

  lemma CallStepData(c: Client, w: World, st: Step)
    requires !LinkStep(st) && !TableStep(st)
    ensures DataStep(c, w, st, PerformStep(c, w, st).data)
  {
    NothingKept();
    var P := (s: Session) => true;
    match st
    case GiveUpStep(_) =>
    case IncomingStep(data, ch) => HandleKeeps(P, c, w, ParseMessage(data, w.sequenceOf), ch);
    case CommitStep(o) => SendCommitKeeps(P, Stored(c, o), w, o);
    case SendOffsetStep(o) => SendCommitKeeps(P, c, w, o);
    case CommitRequestStep(topic) => CommitRequestKeeps(P, c, w, topic);
    case PublishStep(m) => PublishRequestKeeps(P, c, w, m);
    case KeepAliveStep => AdoptCalm(c, SendKeepAlive(c.session, w.env).session);
    case PollingLossStep =>
    case SetAutoReconnect(_) =>
    case SetInstance(_) =>
  }

  lemma StepData(c: Client, w: World, st: Step)
    requires Flags(c)
    ensures DataStep(c, w, st, PerformStep(c, w, st).data)
  {
    if LinkStep(st) {
      NothingKept();
      LinkStepKeeps(s => true, c, w, st);
    } else if TableStep(st) {
      TableStepData(c, w, st);
    } else {
      CallStepData(c, w, st);
    }
  }

  lemma {:induction false} RunKeepsSession(P: Session -> bool, c: Client, w: World, steps: seq<Step>)
    requires KeptInTry(P) && KeptByTries(P) && P(c.session) && Flags(c)
    ensures P(RunFrom(c, w, steps).session) && Flags(RunFrom(c, w, steps))
    decreases |steps|
  {
    if steps != [] {
      RunKeepsSession(P, c, w, steps[..|steps| - 1]);
      NextKeeps(P, RunFrom(c, w, steps[..|steps| - 1]), w, steps[|steps| - 1]);
    }
  }

  /**
   In every reachable state of the client the session invariant holds, so the cached
   buffers agree with the session also under the client's own calls; and CONNECTED means
   that no loss is notified, no reconnect is under way and no driver error is pending.
   */
  lemma ClientRunInv(w: World, instance: Text, steps: seq<Step>)
    ensures var c := RunFrom(NewClient(instance), w, steps); Inv(c.session) && Flags(c)
  {
    InvKept();
    RunKeepsSession(Invariant(), NewClient(instance), w, steps);
  }
}
