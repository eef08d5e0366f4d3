/**
 A cluster that answers: connect reaches CONNECTED, sends succeed, and the runs that the
 safety theorems speak about exist.
 */
module Liveness {
  import opened Bytes
  import opened SessionFrames
  import opened TopicCodec
  import opened SessionProtocol
  import opened ClientProtocol
  import opened ClientInvariant
  import opened CommitStore
  import opened ClientTheorems
  import opened Subscriptions

  /** The first member is there, and its OK event arrives while the publication connects. */
  predicate Welcomes(env: Env, cfg: Config, e: SessionEvent) {
    && cfg.maxRetries > 0 && cfg.members > 0
    && env.resolves(0) && env.publication(0) == Ready && env.duringTry(0) == [e] && Accepted(env.offer(0))
    && e.code == OK && e.correlationId > 0 && e.term > 0
  }

  ghost predicate Serves(w: World) {
    && (forall n: nat :: Accepted(w.env.offer(n)))
    && (forall n: nat :: w.env.probe(n) == Up)
    && (forall n: nat :: w.images(n))
  }

  /** Everything a session needs to send. */
  predicate LiveSession(s: Session) {
    s.connected && s.publication && s.sessionId > 0 && s.term > 0
  }

  lemma OneEvent(s: Session, e: SessionEvent)
    ensures OnEvents(s, [e]) == OnEvent(s, e)
  {
    assert [e][1..] == [];
    assert OnEvents(s, [e]) == OnEvents(OnEvent(s, e), []);
  }

  lemma TryMeetsMember(s: Session, env: Env, cfg: Config, e: SessionEvent)
    requires Welcomes(env, cfg, e) && s == NewSession().(redirect := -1)
    ensures var r := TryMember(s, env, cfg, 0, false);
            r.ok && LiveSession(r.session) && r.session.sessionId == e.correlationId && r.session.term == e.term
  {
    var noted := s.(trace := s.trace.(tries := s.trace.tries + [Try(0, false)]));
    var there := noted.(publication := true);
    OneEvent(there, e);
    var waited := PauseInTry(there, env);
    assert waited.connected && waited.publication && |waited.trace.offers| == 0;
    assert RequestFrom(waited, env, cfg, CONNECT_OFFERS).ok;
  }

  /** A new session manager gets its session from a member that welcomes it, with the event's ids. */
  lemma ConnectMeetsMember(env: Env, cfg: Config, e: SessionEvent)
    requires Welcomes(env, cfg, e)
    ensures var r := SessionProtocol.Connect(NewSession(), env, cfg);
            r.ok && LiveSession(r.session) && r.session.sessionId == e.correlationId && r.session.term == e.term
  {
    var s := NewSession();
    assert s.(redirect := -1) == s;
    TryMeetsMember(s, env, cfg, e);
    assert SweepFrom(s, env, cfg, {}, 0).ok;
  }

  ghost predicate LiveClient(c: Client) {
    c.conn == CONNECTED && !c.mode.fatal && LiveSession(c.session)
  }

  /** And the client reaches CONNECTED. */
  lemma ClientConnects(w: World, instance: Text, a: Attempt, e: SessionEvent)
    requires Welcomes(w.env, w.cfg, e) && a.aeronUp && a.egressUp
    ensures var k := ConnectClient(NewClient(instance), w, a);
            k.ok && LiveClient(k.client) && Flags(k.client) && k.client.data == NewClient(instance).data
  {
    var c := NewClient(instance);
    ConnectMeetsMember(w.env, w.cfg, e);
    ConnectOutcome(c, w, a);
    AdoptCalm(c.(conn := CONNECTING, mode := c.mode.(egress := true)),
              SessionProtocol.Connect(c.session, w.env, w.cfg).session);
  }

  /** While the cluster serves, a message that can be encoded is sent, and the session stays live. */
  lemma PublishSucceeds(s: Session, w: World, m: TopicMessage)
    requires Serves(w) && LiveSession(s) && FitsLengthType(m)
    ensures var r := Publish(s, w.env, w.cfg, m);
            r.ok && LiveSession(r.session) && r.session.trace.callbacks == s.trace.callbacks
  {
    var once := CheckConnected(s, w.env);
    var twice := CheckConnected(once.session, w.env);
    var thrice := CheckConnected(twice.session, w.env);
    assert once.ok && twice.ok && thrice.ok;
    assert Accepted(NextOffer(thrice.session, w.env));
  }

  lemma RequestSucceeds(c: Client, w: World, m: TopicMessage)
    requires Serves(w) && LiveClient(c) && FitsLengthType(m)
    ensures var r := PublishRequest(c, w, m); r.ended == Done && LiveClient(r.client) && r.client.data == c.data
  {
    var k := IsConnected(c, w);
    assert k.ok && LiveClient(k.client);
    PublishSucceeds(k.client.session, w, m);
    var s' := Publish(k.client.session, w.env, w.cfg, m).session;
    assert NewCallbacks(k.client.session, s') == [];
    assert Adopt(k.client, s') == k.client.(session := s');
  }

  lemma SubscribeSucceeds(c: Client, w: World, s: Subscription, m: TopicMessage)
    requires Serves(w) && LiveClient(c) && FitsLengthType(m)
    ensures var r := Subscribe(c, w, s, m);
            && r.ended == Done && LiveClient(r.client)
            && r.client.data == c.data.(tables := Track(c.data.tables, w.clientId, Effective(c, s)))
  {
    RequestSucceeds(c, w, m);
  }

  /** The run of two subscriptions and one unsubscribe on a client that has just connected. */
  function FallbackRun(a: Attempt, first: Subscription, second: Subscription, m: TopicMessage): seq<Step> {
    [ConnectStep(a)] + [SubscribeStep(first, m)] + [SubscribeStep(second, m)] + [UnsubscribeStep(second.topic, [], m)]
  }

  lemma RunStep(c: Client, w: World, steps: seq<Step>, st: Step)
    ensures RunFrom(c, w, steps + [st]) == Next(RunFrom(c, w, steps), w, st)
  {
    assert (steps + [st])[..|steps|] == steps;
  }

  /** The state that run leads to, call by call. */
  ghost function AfterRequests(c: Client, w: World, first: Subscription, second: Subscription, m: TopicMessage): Client
  {
    Unsubscribe(Subscribe(Subscribe(c, w, first, m).client, w, second, m).client, w, second.topic, [], m).client
  }

  lemma FirstStep(c: Client, w: World, st: Step)
    ensures RunFrom(c, w, [st]) == Next(c, w, st)
  {
    RunStep(c, w, [], st);
    assert [] + [st] == [st];
  }

  lemma FourSteps(c: Client, w: World, s1: Step, s2: Step, s3: Step, s4: Step)
    ensures RunFrom(c, w, [s1] + [s2] + [s3] + [s4]) == Next(Next(Next(Next(c, w, s1), w, s2), w, s3), w, s4)
  {
    FirstStep(c, w, s1);
    RunStep(c, w, [s1], s2);
    RunStep(c, w, [s1] + [s2], s3);
    RunStep(c, w, [s1] + [s2] + [s3], s4);
  }

  lemma NextRequests(c: Client, w: World, first: Subscription, second: Subscription, m: TopicMessage)
    ensures Next(Next(Next(c, w, SubscribeStep(first, m)), w, SubscribeStep(second, m)), w,
                 UnsubscribeStep(second.topic, [], m))
            == AfterRequests(c, w, first, second, m)
  {
  }

  lemma RunIsRequests(w: World, instance: Text, a: Attempt, first: Subscription, second: Subscription, m: TopicMessage)
    ensures RunFrom(NewClient(instance), w, FallbackRun(a, first, second, m))
            == AfterRequests(ConnectClient(NewClient(instance), w, a).client, w, first, second, m)
  {
    var c0 := NewClient(instance);
    FourSteps(c0, w, ConnectStep(a), SubscribeStep(first, m), SubscribeStep(second, m),
              UnsubscribeStep(second.topic, [], m));
    assert Next(c0, w, ConnectStep(a)) == ConnectClient(c0, w, a).client;
    NextRequests(ConnectClient(c0, w, a).client, w, first, second, m);
  }

  lemma RequestsReachFallback(c: Client, w: World, first: Subscription, second: Subscription, m: TopicMessage)
    requires Serves(w) && LiveClient(c) && FitsLengthType(m) && SharedKey(first, second)
    requires c.data.tables == Tables({}, map[], map[])
    ensures var t := AfterRequests(c, w, first, second, m).data.tables; t.tracked == map[] && t.topics == {first.topic}
  {
    SubscribeSucceeds(c, w, first, m);
    var one := Subscribe(c, w, first, m).client;
    SubscribeSucceeds(one, w, second, m);
    RequestSucceeds(Subscribe(one, w, second, m).client, w, m);
    SharedKeyTables(w.clientId, first, second);
  }

  /**
   With a '|' in a topic the fallback branch of resume is reached on a real run: connect,
   subscribe twice under one key, withdraw the second. Then nothing is tracked although the
   first topic is still subscribed.
   */
  lemma PipeReachesFallback(w: World, instance: Text, a: Attempt, e: SessionEvent,
                            first: Subscription, second: Subscription, m: TopicMessage)
    requires Welcomes(w.env, w.cfg, e) && Serves(w) && a.aeronUp && a.egressUp
    requires FitsLengthType(m) && SharedKey(first, second)
    ensures var t := RunFrom(NewClient(instance), w, FallbackRun(a, first, second, m)).data.tables;
            t.tracked == map[] && t.topics == {first.topic}
  {
    ClientConnects(w, instance, a, e);
    RunIsRequests(w, instance, a, first, second, m);
    RequestsReachFallback(ConnectClient(NewClient(instance), w, a).client, w, first, second, m);
  }

  // ---- The driver-error latch ----

  lemma AfterSubscribe(c: Client, w: World, s: Subscription, m: TopicMessage)
    requires Serves(w) && LiveClient(c) && Flags(c) && FitsLengthType(m) && s.instance != []
    ensures var c' := Next(c, w, SubscribeStep(s, m));
            Flags(c') && c'.data.tables == Track(c.data.tables, w.clientId, s)
  {
    NothingKept();
    SubscribeSucceeds(c, w, s, m);
    TableStepKeeps(x => true, c, w, SubscribeStep(s, m));
  }

  lemma AfterCommit(c: Client, w: World, t: Tables, s: Subscription, o: CommitOffset)
    requires s.identifier != [] && o.topic == s.topic && o.identifier == s.identifier
    requires Flags(c) && c.data.tables == Track(t, w.clientId, s)
    ensures var c' := Next(c, w, CommitStep(o)); Flags(c') && TrackedCommit(c'.data)
  {
    NothingKept();
    StepData(c, w, CommitStep(o));
    CallStepKeeps(x => true, c, w, CommitStep(o));
    assert ResumesCommit(Next(c, w, CommitStep(o)).data, SubscriptionKey(s));
  }

  lemma AfterDriverError(c: Client, w: World)
    requires Flags(c)
    ensures var c' := Next(c, w, DriverErrorStep); c'.mode.fatal && c'.data == c.data
  {
    NothingKept();
    DriverErrorKeeps(x => true, c, w);
    AdoptCalm(c.(mode := c.mode.(fatal := true)), SessionProtocol.Disconnect(c.session, w.env, w.cfg));
  }

  /** A client that connects, subscribes, commits and then meets a driver error. */
  function LatchRun(a: Attempt, s: Subscription, m: TopicMessage, o: CommitOffset): seq<Step> {
    [ConnectStep(a)] + [SubscribeStep(s, m)] + [CommitStep(o)] + [DriverErrorStep]
  }

  /** After an ordinary run of that kind the client never reaches CONNECTED again, even if the cluster serves. */
  lemma OneDriverErrorIsEnough(w: World, instance: Text, a: Attempt, e: SessionEvent,
                               s: Subscription, m: TopicMessage, o: CommitOffset, more: seq<Step>)
    requires Welcomes(w.env, w.cfg, e) && Serves(w) && a.aeronUp && a.egressUp && FitsLengthType(m)
    requires s.identifier != [] && s.instance != [] && o.topic == s.topic && o.identifier == s.identifier
    ensures RunFrom(RunFrom(NewClient(instance), w, LatchRun(a, s, m, o)), w, more).conn != CONNECTED
  {
    var c0 := NewClient(instance);
    FourSteps(c0, w, ConnectStep(a), SubscribeStep(s, m), CommitStep(o), DriverErrorStep);
    ClientConnects(w, instance, a, e);
    var c1 := ConnectClient(c0, w, a).client;
    assert Next(c0, w, ConnectStep(a)) == c1;
    AfterSubscribe(c1, w, s, m);
    var c2 := Next(c1, w, SubscribeStep(s, m));
    AfterCommit(c2, w, c1.data.tables, s, o);
    AfterDriverError(Next(c2, w, CommitStep(o)), w);
    DriverErrorIsForever(w, instance, LatchRun(a, s, m, o), more);
  }
}
