/** ClusterClient::Impl: the client's calls and handlers as the source runs them, field by field. */
module ClusterClients {
  import opened Bytes
  import opened SessionFrames
  import opened TopicCodec
  import opened Parser
  import opened CommitStore
  import opened CommitFrames
  import opened SessionProtocol
  import opened SessionManagers
  import opened ClientProtocol
  import opened ClientInvariant

  class ClusterClient {
    const world: World
    const session: SessionManager
    const commits: CommitManager
    var conn: ConnectionState
    var notified: bool
    var reconnecting: bool
    var suppressed: bool
    var fatal: bool
    var autoReconnect: bool
    var egress: bool
    var instance: Text
    var processed: set<Text>
    var topics: set<Text>
    var identifiers: map<Text, Text>
    var tracked: map<Text, Subscription>
    var invoked: seq<Text>
    var errors: seq<Reason>
    var scheduled: nat
    var imageChecks: nat

    ghost predicate Valid() {
      session.Valid() && session.env == world.env && session.cfg == world.cfg
    }

    ghost function State(): Client
      requires Valid()
      reads this, commits, session, session.headerBuffer, session.keepAliveBuffer
    {
      Client(session.State(), conn, notified, reconnecting, imageChecks, errors, scheduled,
             Mode(suppressed, fatal, autoReconnect, egress, instance),
             Data(processed, commits.commits, Tables(topics, identifiers, tracked), invoked))
    }

    constructor (world: World, instance: Text)
      ensures Valid() && fresh(session) && fresh(commits)
      ensures fresh(session.headerBuffer) && fresh(session.keepAliveBuffer)
      ensures this.world == world && State() == NewClient(instance)
    {
      this.world := world;
      session := new SessionManager(world.cfg, world.env);
      commits := new CommitManager();
      conn, notified, reconnecting, suppressed := DISCONNECTED, false, false, false;
      fatal, autoReconnect, egress, this.instance := false, false, false, instance;
      processed, topics, identifiers, tracked := {}, {}, map[], map[];
      invoked, errors, scheduled, imageChecks := [], [], 0, 0;
    }

    // ---- Flags ----

    method SetConnectionState(s: ConnectionState)
      requires Valid()
      modifies this`conn
      ensures State() == old(State()).(conn := s)
    {
      conn := s;
    }

    method SetSuppressed(on: bool)
      requires Valid()
      modifies this`suppressed
      ensures State() == old(State()).(mode := old(State()).mode.(suppressed := on))
    {
      suppressed := on;
    }

    method SetEgress(on: bool)
      requires Valid()
      modifies this`egress
      ensures State() == old(State()).(mode := old(State()).mode.(egress := on))
    {
      egress := on;
    }

    method SetDriverError(on: bool)
      requires Valid()
      modifies this`fatal
      ensures State() == old(State()).(mode := old(State()).mode.(fatal := on))
    {
      fatal := on;
    }

    method ClearLossFlags()
      requires Valid()
      modifies this`notified, this`reconnecting
      ensures State() == old(State()).(notified := false, reconnecting := false)
    {
      notified, reconnecting := false, false;
    }

    // ---- Connection loss ----

    method ReportError(reason: Reason)
      requires Valid()
      modifies this`errors
      ensures State() == Report(old(State()), reason)
    {
      errors := errors + [reason];
    }

    method ScheduleAutoReconnect()
      requires Valid()
      modifies this`reconnecting, this`scheduled
      ensures State() == Schedule(old(State()))
    {
      if reconnecting { return; }
      reconnecting := true;
      scheduled := scheduled + 1;
    }

    method NotifyConnectionLoss(reason: Reason, allowReconnect: bool)
      requires Valid()
      modifies this`notified, this`conn, this`errors, this`reconnecting, this`scheduled
      ensures State() == NotifyLoss(old(State()), reason, allowReconnect)
    {
      if suppressed || notified { return; }
      notified, conn := true, DISCONNECTED;
      ReportError(reason);
      if allowReconnect && autoReconnect {
        ScheduleAutoReconnect();
      }
    }

    method OnSessionCallback(b: Callback)
      requires Valid()
      modifies this`notified, this`conn, this`errors, this`reconnecting, this`scheduled
      ensures State() == OnCallback(old(State()), b)
    {
      match b
      case StateChanged(up) =>
        if up {
          notified := false;
        } else {
          NotifyConnectionLoss(SessionDisconnected, true);
        }
      case EventSeen(e) =>
        if e.code == CLOSED {
          NotifyConnectionLoss(SessionClosed, true);
        } else if e.code == ERROR {
          NotifyConnectionLoss(SessionErrored, true);
        } else if e.code == AUTHENTICATION_REJECTED {
          NotifyConnectionLoss(AuthenticationRejected, false);
        }
    }

    /** The callbacks the session manager has made since it had made `seen` of them, in order. */
    method RunCallbacks(seen: nat)
      requires Valid()
      modifies this`notified, this`conn, this`errors, this`reconnecting, this`scheduled
      ensures State() == OnCallbacks(old(State()), CallbacksSince(seen, session.trace.callbacks))
    {
      var bs := CallbacksSince(seen, session.trace.callbacks);
      var i := 0;
      while i < |bs|
        invariant i <= |bs|
        invariant OnCallbacks(State(), bs[i..]) == OnCallbacks(old(State()), bs)
      {
        assert bs[i..][0] == bs[i] && bs[i..][1..] == bs[i + 1..];
        OnSessionCallback(bs[i]);
        i := i + 1;
      }
    }

    // ---- Sending ----

    method IsConnected() returns (ok: bool)
      requires Valid()
      modifies this`imageChecks, session`trace
      ensures Check(State(), ok) == ClientProtocol.IsConnected(old(State()), world)
    {
      if conn != CONNECTED { return false; }
      ok := session.IsConnected();
      if ok && egress {
        ok := world.images(imageChecks);
        imageChecks := imageChecks + 1;
      }
    }

    /** ensure_connected_or_throw and publish_message */
    method Publish(m: TopicMessage) returns (ended: Ended)
      requires Valid()
      modifies session, this`notified, this`conn, this`errors, this`reconnecting, this`scheduled,
               this`imageChecks
      ensures Did(State(), ended) == PublishRequest(old(State()), world, m)
    {
      if fatal { return Threw; }
      var up := IsConnected();
      if !up { return Threw; }
      var seen := |session.trace.callbacks|;
      var ok := session.PublishMessage(m);
      RunCallbacks(seen);
      return if ok then Done else Threw;
    }

    method SendCommitOffset(o: CommitOffset) returns (ended: Ended)
      requires Valid()
      modifies session, this`notified, this`conn, this`errors, this`reconnecting, this`scheduled,
               this`imageChecks
      ensures Did(State(), ended) == ClientProtocol.SendCommitOffset(old(State()), world, o)
    {
      if fatal { return Threw; }
      var up := IsConnected();
      if !up { return Refused; }
      var now := world.clock(|session.trace.offers|);
      var frame := BuildCommitOffsetMessage(o, o.identifier, world.commitJson(o), now, Decimal(now));
      if !frame.Ok? { return Threw; }
      var seen := |session.trace.callbacks|;
      var ok := session.SendCombinedMessage(frame.value);
      RunCallbacks(seen);
      return if ok then Done else Refused;
    }

    method SendCommitRequest(topic: Text) returns (ended: Ended)
      requires Valid()
      modifies session, this`notified, this`conn, this`errors, this`reconnecting, this`scheduled,
               this`imageChecks
      ensures Did(State(), ended) == ClientProtocol.SendCommitRequest(old(State()), world, topic)
    {
      if fatal { return Threw; }
      var up := IsConnected();
      if !up { return Refused; }
      var now := world.clock(|session.trace.offers|);
      var frame := BuildCommitMessage(topic, world.clientId, now, Decimal(now));
      if !frame.Ok? { return Threw; }
      var seen := |session.trace.callbacks|;
      var ok := session.SendRawMessage(Raw, frame.value);
      RunCallbacks(seen);
      return if ok then Done else Refused;
    }

    method Commit(o: CommitOffset) returns (ended: Ended)
      requires Valid()
      modifies commits, session, this`notified, this`conn, this`errors, this`reconnecting,
               this`scheduled, this`imageChecks
      ensures Did(State(), ended) == CommitMessage(old(State()), world, o)
    {
      commits.CommitMessage(o.topic, o.identifier, o.messageId, o.timestamp, o.sequence);
      ended := SendCommitOffset(o);
    }

    // ---- Subscriptions ----

    /** untrack_subscription: every record is looked at once, in any order. */
    method UntrackSubscription(topic: Text, identifier: Text)
      modifies this`tracked
      ensures tracked == Untrack(Tables({}, map[], old(tracked)), topic, identifier).tracked
    {
      var todo := tracked.Keys;
      while todo != {}
        invariant todo <= tracked.Keys <= old(tracked).Keys
        invariant forall k :: k in old(tracked) ==>
          (k in tracked <==> k in todo || !Untracked(old(tracked)[k], topic, identifier))
        invariant forall k :: k in tracked ==> tracked[k] == old(tracked)[k]
        decreases |todo|
      {
        var k :| k in todo;
        todo := todo - {k};
        if Untracked(tracked[k], topic, identifier) {
          tracked := tracked - {k};
        }
      }
    }

    method TrackSubscription(s: Subscription)
      modifies this`topics, this`identifiers, this`tracked
      ensures Tables(topics, identifiers, tracked) ==
              old(Track(Tables(topics, identifiers, tracked), world.clientId, s))
    {
      topics := topics + {s.topic};
      identifiers := identifiers[s.topic := s.identifier];
      var record := s.(identifier := if s.identifier == [] then world.clientId else s.identifier);
      tracked := tracked[SubscriptionKey(record) := record];
    }

    method SendSubscriptionRequest(s: Subscription, m: TopicMessage) returns (ended: Ended)
      requires Valid()
      modifies session, this`notified, this`conn, this`errors, this`reconnecting, this`scheduled,
               this`imageChecks, this`topics, this`identifiers, this`tracked
      ensures Did(State(), ended) == Subscribe(old(State()), world, s, m)
    {
      ended := Publish(m);
      if ended == Done {
        TrackSubscription(if s.instance == [] then s.(instance := instance) else s);
      }
    }

    method RemoveSubscription(topic: Text, identifier: Text)
      modifies this`topics, this`identifiers, this`tracked
      ensures Tables(topics, identifiers, tracked) ==
              old(Untrack(Tables(topics, identifiers, tracked), topic, identifier))
    {
      topics := topics - {topic};
      identifiers := identifiers - {topic};
      UntrackSubscription(topic, identifier);
    }

    method SendUnsubscriptionRequest(topic: Text, identifier: Text, m: TopicMessage) returns (ended: Ended)
      requires Valid()
      modifies session, this`notified, this`conn, this`errors, this`reconnecting, this`scheduled,
               this`imageChecks, this`topics, this`identifiers, this`tracked
      ensures Did(State(), ended) == Unsubscribe(old(State()), world, topic, identifier, m)
    {
      ended := Publish(m);
      if ended == Done {
        RemoveSubscription(topic, identifier);
      }
    }

    method ResumeFromLastCommit(topic: Text, identifier: Text, m: TopicMessage) returns (ended: Ended)
      requires Valid()
      modifies session, this`notified, this`conn, this`errors, this`reconnecting, this`scheduled,
               this`imageChecks, this`topics, this`identifiers, this`tracked
      ensures Did(State(), ended) == ResumeOne(old(State()), world, topic, identifier, m)
    {
      if fatal { return Threw; }
      var up := IsConnected();
      if !up { return Refused; }
      var last := commits.GetLastCommit(topic, identifier);
      if last == None {
        ended := SendSubscriptionRequest(Subscription(topic, identifier, Latest(), []), m);
      } else {
        ended := SendCommitOffset(last.value);
      }
    }

    method RecordFor(key: Text) returns (subs: seq<Subscription>)
      requires Valid()
      ensures subs == RecordOf(State(), world, key)
    {
      if tracked != map[] {
        return if key in tracked then [tracked[key]] else [];
      }
      if key !in topics { return []; }
      var identifier := if key in identifiers then identifiers[key] else world.clientId;
      return [Subscription(key, identifier, Latest(), instance)];
    }

    /** The first half of resume_subscribed_topics: the records to go through. */
    method CollectSubscriptions(order: seq<Text>) returns (subs: seq<Subscription>)
      requires Valid()
      ensures subs == ToResume(State(), world, order)
    {
      subs := [];
      ghost var c := State();
      var i := 0;
      while i < |order|
        invariant i <= |order|
        invariant subs + ToResume(c, world, order[i..]) == ToResume(c, world, order)
      {
        assert order[i..][0] == order[i] && order[i..][1..] == order[i + 1..];
        var found := RecordFor(order[i]);
        Reassociate(subs, found, ToResume(c, world, order[i + 1..]));
        subs := subs + found;
        i := i + 1;
      }
    }

    method ResumeSubscribedTopics(order: seq<Text>, request: Subscription -> TopicMessage) returns (ended: Ended)
      requires Valid()
      modifies session, this`notified, this`conn, this`errors, this`reconnecting, this`scheduled,
               this`imageChecks, this`topics, this`identifiers, this`tracked
      ensures Did(State(), ended) == Resume(old(State()), world, ToResume(old(State()), world, order), request)
    {
      var subs := CollectSubscriptions(order);
      var i := 0;
      while i < |subs|
        invariant i <= |subs|
        invariant Resume(State(), world, subs[i..], request) == Resume(old(State()), world, subs, request)
      {
        assert subs[i..][0] == subs[i] && subs[i..][1..] == subs[i + 1..];
        var last := commits.GetLastCommit(subs[i].topic, subs[i].identifier);
        if last.Some? {
          ended := SendCommitOffset(last.value);
          if ended == Threw { return; }
        } else {
          ended := SendSubscriptionRequest(subs[i], request(subs[i]));
        }
        i := i + 1;
      }
      ended := Done;
    }

    // ---- Connect and disconnect ----

    /** The session part of connect, with the callbacks that come out of it. */
    method ConnectSession() returns (ok: bool)
      requires Valid()
      modifies session, session.headerBuffer, session.keepAliveBuffer, this`notified, this`conn,
               this`errors, this`reconnecting, this`scheduled
      ensures var r := SessionProtocol.Connect(old(session.State()), world.env, world.cfg);
              ok == r.ok && State() == Adopt(old(State()), r.session)
    {
      var seen := |session.trace.callbacks|;
      var result := session.Connect();
      RunCallbacks(seen);
      ok := result.success;
    }

    method Connect(a: Attempt) returns (ok: bool)
      requires Valid()
      modifies session, session.headerBuffer, session.keepAliveBuffer, this`notified, this`conn,
               this`errors, this`reconnecting, this`scheduled, this`topics, this`identifiers,
               this`tracked, this`imageChecks, this`egress, this`fatal
      ensures Check(State(), ok) == ConnectClient(old(State()), world, a)
    {
      if conn == CONNECTED { return true; }
      SetConnectionState(CONNECTING);
      if !a.aeronUp || !a.egressUp {
        SetConnectionState(FAILED);
        return false;
      }
      SetEgress(true);
      ok := ConnectSession();
      if !ok {
        SetConnectionState(FAILED);
        return;
      }
      ok := FinishConnect(a);
    }

    /** The last lines of connect: flags, resume, driver error, CONNECTED, in this order. */
    method FinishConnect(a: Attempt) returns (ok: bool)
      requires Valid()
      modifies session, this`notified, this`conn, this`errors, this`reconnecting, this`scheduled,
               this`topics, this`identifiers, this`tracked, this`imageChecks, this`fatal
      ensures Check(State(), ok) == Connected(old(State()), world, a)
    {
      ghost var called := State();
      ClearLossFlags();
      ToResumeSame(called, State(), world, a.order);
      var ended := ResumeSubscribedTopics(a.order, a.request);
      if ended == Threw {
        SetConnectionState(FAILED);
        return false;
      }
      SetDriverError(false);
      SetConnectionState(CONNECTED);
      ok := true;
    }

    /** session_manager_->disconnect(), with the callbacks that come out of it. */
    method DisconnectSession()
      requires Valid()
      modifies session, this`notified, this`conn, this`errors, this`reconnecting, this`scheduled
      ensures State() == Adopt(old(State()), SessionProtocol.Disconnect(old(session.State()), world.env, world.cfg))
    {
      var seen := |session.trace.callbacks|;
      session.Disconnect();
      RunCallbacks(seen);
    }

    method DisconnectSuppressed()
      requires Valid()
      modifies session, this`notified, this`conn, this`errors, this`reconnecting, this`scheduled,
               this`suppressed
      ensures State() == DisconnectQuietly(old(State()), world)
    {
      SetSuppressed(true);
      DisconnectSession();
      SetSuppressed(false);
    }

    method Disconnect()
      requires Valid()
      modifies session, this`notified, this`conn, this`errors, this`reconnecting, this`scheduled,
               this`suppressed, this`egress
      ensures State() == DisconnectClient(old(State()), world)
    {
      var wasConnected := conn == CONNECTED;
      DisconnectSuppressed();
      if wasConnected {
        SetConnectionState(DISCONNECTED);
        SetEgress(false);
      }
    }

    method HandleAeronError()
      requires Valid()
      modifies session, this`notified, this`conn, this`errors, this`reconnecting, this`scheduled, this`fatal
      ensures State() == OnDriverError(old(State()), world)
    {
      if fatal { return; }
      SetDriverError(true);
      DisconnectSession();
      NotifyConnectionLoss(DriverError, false);
    }

    // ---- Auto-reconnect ----

    method ReconnectOnce(a: Attempt) returns (ok: bool)
      requires Valid()
      modifies session, session.headerBuffer, session.keepAliveBuffer, this`notified, this`conn,
               this`errors, this`reconnecting, this`scheduled, this`topics, this`identifiers,
               this`tracked, this`imageChecks, this`egress, this`fatal, this`suppressed
      ensures Check(State(), ok) == Reconnect(old(State()), world, a)
    {
      DisconnectSuppressed();
      SetEgress(false);
      ok := Connect(a);
      if ok {
        ClearLossFlags();
      }
    }

    /** The body of the reconnect thread. */
    method AutoReconnect(attempts: nat -> Attempt, enabled: nat -> bool)
      requires Valid()
      modifies session, session.headerBuffer, session.keepAliveBuffer, this`notified, this`conn,
               this`errors, this`reconnecting, this`scheduled, this`topics, this`identifiers,
               this`tracked, this`imageChecks, this`egress, this`fatal, this`suppressed
      ensures State() == Episode(old(State()), Turns(world, attempts), enabled, 0)
    {
      var attempt := 0;
      while attempt < MAX_RECONNECT_ATTEMPTS && enabled(attempt)
        invariant Episode(State(), Turns(world, attempts), enabled, attempt) ==
                  Episode(old(State()), Turns(world, attempts), enabled, 0)
        decreases MAX_RECONNECT_ATTEMPTS - attempt
      {
        var ok := ReconnectTurn(attempts, attempt);
        if ok { return; }
        attempt := attempt + 1;
      }
      StopReconnecting(enabled(attempt));
    }

    method ReconnectTurn(attempts: nat -> Attempt, k: nat) returns (ok: bool)
      requires Valid()
      modifies session, session.headerBuffer, session.keepAliveBuffer, this`notified, this`conn,
               this`errors, this`reconnecting, this`scheduled, this`topics, this`identifiers,
               this`tracked, this`imageChecks, this`egress, this`fatal, this`suppressed
      ensures Check(State(), ok) == Turns(world, attempts)(old(State()), k)
    {
      ok := ReconnectOnce(attempts(k));
    }

    method StopReconnecting(reported: bool)
      requires Valid()
      modifies this`reconnecting, this`errors
      ensures State() == GiveUp(old(State()), reported)
    {
      reconnecting := false;
      if reported {
        ReportError(ReconnectFailed);
      }
    }

    // ---- Incoming messages ----

    /** mark_message_processed; the ids it drops are the first 100 in an order of the set's own. */
    method MarkMessageProcessed(id: Text) returns (dropped: set<Text>)
      requires Valid()
      modifies this`processed
      ensures MayEvict(old(State()).data, id, dropped)
      ensures State() == old(State()).(data := MarkProcessed(old(State()).data, id, dropped))
    {
      processed := processed + {id};
      dropped := {};
      if |processed| > CAPACITY {
        ghost var grown := processed;
        while |dropped| < EVICTION && processed != {}
          invariant processed == grown - dropped && dropped <= grown && |dropped| <= EVICTION
          decreases EVICTION - |dropped|
        {
          var x :| x in processed;
          dropped := dropped + {x};
          processed := processed - {x};
        }
      }
    }

    method ObserveEvent(r: ParseResult)
      requires Valid()
      modifies session, session.headerBuffer, session.keepAliveBuffer, this`notified, this`conn,
               this`errors, this`reconnecting, this`scheduled
      ensures State() == Observe(old(State()), r)
    {
      if IsSessionEvent(r) {
        var seen := |session.trace.callbacks|;
        session.HandleSessionEvent(r.event);
        RunCallbacks(seen);
      }
    }

    method CommitAutomatically(o: CommitOffset)
      requires Valid()
      modifies commits, session, this`notified, this`conn, this`errors, this`reconnecting,
               this`scheduled, this`imageChecks
      ensures State() == AutoCommit(old(State()), world, o)
    {
      if world.autoCommit {
        var ended := Commit(o);
        if ended == Threw {
          ReportError(HandlingError);
        }
      }
    }

    /** handle_incoming_message from the duplicate check on; `throws` is the callback's choice. */
    method FinishMessage(r: ParseResult, topic: Text, skip: bool, throws: bool, ghost pick: Text)
      returns (dropped: set<Text>)
      requires Valid()
      modifies commits, session, this`notified, this`conn, this`errors, this`reconnecting,
               this`scheduled, this`imageChecks, this`processed, this`invoked
      ensures Marks(old(State()).data, r.messageId, skip, throws) ==> MayEvict(old(State()).data, r.messageId, dropped)
      ensures State() == Finish(old(State()), world, r, topic, skip, Choice(throws, pick, dropped))
    {
      dropped := {};
      var already := r.messageId != [] && r.messageId in processed;
      var success := true;
      if !already {
        invoked := invoked + [r.messageId];
        success := !throws;
      }
      if success && !skip && r.messageId != [] {
        if !already {
          dropped := MarkMessageProcessed(r.messageId);
        }
        var identifier := if topic in identifiers then identifiers[topic] else world.clientId;
        CommitAutomatically(CommitOffset(topic, identifier, r.messageId, r.timestamp % TWO_64, r.sequence));
      }
    }

    /** extract_topic_from_message; `pick` is the topic the set yields first. */
    method TopicOf(r: ParseResult) returns (topic: Text, pick: Text)
      requires Valid()
      ensures topics != {} ==> pick in topics
      ensures topic == ExtractTopic(State(), world, r, pick)
    {
      pick := [];
      if topics != {} {
        pick :| pick in topics;
      }
      var found := world.topicOf(r.headers, r.payload);
      topic := if found.Some? then found.value else if topics != {} then pick else Ascii("default");
    }

    method HandleMessage(r: ParseResult, throws: bool) returns (ch: Choice)
      requires Valid()
      modifies commits, session, session.headerBuffer, session.keepAliveBuffer, this`notified,
               this`conn, this`errors, this`reconnecting, this`scheduled, this`imageChecks,
               this`processed, this`invoked
      ensures ch.throws == throws && (old(topics) != {} ==> ch.pick in old(topics))
      ensures var c := old(State());
              && (Marks(c.data, r.messageId, ShouldSkip(r, ExtractTopic(c, world, r, ch.pick)), throws) ==>
                    MayEvict(c.data, r.messageId, ch.evict))
              && State() == Handle(c, world, r, ch)
    {
      var topic, pick := TopicOf(r);
      if IsSessionEvent(r) {
        AdoptCalm(State(), OnEvent(session.State(), r.event));
      }
      ObserveEvent(r);
      var dropped := FinishMessage(r, topic, ShouldSkip(r, topic), throws, pick);
      ch := Choice(throws, pick, dropped);
    }

    method HandleIncomingMessage(data: seq<byte>, throws: bool) returns (ch: Choice)
      requires Valid()
      modifies commits, session, session.headerBuffer, session.keepAliveBuffer, this`notified,
               this`conn, this`errors, this`reconnecting, this`scheduled, this`imageChecks,
               this`processed, this`invoked
      ensures ch.throws == throws
      ensures ParseMessage(data, world.sequenceOf).success ==> Possible(old(State()), world, IncomingStep(data, ch))
      ensures State() == Incoming(old(State()), world, data, ch)
    {
      var r := ParseMessage(data, world.sequenceOf);
      ch := Choice(throws, [], {});
      if r.success {
        ch := HandleMessage(r, throws);
      }
    }

    // ---- Other calls ----

    method SendKeepAlive() returns (ok: bool)
      requires Valid()
      modifies session, this`notified, this`conn, this`errors, this`reconnecting, this`scheduled
      ensures State() == Adopt(old(State()), SessionProtocol.SendKeepAlive(old(session.State()), world.env).session)
    {
      var seen := |session.trace.callbacks|;
      ok := session.SendKeepAliveMessage();
      RunCallbacks(seen);
    }
  }
}
