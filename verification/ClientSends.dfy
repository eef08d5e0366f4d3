/**
 The client's requests end to end: when each of them offers a frame, how its call ends, and
 that the frame carries what the client was given under the ids of the live session.
 */
module ClientSends {
  import opened Bytes
  import opened Flyweights
  import opened SessionFrames
  import opened TopicCodec
  import opened Parser
  import opened CommitStore
  import opened CommitFrames
  import opened SessionProtocol
  import opened SessionInvariant
  import opened SessionTheorems
  import opened PublishPath
  import opened SendRuns
  import opened ClientProtocol
  import opened ClientInvariant

  // ---- Connection checks ----

  /** The egress has an image, if there is one to ask. */
  predicate ImageUp(c: Client, w: World) {
    c.mode.egress ==> w.images(c.imageChecks)
  }

  /** A CONNECTED client without a driver error, with an armed session, a publication and an image. */
  predicate Ready(c: Client, w: World) {
    !c.mode.fatal && c.conn == CONNECTED && Armed(c.session) && FindsUp(c.session, w.env, 0) && ImageUp(c, w)
  }

  /** What the check of the client finds, and that it changes nothing but what was asked. */
  lemma ConnectedExactly(c: Client, w: World)
    ensures var k := IsConnected(c, w);
            && (!c.mode.fatal ==> (k.ok <==> Ready(c, w)))
            && k.client == c.(session := k.client.session, imageChecks := k.client.imageChecks)
            && k.client.session == c.session.(trace := c.session.trace.(probes := k.client.session.trace.probes))
            && (k.ok ==> k.client.session.trace.probes == c.session.trace.probes + 1)
  {
    CheckExactly(c.session, w.env);
  }

  /** The offers a call has added. */
  ghost predicate Adds(c: Client, c': Client, added: seq<Offered>) {
    c'.session.trace.offers == c.session.trace.offers + added
  }

  lemma AddsNew(c: Client, c': Client)
    requires c.session.trace.offers <= c'.session.trace.offers
    ensures Adds(c, c', NewOffers(c.session, c'.session))
  {
  }

  /** A row of offers of one frame, all but the last back pressured, the last one as `ok` says. */
  ghost predicate OffersOf(frame: seq<byte>, purpose: Purpose, added: seq<Offered>, limit: nat, ok: bool) {
    && 1 <= |added| <= limit
    && (forall i :: 0 <= i < |added| ==> added[i].frame == frame && added[i].purpose == purpose)
    && (forall i :: 0 <= i < |added| - 1 ==> TransientFailure(added[i].outcome))
    && (|added| < limit ==> !TransientFailure(Last(added).outcome))
    && (ok <==> Accepted(Last(added).outcome))
  }

  lemma LogIsRow(s: Session, r: Sent, env: Env, purpose: Purpose, frame: seq<byte>, limit: nat)
    requires SendLog(s, r, env, purpose, frame, limit)
    ensures OffersOf(frame, purpose, NewOffers(s, r.session), limit, r.ok)
  {
  }

  /** What a call ended with, given whether it got to offer. */
  ghost predicate Outcome(
    ready: bool, c: Client, r: Did, purpose: Purpose, frame: seq<byte>, limit: nat, failed: Ended)
  {
    if ready then
      && c.session.trace.offers <= r.client.session.trace.offers
      && OffersOf(frame, purpose, NewOffers(c.session, r.client.session), limit, r.ended == Done)
      && r.ended in {Done, failed}
    else r.ended != Done && r.client.session.trace.offers == c.session.trace.offers
  }

  /** The last step of every send: the session has sent, and the callbacks have run. */
  lemma AdoptedOutcome(c: Client, k: Client, sent: Sent, ready: bool, env: Env, purpose: Purpose, frame: seq<byte>,
                       limit: nat, failed: Ended)
    requires k.session.trace.offers == c.session.trace.offers && failed != Done
    requires SendsIf(ready, k.session, sent, env, purpose, frame, limit)
    ensures Outcome(ready, c, Did(Adopt(k, sent.session), if sent.ok then Done else failed), purpose, frame, limit,
                    failed)
  {
    AdoptCalm(k, sent.session);
    if ready { LogIsRow(k.session, sent, env, purpose, frame, limit); }
  }

  // ---- Topic messages ----

  predicate RequestReady(c: Client, w: World, m: TopicMessage) {
    && Ready(c, w) && FitsLengthType(m)
    && FindsUp(c.session, w.env, 1) && FindsUp(c.session, w.env, 2) && FindsUp(c.session, w.env, 3)
  }

  /** In a reachable state an armed session's header buffer holds its ids. */
  lemma HeaderIsLive(s: Session)
    requires Inv(s) && Armed(s)
    ensures s.header == SessionHeader(s.term, s.sessionId)
    ensures s.trace.established != []
    ensures s.sessionId == Last(s.trace.established).correlationId && s.term == Last(s.trace.established).term
  {
  }

  /** When a request offers its frame, and what it ends with: exactly. */
  lemma RequestExactly(c: Client, w: World, m: TopicMessage)
    ensures Outcome(RequestReady(c, w, m), c, PublishRequest(c, w, m), Combined, c.session.header + SentFrame(m),
                    Attempts(w.cfg), Threw)
    ensures PublishRequest(c, w, m).ended in {Done, Threw}
  {
    ConnectedExactly(c, w);
    var k := IsConnected(c, w);
    if !c.mode.fatal && k.ok {
      PublishExactly(k.client.session, w.env, w.cfg, m);
      assert forall i: nat :: FindsUp(k.client.session, w.env, i) <==> FindsUp(c.session, w.env, i + 1);
      AdoptedOutcome(c, k.client, Publish(k.client.session, w.env, w.cfg, m), RequestReady(c, w, m), w.env, Combined,
                     c.session.header + SentFrame(m), Attempts(w.cfg), Threw);
    }
  }

  /** A request that was done: its last offer was accepted and carries m under the live ids. Otherwise nothing was. */
  ghost predicate RequestMeans(c: Client, r: Did, m: TopicMessage) {
    && c.session.trace.offers <= r.client.session.trace.offers
    && var added := NewOffers(c.session, r.client.session);
    && r.ended in {Done, Threw}
    && (r.ended == Done <==> added != [] && Accepted(Last(added).outcome))
    && (r.ended == Done ==> Carries(Last(added), c.session.term, c.session.sessionId, m))
    && (forall i :: 0 <= i < |added| - 1 ==> !Accepted(added[i].outcome))
    && (forall i :: 0 <= i < |added| ==>
          added[i].frame == SessionHeader(c.session.term, c.session.sessionId) + SentFrame(m))
  }

  /**
   A request ends Done if and only if its last new offer was accepted, and then that offer
   carries the very message it was given, under the ids of the live session; otherwise it
   throws, and whatever it offered was the same frame.
   */
  lemma RequestOutcome(c: Client, w: World, m: TopicMessage)
    requires Inv(c.session) && IsInt64(m.timestamp)
    ensures RequestMeans(c, PublishRequest(c, w, m), m)
  {
    RequestExactly(c, w, m);
    var r := PublishRequest(c, w, m);
    if RequestReady(c, w, m) {
      HeaderIsLive(c.session);
      var added := NewOffers(c.session, r.client.session);
      if r.ended == Done { SentIsCarried(Last(added), c.session.term, c.session.sessionId, m); }
    } else {
      assert NewOffers(c.session, r.client.session) == [];
    }
  }

  /** The same for a subscription: the tables change if and only if its request was accepted. */
  lemma SubscribeOutcome(c: Client, w: World, s: Subscription, m: TopicMessage)
    requires Inv(c.session) && IsInt64(m.timestamp)
    ensures var r := Subscribe(c, w, s, m);
            && RequestMeans(c, r, m)
            && r.client.data == c.data.(tables :=
                 if r.ended == Done then Track(c.data.tables, w.clientId, Effective(c, s)) else c.data.tables)
  {
    RequestOutcome(c, w, m);
    NothingKept();
    PublishRequestKeeps(x => true, c, w, m);
  }

  lemma UnsubscribeOutcome(c: Client, w: World, topic: Text, identifier: Text, m: TopicMessage)
    requires Inv(c.session) && IsInt64(m.timestamp)
    ensures var r := Unsubscribe(c, w, topic, identifier, m);
            && RequestMeans(c, r, m)
            && r.client.data == c.data.(tables :=
                 if r.ended == Done then Untrack(c.data.tables, topic, identifier) else c.data.tables)
  {
    RequestOutcome(c, w, m);
    NothingKept();
    PublishRequestKeeps(x => true, c, w, m);
  }

  // ---- Commit offsets ----

  /** The bytes behind the session header say exactly this offset, in the form its topic has. */
  ghost predicate Says(frame: seq<byte>, o: CommitOffset, json: Text) {
    if TopicToId(o.topic) != 0 then
      DecodeLite(frame) == Some(LiteCommit(TopicToId(o.topic), o.sequence, o.messageId, o.identifier))
    else
      forall sequenceOf: Text -> nat ::
        var r := ParseMessage(frame, sequenceOf);
        r.success && r.messageType == Ascii("COMMIT_OFFSET") && r.payload == Cast16(json) && r.headers == Ascii("{}")
  }

  lemma LegacyParses(messageType: Text, uuid: Text, payload: Text, now: int, sequenceOf: Text -> nat)
    requires IsInt64(now)
    requires var m := LegacyMessage(messageType, uuid, payload, now); |Frame(m)| <= 1040
    ensures var m := LegacyMessage(messageType, uuid, payload, now);
            Delivers(ParseMessage(Frame(m), sequenceOf), m, Ascii("{}"))
  {
    var m := LegacyMessage(messageType, uuid, payload, now);
    assert Frame(m)[..|Frame(m)|] == Frame(m);
    ParseCutFrame(m, |Frame(m)|, sequenceOf);
  }

  /** Every frame that is built for an offset says that offset. */
  lemma OffsetFrameSays(o: CommitOffset, json: Text, now: int, digits: Text)
    requires o.sequence < TWO_64 && IsInt64(now) && CommitOffsetFrame(o, o.identifier, json, now, digits).Ok?
    ensures Says(CommitOffsetFrame(o, o.identifier, json, now, digits).value, o, json)
  {
    if TopicToId(o.topic) != 0 {
      LiteFrameRoundTrip(TopicToId(o.topic), o.sequence, o.messageId, o.identifier);
    } else {
      forall sequenceOf: Text -> nat {
        LegacyParses(Ascii("COMMIT_OFFSET"), FallbackUuid(o.identifier, digits), json, now, sequenceOf);
      }
    }
  }

  predicate CombinedReady(c: Client, w: World) {
    Ready(c, w) && FindsUp(c.session, w.env, 1) && FindsUp(c.session, w.env, 2)
  }

  /** Which offsets a frame can be built for at all. */
  predicate Buildable(c: Client, w: World, o: CommitOffset) {
    CommitFrame(c, w, o).Ok?
  }

  lemma OffsetExactly(c: Client, w: World, o: CommitOffset)
    ensures var r := SendCommitOffset(c, w, o);
            && (CombinedReady(c, w) && Buildable(c, w, o) ==>
                  Outcome(true, c, r, Combined, c.session.header + CommitFrame(c, w, o).value, Attempts(w.cfg),
                          Refused))
            && (!(CombinedReady(c, w) && Buildable(c, w, o)) ==>
                  r.ended != Done && r.client.session.trace.offers == c.session.trace.offers)
            && (r.ended == Threw <==> c.mode.fatal || (Ready(c, w) && !Buildable(c, w, o)))
  {
    ConnectedExactly(c, w);
    var k := IsConnected(c, w);
    if !c.mode.fatal && k.ok {
      var frame := CommitFrame(k.client, w, o);
      if frame.Ok? {
        CombinedExactly(k.client.session, w.env, w.cfg, frame.value);
        assert forall i: nat :: FindsUp(k.client.session, w.env, i) <==> FindsUp(c.session, w.env, i + 1);
        AdoptedOutcome(c, k.client, SendCombined(k.client.session, w.env, w.cfg, frame.value), CombinedReady(c, w),
                       w.env, Combined, c.session.header + frame.value, Attempts(w.cfg), Refused);
      }
    }
  }

  /** The offer was accepted, starts with the header of this session, and says this offset. */
  ghost predicate CarriesOffset(a: Offered, term: int, session: int, o: CommitOffset, json: Text) {
    && Accepted(a.outcome) && |a.frame| >= 32
    && a.frame[..32] == SessionHeader(term, session) && Says(a.frame[32..], o, json)
  }

  /**
   Sending an offset ends Done if and only if its last new offer was accepted, and then that
   offer decodes to the topic id, sequence, message id and identifier it was given, under the
   ids of the live session.
   */
  lemma OffsetOutcome(c: Client, w: World, o: CommitOffset)
    requires Inv(c.session) && o.sequence < TWO_64 && forall n :: IsInt64(w.clock(n))
    ensures var r := SendCommitOffset(c, w, o);
            && c.session.trace.offers <= r.client.session.trace.offers
            && var added := NewOffers(c.session, r.client.session);
            && (r.ended == Done <==> added != [] && Accepted(Last(added).outcome))
            && (r.ended == Done ==>
                  CarriesOffset(Last(added), c.session.term, c.session.sessionId, o, w.commitJson(o)))
  {
    OffsetExactly(c, w, o);
    var r := SendCommitOffset(c, w, o);
    if CombinedReady(c, w) && Buildable(c, w, o) {
      HeaderIsLive(c.session);
      var now := w.clock(|c.session.trace.offers|);
      OffsetFrameSays(o, w.commitJson(o), now, Decimal(now));
      var frame := CommitFrame(c, w, o).value;
      var header := SessionHeader(c.session.term, c.session.sessionId);
      assert (header + frame)[..32] == header && (header + frame)[32..] == frame;
    } else {
      assert NewOffers(c.session, r.client.session) == [];
    }
  }

  // ---- Resuming one subscription ----

  /** The call of ResumeOne, when it gets past its own check. */
  lemma ResumeCases(c: Client, w: World, topic: Text, identifier: Text, m: TopicMessage)
    ensures var k := IsConnected(c, w).client;
            var last := Lookup(c.data.commits, topic, identifier);
            ResumeOne(c, w, topic, identifier, m) ==
            if c.mode.fatal then Did(c, Threw)
            else if !Ready(c, w) then Did(k, Refused)
            else if last.Some? then SendCommitOffset(k, w, last.value)
            else Subscribe(k, w, Subscription(topic, identifier, Ascii("LATEST"), []), m)
  {
    ConnectedExactly(c, w);
  }

  /**
   Resuming sends the commit that is stored for exactly this topic and identifier, if there
   is one; otherwise it subscribes from the latest message and tracks that. In both cases
   Done means that the last offer was accepted and carries it.
   */
  lemma ResumeOutcome(c: Client, w: World, topic: Text, identifier: Text, m: TopicMessage)
    requires Inv(c.session) && IsInt64(m.timestamp) && forall n :: IsInt64(w.clock(n))
    requires Lookup(c.data.commits, topic, identifier).Some? ==>
               Lookup(c.data.commits, topic, identifier).value.sequence < TWO_64
    ensures var r := ResumeOne(c, w, topic, identifier, m);
            && c.session.trace.offers <= r.client.session.trace.offers
            && var added, last := NewOffers(c.session, r.client.session), Lookup(c.data.commits, topic, identifier);
            && (r.ended == Done <==> added != [] && Accepted(Last(added).outcome))
            && (r.ended == Done && last.Some? ==>
                  && CarriesOffset(Last(added), c.session.term, c.session.sessionId, last.value,
                                   w.commitJson(last.value))
                  && r.client.data == c.data)
            && (r.ended == Done && last.None? ==>
                  && Carries(Last(added), c.session.term, c.session.sessionId, m)
                  && r.client.data.tables ==
                     Track(c.data.tables, w.clientId,
                           Effective(c, Subscription(topic, identifier, Ascii("LATEST"), []))))
  {
    ResumeCases(c, w, topic, identifier, m);
    ConnectedExactly(c, w);
    var k, last := IsConnected(c, w).client, Lookup(c.data.commits, topic, identifier);
    NothingKept();
    if c.mode.fatal || !Ready(c, w) {
      assert NewOffers(c.session, ResumeOne(c, w, topic, identifier, m).client.session) == [];
    } else if last.Some? {
      OffsetOutcome(k, w, last.value);
      SendCommitKeeps(x => true, k, w, last.value);
    } else {
      SubscribeOutcome(k, w, Subscription(topic, identifier, Ascii("LATEST"), []), m);
    }
  }

  // ---- COMMIT requests ----

  /** A COMMIT request: when it is offered, without a session header, and what it says. */
  lemma CommitRequestOutcome(c: Client, w: World, topic: Text)
    requires forall n :: IsInt64(w.clock(n))
    ensures var r := SendCommitRequest(c, w, topic);
            && c.session.trace.offers <= r.client.session.trace.offers
            && var added := NewOffers(c.session, r.client.session);
            && (r.ended == Done <==> added != [] && Accepted(Last(added).outcome))
            && forall i :: 0 <= i < |added| ==> added[i].purpose == Raw && SaysCommit(added[i].frame, topic, w.clientId)
  {
    ConnectedExactly(c, w);
    var k, r := IsConnected(c, w), SendCommitRequest(c, w, topic);
    var now := w.clock(|c.session.trace.offers|);
    var frame := CommitRequestFrame(topic, w.clientId, now, Decimal(now));
    if !c.mode.fatal && k.ok && frame.Ok? {
      CommitFrameSays(topic, w.clientId, now, Decimal(now));
      RawExactly(k.client.session, w.env, w.cfg, Raw, frame.value);
      var ready := Armed(k.client.session) && FindsUp(k.client.session, w.env, 0);
      AdoptedOutcome(c, k.client, SendRaw(k.client.session, w.env, w.cfg, Raw, frame.value), ready, w.env, Raw,
                     frame.value, Attempts(w.cfg), Refused);
      if !ready { assert NewOffers(c.session, r.client.session) == []; }
    } else {
      assert NewOffers(c.session, r.client.session) == [];
    }
  }

  /** The frame parses to a COMMIT message for this topic and client. */
  ghost predicate SaysCommit(frame: seq<byte>, topic: Text, client: Text) {
    forall sequenceOf: Text -> nat ::
      var r := ParseMessage(frame, sequenceOf);
      r.success && r.messageType == Ascii("COMMIT") && r.payload == Cast16(CommitPayload(topic, client))
  }

  lemma CommitFrameSays(topic: Text, client: Text, now: int, digits: Text)
    requires IsInt64(now) && CommitRequestFrame(topic, client, now, digits).Ok?
    ensures SaysCommit(CommitRequestFrame(topic, client, now, digits).value, topic, client)
  {
    forall sequenceOf: Text -> nat {
      LegacyParses(Ascii("COMMIT"), CommitUuid(client, digits), CommitPayload(topic, client), now, sequenceOf);
    }
  }
}
