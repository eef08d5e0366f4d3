/**
 Which messages from the wire are remembered and committed, said in terms of the messages
 themselves: their type, id, topic and payload.
 */
module SkipRules {
  import opened Bytes
  import opened SessionFrames
  import opened TopicCodec
  import opened Parser
  import opened CommitStore
  import opened ClientProtocol
  import opened ClientDelivery
  import Reassembler
  import WirePath

  /** The text occurs in the other one. */
  ghost predicate Occurs(p: Text, s: Text) {
    exists x: Text, y: Text :: s == x + p + y
  }

  lemma {:induction false} ContainedOccurs(s: Text, p: Text)
    requires Contains(s, p)
    ensures Occurs(p, s)
    decreases |s|
  {
    if p <= s {
      assert s == [] + p + s[|p|..];
    } else {
      ContainedOccurs(s[1..], p);
      var x: Text, y: Text :| s[1..] == x + p + y;
      assert s == ([s[0]] + x) + p + y;
    }
  }

  lemma {:induction false} OccurringContained(x: Text, p: Text, y: Text)
    ensures Contains(x + p + y, p)
    decreases |x|
  {
    var s := x + p + y;
    if x == [] {
      assert s == p + y;
    } else {
      assert s[1..] == x[1..] + p + y;
      OccurringContained(x[1..], p, y);
    }
  }

  lemma ContainsMeans(s: Text, p: Text)
    ensures Contains(s, p) <==> Occurs(p, s)
  {
    if Contains(s, p) { ContainedOccurs(s, p); }
    if Occurs(p, s) {
      var x: Text, y: Text :| s == x + p + y;
      OccurringContained(x, p, y);
    }
  }

  // ---- The three kinds of messages ----

  /** Neither an acknowledgment nor an answer, by its type and its id. */
  predicate FromAnApplication(m: TopicMessage) {
    && m.messageType != Ascii("acknowledgment") && m.messageType != Ascii("acknowledgment_legacy")
    && m.messageType != Ascii("Acknowledgment") && m.messageType != Ascii("Acknowledgment_legacy")
    && m.messageType != Ascii("COMMIT_RESPONSE") && m.messageType != Ascii("SUBSCRIBE")
    && !(Ascii("ack_") <= m.uuid)
  }

  /** An application message with a payload on an application's topic. */
  predicate Ordinary(m: TopicMessage, t: Text) {
    && FromAnApplication(m) && m.payload != []
    && t != Ascii("_ack") && t != Ascii("_subscriptions") && t != Ascii("_control")
  }

  /** The end of a replay, announced on the control topic by type or in the payload. */
  ghost predicate ReplayEnd(m: TopicMessage, t: Text) {
    && FromAnApplication(m) && t == Ascii("_control")
    && (m.messageType == Ascii("REPLAY_COMPLETE") || Occurs(Ascii("REPLAY_COMPLETE"), m.payload))
  }

  /** Everything that the client handles for itself. */
  ghost predicate Internal(m: TopicMessage, t: Text) {
    || m.messageType == Ascii("acknowledgment") || m.messageType == Ascii("acknowledgment_legacy")
    || m.messageType == Ascii("Acknowledgment") || m.messageType == Ascii("Acknowledgment_legacy")
    || m.messageType == Ascii("COMMIT_RESPONSE") || m.messageType == Ascii("SUBSCRIBE")
    || Ascii("ack_") <= m.uuid
    || t == Ascii("_ack") || t == Ascii("_subscriptions")
    || (t == Ascii("_control") && m.messageType != Ascii("REPLAY_COMPLETE") &&
        !Occurs(Ascii("REPLAY_COMPLETE"), m.payload))
    || (t != Ascii("_control") && m.payload == [])
  }

  lemma InternalTopicsDiffer()
    ensures Ascii("_ack") != Ascii("_control") && Ascii("_subscriptions") != Ascii("_control")
  {
    assert |Ascii("_ack")| == 4 && |Ascii("_control")| == 8 && |Ascii("_subscriptions")| == 14;
  }

  /** Every message is exactly one of the three. */
  lemma ThreeKinds(m: TopicMessage, t: Text)
    ensures Internal(m, t) <==> !Ordinary(m, t) && !ReplayEnd(m, t)
    ensures !(Ordinary(m, t) && ReplayEnd(m, t))
  {
    InternalTopicsDiffer();
  }

  // ---- From the wire ----

  /** The topic of a message: what its text names, else a subscribed topic, else "default". */
  predicate TopicIs(c: Client, w: World, m: TopicMessage, pick: Text, t: Text) {
    match w.topicOf(m.headers, m.payload)
    case Some(named) => t == named
    case None => if c.data.tables.topics == {} then t == Ascii("default") else t == pick && pick in c.data.tables.topics
  }

  /** The step delivers m, and its choices are ones the source can make, whatever is skipped. */
  ghost predicate Brings(c: Client, w: World, st: Step, m: TopicMessage) {
    && st.IncomingStep? && ParseMessage(st.data, w.sequenceOf).success && m.uuid != []
    && Delivers(Parsed(w, st), m, m.headers) && Parsed(w, st).sequence == w.sequenceOf(m.payload)
    && (c.data.tables.topics != {} ==> st.choice.pick in c.data.tables.topics)
    && MayEvict(c.data, m.uuid, st.choice.evict)
  }

  /** A full frame off the wire, behind any session header and cut in any way, brings its message. */
  lemma WireBrings(m: TopicMessage, term: int, session: int, a: Reassembler.Assembly, s: Reassembler.Sent,
                   c: Client, w: World, ch: Choice)
    requires FitsLengthType(m) && IsInt64(m.timestamp) && m.uuid != []
    requires Reassembler.Cuts(s, SessionHeader(term, session) + Frame(m))
    requires MayEvict(c.data, m.uuid, ch.evict) && (c.data.tables.topics != {} ==> ch.pick in c.data.tables.topics)
    ensures var out := Reassembler.AcceptAll(a, Reassembler.Fragments(s));
            |out.delivered| == |a.delivered| + 1 && Brings(c, w, LastDelivered(out, ch), m)
  {
    WirePath.FullFrameEndToEnd(m, term, session, a, s, w.sequenceOf);
  }

  /** The rule of the model agrees with the kinds of messages. */
  lemma SkipMeansInternal(c: Client, w: World, st: Step, m: TopicMessage, t: Text)
    requires Brings(c, w, st, m) && TopicIs(c, w, m, st.choice.pick, t)
    ensures TopicOf(c, w, st) == t && (Skips(c, w, st) <==> Internal(m, t)) && Arrives(c, w, st)
  {
    ContainsMeans(m.payload, Ascii("REPLAY_COMPLETE"));
    InternalTopicsDiffer();
  }

  /** The id is remembered after the step, unless the step itself evicts it from a full set. */
  ghost predicate Remembered(d: Data, st: Step, id: Text, d': Data)
    requires st.IncomingStep?
  {
    id in d'.processed || (id !in d.processed && |d.processed + {id}| > CAPACITY && id in st.choice.evict)
  }

  /**
   An ordinary message, or the end of a replay, whose callback returns normally: its id is
   remembered, and with auto-commit on its offset is stored under its topic. That it is a
   duplicate changes nothing about either.
   */
  lemma OrdinaryIsCommitted(c: Client, w: World, st: Step, m: TopicMessage, t: Text)
    requires Brings(c, w, st, m) && TopicIs(c, w, m, st.choice.pick, t)
    requires Ordinary(m, t) || ReplayEnd(m, t)
    requires !st.choice.throws
    ensures var d := Next(c, w, st).data;
            && Remembered(c.data, st, m.uuid, d)
            && d.commits ==
               (if w.autoCommit then Put(c.data.commits, OffsetFor(c.data.tables, w, t, m)) else c.data.commits)
            && (w.autoCommit ==>
                  Lookup(d.commits, t, OffsetFor(c.data.tables, w, t, m).identifier)
                  == Some(OffsetFor(c.data.tables, w, t, m)))
  {
    SkipMeansInternal(c, w, st, m, t);
    ThreeKinds(m, t);
    ParsedMessageHandled(c, w, st, m);
    ArrivalData(c, w, st);
  }

  /**
   A message that the client handles for itself reaches the callback, unless its id is
   remembered, and does nothing else: it is not remembered and not committed. That is so for
   each of the six types, for ids that start with "ack_", for the internal topics (except the
   end of a replay on the control topic), and for an empty payload.
   */
  lemma InternalIsNotCommitted(c: Client, w: World, st: Step, m: TopicMessage, t: Text)
    requires Brings(c, w, st, m) && TopicIs(c, w, m, st.choice.pick, t) && Internal(m, t)
    ensures Next(c, w, st).data ==
            c.data.(invoked := c.data.invoked + if m.uuid in c.data.processed then [] else [m.uuid])
  {
    SkipMeansInternal(c, w, st, m, t);
    ArrivalData(c, w, st);
    assert c.data.invoked + [] == c.data.invoked;
  }

  /**
   With a driver error pending the commit of an ordinary message throws after it was stored:
   the store has it, and the error callback is told once.
   */
  lemma ThrowingCommitIsReported(c: Client, w: World, st: Step, m: TopicMessage, t: Text)
    requires Brings(c, w, st, m) && TopicIs(c, w, m, st.choice.pick, t) && Ordinary(m, t) && !st.choice.throws
    requires w.autoCommit && c.mode.fatal && !IsSessionEvent(Parsed(w, st))
    ensures var c' := Next(c, w, st);
            && c' == c.(data := c'.data, errors := c.errors + [HandlingError])
            && c'.data.commits == Put(c.data.commits, OffsetFor(c.data.tables, w, t, m))
  {
    SkipMeansInternal(c, w, st, m, t);
    ThreeKinds(m, t);
    ParsedMessageHandled(c, w, st, m);
  }

  /** Without one, on a client that is not CONNECTED, the commit is stored and nothing is offered or reported. */
  lemma UnsentCommitIsKept(c: Client, w: World, st: Step, m: TopicMessage, t: Text)
    requires Brings(c, w, st, m) && TopicIs(c, w, m, st.choice.pick, t) && Ordinary(m, t) && !st.choice.throws
    requires w.autoCommit && !c.mode.fatal && c.conn != CONNECTED && !IsSessionEvent(Parsed(w, st))
    ensures var c' := Next(c, w, st);
            && c' == c.(data := c'.data)
            && c'.data.commits == Put(c.data.commits, OffsetFor(c.data.tables, w, t, m))
  {
    SkipMeansInternal(c, w, st, m, t);
    ThreeKinds(m, t);
    ParsedMessageHandled(c, w, st, m);
  }

  /** From the wire: an ordinary message on a topic it names itself is remembered and committed under that topic. */
  lemma OrdinaryFromTheWire(m: TopicMessage, t: Text, term: int, session: int, a: Reassembler.Assembly,
                            s: Reassembler.Sent, c: Client, w: World, ch: Choice)
    requires FitsLengthType(m) && IsInt64(m.timestamp) && m.uuid != []
    requires Reassembler.Cuts(s, SessionHeader(term, session) + Frame(m))
    requires MayEvict(c.data, m.uuid, ch.evict) && (c.data.tables.topics != {} ==> ch.pick in c.data.tables.topics)
    requires w.topicOf(m.headers, m.payload) == Some(t) && Ordinary(m, t) && !ch.throws && w.autoCommit
    ensures var out := Reassembler.AcceptAll(a, Reassembler.Fragments(s));
            && |out.delivered| == |a.delivered| + 1
            && var st := LastDelivered(out, ch);
               var d := Next(c, w, st).data;
               && Remembered(c.data, st, m.uuid, d)
               && d.commits == Put(c.data.commits, OffsetFor(c.data.tables, w, t, m))
  {
    WireBrings(m, term, session, a, s, c, w, ch);
    OrdinaryIsCommitted(c, w, LastDelivered(Reassembler.AcceptAll(a, Reassembler.Fragments(s)), ch), m, t);
  }
}
