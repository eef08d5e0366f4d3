/** The three overlapping subscription tables of the client, over whole runs. */
module Subscriptions {
  import opened Bytes
  import opened Parser
  import opened CommitStore
  import opened ClientProtocol
  import opened ClientInvariant

  predicate PipeFree(t: Text) { PIPE !in t }

  predicate RecordFor(t: Tables, k: Text, topic: Text) {
    k in t.tracked && t.tracked[k].topic == topic
  }

  ghost predicate TrackedTopic(t: Tables, topic: Text) {
    exists k :: RecordFor(t, k, topic)
  }

  /** Every subscribed topic has a tracked record, which resume will find. */
  ghost predicate Covered(t: Tables) {
    forall topic :: topic in t.topics ==> TrackedTopic(t, topic)
  }

  predicate Keyed(t: Tables) {
    forall k :: k in t.tracked ==> k == SubscriptionKey(t.tracked[k])
  }

  predicate TopicsPipeFree(t: Tables) {
    forall k :: k in t.tracked ==> PipeFree(t.tracked[k].topic)
  }

  /** The record under which a subscription is tracked. */
  function Record(clientId: Text, s: Subscription): Subscription {
    s.(identifier := if s.identifier == [] then clientId else s.identifier)
  }

  // ---- Keys ----

  lemma FirstPipe(t: Text, rest: Text, t': Text, rest': Text)
    requires PipeFree(t) && PipeFree(t') && t + [PIPE] + rest == t' + [PIPE] + rest'
    ensures t == t'
  {
    var k := t + [PIPE] + rest;
    assert k[..|t|] == t && k[|t|] == PIPE;
    assert k[..|t'|] == t' && k[|t'|] == PIPE;
    assert forall i :: 0 <= i < |t'| ==> k[i] == t'[i] && t'[i] != PIPE;
    assert forall i :: 0 <= i < |t| ==> k[i] == t[i] && t[i] != PIPE;
  }

  lemma KeyNamesTopic(a: Subscription, b: Subscription)
    requires PipeFree(a.topic) && PipeFree(b.topic) && SubscriptionKey(a) == SubscriptionKey(b)
    ensures a.topic == b.topic
  {
    assert SubscriptionKey(a) == a.topic + [PIPE] + (a.identifier + [PIPE] + a.instance);
    assert SubscriptionKey(b) == b.topic + [PIPE] + (b.identifier + [PIPE] + b.instance);
    FirstPipe(a.topic, a.identifier + [PIPE] + a.instance, b.topic, b.identifier + [PIPE] + b.instance);
  }

  // ---- One table update ----

  /** The record that tracking `s` overwrites is the only one of another subscribed topic. */
  ghost predicate Displaces(t: Tables, clientId: Text, s: Subscription) {
    var k := SubscriptionKey(Record(clientId, s));
    && k in t.tracked && t.tracked[k].topic != s.topic && t.tracked[k].topic in t.topics
    && forall k' :: RecordFor(t, k', t.tracked[k].topic) ==> k' == k
  }

  /** A subscription leaves every topic covered exactly when it displaces no other one. */
  lemma TrackCovers(t: Tables, clientId: Text, s: Subscription)
    requires Covered(t)
    ensures Covered(Track(t, clientId, s)) <==> !Displaces(t, clientId, s)
  {
    var t', k := Track(t, clientId, s), SubscriptionKey(Record(clientId, s));
    assert t'.tracked == t.tracked[k := Record(clientId, s)];
    if Displaces(t, clientId, s) {
      var lost := t.tracked[k].topic;
      assert forall k' :: !RecordFor(t', k', lost) by {
        assert forall k' :: RecordFor(t', k', lost) && k' != k ==> RecordFor(t, k', lost);
      }
    } else {
      forall topic | topic in t'.topics ensures TrackedTopic(t', topic) {
        if topic == s.topic {
          assert RecordFor(t', k, topic);
        } else {
          var held :| RecordFor(t, held, topic);
          if held == k {
            var other :| RecordFor(t, other, topic) && other != k;
            assert RecordFor(t', other, topic);
          } else {
            assert RecordFor(t', held, topic);
          }
        }
      }
    }
  }

  lemma PipeFreeDisplacesNothing(t: Tables, clientId: Text, s: Subscription)
    requires Keyed(t) && TopicsPipeFree(t) && PipeFree(s.topic)
    ensures !Displaces(t, clientId, s)
  {
    var k := SubscriptionKey(Record(clientId, s));
    if k in t.tracked { KeyNamesTopic(t.tracked[k], Record(clientId, s)); }
  }

  /** An unsubscribe never uncovers another topic, whatever the topics look like. */
  lemma UntrackCovers(t: Tables, topic: Text, identifier: Text)
    requires Covered(t)
    ensures Covered(Untrack(t, topic, identifier))
  {
    var t' := Untrack(t, topic, identifier);
    forall other | other in t'.topics ensures TrackedTopic(t', other) {
      var k :| RecordFor(t, k, other);
      assert RecordFor(t', k, other);
    }
  }

  // ---- Runs ----

  predicate SubscribesPipeFree(st: Step) {
    match st
    case SubscribeStep(s, _) => PipeFree(s.topic)
    case ResumeStep(topic, _, _) => PipeFree(topic)
    case _ => true
  }

  ghost predicate Consistent(t: Tables) {
    Covered(t) && Keyed(t) && TopicsPipeFree(t)
  }

  lemma TrackConsistent(t: Tables, clientId: Text, s: Subscription)
    requires Consistent(t) && PipeFree(s.topic)
    ensures Consistent(Track(t, clientId, s))
  {
    PipeFreeDisplacesNothing(t, clientId, s);
    TrackCovers(t, clientId, s);
  }

  /** What a step does to the tables. */
  lemma StepTables(c: Client, w: World, st: Step)
    requires Flags(c)
    ensures var t, t' := c.data.tables, Next(c, w, st).data.tables;
            || t' == t
            || (st.UnsubscribeStep? && t' == Untrack(t, st.topic, st.identifier))
            || (st.SubscribeStep? && Tracks(t, w, st.subscription, c.mode.instance, t'))
            || (st.ResumeStep? &&
                Tracks(t, w, Subscription(st.topic, st.identifier, Latest(), []), c.mode.instance, t'))
  {
    if Possible(c, w, st) {
      StepData(c, w, st);
      if st.IncomingStep? {
        var r := ParseMessage(st.data, w.sequenceOf);
        ReceiveTables(c.data, r.messageId, ShouldSkip(r, ExtractTopic(c, w, r, st.choice.pick)), st.choice);
      }
    }
  }

  lemma TracksConsistent(t: Tables, w: World, s: Subscription, instance: Text, t': Tables)
    requires Consistent(t) && PipeFree(s.topic) && Tracks(t, w, s, instance, t')
    ensures Consistent(t')
  {
    TrackConsistent(t, w.clientId, s);
    TrackConsistent(t, w.clientId, s.(instance := instance));
  }

  lemma StepConsistent(c: Client, w: World, st: Step)
    requires Flags(c) && Consistent(c.data.tables) && SubscribesPipeFree(st)
    ensures Consistent(Next(c, w, st).data.tables)
  {
    StepTables(c, w, st);
    var t := c.data.tables;
    var t' := Next(c, w, st).data.tables;
    if t' != t {
      match st
      case UnsubscribeStep(topic, identifier, _) => UntrackCovers(t, topic, identifier);
      case SubscribeStep(s, _) => TracksConsistent(t, w, s, c.mode.instance, t');
      case ResumeStep(topic, identifier, _) =>
        TracksConsistent(t, w, Subscription(topic, identifier, Latest(), []), c.mode.instance, t');
      case _ =>
    }
  }

  lemma {:induction false} RunConsistent(w: World, instance: Text, steps: seq<Step>)
    requires forall i :: 0 <= i < |steps| ==> SubscribesPipeFree(steps[i])
    ensures Consistent(RunFrom(NewClient(instance), w, steps).data.tables)
    decreases |steps|
  {
    if steps != [] {
      var before := steps[..|steps| - 1];
      RunConsistent(w, instance, before);
      ClientRunInv(w, instance, before);
      StepConsistent(RunFrom(NewClient(instance), w, before), w, steps[|steps| - 1]);
    }
  }

  predicate Matched(t: Tables) { t.identifiers.Keys == t.topics }

  lemma StepMatched(c: Client, w: World, st: Step)
    requires Flags(c) && Matched(c.data.tables)
    ensures Matched(Next(c, w, st).data.tables)
  {
    StepTables(c, w, st);
  }

  /** On every run, whatever the topics: the identifiers are kept for exactly the subscribed topics. */
  lemma {:induction false} IdentifiersMatchTopics(w: World, instance: Text, steps: seq<Step>)
    ensures Matched(RunFrom(NewClient(instance), w, steps).data.tables)
    decreases |steps|
  {
    if steps != [] {
      var before := steps[..|steps| - 1];
      IdentifiersMatchTopics(w, instance, before);
      ClientRunInv(w, instance, before);
      StepMatched(RunFrom(NewClient(instance), w, before), w, steps[|steps| - 1]);
    }
  }

  lemma {:induction false} NothingToFallBackOn(c: Client, w: World, order: seq<Text>)
    requires c.data.tables.tracked == map[] && c.data.tables.topics == {}
    ensures ToResume(c, w, order) == []
    decreases |order|
  {
    if order != [] { NothingToFallBackOn(c, w, order[1..]); }
  }

  /**
   With '|'-free topics the fallback branch of resume never yields a record: when no
   subscription is tracked, no topic is subscribed.
   */
  lemma FallbackUnreachable(w: World, instance: Text, steps: seq<Step>, order: seq<Text>)
    requires forall i :: 0 <= i < |steps| ==> SubscribesPipeFree(steps[i])
    ensures var c := RunFrom(NewClient(instance), w, steps);
            c.data.tables.tracked == map[] ==> c.data.tables.topics == {} && ToResume(c, w, order) == []
  {
    RunConsistent(w, instance, steps);
    var c := RunFrom(NewClient(instance), w, steps);
    if c.data.tables.tracked == map[] {
      assert forall topic :: !TrackedTopic(c.data.tables, topic);
      NothingToFallBackOn(c, w, order);
    }
  }

  /** Two explicit subscriptions of different topics that are tracked under one key. */
  predicate SharedKey(first: Subscription, second: Subscription) {
    && first.topic != second.topic && SubscriptionKey(first) == SubscriptionKey(second)
    && first.identifier != [] && second.identifier != [] && first.instance != [] && second.instance != []
  }

  /** Two subscriptions of different topics under one key, from empty tables. */
  lemma SharedKeyTables(clientId: Text, first: Subscription, second: Subscription)
    requires SharedKey(first, second)
    ensures var t := Track(Tables({}, map[], map[]), clientId, first);
            var t' := Untrack(Track(t, clientId, second), second.topic, []);
            Displaces(t, clientId, second) && t'.tracked == map[] && t'.topics == {first.topic}
  {
    var k := SubscriptionKey(first);
    var t := Track(Tables({}, map[], map[]), clientId, first);
    assert t.tracked == map[k := first];
    assert Track(t, clientId, second).tracked == map[k := second];
  }

  /** There are such subscriptions, with a '|' in a topic. */
  lemma PipesShareKeys()
    ensures exists first: Subscription, second: Subscription :: SharedKey(first, second)
  {
    var x: Text := [120];
    var first, second := Subscription([97, PIPE, 98], x, Latest(), x), Subscription([97], [98, PIPE] + x, Latest(), x);
    assert SubscriptionKey(first) == SubscriptionKey(second);
    assert SharedKey(first, second);
  }

  // ---- What a subscription and its withdrawal do ----

  /** A subscription is kept in all three tables: as given, and tracked with the client id for a missing identifier. */
  lemma SubscriptionIsKept(t: Tables, clientId: Text, s: Subscription)
    ensures var t' := Track(t, clientId, s);
            var identifier := if s.identifier == [] then clientId else s.identifier;
            var k := s.topic + [PIPE] + identifier + [PIPE] + s.instance;
            && t'.topics == t.topics + {s.topic} && t'.identifiers == t.identifiers[s.topic := s.identifier]
            && t'.tracked == t.tracked[k := Subscription(s.topic, identifier, s.strategy, s.instance)]
  {
  }

  /**
   Withdrawing with an identifier drops exactly the records of that topic and identifier,
   without one every record of the topic; the topic itself is dropped in both cases.
   */
  lemma WithdrawnExactly(t: Tables, topic: Text, identifier: Text, k: Text)
    ensures var t' := Untrack(t, topic, identifier);
            && topic !in t'.topics && topic !in t'.identifiers
            && (forall other :: other != topic ==> (other in t'.topics <==> other in t.topics))
            && (k in t'.tracked <==>
                  k in t.tracked &&
                  (t.tracked[k].topic != topic || (identifier != [] && t.tracked[k].identifier != identifier)))
            && (k in t'.tracked ==> t'.tracked[k] == t.tracked[k])
  {
  }

  /** Nothing is known of the topic. */
  predicate Unknown(t: Tables, topic: Text) {
    topic !in t.topics && topic !in t.identifiers && forall k :: k in t.tracked ==> t.tracked[k].topic != topic
  }

  /**
   Subscribing to a new topic and withdrawing it again restores the tables if and only if the
   withdrawal names no identifier or the tracked one. Otherwise the record stays behind.
   */
  lemma WithdrawalUndoes(t: Tables, clientId: Text, s: Subscription, identifier: Text)
    requires Unknown(t, s.topic) && Keyed(t) && SubscriptionKey(Record(clientId, s)) !in t.tracked
    ensures Untrack(Track(t, clientId, s), s.topic, identifier) == t <==>
            identifier == [] || identifier == Record(clientId, s).identifier
  {
    var k, t' := SubscriptionKey(Record(clientId, s)), Untrack(Track(t, clientId, s), s.topic, identifier);
    assert t'.topics == t.topics && t'.identifiers == t.identifiers;
    if identifier == [] || identifier == Record(clientId, s).identifier {
      assert t'.tracked == t.tracked;
    } else {
      assert k in t'.tracked;
    }
  }

  // ---- Commits and resumed subscriptions ----

  /**
   Does resume find the offset that auto-commit stored for a subscription? The commit is
   stored under the identifier the caller gave, and looked up under the tracked one, which
   is the client id when the caller gave none (as subscribe_topic does). So it is found if
   an identifier was given, and otherwise the lookup is blind to it.
   */
  lemma CommitFoundByResume(t: Tables, store: Store, w: World, s: Subscription, r: ParseResult)
    ensures var t' := Track(t, w.clientId, s);
            var o := OffsetOf(t', w, r, s.topic);
            var record := t'.tracked[SubscriptionKey(Record(w.clientId, s))];
            Lookup(Put(store, o), record.topic, record.identifier) ==
            if s.identifier != [] || w.clientId == [] then Some(o) else Lookup(store, s.topic, w.clientId)
  {
    if s.identifier == [] && w.clientId != [] {
      assert |Key(s.topic, []) | != |Key(s.topic, w.clientId)|;
    }
  }
}
