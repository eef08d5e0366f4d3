/**
 Deduplication and commit safety over whole runs of the client. What a run did is read off
 its steps; the dedup set and the commit store are proved to agree with it.
 */
module ClientDelivery {
  import opened Bytes
  import opened SessionFrames
  import opened TopicCodec
  import opened Parser
  import Reassembler
  import WirePath
  import opened CommitStore
  import opened ClientProtocol
  import opened ClientInvariant

  // ---- What one step does to the data ----

  /** An incoming message that parses, as the step delivers it. */
  ghost predicate Arrives(c: Client, w: World, st: Step) {
    st.IncomingStep? && Possible(c, w, st) && ParseMessage(st.data, w.sequenceOf).success
  }

  function Parsed(w: World, st: Step): ParseResult
    requires st.IncomingStep?
  {
    ParseMessage(st.data, w.sequenceOf)
  }

  function TopicOf(c: Client, w: World, st: Step): Text
    requires st.IncomingStep?
  {
    ExtractTopic(c, w, Parsed(w, st), st.choice.pick)
  }

  predicate Skips(c: Client, w: World, st: Step)
    requires st.IncomingStep?
  {
    ShouldSkip(Parsed(w, st), TopicOf(c, w, st))
  }

  lemma ArrivalData(c: Client, w: World, st: Step)
    requires Arrives(c, w, st)
    ensures Next(c, w, st).data == DataAfter(c.data, w, Parsed(w, st), TopicOf(c, w, st), Skips(c, w, st), st.choice)
  {
    NothingKept();
    HandleKeeps(s => true, c, w, Parsed(w, st), st.choice);
  }

  /** No other step touches the dedup set or the message callback, and only a commit writes the store. */
  lemma OtherData(c: Client, w: World, st: Step)
    requires Flags(c) && !Arrives(c, w, st)
    ensures var d := Next(c, w, st).data;
            && d.processed == c.data.processed && d.invoked == c.data.invoked
            && d.commits == if st.CommitStep? then Put(c.data.commits, st.offset) else c.data.commits
  {
    if Possible(c, w, st) { StepData(c, w, st); }
  }

  // ---- The conservation law ----

  /** The message callback ran on the message of this step, and returned normally. */
  ghost predicate CallbackReturns(c: Client, w: World, st: Step, id: Text) {
    && Arrives(c, w, st) && Parsed(w, st).messageId == id
    && (id == [] || id !in c.data.processed) && !st.choice.throws
  }

  /** The id this step handles for the first time since the set last lost it. */
  ghost function HandledBy(c: Client, w: World, st: Step): set<Text> {
    if && Arrives(c, w, st) && Parsed(w, st).messageId != [] && !Skips(c, w, st)
       && CallbackReturns(c, w, st, Parsed(w, st).messageId)
    then {Parsed(w, st).messageId} else {}
  }

  /** The ids that this step makes the client forget. */
  ghost function EvictedBy(c: Client, w: World, st: Step): set<Text> {
    c.data.processed + HandledBy(c, w, st) - Next(c, w, st).data.processed
  }

  /** Marking an id that is not in the set, with the eviction it may cause. */
  lemma MarkConserves(d: Data, id: Text, evict: set<Text>)
    requires id !in d.processed && |d.processed| <= CAPACITY && MayEvict(d, id, evict)
    ensures var after := MarkProcessed(d, id, evict).processed;
            var gone := d.processed + {id} - after;
            && after <= d.processed + {id} && |after| <= CAPACITY
            && (gone != {} ==> |gone| == EVICTION && |d.processed| == CAPACITY)
  {
    var grown := d.processed + {id};
    if |grown| > CAPACITY {
      assert grown - (grown - evict) == evict;
      assert grown == (grown - evict) + evict;
      assert |grown - evict| == |grown| - EVICTION;
    }
  }

  lemma StepMarks(c: Client, w: World, st: Step)
    requires Flags(c)
    ensures Next(c, w, st).data.processed ==
            if HandledBy(c, w, st) == {} then c.data.processed
            else MarkProcessed(c.data, Parsed(w, st).messageId, st.choice.evict).processed
  {
    if Arrives(c, w, st) {
      ArrivalData(c, w, st);
    } else {
      OtherData(c, w, st);
    }
  }

  /** How a step may change the set: an eviction happens only from a full set, and takes exactly 100 ids. */
  ghost predicate Conserved(before: set<Text>, handled: set<Text>, after: set<Text>) {
    var gone := before + handled - after;
    && before !! handled && after <= before + handled && |after| <= CAPACITY
    && (gone != {} ==> |gone| == EVICTION && |before| == CAPACITY)
  }

  lemma StepConserves(c: Client, w: World, st: Step)
    requires Flags(c) && |c.data.processed| <= CAPACITY
    ensures Conserved(c.data.processed, HandledBy(c, w, st), Next(c, w, st).data.processed)
  {
    StepMarks(c, w, st);
    if HandledBy(c, w, st) == {} {
      assert Conserved(c.data.processed, {}, c.data.processed);
    } else {
      MarkIsConserved(c.data, Parsed(w, st).messageId, st.choice.evict);
    }
  }

  lemma MarkIsConserved(d: Data, id: Text, evict: set<Text>)
    requires id !in d.processed && |d.processed| <= CAPACITY && MayEvict(d, id, evict)
    ensures Conserved(d.processed, {id}, MarkProcessed(d, id, evict).processed)
  {
    MarkConserves(d, id, evict);
  }

  ghost function Handled(c: Client, w: World, steps: seq<Step>): multiset<Text>
    decreases |steps|
  {
    if steps == [] then multiset{}
    else
      var before := steps[..|steps| - 1];
      Handled(c, w, before) + multiset(HandledBy(RunFrom(c, w, before), w, steps[|steps| - 1]))
  }

  ghost function Evicted(c: Client, w: World, steps: seq<Step>): multiset<Text>
    decreases |steps|
  {
    if steps == [] then multiset{}
    else
      var before := steps[..|steps| - 1];
      Evicted(c, w, before) + multiset(EvictedBy(RunFrom(c, w, before), w, steps[|steps| - 1]))
  }

  lemma Balance(h: multiset<Text>, e: multiset<Text>, before: set<Text>, handled: set<Text>, after: set<Text>)
    requires Conserved(before, handled, after) && h == e + multiset(before)
    ensures h + multiset(handled) == e + multiset(before + handled - after) + multiset(after)
  {
  }

  /**
   Over every run, whatever ids the hash order evicts: for every id, the number of times it
   was handled for the first time is the number of times it was evicted, plus one if the
   set holds it now. The set never holds more than 1000 ids.
   */
  lemma {:induction false} DedupConserves(w: World, instance: Text, steps: seq<Step>)
    ensures var c0 := NewClient(instance);
            var processed := RunFrom(c0, w, steps).data.processed;
            && Handled(c0, w, steps) == Evicted(c0, w, steps) + multiset(processed)
            && |processed| <= CAPACITY
    decreases |steps|
  {
    if steps != [] {
      var before, st := steps[..|steps| - 1], steps[|steps| - 1];
      var c := RunFrom(NewClient(instance), w, before);
      DedupConserves(w, instance, before);
      ClientRunInv(w, instance, before);
      StepConserves(c, w, st);
      Balance(Handled(NewClient(instance), w, before), Evicted(NewClient(instance), w, before),
              c.data.processed, HandledBy(c, w, st), Next(c, w, st).data.processed);
    }
  }

  /** In a run that evicts nothing, no id is handled for the first time twice. */
  lemma HandledAtMostOnce(w: World, instance: Text, steps: seq<Step>, id: Text)
    requires Evicted(NewClient(instance), w, steps) == multiset{}
    ensures Handled(NewClient(instance), w, steps)[id] <= 1
  {
    DedupConserves(w, instance, steps);
  }

  // ---- Commit safety ----

  /** Some step of the run is as `event` says, given the steps before it. */
  ghost predicate Sometime(steps: seq<Step>, event: (seq<Step>, Step) -> bool) {
    exists i: nat :: i < |steps| && event(steps[..i], steps[i])
  }

  lemma SometimeStays(before: seq<Step>, steps: seq<Step>, event: (seq<Step>, Step) -> bool)
    requires before <= steps && Sometime(before, event)
    ensures Sometime(steps, event)
  {
    var i: nat :| i < |before| && event(before[..i], before[i]);
    assert before[..i] == steps[..i];
  }

  lemma SometimeNow(steps: seq<Step>, event: (seq<Step>, Step) -> bool)
    requires steps != [] && event(steps[..|steps| - 1], steps[|steps| - 1])
    ensures Sometime(steps, event)
  {
  }

  /** A step at which the message callback returns normally for this id. */
  ghost function Accepts(c: Client, w: World, id: Text): (seq<Step>, Step) -> bool {
    (before: seq<Step>, st: Step) => CallbackReturns(RunFrom(c, w, before), w, st, id)
  }

  ghost predicate Accepted(c: Client, w: World, steps: seq<Step>, id: Text) {
    Sometime(steps, Accepts(c, w, id))
  }

  /** Nobody but the auto-commit writes the commit store. */
  predicate AutoCommitsOnly(steps: seq<Step>) {
    forall i :: 0 <= i < |steps| ==> !steps[i].CommitStep?
  }

  /** The step commits this offset: topic, identifier, id, timestamp and sequence are those of its message. */
  ghost predicate CommitsNow(c: Client, w: World, st: Step, o: CommitOffset) {
    && Arrives(c, w, st) && Parsed(w, st).messageId != [] && !Skips(c, w, st)
    && (Parsed(w, st).messageId in c.data.processed || !st.choice.throws)
    && o == OffsetOf(c.data.tables, w, Parsed(w, st), TopicOf(c, w, st))
  }

  /** A step that commits this offset, whose message was accepted by then. */
  ghost function Commits(c: Client, w: World, o: CommitOffset): (seq<Step>, Step) -> bool {
    (before: seq<Step>, st: Step) =>
      CommitsNow(RunFrom(c, w, before), w, st, o) && Accepted(c, w, before + [st], o.messageId)
  }

  ghost predicate Committed(c: Client, w: World, steps: seq<Step>, o: CommitOffset) {
    Sometime(steps, Commits(c, w, o))
  }

  /** The dedup set holds such ids only, and the store such offsets only, each under its own key. */
  ghost predicate Holds(d: Data, ids: Text -> bool, offsets: CommitOffset -> bool) {
    && (forall id :: id in d.processed ==> ids(id))
    && (forall k :: k in d.commits ==> k == Key(d.commits[k].topic, d.commits[k].identifier) && offsets(d.commits[k]))
  }

  lemma ReceivedHolds(c: Client, w: World, st: Step, ids: Text -> bool, offsets: CommitOffset -> bool)
    requires Arrives(c, w, st) && Holds(c.data, ids, offsets)
    requires forall id :: CallbackReturns(c, w, st, id) ==> ids(id)
    ensures var received := Receive(c.data, Parsed(w, st).messageId, Skips(c, w, st), st.choice);
            && Holds(received.0, ids, offsets)
            && (received.1 ==> ids(Parsed(w, st).messageId) &&
                               CommitsNow(c, w, st, OffsetOf(c.data.tables, w, Parsed(w, st), TopicOf(c, w, st))))
  {
    var id := Parsed(w, st).messageId;
    if Receive(c.data, id, Skips(c, w, st), st.choice).1 && id !in c.data.processed {
      assert CallbackReturns(c, w, st, id);
    }
  }

  /** One step: what is new in the set and in the store was accepted before or is accepted now. */
  lemma StepIsSafe(c: Client, w: World, st: Step, ids: Text -> bool, offsets: CommitOffset -> bool)
    requires Flags(c) && !st.CommitStep? && Holds(c.data, ids, offsets)
    requires forall id :: CallbackReturns(c, w, st, id) ==> ids(id)
    requires forall o :: CommitsNow(c, w, st, o) && ids(o.messageId) ==> offsets(o)
    ensures Holds(Next(c, w, st).data, ids, offsets)
  {
    if Arrives(c, w, st) {
      ArrivalData(c, w, st);
      ReceivedHolds(c, w, st, ids, offsets);
    } else {
      OtherData(c, w, st);
    }
  }

  /** What the run holds is accounted for by its steps. */
  ghost predicate Safe(c0: Client, w: World, steps: seq<Step>, d: Data) {
    Holds(d, id => Accepted(c0, w, steps, id), o => Committed(c0, w, steps, o))
  }

  /** What was accepted or committed before the last step still is. */
  lemma SafeBefore(c0: Client, w: World, before: seq<Step>, steps: seq<Step>, d: Data)
    requires before <= steps && Safe(c0, w, before, d)
    ensures Safe(c0, w, steps, d)
  {
    forall id | Accepted(c0, w, before, id) ensures Accepted(c0, w, steps, id) {
      SometimeStays(before, steps, Accepts(c0, w, id));
    }
    forall o | Committed(c0, w, before, o) ensures Committed(c0, w, steps, o) {
      SometimeStays(before, steps, Commits(c0, w, o));
    }
  }

  /** What is accepted or committed by the last step is so in the run. */
  lemma SafeNow(c0: Client, w: World, before: seq<Step>, st: Step)
    ensures forall id :: CallbackReturns(RunFrom(c0, w, before), w, st, id) ==> Accepted(c0, w, before + [st], id)
    ensures forall o :: CommitsNow(RunFrom(c0, w, before), w, st, o) && Accepted(c0, w, before + [st], o.messageId) ==>
              Committed(c0, w, before + [st], o)
  {
    var c, steps := RunFrom(c0, w, before), before + [st];
    assert steps[..|steps| - 1] == before;
    forall id | CallbackReturns(c, w, st, id) ensures Accepted(c0, w, steps, id) {
      SometimeNow(steps, Accepts(c0, w, id));
    }
    forall o | CommitsNow(c, w, st, o) && Accepted(c0, w, steps, o.messageId) ensures Committed(c0, w, steps, o) {
      SometimeNow(steps, Commits(c0, w, o));
    }
  }

  lemma SafeStep(c0: Client, w: World, before: seq<Step>, st: Step)
    requires Flags(RunFrom(c0, w, before)) && !st.CommitStep? && Safe(c0, w, before, RunFrom(c0, w, before).data)
    ensures Safe(c0, w, before + [st], Next(RunFrom(c0, w, before), w, st).data)
  {
    var c, steps := RunFrom(c0, w, before), before + [st];
    SafeBefore(c0, w, before, steps, c.data);
    SafeNow(c0, w, before, st);
    StepIsSafe(c, w, st, id => Accepted(c0, w, steps, id), o => Committed(c0, w, steps, o));
  }

  /**
   In every auto-commit run each stored offset is exactly that of a message that arrived in
   the run: topic, identifier, id, timestamp and sequence; and the callback had returned
   normally for its id by then. The same is true of each id in the dedup set.
   */
  lemma {:induction false} CommitsAreSafe(w: World, instance: Text, steps: seq<Step>)
    requires AutoCommitsOnly(steps)
    ensures Safe(NewClient(instance), w, steps, RunFrom(NewClient(instance), w, steps).data)
    decreases |steps|
  {
    if steps != [] {
      var before, st := steps[..|steps| - 1], steps[|steps| - 1];
      assert before + [st] == steps;
      CommitsAreSafe(w, instance, before);
      ClientRunInv(w, instance, before);
      SafeStep(NewClient(instance), w, before, st);
    }
  }

  // ---- Single messages ----

  /** A throwing callback leaves the dedup set, the commit store and the tables as they were. */
  lemma ThrowingCallback(c: Client, w: World, st: Step)
    requires Arrives(c, w, st) && st.choice.throws
    requires Parsed(w, st).messageId == [] || Parsed(w, st).messageId !in c.data.processed
    ensures Next(c, w, st).data == c.data.(invoked := c.data.invoked + [Parsed(w, st).messageId])
  {
    ArrivalData(c, w, st);
  }

  /**
   A duplicate runs no callback and changes no dedup set. It is committed again if and only
   if auto-commit is on and it is not a message that auto-commit skips.
   */
  lemma DuplicateIsRecommitted(c: Client, w: World, st: Step)
    requires Arrives(c, w, st) && Parsed(w, st).messageId != [] && Parsed(w, st).messageId in c.data.processed
    ensures Next(c, w, st).data ==
            if w.autoCommit && !Skips(c, w, st)
            then c.data.(commits := Put(c.data.commits, OffsetOf(c.data.tables, w, Parsed(w, st), TopicOf(c, w, st))))
            else c.data
  {
    ArrivalData(c, w, st);
  }

  // ---- Skipped messages ----

  ghost predicate ArrivesAs(c: Client, w: World, st: Step, id: Text) {
    Arrives(c, w, st) && Parsed(w, st).messageId == id
  }

  /** How often messages with this id arrived in the run. */
  ghost function Arrivals(c: Client, w: World, steps: seq<Step>, id: Text): nat
    decreases |steps|
  {
    if steps == [] then 0
    else
      var before := steps[..|steps| - 1];
      Arrivals(c, w, before, id) + if ArrivesAs(RunFrom(c, w, before), w, steps[|steps| - 1], id) then 1 else 0
  }

  /** Auto-commit skips every message of the run that has this id. */
  ghost predicate AllSkipped(c: Client, w: World, steps: seq<Step>, id: Text) {
    forall i :: 0 <= i < |steps| ==>
      (ArrivesAs(RunFrom(c, w, steps[..i]), w, steps[i], id) ==> Skips(RunFrom(c, w, steps[..i]), w, steps[i]))
  }

  lemma SkippedStep(c: Client, w: World, st: Step, id: Text)
    requires Flags(c) && id !in c.data.processed && (ArrivesAs(c, w, st, id) ==> Skips(c, w, st))
    ensures var d := Next(c, w, st).data;
            && id !in d.processed
            && multiset(d.invoked)[id] == multiset(c.data.invoked)[id] + if ArrivesAs(c, w, st, id) then 1 else 0
  {
    if Arrives(c, w, st) {
      ArrivalData(c, w, st);
    } else {
      OtherData(c, w, st);
    }
  }

  /**
   Over every run: an id whose messages auto-commit skips is never remembered, so the
   callback is called for every single one of them.
   */
  lemma {:induction false} SkippedIsNeverRemembered(w: World, instance: Text, steps: seq<Step>, id: Text)
    requires AllSkipped(NewClient(instance), w, steps, id)
    ensures var c0 := NewClient(instance);
            var d := RunFrom(c0, w, steps).data;
            id !in d.processed && multiset(d.invoked)[id] == Arrivals(c0, w, steps, id)
    decreases |steps|
  {
    if steps != [] {
      var c0, before := NewClient(instance), steps[..|steps| - 1];
      assert AllSkipped(c0, w, before, id) by {
        assert forall i :: 0 <= i < |before| ==> before[..i] == steps[..i] && before[i] == steps[i];
      }
      SkippedIsNeverRemembered(w, instance, before, id);
      ClientRunInv(w, instance, before);
      SkippedStep(RunFrom(c0, w, before), w, steps[|steps| - 1], id);
    }
  }

  // ---- From the wire to the callback ----

  /** The last message the reassembler delivered, as a step of the client. */
  function LastDelivered(out: Reassembler.Assembly, ch: Choice): Step
    requires out.delivered != []
  {
    IncomingStep(out.delivered[|out.delivered| - 1], ch)
  }

  /** The offset of a message: what auto-commit must store for it, field by field. */
  function OffsetFor(t: Tables, w: World, topic: Text, m: TopicMessage): CommitOffset {
    CommitOffset(topic, if topic in t.identifiers then t.identifiers[topic] else w.clientId,
                 m.uuid, m.timestamp % TWO_64, w.sequenceOf(m.payload))
  }

  /** What handling does with a message that parsed to `m`. */
  ghost predicate HandledAs(c: Client, w: World, st: Step, m: TopicMessage, d: Data)
    requires st.IncomingStep?
  {
    var topic := TopicOf(c, w, st);
    && d.invoked == c.data.invoked + (if m.uuid in c.data.processed then [] else [m.uuid])
    && d.commits ==
       if w.autoCommit && !Skips(c, w, st) && (m.uuid in c.data.processed || !st.choice.throws)
       then Put(c.data.commits, OffsetFor(c.data.tables, w, topic, m))
       else c.data.commits
  }

  lemma ParsedMessageHandled(c: Client, w: World, st: Step, m: TopicMessage)
    requires Arrives(c, w, st) && m.uuid != []
    requires Delivers(Parsed(w, st), m, m.headers) && Parsed(w, st).sequence == w.sequenceOf(m.payload)
    ensures HandledAs(c, w, st, m, Next(c, w, st).data)
  {
    ArrivalData(c, w, st);
  }

  /**
   A full topic frame behind any session header, cut into any fragments: reassembled and
   handled, its uuid reaches the callback if and only if it is not a duplicate. It is
   committed if and only if auto-commit is on, it is not skipped and its callback did not
   throw, under its topic and that topic's identifier, with its own uuid, timestamp and
   sequence number.
   */
  lemma WireToCallback(m: TopicMessage, term: int, session: int, a: Reassembler.Assembly, s: Reassembler.Sent,
                       c: Client, w: World, ch: Choice)
    requires FitsLengthType(m) && IsInt64(m.timestamp) && m.uuid != []
    requires Reassembler.Cuts(s, SessionHeader(term, session) + Frame(m))
    ensures var out := Reassembler.AcceptAll(a, Reassembler.Fragments(s));
            && |out.delivered| == |a.delivered| + 1
            && var st := LastDelivered(out, ch);
               Possible(c, w, st) ==> HandledAs(c, w, st, m, Next(c, w, st).data)
  {
    WirePath.FullFrameEndToEnd(m, term, session, a, s, w.sequenceOf);
    var st := LastDelivered(Reassembler.AcceptAll(a, Reassembler.Fragments(s)), ch);
    if Possible(c, w, st) {
      ParsedMessageHandled(c, w, st, m);
    }
  }
}
