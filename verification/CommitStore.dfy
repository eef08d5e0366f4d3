/** CommitManager's store: the last commit per topic and identifier, under one joined key. */
module CommitStore {
  import opened Bytes

  datatype CommitOffset = CommitOffset(
    topic: Text, identifier: Text, messageId: Text, timestamp: nat, sequence: nat)

  const COLON: byte := 58

  /** topic + ":" + message_identifier */
  function Key(topic: Text, identifier: Text): (k: Text)
    ensures COLON in k
  {
    topic + [COLON] + identifier
  }

  predicate ColonFree(t: Text) { COLON !in t }

  type Store = map<Text, CommitOffset>

  function Lookup(s: Store, topic: Text, identifier: Text): Option<CommitOffset> {
    var k := Key(topic, identifier);
    if k in s then Some(s[k]) else None
  }

  function Put(s: Store, o: CommitOffset): Store {
    s[Key(o.topic, o.identifier) := o]
  }

  class CommitManager {
    var commits: Store

    constructor ()
      ensures commits == map[]
    {
      commits := map[];
    }

    method CommitMessage(topic: Text, identifier: Text, messageId: Text, timestamp: nat, sequence: nat)
      modifies this
      ensures commits == Put(old(commits), CommitOffset(topic, identifier, messageId, timestamp, sequence))
    {
      var key := topic + [COLON] + identifier;
      commits := commits[key := CommitOffset(topic, identifier, messageId, timestamp, sequence)];
    }

    method GetLastCommit(topic: Text, identifier: Text) returns (r: Option<CommitOffset>)
      ensures r == Lookup(commits, topic, identifier)
    {
      var key := topic + [COLON] + identifier;
      r := if key in commits then Some(commits[key]) else None;
    }

    /** commits_.erase(topic): the topic is used as if it were a key. */
    method ClearCommits(topic: Text)
      modifies this
      ensures commits == Apply(old(commits), Clear(topic))
    {
      commits := commits - {topic};
    }

    method ClearAllCommits()
      modifies this
      ensures commits == map[]
    {
      commits := map[];
    }
  }

  datatype StoreOp = Commit(offset: CommitOffset) | Clear(topic: Text) | ClearAll

  function Apply(s: Store, op: StoreOp): Store {
    match op
    case Commit(o) => Put(s, o)
    case Clear(topic) => s - {topic}
    case ClearAll => map[]
  }

  function ApplyAll(ops: seq<StoreOp>): (s: Store) {
    if ops == [] then map[] else Apply(ApplyAll(ops[..|ops| - 1]), ops[|ops| - 1])
  }

  /** The map the store is meant to be: keyed by the pair, not by a joined text. */
  type Ledger = map<(Text, Text), CommitOffset>

  /** The pair a text would be the key of, cut at its first colon. */
  function SplitKey(k: Text): (p: (Text, Text))
    requires COLON in k
    ensures ColonFree(p.0) && Key(p.0, p.1) == k
  {
    if k[0] == COLON then ([], k[1..])
    else
      var rest := SplitKey(k[1..]);
      assert Key([k[0]] + rest.0, rest.1) == [k[0]] + Key(rest.0, rest.1);
      ([k[0]] + rest.0, rest.1)
  }

  function ApplyLedger(l: Ledger, op: StoreOp): Ledger {
    match op
    case Commit(o) => l[(o.topic, o.identifier) := o]
    case Clear(topic) => if COLON in topic then l - {SplitKey(topic)} else l
    case ClearAll => map[]
  }

  function ApplyAllLedger(ops: seq<StoreOp>): Ledger {
    if ops == [] then map[] else ApplyLedger(ApplyAllLedger(ops[..|ops| - 1]), ops[|ops| - 1])
  }

  predicate TopicsColonFree(ops: seq<StoreOp>) {
    forall i :: 0 <= i < |ops| && ops[i].Commit? ==> ColonFree(ops[i].offset.topic)
  }

  /**
   Two pairs share a key exactly when they are equal or one topic continues the other past
   a colon that the other pair has in its identifier.
   */
  lemma KeyCollision(t: Text, i: Text, t': Text, i': Text)
    requires |t| <= |t'|
    ensures Key(t, i) == Key(t', i') <==>
            (t == t' && i == i') || (t + [COLON] <= t' && i == t'[|t| + 1..] + [COLON] + i')
  {
    var k, k' := Key(t, i), Key(t', i');
    if k == k' {
      assert k[..|t|] == t && k[|t|] == COLON && k[|t| + 1..] == i;
      assert k'[..|t'|] == t' && k'[|t'|] == COLON && k'[|t'| + 1..] == i';
      if |t| < |t'| {
        assert t'[..|t|] == k'[..|t|] && t'[|t|] == k'[|t|];
        assert i == k'[|t| + 1..] == t'[|t| + 1..] + [COLON] + i';
      }
    }
    if t + [COLON] <= t' && i == t'[|t| + 1..] + [COLON] + i' {
      assert t' == t + [COLON] + t'[|t| + 1..];
      assert k == k';
    }
  }

  lemma NotPastAColon(t: Text, t': Text)
    requires ColonFree(t')
    ensures !(t + [COLON] <= t')
  {
    if |t| < |t'| {
      assert t'[|t|] in t' && (t + [COLON])[|t|] == COLON;
    }
  }

  lemma KeysOfColonFreeTopics(t: Text, i: Text, t': Text, i': Text)
    requires ColonFree(t) && ColonFree(t')
    ensures Key(t, i) == Key(t', i') <==> t == t' && i == i'
  {
    if |t| <= |t'| {
      KeyCollision(t, i, t', i');
      NotPastAColon(t, t');
    } else {
      KeyCollision(t', i', t, i);
      NotPastAColon(t', t);
    }
  }

  /**
   For colon-free topics the store refines the ledger over every sequence of calls: the
   joined key answers every lookup as the pair would, and the last writer wins.
   */
  lemma {:induction false} StoreRefinesLedger(ops: seq<StoreOp>, topic: Text, identifier: Text)
    requires TopicsColonFree(ops) && ColonFree(topic)
    ensures var l := ApplyAllLedger(ops);
            Lookup(ApplyAll(ops), topic, identifier)
            == if (topic, identifier) in l then Some(l[(topic, identifier)]) else None
    decreases |ops|
  {
    if ops != [] {
      var before, op := ops[..|ops| - 1], ops[|ops| - 1];
      StoreRefinesLedger(before, topic, identifier);
      match op
      case Commit(o) =>
        KeysOfColonFreeTopics(topic, identifier, o.topic, o.identifier);
      case Clear(t) =>
        if COLON in t {
          KeysOfColonFreeTopics(topic, identifier, SplitKey(t).0, SplitKey(t).1);
        }
      case ClearAll =>
    }
  }

  /** With a colon in a topic the store is not that map: one commit answers for another pair. */
  lemma ColonBreaksTheStore()
    ensures exists o: CommitOffset, t: Text, i: Text ::
              (t, i) != (o.topic, o.identifier) && Lookup(ApplyAll([Commit(o)]), t, i) == Some(o)
  {
    var a: Text, b: Text := [97], [98];
    var o := CommitOffset(a + [COLON] + b, b, [], 0, 0);
    assert Key(a, b + [COLON] + b) == Key(o.topic, o.identifier);
    assert [Commit(o)][..0] == [];
    assert Lookup(ApplyAll([Commit(o)]), a, b + [COLON] + b) == Some(o);
  }

  /** Commits of one pair, in the order they were made. */
  function CommitsOf(ops: seq<StoreOp>, topic: Text, identifier: Text): seq<CommitOffset> {
    if ops == [] then []
    else
      var last := ops[|ops| - 1];
      CommitsOf(ops[..|ops| - 1], topic, identifier) +
      if last.Commit? && last.offset.topic == topic && last.offset.identifier == identifier then [last.offset] else []
  }

  /** Without clears, the store holds the last commit of the pair. */
  lemma {:induction false} LastWriterWins(ops: seq<StoreOp>, topic: Text, identifier: Text)
    requires TopicsColonFree(ops) && ColonFree(topic) && CommitsOnly(ops)
    ensures var cs := CommitsOf(ops, topic, identifier);
            Lookup(ApplyAll(ops), topic, identifier) == if cs == [] then None else Some(cs[|cs| - 1])
    decreases |ops|
  {
    if ops != [] {
      var last := ops[|ops| - 1];
      LastWriterWins(ops[..|ops| - 1], topic, identifier);
      KeysOfColonFreeTopics(topic, identifier, last.offset.topic, last.offset.identifier);
    }
  }

  /** The commits of a pair come with non-decreasing sequence numbers. */
  predicate Rising(cs: seq<CommitOffset>) {
    forall j, k :: 0 <= j < k < |cs| ==> cs[j].sequence <= cs[k].sequence
  }

  /** The store answers with the highest sequence number committed for the pair so far. */
  ghost predicate HoldsHighest(ops: seq<StoreOp>, topic: Text, identifier: Text) {
    var cs, held := CommitsOf(ops, topic, identifier), Lookup(ApplyAll(ops), topic, identifier);
    cs != [] ==> held.Some? && held.value in cs && forall c :: c in cs ==> c.sequence <= held.value.sequence
  }

  predicate CommitsOnly(ops: seq<StoreOp>) {
    forall i :: 0 <= i < |ops| ==> ops[i].Commit?
  }

  lemma {:induction false} CommitsPrefix(ops: seq<StoreOp>, n: nat, topic: Text, identifier: Text)
    requires n <= |ops|
    ensures CommitsOf(ops[..n], topic, identifier) <= CommitsOf(ops, topic, identifier)
    decreases |ops|
  {
    if n < |ops| {
      CommitsPrefix(ops[..|ops| - 1], n, topic, identifier);
      assert ops[..|ops| - 1][..n] == ops[..n];
    } else {
      assert ops[..n] == ops;
    }
  }

  /** Every initial part of the pair's commits is what some initial part of the calls committed. */
  lemma {:induction false} CommitsReach(ops: seq<StoreOp>, k: nat, topic: Text, identifier: Text) returns (n: nat)
    requires k <= |CommitsOf(ops, topic, identifier)|
    ensures n <= |ops| && CommitsOf(ops[..n], topic, identifier) == CommitsOf(ops, topic, identifier)[..k]
    decreases |ops|
  {
    if k == |CommitsOf(ops, topic, identifier)| {
      n := |ops|;
      assert ops[..n] == ops;
    } else {
      var before := ops[..|ops| - 1];
      n := CommitsReach(before, k, topic, identifier);
      assert before[..n] == ops[..n];
    }
  }

  lemma RisingHoldsHighest(ops: seq<StoreOp>, topic: Text, identifier: Text)
    requires TopicsColonFree(ops) && ColonFree(topic) && CommitsOnly(ops)
    requires Rising(CommitsOf(ops, topic, identifier))
    ensures HoldsHighest(ops, topic, identifier)
  {
    LastWriterWins(ops, topic, identifier);
  }

  ghost predicate HighestAfter(ops: seq<StoreOp>, n: nat, topic: Text, identifier: Text)
    requires n <= |ops|
  {
    HoldsHighest(ops[..n], topic, identifier)
  }

  /** It does so after every call. */
  ghost predicate AlwaysHoldsHighest(ops: seq<StoreOp>, topic: Text, identifier: Text) {
    forall n :: 0 <= n <= |ops| ==> HighestAfter(ops, n, topic, identifier)
  }

  lemma PrefixPlain(ops: seq<StoreOp>, n: nat)
    requires n <= |ops| && TopicsColonFree(ops) && CommitsOnly(ops)
    ensures TopicsColonFree(ops[..n]) && CommitsOnly(ops[..n])
  {
  }

  /** If the store holds the highest one, it is the last one. */
  lemma HighestIsLast(ops: seq<StoreOp>, topic: Text, identifier: Text, j: nat)
    requires TopicsColonFree(ops) && ColonFree(topic) && CommitsOnly(ops)
    requires HoldsHighest(ops, topic, identifier) && j < |CommitsOf(ops, topic, identifier)|
    ensures var cs := CommitsOf(ops, topic, identifier); cs[j].sequence <= cs[|cs| - 1].sequence
  {
    LastWriterWins(ops, topic, identifier);
    assert CommitsOf(ops, topic, identifier)[j] in CommitsOf(ops, topic, identifier);
  }

  lemma RisingAt(part: seq<StoreOp>, cs: seq<CommitOffset>, topic: Text, identifier: Text, j: nat, k: nat)
    requires TopicsColonFree(part) && ColonFree(topic) && CommitsOnly(part) && HoldsHighest(part, topic, identifier)
    requires j < k < |cs| && CommitsOf(part, topic, identifier) == cs[..k + 1]
    ensures cs[j].sequence <= cs[k].sequence
  {
    HighestIsLast(part, topic, identifier, j);
  }

  lemma HighestIsRising(ops: seq<StoreOp>, topic: Text, identifier: Text, j: nat, k: nat)
    requires TopicsColonFree(ops) && ColonFree(topic) && CommitsOnly(ops)
    requires AlwaysHoldsHighest(ops, topic, identifier) && j < k < |CommitsOf(ops, topic, identifier)|
    ensures var cs := CommitsOf(ops, topic, identifier); cs[j].sequence <= cs[k].sequence
  {
    var n := CommitsReach(ops, k + 1, topic, identifier);
    PrefixPlain(ops, n);
    assert HighestAfter(ops, n, topic, identifier);
    RisingAt(ops[..n], CommitsOf(ops, topic, identifier), topic, identifier, j, k);
  }

  /**
   The store holds the highest sequence number of a pair after every call if and only if
   the pair's commits arrive in non-decreasing order.
   */
  lemma HoldsMaximum(ops: seq<StoreOp>, topic: Text, identifier: Text)
    requires TopicsColonFree(ops) && ColonFree(topic) && CommitsOnly(ops)
    ensures Rising(CommitsOf(ops, topic, identifier)) <==> AlwaysHoldsHighest(ops, topic, identifier)
  {
    var cs := CommitsOf(ops, topic, identifier);
    if Rising(cs) {
      forall n | 0 <= n <= |ops| ensures HighestAfter(ops, n, topic, identifier) {
        CommitsPrefix(ops, n, topic, identifier);
        PrefixPlain(ops, n);
        RisingHoldsHighest(ops[..n], topic, identifier);
      }
    }
    if AlwaysHoldsHighest(ops, topic, identifier) {
      forall j, k | 0 <= j < k < |cs| ensures cs[j].sequence <= cs[k].sequence {
        HighestIsRising(ops, topic, identifier, j, k);
      }
    }
  }

  lemma {:induction false} EveryKeyHasAColon(ops: seq<StoreOp>)
    ensures forall k :: k in ApplyAll(ops) ==> COLON in k
    decreases |ops|
  {
    if ops != [] { EveryKeyHasAColon(ops[..|ops| - 1]); }
  }

  /** clear_commits of a topic without a colon changes nothing, after any calls. */
  lemma ClearingATopicDoesNothing(ops: seq<StoreOp>, topic: Text)
    requires ColonFree(topic)
    ensures ApplyAll(ops + [Clear(topic)]) == ApplyAll(ops)
  {
    EveryKeyHasAColon(ops);
    assert (ops + [Clear(topic)])[..|ops|] == ops;
  }
}
