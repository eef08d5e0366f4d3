/** The commit frames: CommitOffsetLite for the known topics, a TopicMessage for the rest. */
module CommitFrames {
  import opened Bytes
  import opened Flyweights
  import opened TopicCodec
  import opened CommitStore

  const LITE_BLOCK: nat := 12
  const LITE_HEADER := Header(LITE_BLOCK, 301, 1, 1)

  /** The topic ids the server knows; 0 is unknown. */
  function TopicToId(topic: Text): (id: nat)
    ensures id <= 4
  {
    if topic == Ascii("order_request_topic") then 1
    else if topic == Ascii("order_notification_topic") then 2
    else if topic == Ascii("orders") then 3
    else if topic == Ascii("order_status_request_topic") then 4
    else 0
  }

  /** No two topics share an id. */
  lemma TopicIdsDiffer(a: Text, b: Text)
    requires TopicToId(a) == TopicToId(b) != 0
    ensures a == b
  {
  }

  function LiteFixed(topicId: nat, sequence: nat): (s: seq<byte>)
    ensures |s| == HEADER_LENGTH + LITE_BLOCK
  {
    HeaderBytes(LITE_HEADER) + ToLE(topicId, 4) + ToLE(sequence, 8)
  }

  function LiteFrame(topicId: nat, sequence: nat, messageId: Text, identifier: Text): (s: seq<byte>) {
    LiteFixed(topicId, sequence) + Vars([messageId, identifier])
  }

  lemma LiteVars(messageId: Text, identifier: Text)
    ensures |Vars([messageId, identifier])| == 4 + |messageId| + |identifier|
  {
    VarsCons(messageId, [identifier]);
    VarsCons(identifier, []);
    assert [messageId, identifier] == [messageId] + [identifier];
    assert [identifier] == [identifier] + [];
  }

  /**
   build_commit_offset_message for a known topic. computeLength has ruled out fields of more
   than 65534 bytes, so the uint16 casts lose nothing; resizing to the encoded length keeps
   the whole buffer.
   */
  method BuildLiteFrame(topicId: nat, o: CommitOffset) returns (r: Outcome<seq<byte>>)
    ensures r.Ok? <==> |o.messageId| <= MAX_FIELD && |o.identifier| <= MAX_FIELD
    ensures r.Ok? ==> r.value == LiteFrame(topicId, o.sequence, o.messageId, o.identifier)
    ensures !r.Ok? ==> r.fault == TooLong
  {
    if |o.messageId| > MAX_FIELD || |o.identifier| > MAX_FIELD {
      return Thrown(TooLong);
    }
    var f := FillLiteFrame(topicId, o);
    var encoded := f.EncodedLength();
    r := Ok(f.buffer[..HEADER_LENGTH + encoded]);
  }

  /** The exact fit: no put throws, and the cursor ends at the end of the buffer, which is the frame. */
  method FillLiteFrame(topicId: nat, o: CommitOffset) returns (f: Flyweight)
    requires |o.messageId| <= MAX_FIELD && |o.identifier| <= MAX_FIELD
    ensures fresh(f) && fresh(f.buffer) && f.Valid() && f.offset == HEADER_LENGTH
    ensures f.position == f.bufferLength == f.buffer.Length
    ensures f.buffer.Length == HEADER_LENGTH + LITE_BLOCK + 4 + |o.messageId| + |o.identifier|
    ensures f.buffer[..] == LiteFrame(topicId, o.sequence, o.messageId, o.identifier)
  {
    var total := HEADER_LENGTH + LITE_BLOCK + 4 + |o.messageId| + |o.identifier|;
    f := BeginLite(topicId, o.sequence, total);
    LiteVars(o.messageId, o.identifier);
    var done := f.PutVars([Cast16(o.messageId), Cast16(o.identifier)]);
    assert f.buffer[..f.position] == f.buffer[..];
  }

  method BeginLite(topicId: nat, sequence: nat, total: nat) returns (f: Flyweight)
    requires HEADER_LENGTH + LITE_BLOCK <= total
    ensures fresh(f) && fresh(f.buffer) && f.Valid()
    ensures f.buffer.Length == f.bufferLength == total
    ensures f.offset == HEADER_LENGTH && f.position == HEADER_LENGTH + LITE_BLOCK
    ensures f.buffer[..f.position] == LiteFixed(topicId, sequence)
  {
    var buffer := new byte[total](_ => 0);
    f := new Flyweight(buffer);
    var wrapped := f.WrapAndApplyHeader(0, total, LITE_HEADER);
    ghost var blank := buffer[..];
    f.PutFixed(0, topicId, 4);
    f.PutFixed(4, sequence, 8);
    LiteBlockWritten(blank, topicId, sequence);
  }

  lemma LiteBlockWritten(blank: seq<byte>, topicId: nat, sequence: nat)
    requires |blank| >= HEADER_LENGTH + LITE_BLOCK && blank[..HEADER_LENGTH] == HeaderBytes(LITE_HEADER)
    ensures Splice(Splice(blank, 8, ToLE(topicId, 4)), 12, ToLE(sequence, 8))[..20] == LiteFixed(topicId, sequence)
  {
    var t, s := ToLE(topicId, 4), ToLE(sequence, 8);
    SpliceTwice(blank, 8, t, s);
    SplicePrefix(blank, 8, t + s);
    Reassociate(HeaderBytes(LITE_HEADER), t, s);
  }

  datatype LiteCommit = LiteCommit(topicId: nat, sequence: nat, messageId: Text, identifier: Text)

  /** The CommitOffsetLite getters, as the server reads the frame. */
  function DecodeLite(data: seq<byte>): (r: Option<LiteCommit>) {
    if |data| < HEADER_LENGTH + LITE_BLOCK || ReadHeader(data) != LITE_HEADER then None
    else
      var fields := ReadVars(data, HEADER_LENGTH + LITE_BLOCK, 2);
      if fields == None then None
      else Some(LiteCommit(FromLE(data[8..12]), FromLE(data[12..20]), fields.value.0[0], fields.value.0[1]))
  }

  /** The commit frame decodes to the topic id, sequence, message id and identifier it was built from. */
  lemma LiteFrameRoundTrip(topicId: nat, sequence: nat, messageId: Text, identifier: Text)
    requires topicId < TWO_32 && sequence < TWO_64
    requires |messageId| <= MAX_FIELD && |identifier| <= MAX_FIELD
    ensures DecodeLite(LiteFrame(topicId, sequence, messageId, identifier))
            == Some(LiteCommit(topicId, sequence, messageId, identifier))
  {
    var frame := LiteFrame(topicId, sequence, messageId, identifier);
    var fields := [messageId, identifier];
    var rest := ToLE(topicId, 4) + ToLE(sequence, 8) + Vars(fields);
    assert frame == HeaderBytes(LITE_HEADER) + rest;
    HeaderRoundTrip(LITE_HEADER, rest);
    assert frame[8..12] == ToLE(topicId, 4) && frame[12..20] == ToLE(sequence, 8);
    RoundTrip32(topicId);
    RoundTrip64(sequence);
    assert frame[HEADER_LENGTH + LITE_BLOCK..] == Vars(fields) + [];
    assert frame[..|frame|] == frame;
    ReadVarsInCut(frame, |frame|, HEADER_LENGTH + LITE_BLOCK, fields, []);
  }

  /** The TopicMessage of build_commit_message and of the fallback for unknown topics. */
  function LegacyMessage(messageType: Text, uuid: Text, payload: Text, now: int): TopicMessage {
    TopicMessage(now, 0, Ascii("_subscriptions"), messageType, Cast16(uuid), Cast16(payload), Ascii("{}"))
  }

  /**
   Both builders pass the buffer size less 8 as the limit of positions that are counted from
   the start of the buffer, so 8 bytes stay unused: E100 is thrown exactly when the frame,
   with its lengths cast to uint16, is longer than that. What is built is cut at
   8 + encodedLength(), so it is the whole frame.
   */
  method BuildLegacyFrame(messageType: Text, uuid: Text, payload: Text, now: int, size: nat)
    returns (r: Outcome<seq<byte>>)
    requires size >= 32 && |messageType| <= MAX_FIELD
    ensures var m := LegacyMessage(messageType, uuid, payload, now);
            r == if |Frame(m)| <= size - HEADER_LENGTH then Ok(Frame(m)) else Thrown(BufferTooShort)
  {
    var m := LegacyMessage(messageType, uuid, payload, now);
    var f := Begin(m, size, size - HEADER_LENGTH);
    VarsLength(m);
    var done := f.PutVars(Body(m));
    if !done.Ok? { return Thrown(done.fault); }
    done := f.PutVar(m.headers);
    if !done.Ok? { return Thrown(done.fault); }
    var encoded := f.EncodedLength();
    assert f.buffer[..f.position] == Frame(m);
    r := Ok(f.buffer[..HEADER_LENGTH + encoded]);
  }

  /** The payload of build_commit_message. */
  function CommitPayload(topic: Text, client: Text): Text {
    Ascii("{\"topic\":\"") + topic + Ascii("\",\"action\":\"COMMIT\",\"client_id\":\"") + client + Ascii("\"}")
  }

  function CommitUuid(client: Text, digits: Text): Text {
    Ascii("commit_") + client + Ascii("_") + digits
  }

  /** What build_commit_message returns. */
  function CommitRequestFrame(topic: Text, client: Text, now: int, digits: Text): Outcome<seq<byte>> {
    var m := LegacyMessage(Ascii("COMMIT"), CommitUuid(client, digits), CommitPayload(topic, client), now);
    if |Frame(m)| <= 528 then Ok(Frame(m)) else Thrown(BufferTooShort)
  }

  method BuildCommitMessage(topic: Text, client: Text, now: nat, digits: Text) returns (r: Outcome<seq<byte>>)
    ensures r == CommitRequestFrame(topic, client, now, digits)
  {
    r := BuildLegacyFrame(Ascii("COMMIT"), CommitUuid(client, digits), CommitPayload(topic, client), now,
                          HEADER_LENGTH + BLOCK_LENGTH + 512);
  }

  /** What build_commit_offset_message returns; `json` is the fallback's JSON text. */
  function CommitOffsetFrame(o: CommitOffset, client: Text, json: Text, now: int, digits: Text): Outcome<seq<byte>> {
    var id := TopicToId(o.topic);
    if id != 0 then
      if |o.messageId| <= MAX_FIELD && |o.identifier| <= MAX_FIELD then
        Ok(LiteFrame(id, o.sequence, o.messageId, o.identifier))
      else Thrown(TooLong)
    else
      var m := LegacyMessage(Ascii("COMMIT_OFFSET"), FallbackUuid(client, digits), json, now);
      if |Frame(m)| <= 1040 then Ok(Frame(m)) else Thrown(BufferTooShort)
  }

  function FallbackUuid(client: Text, digits: Text): Text {
    Ascii("commit_offset_") + client + Ascii("_") + digits
  }

  method BuildCommitOffsetMessage(o: CommitOffset, client: Text, json: Text, now: int, digits: Text)
    returns (r: Outcome<seq<byte>>)
    ensures r == CommitOffsetFrame(o, client, json, now, digits)
  {
    var id := TopicToId(o.topic);
    if id != 0 {
      r := BuildLiteFrame(id, o);
    } else {
      r := BuildLegacyFrame(Ascii("COMMIT_OFFSET"), FallbackUuid(client, digits), json, now,
                            HEADER_LENGTH + BLOCK_LENGTH + 1024);
    }
  }
}
