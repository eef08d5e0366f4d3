/**
 The TopicMessage codec: SBEEncoder::encode_topic_message and
 SessionManager::create_topic_message on one side, the field reads of
 decode_topic_message_with_sbe on the other.
 */
module TopicCodec {
  import opened Bytes
  import opened Flyweights

  const BLOCK_LENGTH: nat := 16
  const BODY_FIELDS: nat := 4
  const TOPIC_HEADER := Header(BLOCK_LENGTH, 1, 1, 1)

  /** timestamp and sequence are 64-bit values; a negative one is its two's complement. */
  datatype TopicMessage = TopicMessage(
    timestamp: int, sequence: int, topic: Text, messageType: Text, uuid: Text, payload: Text, headers: Text)

  predicate FitsLengthType(m: TopicMessage) {
    |m.topic| <= MAX_FIELD && |m.messageType| <= MAX_FIELD && |m.uuid| <= MAX_FIELD &&
    |m.payload| <= MAX_FIELD && |m.headers| <= MAX_FIELD
  }

  /** The header and the fixed block. */
  function Fixed(m: TopicMessage): (s: seq<byte>)
    ensures |s| == HEADER_LENGTH + BLOCK_LENGTH
  {
    HeaderBytes(TOPIC_HEADER) + ToLE(m.timestamp, 8) + ToLE(m.sequence, 8)
  }

  /** The whole frame in the order of the schema. */
  function Frame(m: TopicMessage): (s: seq<byte>)
    ensures |s| == PayloadEnd(m) + 2 + |m.headers|
  {
    VarsLength(m);
    Fixed(m) + Vars(Body(m)) + Var(m.headers)
  }

  /** What the encoders return of it: the last 8 bytes are missing. */
  function SentFrame(m: TopicMessage): (s: seq<byte>)
    ensures |s| >= HEADER_LENGTH + BLOCK_LENGTH && s <= Frame(m)
  {
    Frame(m)[..|Frame(m)| - HEADER_LENGTH]
  }

  /** The fields every decode needs; the headers come after them and may fail alone. */
  function Body(m: TopicMessage): seq<Text> {
    [m.topic, m.messageType, m.uuid, m.payload]
  }

  lemma VarsLength(m: TopicMessage)
    ensures |Vars(Body(m))| == 8 + |m.topic| + |m.messageType| + |m.uuid| + |m.payload|
  {
    VarsCons(m.topic, [m.messageType, m.uuid, m.payload]);
    VarsCons(m.messageType, [m.uuid, m.payload]);
    VarsCons(m.uuid, [m.payload]);
    VarsCons(m.payload, []);
    assert Body(m) == [m.topic] + [m.messageType, m.uuid, m.payload];
    assert [m.messageType, m.uuid, m.payload] == [m.messageType] + [m.uuid, m.payload];
    assert [m.uuid, m.payload] == [m.uuid] + [m.payload];
    assert [m.payload] == [m.payload] + [];
  }

  /** Where the payload field ends: every read before the headers needs this many bytes. */
  function PayloadEnd(m: TopicMessage): nat {
    HEADER_LENGTH + BLOCK_LENGTH + 8 + |m.topic| + |m.messageType| + |m.uuid| + |m.payload|
  }

  /** TopicMessage::computeLength; None is E109. */
  function ComputeLength(m: TopicMessage): (r: Option<nat>)
    ensures r.Some? <==> FitsLengthType(m)
    ensures r.Some? ==> HEADER_LENGTH + r.value == |Frame(m)|
  {
    if FitsLengthType(m) then
      Some(BLOCK_LENGTH + 10 + |m.topic| + |m.messageType| + |m.uuid| + |m.payload| + |m.headers|)
    else None
  }

  /** A zeroed buffer wrapped for a topic message, with the header and the block written. */
  method Begin(m: TopicMessage, size: nat, limit: nat) returns (f: Flyweight)
    requires HEADER_LENGTH + BLOCK_LENGTH <= limit <= size
    ensures fresh(f) && fresh(f.buffer) && f.Valid()
    ensures f.buffer.Length == size && f.bufferLength == limit
    ensures f.offset == HEADER_LENGTH && f.position == HEADER_LENGTH + BLOCK_LENGTH
    ensures f.buffer[..f.position] == Fixed(m)
  {
    var buffer := new byte[size](_ => 0);
    f := new Flyweight(buffer);
    var wrapped := f.WrapAndApplyHeader(0, limit, TOPIC_HEADER);
    ghost var blank := buffer[..];
    f.PutFixed(0, m.timestamp, 8);
    f.PutFixed(8, m.sequence, 8);
    BlockWritten(blank, m);
  }

  /** The two fixed fields, written over a buffer that starts with the header. */
  lemma BlockWritten(blank: seq<byte>, m: TopicMessage)
    requires |blank| >= HEADER_LENGTH + BLOCK_LENGTH && blank[..HEADER_LENGTH] == HeaderBytes(TOPIC_HEADER)
    ensures Splice(Splice(blank, 8, ToLE(m.timestamp, 8)), 16, ToLE(m.sequence, 8))[..24] == Fixed(m)
  {
    var t, s := ToLE(m.timestamp, 8), ToLE(m.sequence, 8);
    SpliceTwice(blank, 8, t, s);
    SplicePrefix(blank, 8, t + s);
    Reassociate(HeaderBytes(TOPIC_HEADER), t, s);
  }

  /**
   encode_topic_message and create_topic_message. The buffer is cut at encodedLength(),
   which leaves the 8-byte header out of its count, so the last 8 bytes of the frame are lost.
   */
  method EncodeTopicMessage(m: TopicMessage) returns (r: Outcome<seq<byte>>)
    ensures r.Ok? <==> FitsLengthType(m)
    ensures r.Ok? ==> r.value == SentFrame(m)
    ensures !r.Ok? ==> r.fault == TooLong
  {
    var length := ComputeLength(m);
    if length == None {
      return Thrown(TooLong);
    }
    var size := HEADER_LENGTH + BLOCK_LENGTH + length.value;
    var f := Begin(m, size, size);
    VarsLength(m);
    var done := f.PutVars(Body(m));
    done := f.PutVar(m.headers);
    var actual := f.EncodedLength();
    assert f.buffer[..f.position] == Frame(m);
    assert f.buffer[..actual] == f.buffer[..f.position][..actual];
    r := Ok(f.buffer[..actual]);
  }

  /** What the decoder reads; headers are None when their read threw. */
  datatype TopicBody = TopicBody(
    timestamp: nat, topic: Text, messageType: Text, uuid: Text, payload: Text, headers: Option<Text>)

  /** The four body fields from `pos`, and the headers after them; None is E100 before the headers. */
  function FieldsFrom(data: seq<byte>, pos: nat): (r: Option<(seq<Text>, Option<Text>)>)
    ensures r.Some? ==> |r.value.0| == BODY_FIELDS && pos + 2 * BODY_FIELDS <= |data|
  {
    if pos > |data| then None
    else
      var body := ReadVars(data, pos, BODY_FIELDS);
      if body == None then None
      else
        var headers := ReadVar(data, body.value.1);
        Some((body.value.0, if headers == None then None else Some(headers.value.0)))
  }

  /** The reads of decode_topic_message_with_sbe after the header check; None is E100. */
  function DecodeBody(data: seq<byte>, blockLength: nat): (r: Option<TopicBody>)
    requires |data| >= HEADER_LENGTH
    ensures r.Some? ==> |data| >= 16
  {
    var fields := FieldsFrom(data, HEADER_LENGTH + blockLength);
    if fields == None then None
    else
      var (body, headers) := fields.value;
      Some(TopicBody(FromLE(data[8..16]), body[0], body[1], body[2], body[3], headers))
  }

  /** The same reads through the cursor; the headers may throw alone. */
  method ReadFields(f: Flyweight) returns (r: Option<(seq<Text>, Option<Text>)>)
    requires f.Valid()
    modifies f`position
    ensures r == FieldsFrom(f.buffer[..f.bufferLength], old(f.position))
  {
    var body := f.GetVars(BODY_FIELDS);
    if !body.Ok? { return None; }
    var headers := f.GetVar();
    r := Some((body.value, if headers.Ok? then Some(headers.value) else None));
  }

  /**
   The whole decode through the cursor. The timestamp getter has no bounds check; the
   contract of DecodeBody shows that every decode that succeeds read it inside the buffer.
   */
  method DecodeWithCursor(data: array<byte>, blockLength: nat) returns (r: Option<TopicBody>)
    requires data.Length >= HEADER_LENGTH
    ensures r == DecodeBody(data[..], blockLength)
  {
    var f := new Flyweight(data);
    assert data[..data.Length] == data[..];
    var wrapped := f.WrapForEncode(HEADER_LENGTH, data.Length, blockLength);
    if !wrapped.Ok? { return None; }
    var fields := ReadFields(f);
    if fields == None { return None; }
    var (body, headers) := fields.value;
    assert data[8..16] == data[..][8..16];
    r := Some(TopicBody(FromLE(data[8..16]), body[0], body[1], body[2], body[3], headers));
  }

  /**
   Decoding a frame cut anywhere: it succeeds if and only if the payload field is whole,
   and then every field before the headers is intact, and the headers are read if and
   only if nothing at all was cut.
   */
  lemma DecodeCutFrame(m: TopicMessage, cut: nat)
    requires FitsLengthType(m)
    requires HEADER_LENGTH <= cut <= |Frame(m)|
    ensures var r := DecodeBody(Frame(m)[..cut], BLOCK_LENGTH);
            if cut < PayloadEnd(m) then r == None
            else r == Some(TopicBody(m.timestamp % TWO_64, m.topic, m.messageType, m.uuid, m.payload,
                                     if cut == |Frame(m)| then Some(m.headers) else None))
  {
    FrameParts(m);
    if PayloadEnd(m) <= cut { TimestampInCut(m, cut); }
    DecodeInCut(Frame(m), m, cut);
  }

  /** The decode of a cut frame, from what its parts are. */
  lemma DecodeInCut(frame: seq<byte>, m: TopicMessage, cut: nat)
    requires FitsLengthType(m) && HEADER_LENGTH <= cut <= |frame| == PayloadEnd(m) + 2 + |m.headers|
    requires HEADER_LENGTH + BLOCK_LENGTH + |Vars(Body(m))| == PayloadEnd(m)
    requires frame[HEADER_LENGTH + BLOCK_LENGTH..] == Vars(Body(m)) + Var(m.headers)
    requires frame[PayloadEnd(m)..] == Var(m.headers) + []
    requires PayloadEnd(m) <= cut ==> FromLE(frame[..cut][8..16]) == m.timestamp % TWO_64
    ensures var r := DecodeBody(frame[..cut], BLOCK_LENGTH);
            if cut < PayloadEnd(m) then r == None
            else r == Some(TopicBody(m.timestamp % TWO_64, m.topic, m.messageType, m.uuid, m.payload,
                                     if cut == |frame| then Some(m.headers) else None))
  {
    var start := HEADER_LENGTH + BLOCK_LENGTH;
    if start <= cut {
      ReadVarsInCut(frame, cut, start, Body(m), Var(m.headers));
      if PayloadEnd(m) <= cut {
        ReadVarInCut(frame, cut, PayloadEnd(m), m.headers, []);
      }
    }
  }

  /** The frame from the end of its block, and from the end of its payload. */
  lemma FrameParts(m: TopicMessage)
    ensures var frame := Frame(m);
            && frame[HEADER_LENGTH + BLOCK_LENGTH..] == Vars(Body(m)) + Var(m.headers)
            && frame[PayloadEnd(m)..] == Var(m.headers) + []
            && HEADER_LENGTH + BLOCK_LENGTH + |Vars(Body(m))| == PayloadEnd(m)
  {
    VarsLength(m);
    Reassociate(Fixed(m), Vars(Body(m)), Var(m.headers));
    DropPrefix(Frame(m), HEADER_LENGTH + BLOCK_LENGTH, Vars(Body(m)), Var(m.headers));
  }

  lemma TimestampInCut(m: TopicMessage, cut: nat)
    requires 16 <= cut <= |Frame(m)|
    ensures FromLE(Frame(m)[..cut][8..16]) == m.timestamp % TWO_64
  {
    assert Frame(m)[..24] == Fixed(m);
    assert Fixed(m)[8..16] == ToLE(m.timestamp, 8);
    assert Frame(m)[..cut][8..16] == Frame(m)[..24][8..16];
    FromToLE(m.timestamp, 8);
    Widths();
  }

  /**
   The other direction: whatever bytes decode with readable headers start with the frame of
   the message they decode to, so two messages never share an encoding.
   */
  lemma DecodeInverse(data: seq<byte>)
    requires |data| >= HEADER_LENGTH && data[..HEADER_LENGTH] == HeaderBytes(TOPIC_HEADER)
    requires var b := DecodeBody(data, BLOCK_LENGTH); b.Some? && b.value.headers.Some?
    ensures var b := DecodeBody(data, BLOCK_LENGTH).value;
            var m := TopicMessage(b.timestamp, FromLE(data[16..24]), b.topic, b.messageType, b.uuid, b.payload,
                                  b.headers.value);
            FitsAgain(m) && Frame(m) <= data
  {
    var b := DecodeBody(data, BLOCK_LENGTH).value;
    var m := TopicMessage(b.timestamp, FromLE(data[16..24]), b.topic, b.messageType, b.uuid, b.payload,
                          b.headers.value);
    ReadVarsInverse(data, 24, BODY_FIELDS);
    var (fields, end) := ReadVars(data, 24, BODY_FIELDS).value;
    ReadVarInverse(data, end);
    var (_, last) := ReadVar(data, end).value;
    ToFromLE(data[8..16]);
    ToFromLE(data[16..24]);
    assert fields == Body(m);
    PiecesMakeFrame(data, end, last, m);
  }

  lemma PiecesMakeFrame(data: seq<byte>, end: nat, last: nat, m: TopicMessage)
    requires 24 <= end <= last <= |data|
    requires data[..8] == HeaderBytes(TOPIC_HEADER)
    requires data[8..16] == ToLE(m.timestamp, 8) && data[16..24] == ToLE(m.sequence, 8)
    requires data[24..end] == Vars(Body(m)) && data[end..last] == Var(m.headers)
    ensures data[..last] == Frame(m)
  {
    Slices(data, 8, 16);
    Slices(data, 16, 24);
    Slices(data, 24, end);
    Slices(data, end, last);
  }

  /** Every field fits its 16-bit length. */
  predicate FitsAgain(m: TopicMessage) {
    AllFit(Body(m)) && |m.headers| < 65536
  }

  /** A frame cut at 8 + encodedLength() decodes to exactly what was put in. */
  lemma FrameRoundTrip(m: TopicMessage)
    requires FitsLengthType(m)
    ensures DecodeBody(Frame(m), BLOCK_LENGTH)
            == Some(TopicBody(m.timestamp % TWO_64, m.topic, m.messageType, m.uuid, m.payload, Some(m.headers)))
  {
    DecodeCutFrame(m, |Frame(m)|);
    assert Frame(m)[..|Frame(m)|] == Frame(m);
  }
}
