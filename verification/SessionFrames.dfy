/** The cluster-schema frames: session header, keepalive, close, connect and event. */
module SessionFrames {
  import opened Bytes
  import opened Flyweights

  const CLUSTER_SCHEMA: nat := 111
  const CLUSTER_VERSION: nat := 8
  const SESSION_HEADER := Header(24, 1, CLUSTER_SCHEMA, CLUSTER_VERSION)
  const SESSION_EVENT := Header(32, 2, CLUSTER_SCHEMA, CLUSTER_VERSION)
  const SESSION_CONNECT := Header(16, 3, CLUSTER_SCHEMA, CLUSTER_VERSION)
  const SESSION_CLOSE := Header(16, 4, CLUSTER_SCHEMA, CLUSTER_VERSION)
  const SESSION_KEEP_ALIVE := Header(16, 5, CLUSTER_SCHEMA, CLUSTER_VERSION)

  /** The 32 bytes put in front of every business message. */
  function SessionHeader(term: int, session: int): (s: seq<byte>)
    ensures |s| == 32
  {
    HeaderBytes(SESSION_HEADER) + ToLE(term, 8) + ToLE(session, 8) + ToLE(0, 8)
  }

  function KeepAlive(term: int, session: int): (s: seq<byte>)
    ensures |s| == 24
  {
    HeaderBytes(SESSION_KEEP_ALIVE) + ToLE(term, 8) + ToLE(session, 8)
  }

  function CloseRequest(term: int, session: int): (s: seq<byte>)
    ensures |s| == 24
  {
    HeaderBytes(SESSION_CLOSE) + ToLE(term, 8) + ToLE(session, 8)
  }

  /** What a SessionConnectRequest says; the correlation id is drawn once per session manager. */
  datatype ConnectIds = ConnectIds(correlation: int, stream: int, version: int, channel: Text)

  function ConnectRequest(c: ConnectIds): (s: seq<byte>)
    ensures |s| == 28 + |c.channel|
  {
    HeaderBytes(SESSION_CONNECT) +
    (ToLE(c.correlation, 8) + (ToLE(c.stream, 4) + (ToLE(c.version, 4) + (ToLE(|c.channel|, 4) + c.channel))))
  }

  predicate ValidConnect(c: ConnectIds) {
    IsInt64(c.correlation) && IsInt32(c.stream) && IsInt32(c.version) && |c.channel| < TWO_32
  }

  /** Reads a connect request as the cluster does. */
  function ReadConnect(data: seq<byte>): (r: Option<ConnectIds>) {
    if |data| < 28 || ReadHeader(data) != SESSION_CONNECT || 28 + FromLE(data[24..28]) > |data| then None
    else Some(ConnectIds(Signed64(FromLE(data[8..16])), Signed32(FromLE(data[16..20])), Signed32(FromLE(data[20..24])),
                         data[28..28 + FromLE(data[24..28])]))
  }

  /** The connect request names the stream and channel on which the client listens, and its correlation id. */
  lemma ConnectRoundTrip(c: ConnectIds)
    requires ValidConnect(c)
    ensures ReadConnect(ConnectRequest(c)) == Some(c)
  {
    var data := ConnectRequest(c);
    ConnectParts(c);
    RoundTrip64(c.correlation);
    RoundTrip32(c.stream);
    RoundTrip32(c.version);
    RoundTrip32(|c.channel|);
    assert data[28..28 + |c.channel|] == data[28..];
  }

  lemma ConnectParts(c: ConnectIds)
    ensures var data := ConnectRequest(c);
            && ReadHeader(data) == SESSION_CONNECT && data[8..16] == ToLE(c.correlation, 8)
            && data[16..20] == ToLE(c.stream, 4) && data[20..24] == ToLE(c.version, 4)
            && data[24..28] == ToLE(|c.channel|, 4) && data[28..] == c.channel
  {
    var data := ConnectRequest(c);
    var t4 := ToLE(|c.channel|, 4) + c.channel;
    var t3 := ToLE(c.version, 4) + t4;
    var t2 := ToLE(c.stream, 4) + t3;
    HeaderRoundTrip(SESSION_CONNECT, ToLE(c.correlation, 8) + t2);
    Peel(data, 8, ToLE(c.correlation, 8), t2);
    Peel(data, 16, ToLE(c.stream, 4), t3);
    Peel(data, 20, ToLE(c.version, 4), t4);
    Peel(data, 24, ToLE(|c.channel|, 4), c.channel);
  }

  /** The next piece of a frame, and what follows it. */
  lemma Peel(data: seq<byte>, pos: nat, piece: seq<byte>, rest: seq<byte>)
    requires pos <= |data| && data[pos..] == piece + rest
    ensures pos + |piece| <= |data| && data[pos..pos + |piece|] == piece && data[pos + |piece|..] == rest
  {
    DropPrefix(data, pos, piece, rest);
    assert data[pos..pos + |piece|] == data[pos..][..|piece|];
  }

  /** What a session-scoped frame says: its header and the ids of its block. */
  datatype Envelope = Envelope(header: Header, term: int, session: int, timestamp: Option<int>)

  /** Reads an envelope as the cluster does, from the block length of the header. */
  function ReadEnvelope(data: seq<byte>): (r: Option<Envelope>)
  {
    if |data| < HEADER_LENGTH then None
    else
      var h := ReadHeader(data);
      if h.blockLength < 16 || |data| < HEADER_LENGTH + h.blockLength then None
      else Some(Envelope(h, Signed64(FromLE(data[8..16])), Signed64(FromLE(data[16..24])),
                         if h.blockLength < 24 then None else Some(Signed64(FromLE(data[24..32])))))
  }

  lemma BlockIds(h: Header, term: int, session: int, rest: seq<byte>)
    requires ValidHeader(h) && IsInt64(term) && IsInt64(session)
    ensures var data := HeaderBytes(h) + ToLE(term, 8) + ToLE(session, 8) + rest;
            ReadHeader(data) == h && Signed64(FromLE(data[8..16])) == term && Signed64(FromLE(data[16..24])) == session
  {
    var tail := ToLE(term, 8) + ToLE(session, 8) + rest;
    var data := HeaderBytes(h) + ToLE(term, 8) + ToLE(session, 8) + rest;
    assert data == HeaderBytes(h) + tail;
    HeaderRoundTrip(h, tail);
    assert data[8..16] == ToLE(term, 8);
    assert data[16..24] == ToLE(session, 8);
    RoundTrip64(term);
    RoundTrip64(session);
  }

  lemma EnvelopeOf(h: Header, term: int, session: int, rest: seq<byte>)
    requires ValidHeader(h) && IsInt64(term) && IsInt64(session)
    requires 16 <= h.blockLength <= 16 + |rest|
    ensures ReadEnvelope(HeaderBytes(h) + ToLE(term, 8) + ToLE(session, 8) + rest)
            == Some(Envelope(h, term, session, if h.blockLength < 24 then None else Some(Signed64(FromLE(rest[..8])))))
  {
    var data := HeaderBytes(h) + ToLE(term, 8) + ToLE(session, 8) + rest;
    BlockIds(h, term, session, rest);
    if h.blockLength >= 24 {
      assert data[24..32] == rest[..8];
    }
  }

  /** Every session-scoped frame reads back as its own kind, with its own term and session. */
  lemma EnvelopeRoundTrip(term: int, session: int, rest: seq<byte>)
    requires IsInt64(term) && IsInt64(session)
    ensures ReadEnvelope(SessionHeader(term, session) + rest) == Some(Envelope(SESSION_HEADER, term, session, Some(0)))
    ensures ReadEnvelope(KeepAlive(term, session)) == Some(Envelope(SESSION_KEEP_ALIVE, term, session, None))
    ensures ReadEnvelope(CloseRequest(term, session)) == Some(Envelope(SESSION_CLOSE, term, session, None))
  {
    EnvelopeOf(SESSION_HEADER, term, session, ToLE(0, 8) + rest);
    Reassociate(HeaderBytes(SESSION_HEADER) + ToLE(term, 8) + ToLE(session, 8), ToLE(0, 8), rest);
    assert (ToLE(0, 8) + rest)[..8] == ToLE(0, 8);
    RoundTrip64(0);
    EnvelopeOf(SESSION_KEEP_ALIVE, term, session, []);
    assert KeepAlive(term, session) + [] == KeepAlive(term, session);
    EnvelopeOf(SESSION_CLOSE, term, session, []);
    assert CloseRequest(term, session) + [] == CloseRequest(term, session);
  }

  /** The fields of a SessionEvent that the client acts on. */
  datatype SessionEvent = SessionEvent(correlationId: int, sessionId: int, term: int, leader: int, code: int)

  const OK: int := 0
  const ERROR: int := 1
  const REDIRECT: int := 2
  const AUTHENTICATION_REJECTED: int := 3
  const CLOSED: int := 4

  predicate ValidEvent(e: SessionEvent) {
    IsInt64(e.correlationId) && IsInt64(e.sessionId) && IsInt64(e.term) && IsInt32(e.leader) && IsInt32(e.code)
  }

  function EventBytes(e: SessionEvent): (s: seq<byte>)
    ensures |s| == 40
  {
    HeaderBytes(SESSION_EVENT) + ToLE(e.correlationId, 8) + ToLE(e.sessionId, 8) + EventTail(e)
  }

  function EventTail(e: SessionEvent): (s: seq<byte>)
    ensures |s| == 16
  {
    ToLE(e.term, 8) + ToLE(e.leader, 4) + ToLE(e.code, 4)
  }

  /** The memcpy of the fixed block in decode_session_event. */
  function ReadEvent(data: seq<byte>): (e: SessionEvent)
    requires |data| >= 40
  {
    SessionEvent(Signed64(FromLE(data[8..16])), Signed64(FromLE(data[16..24])), Signed64(FromLE(data[24..32])),
                 Signed32(FromLE(data[32..36])), Signed32(FromLE(data[36..40])))
  }

  lemma EventRoundTrip(e: SessionEvent, detail: seq<byte>)
    requires ValidEvent(e)
    ensures ReadHeader(EventBytes(e) + detail) == SESSION_EVENT && ReadEvent(EventBytes(e) + detail) == e
  {
    var data, tail := EventBytes(e) + detail, EventTail(e);
    Reassociate(HeaderBytes(SESSION_EVENT) + ToLE(e.correlationId, 8) + ToLE(e.sessionId, 8), tail, detail);
    BlockIds(SESSION_EVENT, e.correlationId, e.sessionId, tail + detail);
    assert data[24..40] == tail;
    assert data[24..32] == data[24..40][..8] == ToLE(e.term, 8);
    assert data[32..36] == data[24..40][8..12] == ToLE(e.leader, 4);
    assert data[36..40] == data[24..40][12..16] == ToLE(e.code, 4);
    RoundTrip64(e.term);
    RoundTrip32(e.leader);
    RoundTrip32(e.code);
  }
}
