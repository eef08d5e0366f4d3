/** The wire path end to end: encode, wrap, fragment, reassemble, parse. */
module WirePath {
  import opened Bytes
  import opened Flyweights
  import opened SessionFrames
  import opened TopicCodec
  import opened Parser
  import opened Reassembler

  /** The last message of an assembly, parsed. */
  function ParseLast(a: Assembly, sequenceOf: Text -> nat): ParseResult
    requires a.delivered != []
  {
    ParseMessage(a.delivered[|a.delivered| - 1], sequenceOf)
  }

  /** A schema-1 frame survives wrapping, any fragmentation, and reassembly on top of anything. */
  lemma WrappedFrameArrives(frame: seq<byte>, term: int, session: int, a: Assembly, s: Sent, sequenceOf: Text -> nat)
    requires |frame| >= HEADER_LENGTH && ReadHeader(frame).schemaId == 1 && ReadHeader(frame).templateId in {1, 2}
    requires Cuts(s, SessionHeader(term, session) + frame)
    ensures var out := AcceptAll(a, Fragments(s));
            && |out.delivered| == |a.delivered| + 1
            && ParseLast(out, sequenceOf) == ParseMessage(frame, sequenceOf)
  {
    CutMessageArrives(a, s, SessionHeader(term, session) + frame);
    WrappingIsTransparent(term, session, frame, sequenceOf);
  }

  /** So does a topic frame that was cut short before it was wrapped. */
  lemma WrappedCutFrameArrives(m: TopicMessage, cut: nat, term: int, session: int, a: Assembly, s: Sent,
                               sequenceOf: Text -> nat)
    requires HEADER_LENGTH <= cut <= |Frame(m)|
    requires Cuts(s, SessionHeader(term, session) + Frame(m)[..cut])
    ensures var out := AcceptAll(a, Fragments(s));
            && |out.delivered| == |a.delivered| + 1
            && ParseLast(out, sequenceOf) == ParseMessage(Frame(m)[..cut], sequenceOf)
  {
    FrameHeader(m, cut);
    WrappedFrameArrives(Frame(m)[..cut], term, session, a, s, sequenceOf);
  }

  /**
   For all fields of at most 65534 bytes: the full frame, behind any session header, cut
   into any fragments, on top of any accumulator contents, comes out with the same message
   type, uuid, payload, headers and timestamp.
   */
  lemma FullFrameEndToEnd(m: TopicMessage, term: int, session: int, a: Assembly, s: Sent, sequenceOf: Text -> nat)
    requires FitsLengthType(m) && IsInt64(m.timestamp)
    requires Cuts(s, SessionHeader(term, session) + Frame(m))
    ensures var out := AcceptAll(a, Fragments(s));
            && |out.delivered| == |a.delivered| + 1 && Delivers(ParseLast(out, sequenceOf), m, m.headers)
            && ParseLast(out, sequenceOf).sequence == sequenceOf(m.payload)
  {
    assert Frame(m)[..|Frame(m)|] == Frame(m);
    WrappedCutFrameArrives(m, |Frame(m)|, term, session, a, s, sequenceOf);
    ParseCutFrame(m, |Frame(m)|, sequenceOf);
  }

  /**
   The frame that publish_message really sends, over the same path: it is understood if and
   only if the headers have at least 6 bytes, and the headers themselves never arrive.
   */
  lemma PublishedFrameEndToEnd(m: TopicMessage, term: int, session: int, a: Assembly, s: Sent, sequenceOf: Text -> nat)
    requires FitsLengthType(m) && IsInt64(m.timestamp)
    requires Cuts(s, SessionHeader(term, session) + SentFrame(m))
    ensures var out := AcceptAll(a, Fragments(s));
            |out.delivered| == |a.delivered| + 1 && UnderstoodWithoutHeaders(ParseLast(out, sequenceOf), m)
  {
    SentFrameMeaning(m, sequenceOf);
    WrappedFrameArrives(SentFrame(m), term, session, a, s, sequenceOf);
  }
}
