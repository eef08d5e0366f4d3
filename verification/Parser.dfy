/**
 MessageParser: routing of a received frame to a decoder, and the decoders.

 The JSON search for `_sequence_number` in a payload is a parameter: a function of the
 payload alone. Error texts are reduced to the reason they report.
 */
module Parser {
  import opened Bytes
  import opened Flyweights
  import opened SessionFrames
  import opened TopicCodec

  datatype ParseError =
    | NoError | EmptyData | BadHeader | UnknownType | BadSessionEvent | SessionTooShort
    | UnknownEmbedded | NotATopicMessage | DecodingFailed | BadAcknowledgment

  datatype ParseResult = ParseResult(
    success: bool, error: ParseError,
    messageType: Text, messageId: Text, payload: Text, headers: Text,
    timestamp: int, sequence: nat, header: Header, event: SessionEvent)

  const NO_EVENT := SessionEvent(0, 0, 0, 0, 0)

  /** A default-constructed ParseResult that carries an error. */
  function Failed(error: ParseError): ParseResult {
    ParseResult(false, error, [], [], [], [], 0, 0, Header(0, 0, 0, 0), NO_EVENT)
  }

  /** std::string::find(p) != npos */
  predicate Contains(s: Text, p: Text) {
    p <= s || (s != [] && Contains(s[1..], p))
  }

  predicate IsSessionEvent(r: ParseResult) {
    r.header.templateId == 2 && r.header.schemaId == CLUSTER_SCHEMA
  }

  predicate IsTopicMessage(r: ParseResult) {
    || (r.header.templateId == 1 && r.header.schemaId == 1)
    || (r.header.schemaId == CLUSTER_SCHEMA && r.header.templateId == 1)
    || (r.header.schemaId == 1 && r.header.templateId == 2)
    || (r.messageType != [] &&
        (Contains(r.messageType, Ascii("ORDER")) || Contains(r.messageType, Ascii("TopicMessage"))))
  }

  predicate IsAcknowledgment(r: ParseResult) {
    r.header.templateId == 2 && r.header.schemaId == 1
  }

  /** The routing of parse_message. */
  function ParseMessage(data: seq<byte>, sequenceOf: Text -> nat): (r: ParseResult)
  {
    if |data| == 0 then Failed(EmptyData)
    else if |data| < HEADER_LENGTH then Failed(BadHeader)
    else
      var routed := Failed(UnknownType).(header := ReadHeader(data));
      if IsSessionEvent(routed) then ParseSessionEvent(data)
      else if IsTopicMessage(routed) then ParseTopicMessage(data, sequenceOf)
      else if IsAcknowledgment(routed) then ParseAcknowledgment(data)
      else routed
  }

  /**
   The third branch is dead: every frame that is_acknowledgment accepts was a topic message
   before, so an acknowledgment is always decoded by the string scan, and the result of
   parse_message does not depend on parse_acknowledgment.
   */
  lemma AcknowledgmentBranchUnreachable(data: seq<byte>, sequenceOf: Text -> nat)
    requires |data| >= HEADER_LENGTH
    ensures var routed := Failed(UnknownType).(header := ReadHeader(data));
            && (IsAcknowledgment(routed) ==> ParseMessage(data, sequenceOf) == DecodeAcknowledgment(data))
            && (!IsSessionEvent(routed) && !IsTopicMessage(routed) ==> ParseMessage(data, sequenceOf) == routed)
  {
  }

  const STRING_LIMIT: nat := 10 * 1024 * 1024

  /** extract_variable_string: a uint32 length and the bytes, and the offset after them. */
  function ReadString(data: seq<byte>, offset: nat): (r: Option<(Text, nat)>)
    ensures r.Some? ==> r.value.1 == offset + 4 + |r.value.0| <= |data|
  {
    if offset + 4 > |data| then None
    else
      var n := FromLE(data[offset..offset + 4]);
      if n > |data| - 4 || n > STRING_LIMIT || offset + 4 + n > |data| then None
      else Some((data[offset + 4..offset + 4 + n], offset + 4 + n))
  }

  /** parse_acknowledgment: uint32-prefixed id and status, and an optional error. */
  function ParseAcknowledgment(data: seq<byte>): (r: ParseResult) {
    if |data| < 16 || ReadHeader(data).templateId != 2 || ReadHeader(data).schemaId != 1 then Failed(BadAcknowledgment)
    else
      var rest := data[16..];
      var id := ReadString(rest, 0);
      var status := if id == None then None else ReadString(rest, id.value.1);
      if status == None then Failed(BadAcknowledgment)
      else
        var error := ReadString(rest, status.value.1);
        ParseResult(true, NoError, Ascii("Acknowledgment"), id.value.0, status.value.0,
                    if error == None then [] else error.value.0,
                    Signed64(FromLE(data[8..16])), 0, ReadHeader(data), NO_EVENT)
  }

  /** The detail string of a session event; a bad length leaves it empty. */
  function EventDetail(data: seq<byte>): Text
    requires |data| >= 40
  {
    var detail := ReadString(data[40..], 0);
    if detail == None then [] else detail.value.0
  }

  function ParseSessionEvent(data: seq<byte>): (r: ParseResult)
    requires |data| >= HEADER_LENGTH
  {
    if |data| < 40 then Failed(BadSessionEvent)
    else
      ParseResult(true, NoError, Ascii("SessionEvent"), [], EventDetail(data), [], 0, 0,
                  ReadHeader(data), ReadEvent(data))
  }

  /** A SessionEvent frame parses to the event the cluster encoded, whatever detail follows. */
  lemma SessionEventParses(e: SessionEvent, detail: seq<byte>, sequenceOf: Text -> nat)
    requires ValidEvent(e)
    ensures var r := ParseMessage(EventBytes(e) + detail, sequenceOf);
            r.success && IsSessionEvent(r) && r.event == e && r.messageId == []
  {
    EventRoundTrip(e, detail);
  }

  /** Its detail string comes back too, up to the limit; a longer one is dropped. */
  lemma SessionEventDetail(e: SessionEvent, detail: Text, rest: seq<byte>, sequenceOf: Text -> nat)
    requires ValidEvent(e) && |detail| < TWO_32
    ensures ParseMessage(EventBytes(e) + (ToLE(|detail|, 4) + detail + rest), sequenceOf).payload
            == if |detail| <= STRING_LIMIT then detail else []
  {
    var tail := ToLE(|detail|, 4) + detail + rest;
    EventRoundTrip(e, tail);
    ReadStringThere(detail, rest);
    assert (EventBytes(e) + tail)[40..] == tail;
  }

  lemma ReadStringThere(s: Text, rest: seq<byte>)
    requires |s| < TWO_32
    ensures ReadString(ToLE(|s|, 4) + s + rest, 0) == if |s| <= STRING_LIMIT then Some((s, 4 + |s|)) else None
  {
    StringParts(s, rest);
    ReadStringAt(ToLE(|s|, 4) + s + rest, s);
  }

  lemma ReadStringAt(data: seq<byte>, s: Text)
    requires |s| < TWO_32 && |data| >= 4 + |s| && data[0..4] == ToLE(|s|, 4) && data[4..4 + |s|] == s
    ensures ReadString(data, 0) == if |s| <= STRING_LIMIT then Some((s, 4 + |s|)) else None
  {
    assert FromLE(data[0..4]) == |s| by {
      RoundTrip32(|s|);
    }
  }

  lemma StringParts(s: Text, rest: seq<byte>)
    ensures var data := ToLE(|s|, 4) + s + rest;
            |data| >= 4 + |s| && data[0..4] == ToLE(|s|, 4) && data[4..4 + |s|] == s
  {
    var data := ToLE(|s|, 4) + s + rest;
    Reassociate(ToLE(|s|, 4), s, rest);
    assert data[0..] == data;
    Peel(data, 0, ToLE(|s|, 4), s + rest);
    Peel(data, 4, s, rest);
  }

  /** parse_topic_message: unwrap a cluster session message, then decode by template. */
  function ParseTopicMessage(data: seq<byte>, sequenceOf: Text -> nat): (r: ParseResult)
    requires |data| >= HEADER_LENGTH
  {
    var h := ReadHeader(data);
    if h.schemaId == CLUSTER_SCHEMA then
      var skip := HEADER_LENGTH + h.blockLength;
      if |data| < skip + HEADER_LENGTH then Failed(SessionTooShort)
      else DecodeEmbedded(data[skip..], sequenceOf)
    else DecodeEmbedded(data, sequenceOf)
  }

  /** The schema-1 dispatch, which is the same for a wrapped and for a direct message. */
  function DecodeEmbedded(data: seq<byte>, sequenceOf: Text -> nat): (r: ParseResult)
    requires |data| >= HEADER_LENGTH
  {
    var h := ReadHeader(data);
    if h.schemaId != 1 then Failed(UnknownEmbedded)
    else if h.templateId == 1 then DecodeTopicMessage(data, sequenceOf)
    else if h.templateId == 2 then DecodeAcknowledgment(data)
    else Failed(UnknownEmbedded)
  }

  /** decode_topic_message_with_sbe; a throw while reading the headers leaves them empty. */
  function DecodeTopicMessage(data: seq<byte>, sequenceOf: Text -> nat): (r: ParseResult)
    requires |data| >= HEADER_LENGTH
  {
    var h := ReadHeader(data);
    if h.templateId != 1 || h.schemaId != 1 then Failed(NotATopicMessage)
    else
      var body := DecodeBody(data, h.blockLength);
      if body == None then Failed(DecodingFailed)
      else
        ParseResult(true, NoError, body.value.messageType, body.value.uuid, body.value.payload,
                    if body.value.headers == None then [] else body.value.headers.value,
                    Signed64(body.value.timestamp), sequenceOf(body.value.payload), h, NO_EVENT)
  }

  predicate Printable(b: byte) { 32 <= b <= 126 }

  /** A run counts as a string from three characters on. */
  function Keep(run: Text): seq<Text> {
    if |run| >= 3 then [run] else []
  }

  /** The readable-string scan, with the run collected so far. */
  function Scan(run: Text, data: seq<byte>): (r: seq<Text>)
    decreases |data|
  {
    if data == [] then Keep(run)
    else if Printable(data[0]) then Scan(run + [data[0]], data[1..])
    else Keep(run) + Scan([], data[1..])
  }

  method ExtractReadableStrings(data: array<byte>, from: nat) returns (found: seq<Text>)
    requires from <= data.Length
    ensures found == Scan([], data[from..])
  {
    found := [];
    ghost var all := data[..];
    assert all[from..] == data[from..];
    var run: Text := [];
    for i := from to data.Length
      invariant found + Scan(run, all[i..]) == Scan([], all[from..])
    {
      assert all[i..][0] == data[i] && all[i..][1..] == all[i + 1..];
      if Printable(data[i]) {
        run := run + [data[i]];
      } else {
        Reassociate(found, Keep(run), Scan([], all[i + 1..]));
        if |run| >= 3 {
          found := found + [run];
        }
        run := [];
      }
    }
    if |run| >= 3 {
      found := found + [run];
    }
  }

  predicate AllPrintable(s: Text) {
    forall b :: b in s ==> Printable(b)
  }

  /** The scan finds the maximal printable runs: one equation per separator, one for the end. */
  lemma {:induction false} ScanRun(before: Text, run: Text, stop: byte, rest: seq<byte>)
    requires AllPrintable(run) && !Printable(stop)
    ensures Scan(before, run) == Keep(before + run)
    ensures Scan(before, run + [stop] + rest) == Keep(before + run) + Scan([], rest)
    decreases |run|
  {
    var data := run + [stop] + rest;
    if run == [] {
      assert before + run == before && data[1..] == rest;
    } else {
      assert data[1..] == run[1..] + [stop] + rest;
      assert (before + [run[0]]) + run[1..] == before + run;
      ScanRun(before + [run[0]], run[1..], stop, rest);
    }
  }

  function Decimal(n: nat): (s: Text)
    ensures |s| > 0
  {
    if n < 10 then [48 + n] else Decimal(n / 10) + [48 + n % 10]
  }

  /** The number that a row of decimal digits stands for. */
  function DigitsValue(s: Text): int {
    if s == [] then 0
    else
      var last: int := s[|s| - 1];
      10 * DigitsValue(s[..|s| - 1]) + last - 48
  }

  lemma {:induction false} DecimalMeans(n: nat)
    ensures DigitsValue(Decimal(n)) == n && forall b :: b in Decimal(n) ==> 48 <= b <= 57
    decreases n
  {
    if n >= 10 {
      DecimalMeans(n / 10);
      var d := Decimal(n);
      assert d[..|d| - 1] == Decimal(n / 10) && d[|d| - 1] == 48 + n % 10;
    } else {
      assert Decimal(n)[..0] == [];
    }
  }

  /** decode_acknowledgment_with_sbe: readable strings stand in for the SBE fields. */
  function DecodeAcknowledgment(data: seq<byte>): (r: ParseResult)
    requires |data| >= HEADER_LENGTH
  {
    var h := ReadHeader(data);
    if h.templateId != 2 || h.schemaId != 1 || |data| < 16 then Failed(BadAcknowledgment)
    else
      var stamp := FromLE(data[8..16]);
      var found := Scan([], data[16..]);
      ParseResult(true, NoError, Ascii("Acknowledgment"),
                  if |found| > 0 then found[0] else Ascii("ack_") + Decimal(stamp),
                  if |found| > 1 then found[1] else Ascii("SUCCESS"),
                  if |found| > 2 then found[2] else [],
                  Signed64(stamp), 0, h, NO_EVENT)
  }

  /** What the scan finds are printable strings of three characters or more. */
  lemma {:induction false} ScanFinds(run: Text, data: seq<byte>)
    requires AllPrintable(run)
    ensures forall s :: s in Scan(run, data) ==> |s| >= 3 && AllPrintable(s)
    decreases |data|
  {
    if data != [] {
      if Printable(data[0]) {
        ScanFinds(run + [data[0]], data[1..]);
      } else {
        ScanFinds([], data[1..]);
      }
    }
  }

  /** A printable stretch is inside the first string found, whatever follows it. */
  lemma {:induction false} ScanGrows(run: Text, stretch: Text, rest: seq<byte>)
    requires AllPrintable(stretch) && |run + stretch| >= 3
    ensures var found := Scan(run, stretch + rest); |found| > 0 && run + stretch <= found[0]
    decreases |stretch| + |rest|
  {
    if stretch != [] {
      var data := stretch + rest;
      assert data[0] == stretch[0] && data[1..] == stretch[1..] + rest;
      assert (run + [stretch[0]]) + stretch[1..] == run + stretch;
      ScanGrows(run + [stretch[0]], stretch[1..], rest);
    } else {
      assert stretch + rest == rest && run + stretch == run;
      if rest != [] && Printable(rest[0]) {
        ScanGrows(run + [rest[0]], [], rest[1..]);
        assert [] + rest[1..] == rest[1..] && run + [rest[0]] + [] == run + [rest[0]];
      }
    }
  }

  /** The two length bytes before a field leave nothing behind when the second is a separator. */
  lemma ScanPastLength(lo: byte, hi: byte, after: seq<byte>)
    requires !Printable(hi)
    ensures Scan([], [lo, hi] + after) == Scan([], after)
  {
    if Printable(lo) {
      assert [lo, hi] + after == [lo] + [hi] + after;
      ScanRun([], [lo], hi, after);
    } else {
      assert [lo, hi] + after == [] + [lo] + ([hi] + after);
      ScanRun([], [], lo, [hi] + after);
      assert [hi] + after == [] + [hi] + after;
      ScanRun([], [], hi, after);
    }
  }

  lemma LengthBytes(n: nat)
    requires n < 65536
    ensures ToLE(n, 2) == [n % 256, n / 256]
  {
    assert ToLE(n / 256, 1) == [(n / 256) % 256] + ToLE(n / 256 / 256, 0);
  }

  /** The id of an acknowledgment, as the scan sees it: between two length fields. */
  predicate Recoverable(id: Text, status: Text)
    requires |id| < 65536
  {
    AllPrintable(id) && |id| >= 3 && !Printable(|id| / 256) && !Printable(|status| % 256)
  }

  /** A printable high byte of its own length is in front of the id, and joins it. */
  lemma LengthJoinsId(id: Text, after: seq<byte>)
    requires AllPrintable(id) && 3 <= |id| < 65536 && Printable(|id| / 256)
    ensures var found := Scan([], [|id| % 256, |id| / 256] + (id + after)); |found| > 0 && |found[0]| > |id|
  {
    var lo, hi := |id| % 256, |id| / 256;
    var data := [lo, hi] + (id + after);
    if Printable(lo) {
      assert data == ([lo, hi] + id) + after;
      ScanGrows([], [lo, hi] + id, after);
    } else {
      assert data == [] + [lo] + ([hi] + id + after);
      ScanRun([], [], lo, [hi] + id + after);
      assert [hi] + id + after == ([hi] + id) + after;
      ScanGrows([], [hi] + id, after);
    }
  }

  /** What the scan makes of the id and the two length fields around it. */
  lemma ScanAcknowledgment(id: Text, low: byte, high: byte, tail: seq<byte>)
    requires AllPrintable(id) && 3 <= |id| < 65536
    ensures var found := Scan([], [|id| % 256, |id| / 256] + (id + ([low] + ([high] + tail))));
            && |found| > 0
            && (found[0] == id <==> !Printable(|id| / 256) && !Printable(low))
            && (!Printable(|id| / 256) && Printable(low) && !Printable(high) ==> found[0] == id + [low])
  {
    var rest := [high] + tail;
    var after := id + ([low] + rest);
    if Printable(|id| / 256) {
      LengthJoinsId(id, [low] + rest);
    } else {
      ScanPastLength(|id| % 256, |id| / 256, after);
      if Printable(low) {
        assert after == (id + [low]) + rest;
        ScanGrows([], id + [low], rest);
        if !Printable(high) {
          assert after == (id + [low]) + [high] + tail;
          ScanRun([], id + [low], high, tail);
        }
      } else {
        assert after == id + [low] + rest;
        ScanRun([], id, low, rest);
      }
    }
  }

  lemma {:induction false} DecimalPrints(n: nat)
    ensures AllPrintable(Decimal(n))
    decreases n
  {
    if n >= 10 { DecimalPrints(n / 10); }
  }

  /** Whatever the scan finds or falls back on is printable and has three characters or more. */
  lemma AcknowledgmentIdPrints(data: seq<byte>)
    requires |data| >= 16 && ReadHeader(data).templateId == 2 && ReadHeader(data).schemaId == 1
    ensures var r := DecodeAcknowledgment(data); r.success && |r.messageId| >= 3 && AllPrintable(r.messageId)
  {
    var found := Scan([], data[16..]);
    ScanFinds([], data[16..]);
    if |found| > 0 {
      assert found[0] in found;
    } else {
      FallbackPrints(FromLE(data[8..16]));
    }
  }

  lemma FallbackPrints(stamp: nat)
    ensures var id := Ascii("ack_") + Decimal(stamp); |id| >= 3 && AllPrintable(id)
  {
    DecimalPrints(stamp);
    AckPrefix();
    assert AllPrintable([97, 99, 107, 95]);
    PrintableConcat([97, 99, 107, 95], Decimal(stamp));
  }

  lemma PrintableConcat(s: Text, t: Text)
    requires AllPrintable(s) && AllPrintable(t)
    ensures AllPrintable(s + t)
  {
    assert forall b :: b in s + t ==> b in s || b in t;
  }

  lemma AckPrefix()
    ensures Ascii("ack_") == [97, 99, 107, 95]
  {
  }

  /** The body of an SBE acknowledgment: timestamp, id, status, and what follows. */
  function AcknowledgmentBytes(stamp: int, id: Text, status: Text, rest: seq<byte>): seq<byte> {
    HeaderBytes(Header(8, 2, 1, 1)) + (ToLE(stamp, 8) + (Var(id) + (Var(status) + rest)))
  }

  lemma AcknowledgmentParts(stamp: int, id: Text, status: Text, rest: seq<byte>)
    requires |id| < 65536 && |status| < 65536
    ensures var data := AcknowledgmentBytes(stamp, id, status, rest);
            && ReadHeader(data) == Header(8, 2, 1, 1)
            && data[16..] == [|id| % 256, |id| / 256] + (id + ([|status| % 256] + ([|status| / 256] + (status + rest))))
  {
    var data := AcknowledgmentBytes(stamp, id, status, rest);
    HeaderRoundTrip(Header(8, 2, 1, 1), ToLE(stamp, 8) + (Var(id) + (Var(status) + rest)));
    LengthBytes(|id|);
    LengthBytes(|status|);
    Peel(data, 8, ToLE(stamp, 8), Var(id) + (Var(status) + rest));
    Reassociate(ToLE(|id|, 2), id, Var(status) + rest);
    Reassociate(ToLE(|status|, 2), status, rest);
    Reassociate([|status| % 256], [|status| / 256], status + rest);
    assert [|status| % 256] + [|status| / 256] == [|status| % 256, |status| / 256];
  }

  /**
   The string scan on every SBE acknowledgment: the id comes back exactly if and only if it
   is printable, has at least three characters, and neither the high byte of its own length
   nor the low byte of the status length is a printable character. If only the latter is,
   and the status is shorter than 8192 bytes, the id comes back with that byte appended.
   */
  lemma AcknowledgmentId(stamp: int, id: Text, status: Text, rest: seq<byte>)
    requires |id| < 65536 && |status| < 65536
    ensures var r := DecodeAcknowledgment(AcknowledgmentBytes(stamp, id, status, rest));
            && r.success && (r.messageId == id <==> Recoverable(id, status))
            && (AllPrintable(id) && |id| >= 3 && !Printable(|id| / 256) &&
                Printable(|status| % 256) && |status| < 8192 ==>
                  r.messageId == id + [|status| % 256])
  {
    AcknowledgmentParts(stamp, id, status, rest);
    var data := AcknowledgmentBytes(stamp, id, status, rest);
    AcknowledgmentIdPrints(data);
    if AllPrintable(id) && |id| >= 3 {
      ScanAcknowledgment(id, |status| % 256, |status| / 256, status + rest);
    }
  }

  lemma {:induction false} ScanNothing(data: seq<byte>)
    requires forall i :: 0 <= i < |data| ==> !Printable(data[i])
    ensures Scan([], data) == []
    decreases |data|
  {
    if data != [] { ScanNothing(data[1..]); }
  }

  /** With no readable text at all the id is made from the timestamp and the status is SUCCESS. */
  lemma AcknowledgmentFallback(data: seq<byte>)
    requires |data| >= 16 && ReadHeader(data).templateId == 2 && ReadHeader(data).schemaId == 1
    requires forall i :: 16 <= i < |data| ==> !Printable(data[i])
    ensures var r := DecodeAcknowledgment(data);
            && r.success && r.payload == Ascii("SUCCESS") && r.headers == []
            && r.messageId == Ascii("ack_") + Decimal(FromLE(data[8..16]))
  {
    ScanNothing(data[16..]);
  }

  /** A string the scan finds as it is: printable, and three characters or more. */
  predicate Clean(s: Text) { AllPrintable(s) && |s| >= 3 }

  /** Its length bytes do not look like text. */
  predicate QuietLength(s: Text) { |s| < 65536 && !Printable(|s| % 256) && !Printable(|s| / 256) }

  lemma ScanSeparator(stop: byte, rest: seq<byte>)
    requires !Printable(stop)
    ensures Scan([], [stop] + rest) == Scan([], rest)
  {
    assert [] + [stop] + rest == [stop] + rest;
    ScanRun([], [], stop, rest);
  }

  lemma ScanField(s: Text, low: byte, high: byte, rest: seq<byte>)
    requires Clean(s) && !Printable(low) && !Printable(high)
    ensures Scan([], s + ([low, high] + rest)) == [s] + Scan([], rest)
  {
    var after := [high] + rest;
    assert [low, high] + rest == [low] + after;
    Reassociate(s, [low], after);
    ScanRun([], s, low, after);
    assert [] + s == s;
    ScanSeparator(high, rest);
  }

  lemma ScanLast(s: Text)
    requires Clean(s)
    ensures Scan([], s) == [s]
  {
    ScanRun([], s, 0, []);
    assert [] + s == s;
  }

  /** An acknowledgment with three clean fields of quiet lengths is decoded field by field. */
  lemma AcknowledgmentFields(stamp: int, id: Text, status: Text, error: Text)
    requires IsInt64(stamp) && Clean(id) && Clean(status) && Clean(error)
    requires QuietLength(id) && QuietLength(status) && QuietLength(error)
    ensures var r := DecodeAcknowledgment(AcknowledgmentBytes(stamp, id, status, Var(error)));
            && r.success && r.messageType == Ascii("Acknowledgment") && r.timestamp == stamp
            && r.messageId == id && r.payload == status && r.headers == error
  {
    AcknowledgmentParts(stamp, id, status, Var(error));
    AcknowledgmentStamp(stamp, id, status, Var(error));
    ScanFields(id, status, error);
    var tail := [|status| / 256] + (status + Var(error));
    assert [|status| % 256] + tail == [|status| % 256, |status| / 256] + (status + Var(error));
  }

  lemma ScanFields(id: Text, status: Text, error: Text)
    requires Clean(id) && Clean(status) && Clean(error)
    requires QuietLength(id) && QuietLength(status) && QuietLength(error)
    ensures Scan([], [|id| % 256, |id| / 256] + (id + ([|status| % 256, |status| / 256] + (status + Var(error)))))
            == [id, status, error]
  {
    LengthBytes(|error|);
    var last := [|error| % 256, |error| / 256] + error;
    assert Var(error) == last;
    ScanPastLength(|id| % 256, |id| / 256, id + ([|status| % 256, |status| / 256] + (status + last)));
    ScanField(id, |status| % 256, |status| / 256, status + last);
    ScanField(status, |error| % 256, |error| / 256, error);
    ScanLast(error);
  }

  lemma AcknowledgmentStamp(stamp: int, id: Text, status: Text, rest: seq<byte>)
    requires IsInt64(stamp)
    ensures Signed64(FromLE(AcknowledgmentBytes(stamp, id, status, rest)[8..16])) == stamp
  {
    assert AcknowledgmentBytes(stamp, id, status, rest)[8..16] == ToLE(stamp, 8);
    RoundTrip64(stamp);
  }

  lemma Unwrap(term: int, session: int, frame: seq<byte>)
    ensures ReadHeader(SessionHeader(term, session) + frame) == SESSION_HEADER
    ensures (SessionHeader(term, session) + frame)[32..] == frame
  {
    var ids := ToLE(term, 8) + ToLE(session, 8) + ToLE(0, 8);
    assert SessionHeader(term, session) + frame == HeaderBytes(SESSION_HEADER) + (ids + frame);
    HeaderRoundTrip(SESSION_HEADER, ids + frame);
  }

  /**
   Wrapping is transparent: a schema-1 frame of template 1 or 2 parses to the same result
   with the 32-byte session header in front of it and without.
   */
  lemma WrappingIsTransparent(term: int, session: int, frame: seq<byte>, sequenceOf: Text -> nat)
    requires |frame| >= HEADER_LENGTH
    requires ReadHeader(frame).schemaId == 1 && ReadHeader(frame).templateId in {1, 2}
    ensures ParseMessage(SessionHeader(term, session) + frame, sequenceOf) == ParseMessage(frame, sequenceOf)
  {
    Unwrap(term, session, frame);
  }

  /** Nothing else gets through the wrapper, also not a session event. */
  lemma OnlySchemaOneUnwraps(term: int, session: int, frame: seq<byte>, sequenceOf: Text -> nat)
    requires |frame| < HEADER_LENGTH || ReadHeader(frame).schemaId != 1 || ReadHeader(frame).templateId !in {1, 2}
    ensures !ParseMessage(SessionHeader(term, session) + frame, sequenceOf).success
  {
    Unwrap(term, session, frame);
  }

  /** What a parse says about the application message that was encoded. */
  predicate Delivers(r: ParseResult, m: TopicMessage, headers: Text) {
    r.success && r.messageType == m.messageType && r.messageId == m.uuid && r.payload == m.payload &&
    r.headers == headers && r.timestamp == m.timestamp
  }

  /** The message arrives if and only if its headers have at least 6 bytes, and then without them. */
  predicate UnderstoodWithoutHeaders(r: ParseResult, m: TopicMessage) {
    if |m.headers| >= 6 then Delivers(r, m, []) else !r.success
  }

  lemma FrameHeader(m: TopicMessage, cut: nat)
    requires HEADER_LENGTH <= cut <= |Frame(m)|
    ensures ReadHeader(Frame(m)[..cut]) == TOPIC_HEADER
  {
    var rest := Frame(m)[HEADER_LENGTH..cut];
    VarsLength(m);
    assert Frame(m)[..HEADER_LENGTH] == HeaderBytes(TOPIC_HEADER);
    assert Frame(m)[..cut] == HeaderBytes(TOPIC_HEADER) + rest;
    HeaderRoundTrip(TOPIC_HEADER, rest);
  }

  /** A frame cut anywhere, through the whole parser. */
  lemma ParseCutFrame(m: TopicMessage, cut: nat, sequenceOf: Text -> nat)
    requires FitsLengthType(m) && IsInt64(m.timestamp)
    requires HEADER_LENGTH <= cut <= |Frame(m)|
    ensures var r := ParseMessage(Frame(m)[..cut], sequenceOf);
            if cut < PayloadEnd(m) then !r.success
            else Delivers(r, m, if cut == |Frame(m)| then m.headers else []) && r.sequence == sequenceOf(m.payload)
  {
    FrameHeader(m, cut);
    DecodeCutFrame(m, cut);
    WrapSigned(m.timestamp, TWO_63);
  }

  /**
   The frame the encoders really send has lost its last 8 bytes. It decodes if and only if
   the headers have at least 6 bytes, and then everything but the headers is intact and the
   headers come back empty.
   */
  lemma SentFrameMeaning(m: TopicMessage, sequenceOf: Text -> nat)
    requires FitsLengthType(m) && IsInt64(m.timestamp)
    ensures ReadHeader(SentFrame(m)) == TOPIC_HEADER
    ensures UnderstoodWithoutHeaders(ParseMessage(SentFrame(m), sequenceOf), m)
  {
    FrameHeader(m, |Frame(m)| - HEADER_LENGTH);
    ParseCutFrame(m, |Frame(m)| - HEADER_LENGTH, sequenceOf);
  }
}
