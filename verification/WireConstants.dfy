/** The numbers and texts that the source fixes: frame headers, event codes, limits and payloads. */
module WireConstants {
  import opened Bytes
  import opened Flyweights
  import opened SessionFrames
  import opened TopicCodec
  import opened CommitFrames
  import opened Parser
  import opened SessionProtocol
  import opened ClientProtocol
  import Polling

  lemma TwoBytes(n: nat)
    requires n < 65536
    ensures ToLE(n, 2) == [n % 256, n / 256]
  {
    assert ToLE(n / 256, 1) == [(n / 256) % 256] + ToLE(n / 256 / 256, 0);
  }

  lemma HeaderOnTheWire(h: Header)
    requires ValidHeader(h)
    ensures HeaderBytes(h) ==
            [h.blockLength % 256, h.blockLength / 256, h.templateId % 256, h.templateId / 256,
             h.schemaId % 256, h.schemaId / 256, h.version % 256, h.version / 256]
  {
    TwoBytes(h.blockLength);
    TwoBytes(h.templateId);
    TwoBytes(h.schemaId);
    TwoBytes(h.version);
  }

  /** Block length, template, schema and version of each frame, byte for byte. */
  lemma FrameHeaders(term: int, session: int, c: ConnectIds, m: TopicMessage, topicId: nat, sequence: nat,
                     messageId: Text, identifier: Text)
    ensures SessionHeader(term, session)[..8] == [24, 0, 1, 0, 111, 0, 8, 0]
    ensures ConnectRequest(c)[..8] == [16, 0, 3, 0, 111, 0, 8, 0]
    ensures CloseRequest(term, session)[..8] == [16, 0, 4, 0, 111, 0, 8, 0]
    ensures KeepAlive(term, session)[..8] == [16, 0, 5, 0, 111, 0, 8, 0]
    ensures Frame(m)[..8] == [16, 0, 1, 0, 1, 0, 1, 0]
    ensures LiteFrame(topicId, sequence, messageId, identifier)[..8] == [12, 0, 45, 1, 1, 0, 1, 0]
  {
    HeaderOnTheWire(SESSION_HEADER);
    HeaderOnTheWire(SESSION_CONNECT);
    HeaderOnTheWire(SESSION_CLOSE);
    HeaderOnTheWire(SESSION_KEEP_ALIVE);
    HeaderOnTheWire(TOPIC_HEADER);
    HeaderOnTheWire(LITE_HEADER);
    assert Frame(m)[..8] == HeaderBytes(TOPIC_HEADER);
  }

  lemma EventCodes()
    ensures [OK, ERROR, REDIRECT, AUTHENTICATION_REJECTED, CLOSED] == [0, 1, 2, 3, 4]
  {
  }

  /** Which answers of an offer are retried, and which mean that the connection is lost. */
  lemma OfferCodes(code: int)
    ensures Transient(code) <==> code in {-2, -3}
    ensures ConnectionLoss(code) <==> code in {-1, -4, -5, -6}
    ensures Accepted(Answer(code)) <==> code > 0
  {
  }

  /** Offers of a keepalive, a close and a connect request; reconnect turns; the dedup set; strings; seconds. */
  lemma Limits()
    ensures [KEEP_ALIVE_ATTEMPTS, CLOSE_ATTEMPTS, CONNECT_OFFERS, MAX_RECONNECT_ATTEMPTS] == [3, 3, 20, 10]
    ensures [CAPACITY, EVICTION, STRING_LIMIT, MAX_FIELD] == [1000, 100, 10485760, 65534]
    ensures [Polling.HEALTH_INTERVAL, Polling.GRACE_PERIOD, Polling.LEGACY_IDLE_TIMEOUT]
            == [10_000_000_000, 15_000_000_000, 60_000_000_000]
  {
  }

  lemma {:induction false} AsciiConcat(a: string, b: string)
    ensures Ascii(a + b) == Ascii(a) + Ascii(b)
    decreases |a|
  {
    if a == "" {
      assert a + b == b;
    } else {
      assert (a + b)[1..] == a[1..] + b;
      AsciiConcat(a[1..], b);
    }
  }

  /** The text of a COMMIT request. */
  lemma CommitPayloadText(topic: string, client: string)
    ensures CommitPayload(Ascii(topic), Ascii(client)) ==
            Ascii("{\"topic\":\"" + topic + "\",\"action\":\"COMMIT\",\"client_id\":\"" + client + "\"}")
  {
    var a, b, c := "{\"topic\":\"", "\",\"action\":\"COMMIT\",\"client_id\":\"", "\"}";
    AsciiConcat(a, topic);
    AsciiConcat(a + topic, b);
    AsciiConcat(a + topic + b, client);
    AsciiConcat(a + topic + b + client, c);
  }

  /** Ids, topic and headers of the two commit messages in TopicMessage form. */
  lemma LegacyTexts(messageType: Text, uuid: Text, payload: Text, now: int, client: string, digits: string)
    ensures var m := LegacyMessage(messageType, uuid, payload, now);
            m.topic == Ascii("_subscriptions") && m.headers == Ascii("{}") && m.sequence == 0
    ensures CommitUuid(Ascii(client), Ascii(digits)) == Ascii("commit_" + client + "_" + digits)
    ensures FallbackUuid(Ascii(client), Ascii(digits)) == Ascii("commit_offset_" + client + "_" + digits)
  {
    AsciiConcat("commit_", client);
    AsciiConcat("commit_" + client, "_");
    AsciiConcat("commit_" + client + "_", digits);
    AsciiConcat("commit_offset_", client);
    AsciiConcat("commit_offset_" + client, "_");
    AsciiConcat("commit_offset_" + client + "_", digits);
  }
}
