/** From publish_message to the parser: the session protocol and the wire path together. */
module PublishPath {
  import opened Bytes
  import opened SessionFrames
  import opened TopicCodec
  import opened Parser
  import opened SessionProtocol
  import opened SessionInvariant
  import opened SessionTheorems
  import Reassembler
  import WirePath

  /** A combined send that succeeds ends with an accepted offer of the header buffer and the message. */
  lemma CombinedOffer(s: Session, env: Env, cfg: Config, message: seq<byte>)
    requires SendCombined(s, env, cfg, message).ok
    ensures var r := SendCombined(s, env, cfg, message).session;
            && s.connected && r.trace.offers != []
            && Accepted(Last(r.trace.offers).outcome) && Last(r.trace.offers).purpose == Combined
            && Last(r.trace.offers).frame == s.header + message
  {
    var outside := CheckConnected(s, env);
    var inside := CheckConnected(outside.session, env);
    OfferAccounting(inside.session, env, cfg, Combined, inside.session.header + message, 0);
    var r := SendCombined(s, env, cfg, message).session;
    assert Last(NewOffers(inside.session, r)) == Last(r.trace.offers);
  }

  /** The last offer of a successful publish, in any reachable state: the message under the live session's ids. */
  lemma PublishOffer(s: Session, env: Env, cfg: Config, m: TopicMessage)
    requires Inv(s) && Publish(s, env, cfg, m).ok
    ensures var r := Publish(s, env, cfg, m).session;
            && FitsLengthType(m) && s.trace.established != [] && r.trace.offers != []
            && s.term == Last(s.trace.established).term && s.sessionId == Last(s.trace.established).correlationId
            && Accepted(Last(r.trace.offers).outcome)
            && Last(r.trace.offers).frame == SessionHeader(s.term, s.sessionId) + SentFrame(m)
  {
    var checked := CheckConnected(s, env);
    CombinedOffer(checked.session, env, cfg, SentFrame(m));
  }

  /** Reassembled on top of `a`, the fragments parse to the message, or fail if its headers are short. */
  ghost predicate Arrives(a: Reassembler.Assembly, cut: Reassembler.Sent, m: TopicMessage, sequenceOf: Text -> nat) {
    var out := Reassembler.AcceptAll(a, Reassembler.Fragments(cut));
    |out.delivered| == |a.delivered| + 1 && UnderstoodWithoutHeaders(WirePath.ParseLast(out, sequenceOf), m)
  }

  /** The offer was accepted, its bytes are the message under these ids, and any cut of them arrives. */
  ghost predicate Carries(o: Offered, term: int, session: int, m: TopicMessage) {
    && Accepted(o.outcome)
    && o.frame == SessionHeader(term, session) + SentFrame(m)
    && forall a, cut, sequenceOf :: Reassembler.Cuts(cut, o.frame) ==> Arrives(a, cut, m, sequenceOf)
  }

  /** An accepted offer with that frame carries the message. */
  lemma SentIsCarried(o: Offered, term: int, session: int, m: TopicMessage)
    requires FitsLengthType(m) && IsInt64(m.timestamp)
    requires Accepted(o.outcome) && o.frame == SessionHeader(term, session) + SentFrame(m)
    ensures Carries(o, term, session, m)
  {
    forall a, cut, sequenceOf | Reassembler.Cuts(cut, o.frame) ensures Arrives(a, cut, m, sequenceOf) {
      WirePath.PublishedFrameEndToEnd(m, term, session, a, cut, sequenceOf);
    }
  }

  /**
   After any calls, a publish that succeeds has had an offer accepted whose bytes carry the
   ids of the live session. Cut in any way and reassembled on top of anything, they parse to
   the message if and only if its headers have at least 6 bytes, and without the headers.
   */
  lemma PublishedMessageArrives(env: Env, cfg: Config, cs: seq<Call>, m: TopicMessage)
    requires IsInt64(m.timestamp) && Publish(Run(env, cfg, cs), env, cfg, m).ok
    ensures var s := Run(env, cfg, cs);
            var offers := Run(env, cfg, cs + [PublishCall(m)]).trace.offers;
            && offers != [] && Carries(Last(offers), s.term, s.sessionId, m)
            && s.trace.established != [] && s.sessionId == Last(s.trace.established).correlationId
  {
    var s := Run(env, cfg, cs);
    assert (cs + [PublishCall(m)])[..|cs|] == cs;
    RunInv(env, cfg, cs);
    PublishOffer(s, env, cfg, m);
    SentIsCarried(Last(Publish(s, env, cfg, m).session.trace.offers), s.term, s.sessionId, m);
  }
}
