/** What every call on the session manager keeps. */
module SessionInvariant {
  import opened Bytes
  import opened Flyweights
  import opened SessionFrames
  import opened SessionProtocol
  import opened SessionInduction

  function Last<T>(s: seq<T>): T
    requires s != []
  {
    s[|s| - 1]
  }

  /** The live ids and both cached buffers are those of the last session that was established. */
  ghost predicate Agrees(s: Session) {
    var es := s.trace.established;
    && s.header[..8] == HeaderBytes(SESSION_HEADER)
    && s.keepAlive[..8] == HeaderBytes(SESSION_KEEP_ALIVE)
    && (es != [] ==>
          && s.term == Last(es).term
          && s.header == SessionHeader(Last(es).term, Last(es).correlationId)
          && s.keepAlive == KeepAlive(Last(es).term, Last(es).correlationId))
    && (s.connected || s.sessionId != -1 ==> es != [] && s.sessionId == Last(es).correlationId)
  }

  /** A session-scoped frame carries the ids of the session of its epoch. */
  ghost predicate CarriesIds(es: seq<SessionEvent>, o: Offered) {
    o.purpose in {Combined, KeepingAlive, Closing} ==>
      && 1 <= o.epoch <= |es|
      && var e := es[o.epoch - 1];
         match o.purpose
         case Combined => |o.frame| >= 32 && o.frame[..32] == SessionHeader(e.term, e.correlationId)
         case KeepingAlive => o.frame == KeepAlive(e.term, e.correlationId)
         case Closing => o.frame == CloseRequest(e.term, e.correlationId)
         case _ => true
  }

  ghost predicate AllCarryIds(s: Session) {
    forall o :: o in s.trace.offers ==> CarriesIds(s.trace.established, o)
  }

  predicate AcceptedClose(o: Offered) {
    o.purpose == Closing && Accepted(o.outcome)
  }

  /** Accepted close requests belong to different sessions, and none of them to a live one. */
  ghost predicate ClosedOnce(s: Session) {
    var os, n := s.trace.offers, |s.trace.established|;
    && (forall i, j :: 0 <= i < j < |os| && AcceptedClose(os[i]) && AcceptedClose(os[j]) ==> os[i].epoch < os[j].epoch)
    && (forall o :: o in os && AcceptedClose(o) ==> o.epoch <= n && (s.connected ==> o.epoch < n))
  }

  /** Accepted offers of messages, or of keepalives. */
  function CountAccepted(os: seq<Offered>, keepAlives: bool): nat {
    if os == [] then 0
    else
      CountAccepted(os[..|os| - 1], keepAlives) +
      if Accepted(Last(os).outcome) && Last(os).purpose != Connecting &&
         keepAlives == (Last(os).purpose == KeepingAlive) then 1 else 0
  }

  /** What the last offer that returned answered. */
  function LastAnswer(os: seq<Offered>): Option<int> {
    if os == [] then None
    else if Last(os).outcome.Answer? then Some(Last(os).outcome.code)
    else LastAnswer(os[..|os| - 1])
  }

  /** The counters count, and the last error is the one of the last offer that returned. */
  ghost predicate Accounts(s: Session) {
    var os := s.trace.offers;
    && s.stats.messagesSent == CountAccepted(os, false)
    && s.stats.keepAlivesSent == CountAccepted(os, true)
    && var a := LastAnswer(os);
       if a == None || a.value > 0 then s.lastCode == 0 && s.lastText == NoText
       else s.lastCode == a.value && s.lastText == Describes(a.value)
  }

  ghost predicate Inv(s: Session) {
    Agrees(s) && AllCarryIds(s) && ClosedOnce(s) && Accounts(s)
  }

  lemma UpdatedBuffers(h: Buffer32, k: Buffer24, term: int, session: int)
    requires h[..8] == HeaderBytes(SESSION_HEADER) && k[..8] == HeaderBytes(SESSION_KEEP_ALIVE)
    ensures UpdateHeader(h, term, session) == SessionHeader(term, session)
    ensures UpdateKeepAlive(k, term, session) == KeepAlive(term, session)
    ensures SessionHeader(term, session)[..8] == HeaderBytes(SESSION_HEADER)
    ensures KeepAlive(term, session)[..8] == HeaderBytes(SESSION_KEEP_ALIVE)
  {
  }

  /** What an event leaves alone, and what an OK event writes. */
  lemma EventFrame(s: Session, e: SessionEvent)
    ensures var s' := OnEvent(s, e);
            && s'.trace == s.trace.(established := s'.trace.established, callbacks := s'.trace.callbacks)
            && s'.stats.messagesSent == s.stats.messagesSent && s'.stats.keepAlivesSent == s.stats.keepAlivesSent
            && s'.lastCode == s.lastCode && s'.lastText == s.lastText
            && (if e.code == OK then
                  && s'.trace.established == s.trace.established + [e]
                  && s'.term == e.term && s'.sessionId == e.correlationId && s'.connected
                  && s'.header == UpdateHeader(s.header, e.term, e.correlationId)
                  && s'.keepAlive == UpdateKeepAlive(s.keepAlive, e.term, e.correlationId)
                else
                  && s'.trace.established == s.trace.established
                  && s'.term == s.term && s'.sessionId in {-1, s.sessionId}
                  && (s'.connected ==> s.connected && s'.sessionId == s.sessionId)
                  && s'.header == s.header && s'.keepAlive == s.keepAlive)
  {
  }

  lemma AgreesAfterEvent(s: Session, e: SessionEvent)
    requires Agrees(s)
    ensures Agrees(OnEvent(s, e))
  {
    EventFrame(s, e);
    if e.code == OK {
      UpdatedBuffers(s.header, s.keepAlive, e.term, e.correlationId);
    }
  }

  lemma AccountsAfterEvent(s: Session, e: SessionEvent)
    requires Accounts(s)
    ensures Accounts(OnEvent(s, e))
  {
    EventFrame(s, e);
  }

  lemma CarriesAfterEvent(s: Session, e: SessionEvent)
    requires AllCarryIds(s)
    ensures AllCarryIds(OnEvent(s, e))
  {
    var s' := OnEvent(s, e);
    forall o | o in s.trace.offers
      ensures CarriesIds(s'.trace.established, o)
    {
      assert CarriesIds(s.trace.established, o);
    }
  }

  lemma ClosedOnceAfterEvent(s: Session, e: SessionEvent)
    requires ClosedOnce(s)
    ensures ClosedOnce(OnEvent(s, e))
  {
  }

  lemma AppendedOffer(os: seq<Offered>, o: Offered)
    ensures CountAccepted(os + [o], false) == CountAccepted(os, false) +
            (if Accepted(o.outcome) && o.purpose != Connecting && o.purpose != KeepingAlive then 1 else 0)
    ensures CountAccepted(os + [o], true) == CountAccepted(os, true) +
            (if Accepted(o.outcome) && o.purpose == KeepingAlive then 1 else 0)
    ensures LastAnswer(os + [o]) == if o.outcome.Answer? then Some(o.outcome.code) else LastAnswer(os)
  {
    assert (os + [o])[..|os|] == os && Last(os + [o]) == o;
  }

  /** An offer adds its entry, and nothing else but a callback. */
  lemma SettledTrace(s: Session, env: Env, purpose: Purpose, frame: seq<byte>)
    ensures var t := Settled(s, env, purpose, frame).trace;
            t == Record(s, env, purpose, frame).trace.(callbacks := t.callbacks)
  {
  }

  /** What an offer leaves alone, and the entry it adds. */
  lemma SettledFrame(s: Session, env: Env, purpose: Purpose, frame: seq<byte>)
    ensures var s' := Settled(s, env, purpose, frame);
            && s'.trace.offers == s.trace.offers + [Offered(purpose, frame, NextOffer(s, env), |s.trace.established|)]
            && s'.trace.established == s.trace.established && s'.trace.tries == s.trace.tries
            && s'.trace.waited == s.trace.waited
            && s'.header == s.header && s'.keepAlive == s.keepAlive
            && s'.term == s.term && s'.sessionId == s.sessionId && (s'.connected ==> s.connected)
  {
    SettledTrace(s, env, purpose, frame);
  }

  lemma AgreesAfterOffer(s: Session, env: Env, purpose: Purpose, frame: seq<byte>)
    requires Agrees(s)
    ensures Agrees(Settled(s, env, purpose, frame))
  {
    SettledFrame(s, env, purpose, frame);
  }

  lemma CarriesAfterOffer(s: Session, env: Env, purpose: Purpose, frame: seq<byte>)
    requires Agrees(s) && AllCarryIds(s) && Allowed(s, purpose, frame)
    ensures AllCarryIds(Settled(s, env, purpose, frame))
  {
    SettledFrame(s, env, purpose, frame);
    var o := Offered(purpose, frame, NextOffer(s, env), |s.trace.established|);
    assert CarriesIds(s.trace.established, o);
  }

  lemma ClosedOnceAfterOffer(s: Session, env: Env, purpose: Purpose, frame: seq<byte>)
    requires ClosedOnce(s) && Allowed(s, purpose, frame)
    ensures ClosedOnce(TornDown(Settled(s, env, purpose, frame)))
    ensures purpose != Closing || !Accepted(NextOffer(s, env)) ==> ClosedOnce(Settled(s, env, purpose, frame))
  {
    SettledFrame(s, env, purpose, frame);
    var os := s.trace.offers;
    assert forall i :: 0 <= i < |os| ==> os[i] in os;
  }

  /** The counters and the last error after an offer. */
  lemma SettledBooks(s: Session, env: Env, purpose: Purpose, frame: seq<byte>)
    ensures var s', o := Settled(s, env, purpose, frame), NextOffer(s, env);
            && s'.stats.messagesSent == s.stats.messagesSent +
               (if Accepted(o) && purpose != Connecting && purpose != KeepingAlive then 1 else 0)
            && s'.stats.keepAlivesSent == s.stats.keepAlivesSent +
               (if Accepted(o) && purpose == KeepingAlive then 1 else 0)
            && s'.lastCode == (if o.OfferRaised? then s.lastCode else if o.code > 0 then 0 else o.code)
            && s'.lastText == (if o.OfferRaised? then s.lastText else if o.code > 0 then NoText else Describes(o.code))
  {
  }

  lemma AccountsAfterOffer(s: Session, env: Env, purpose: Purpose, frame: seq<byte>)
    requires Accounts(s)
    ensures Accounts(Settled(s, env, purpose, frame))
  {
    SettledFrame(s, env, purpose, frame);
    SettledBooks(s, env, purpose, frame);
    AppendedOffer(s.trace.offers, Offered(purpose, frame, NextOffer(s, env), |s.trace.established|));
  }

  lemma InvAfterEvent(s: Session, e: SessionEvent)
    requires Inv(s)
    ensures Inv(OnEvent(s, e))
  {
    AgreesAfterEvent(s, e);
    CarriesAfterEvent(s, e);
    ClosedOnceAfterEvent(s, e);
    AccountsAfterEvent(s, e);
  }

  lemma InvAfterOffer(s: Session, env: Env, purpose: Purpose, frame: seq<byte>)
    requires Inv(s) && Allowed(s, purpose, frame)
    ensures var s' := Settled(s, env, purpose, frame);
            Inv(TornDown(s')) && ((purpose == Closing && Accepted(NextOffer(s, env))) || Inv(s'))
  {
    AgreesAfterOffer(s, env, purpose, frame);
    CarriesAfterOffer(s, env, purpose, frame);
    ClosedOnceAfterOffer(s, env, purpose, frame);
    AccountsAfterOffer(s, env, purpose, frame);
  }

  lemma InvAfterUpkeep(s: Session, s': Session)
    requires Inv(s) && Upkeep(s, s')
    ensures Inv(s')
  {
  }

  lemma InvAfterNote(s: Session, t: Try)
    requires Inv(s)
    ensures Inv(TornDown(s)) && Inv(Noted(s, t))
  {
  }

  /** The invariant as a property that the induction is about. */
  ghost function Invariant(): Session -> bool { s => Inv(s) }

  lemma InvKeptByEvents()
    ensures KeptByEvents(Invariant())
  {
    forall s, e | Invariant()(s) ensures Invariant()(OnEvent(s, e)) { InvAfterEvent(s, e); }
  }

  lemma InvKeptByOffers()
    ensures KeptByOffers(Invariant())
  {
    forall s, env, purpose, frame | Invariant()(s) && Allowed(s, purpose, frame)
      ensures var s' := Settled(s, env, purpose, frame);
              Invariant()(TornDown(s')) && ((purpose == Closing && Accepted(NextOffer(s, env))) || Invariant()(s'))
    {
      InvAfterOffer(s, env, purpose, frame);
    }
  }

  lemma InvKept()
    ensures KeptInTry(Invariant()) && KeptByTries(Invariant())
  {
    InvKeptByEvents();
    InvKeptByOffers();
    forall s, s' | Invariant()(s) && Upkeep(s, s') ensures Invariant()(s') { InvAfterUpkeep(s, s'); }
    forall s, t | Invariant()(s) ensures Invariant()(TornDown(s)) && Invariant()(Noted(s, t)) { InvAfterNote(s, t); }
  }

  /** The invariant holds in every reachable state, for every environment. */
  lemma RunInv(env: Env, cfg: Config, cs: seq<Call>)
    ensures Inv(Run(env, cfg, cs))
  {
    InvKept();
    RunKeeps(Invariant(), env, cfg, cs);
  }
}
