/**
 Induction over the session protocol: a property kept by one event, by one offer and by
 upkeep is kept by every call.
 */
module SessionInduction {
  import opened Bytes
  import opened Flyweights
  import opened SessionFrames
  import opened TopicCodec
  import opened SessionProtocol

  /** Only fields that no handler and no offer decides have changed. */
  predicate Upkeep(s: Session, s': Session) {
    s' == s.(leader := s'.leader, redirect := s'.redirect, publication := s'.publication,
             stats := s.stats.(keepAlivesFailed := s'.stats.keepAlivesFailed),
             trace := s.trace.(probes := s'.trace.probes, pollsInTry := s'.trace.pollsInTry,
                               pollsBetween := s'.trace.pollsBetween, waited := s'.trace.waited))
  }

  /** What may be offered: session-scoped frames only while connected, with the live ids. */
  ghost predicate Allowed(s: Session, purpose: Purpose, frame: seq<byte>) {
    match purpose
    case Combined => s.connected && |frame| >= 32 && frame[..32] == s.header
    case KeepingAlive => s.connected && frame == s.keepAlive
    case Closing => s.connected && frame == CloseRequest(s.term, s.sessionId)
    case _ => true
  }

  /** The state after one offer was made and its outcome dealt with. */
  function Settled(s: Session, env: Env, purpose: Purpose, frame: seq<byte>): Session {
    var o, made := NextOffer(s, env), Record(s, env, purpose, frame);
    if o.OfferRaised? then made
    else if o.code > 0 then
      match purpose
      case Connecting => Cleared(made)
      case KeepingAlive => Cleared(made).(stats := made.stats.(keepAlivesSent := made.stats.keepAlivesSent + 1))
      case _ => Cleared(made).(stats := made.stats.(messagesSent := made.stats.messagesSent + 1))
    else OnFailure(made, o.code)
  }

  function Noted(s: Session, t: Try): Session {
    s.(trace := s.trace.(tries := s.trace.tries + [t]))
  }

  ghost predicate KeptByEvents(P: Session -> bool) {
    forall s, e {:trigger OnEvent(s, e)} :: P(s) ==> P(OnEvent(s, e))
  }

  /** An accepted close request is followed by the teardown, so P need hold only after that. */
  ghost predicate KeptByOffers(P: Session -> bool) {
    forall s, env, purpose, frame {:trigger Settled(s, env, purpose, frame)} :: P(s) && Allowed(s, purpose, frame) ==>
      var s' := Settled(s, env, purpose, frame);
      P(TornDown(s')) && ((purpose == Closing && Accepted(NextOffer(s, env))) || P(s'))
  }

  ghost predicate KeptByUpkeep(P: Session -> bool) {
    && (forall s, s' {:trigger Upkeep(s, s')} :: P(s) && Upkeep(s, s') ==> P(s'))
    && (forall s {:trigger TornDown(s)} :: P(s) ==> P(TornDown(s)))
  }

  ghost predicate KeptByTries(P: Session -> bool) {
    forall s, t {:trigger Noted(s, t)} :: P(s) ==> P(Noted(s, t))
  }

  ghost predicate KeptInTry(P: Session -> bool) {
    KeptByEvents(P) && KeptByOffers(P) && KeptByUpkeep(P)
  }

  lemma {:induction false} EventsKeep(P: Session -> bool, s: Session, es: seq<SessionEvent>)
    requires KeptByEvents(P) && P(s)
    ensures P(OnEvents(s, es))
    decreases |es|
  {
    if es != [] {
      assert P(OnEvent(s, es[0]));
      EventsKeep(P, OnEvent(s, es[0]), es[1..]);
    }
  }

  lemma PausesKeep(P: Session -> bool, s: Session, env: Env)
    requires KeptByEvents(P) && KeptByUpkeep(P) && P(s)
    ensures P(PauseInTry(s, env)) && P(PauseBetween(s, env))
  {
    EventsKeep(P, s, env.duringTry(s.trace.pollsInTry));
    EventsKeep(P, s, env.betweenTries(s.trace.pollsBetween));
    assert Upkeep(OnEvents(s, env.duringTry(s.trace.pollsInTry)), PauseInTry(s, env));
    assert Upkeep(OnEvents(s, env.betweenTries(s.trace.pollsBetween)), PauseBetween(s, env));
  }

  lemma CheckKeeps(P: Session -> bool, s: Session, env: Env)
    requires KeptByUpkeep(P) && P(s)
    ensures P(CheckConnected(s, env).session)
    ensures CheckConnected(s, env).ok ==> s.connected && s.sessionId > 0 && s.term > 0
  {
    assert Upkeep(s, CheckConnected(s, env).session);
  }

  lemma {:induction false} OfferFromKeeps(
    P: Session -> bool, s: Session, env: Env, cfg: Config, purpose: Purpose, frame: seq<byte>, attempt: nat)
    requires KeptByOffers(P) && KeptByUpkeep(P) && P(s)
    requires purpose in {Raw, Combined, Closing} && Allowed(s, purpose, frame)
    ensures var r := OfferFrom(s, env, cfg, purpose, frame, attempt);
            P(TornDown(r.session)) && ((purpose == Closing && r.ok) || P(r.session))
    decreases Attempts(cfg) - attempt
  {
    if attempt < Attempts(cfg) {
      var o, settled := NextOffer(s, env), Settled(s, env, purpose, frame);
      assert P(TornDown(settled));
      if o.Answer? && Transient(o.code) && attempt != Attempts(cfg) - 1 {
        var next := Waited(settled, cfg, attempt);
        assert Upkeep(settled, next);
        OfferFromKeeps(P, next, env, cfg, purpose, frame, attempt + 1);
      }
    } else {
      assert P(TornDown(s));
    }
  }

  lemma SendRawKeeps(P: Session -> bool, s: Session, env: Env, cfg: Config, purpose: Purpose, frame: seq<byte>)
    requires KeptByOffers(P) && KeptByUpkeep(P) && P(s)
    requires purpose in {Raw, Closing}
    requires purpose == Closing ==> frame == CloseRequest(s.term, s.sessionId)
    ensures var r := SendRaw(s, env, cfg, purpose, frame);
            P(TornDown(r.session)) && ((purpose == Closing && r.ok) || P(r.session))
  {
    CheckKeeps(P, s, env);
    var c := CheckConnected(s, env);
    if c.ok {
      OfferFromKeeps(P, c.session, env, cfg, purpose, frame, 0);
    } else {
      assert P(TornDown(c.session));
    }
  }

  lemma SendCombinedKeeps(P: Session -> bool, s: Session, env: Env, cfg: Config, message: seq<byte>)
    requires KeptByOffers(P) && KeptByUpkeep(P) && P(s)
    ensures P(SendCombined(s, env, cfg, message).session)
  {
    CheckKeeps(P, s, env);
    var c := CheckConnected(s, env);
    if c.ok {
      CheckKeeps(P, c.session, env);
      var d := CheckConnected(c.session, env);
      if d.ok {
        assert (d.session.header + message)[..32] == d.session.header;
        OfferFromKeeps(P, d.session, env, cfg, Combined, d.session.header + message, 0);
      }
    }
  }

  lemma PublishKeeps(P: Session -> bool, s: Session, env: Env, cfg: Config, m: TopicMessage)
    requires KeptByOffers(P) && KeptByUpkeep(P) && P(s)
    ensures P(Publish(s, env, cfg, m).session)
  {
    CheckKeeps(P, s, env);
    var c := CheckConnected(s, env);
    if c.ok && FitsLengthType(m) {
      SendCombinedKeeps(P, c.session, env, cfg, SentFrame(m));
    }
  }

  lemma {:induction false} KeepAliveFromKeeps(P: Session -> bool, s: Session, env: Env, i: nat)
    requires KeptByOffers(P) && KeptByUpkeep(P) && P(s) && s.connected
    ensures P(KeepAliveFrom(s, env, i).session)
    decreases KEEP_ALIVE_ATTEMPTS - i
  {
    var r := KeepAliveFrom(s, env, i).session;
    if i < KEEP_ALIVE_ATTEMPTS {
      var o, settled := NextOffer(s, env), Settled(s, env, KeepingAlive, s.keepAlive);
      assert P(settled);
      if o.Answer? && Transient(o.code) {
        KeepAliveFromKeeps(P, settled, env, i + 1);
      } else {
        assert Upkeep(settled, r);
      }
    } else {
      assert Upkeep(s, r);
    }
  }

  lemma SendKeepAliveKeeps(P: Session -> bool, s: Session, env: Env)
    requires KeptByOffers(P) && KeptByUpkeep(P) && P(s)
    ensures P(SendKeepAlive(s, env).session)
  {
    CheckKeeps(P, s, env);
    if CheckConnected(s, env).ok {
      KeepAliveFromKeeps(P, CheckConnected(s, env).session, env, 0);
    }
  }

  lemma {:induction false} OfferFromKeepsIds(
    s: Session, env: Env, cfg: Config, purpose: Purpose, frame: seq<byte>, attempt: nat)
    ensures var s' := OfferFrom(s, env, cfg, purpose, frame, attempt).session;
            s'.term == s.term && s'.sessionId == s.sessionId
    decreases Attempts(cfg) - attempt
  {
    if attempt < Attempts(cfg) {
      var o := NextOffer(s, env);
      if o.Answer? && Transient(o.code) && attempt != Attempts(cfg) - 1 {
        OfferFromKeepsIds(Waited(OnFailure(Record(s, env, purpose, frame), o.code), cfg, attempt),
                          env, cfg, purpose, frame, attempt + 1);
      }
    }
  }

  lemma {:induction false} CloseFromKeeps(
    P: Session -> bool, s: Session, env: Env, cfg: Config, frame: seq<byte>, left: nat)
    requires KeptByOffers(P) && KeptByUpkeep(P) && P(s)
    requires frame == CloseRequest(s.term, s.sessionId)
    ensures P(TornDown(CloseFrom(s, env, cfg, frame, left)))
    decreases left
  {
    if left > 0 {
      SendRawKeeps(P, s, env, cfg, Closing, frame);
      OfferFromKeepsIds(CheckConnected(s, env).session, env, cfg, Closing, frame, 0);
      var sent := SendRaw(s, env, cfg, Closing, frame);
      if !sent.ok {
        CloseFromKeeps(P, sent.session, env, cfg, frame, left - 1);
      }
    } else {
      assert P(TornDown(s));
    }
  }

  lemma DisconnectKeeps(P: Session -> bool, s: Session, env: Env, cfg: Config)
    requires KeptByOffers(P) && KeptByUpkeep(P) && P(s)
    ensures P(Disconnect(s, env, cfg))
  {
    var probed := s.(trace := s.trace.(probes := s.trace.probes + 1));
    assert Upkeep(s, probed);
    assert P(TornDown(s)) && P(TornDown(probed));
    CloseFromKeeps(P, probed, env, cfg, CloseRequest(s.term, s.sessionId), CLOSE_ATTEMPTS);
  }

  lemma {:induction false} RequestFromKeeps(P: Session -> bool, s: Session, env: Env, cfg: Config, left: nat)
    requires KeptInTry(P) && P(s)
    ensures P(RequestFrom(s, env, cfg, left).session)
    decreases left
  {
    if left > 0 {
      var settled := Settled(s, env, Connecting, ConnectRequest(cfg.connect));
      assert P(settled) && settled == OfferConnect(s, env, cfg).session;
      if !Accepted(NextOffer(s, env)) {
        PausesKeep(P, settled, env);
        RequestFromKeeps(P, PauseInTry(settled, env), env, cfg, left - 1);
      }
    }
  }

  lemma {:induction false} AwaitFromKeeps(P: Session -> bool, s: Session, env: Env, member: int, left: nat)
    requires KeptInTry(P) && P(s)
    ensures P(AwaitFrom(s, env, member, left).session)
    ensures var r := AwaitFrom(s, env, member, left); r.ok ==> r.session.connected
    decreases left
  {
    if left > 0 && !s.connected && !(s.redirect >= 0 && s.redirect != member) {
      PausesKeep(P, s, env);
      AwaitFromKeeps(P, PauseInTry(s, env), env, member, left - 1);
    }
  }

  /** A member try: the try is noted first, and everything after it happens inside the try. */
  lemma TryMemberKeeps(P: Session -> bool, s: Session, env: Env, cfg: Config, member: int, redirected: bool)
    requires KeptInTry(P) && P(Noted(s, Try(member, redirected)))
    ensures P(TryMember(s, env, cfg, member, redirected).session)
    ensures var r := TryMember(s, env, cfg, member, redirected); r.ok ==> r.session.connected
  {
    var n, noted := |s.trace.tries|, Noted(s, Try(member, redirected));
    if env.resolves(member) {
      var present := noted.(publication := env.publication(n) != Absent);
      assert Upkeep(noted, present);
      PausesKeep(P, present, env);
      var waited := PauseInTry(present, env);
      if env.publication(n) == Ready {
        RequestFromKeeps(P, waited, env, cfg, CONNECT_OFFERS);
        var requested := RequestFrom(waited, env, cfg, CONNECT_OFFERS);
        if requested.ok {
          var led := requested.session.(leader := member);
          assert Upkeep(requested.session, led);
          AwaitFromKeeps(P, led, env, member, env.looks(n));
        }
      }
    }
  }

  lemma {:induction false} SweepFromKeeps(
    P: Session -> bool, s: Session, env: Env, cfg: Config, tried: set<int>, member: nat)
    requires KeptInTry(P) && KeptByTries(P) && P(s)
    ensures P(SweepFrom(s, env, cfg, tried, member).session)
    ensures var r := SweepFrom(s, env, cfg, tried, member); r.ok ==> r.session.connected
    decreases cfg.members - member
  {
    if member < cfg.members {
      if member in tried {
        SweepFromKeeps(P, s, env, cfg, tried, member + 1);
      } else {
        var reset := s.(redirect := -1);
        assert Upkeep(s, reset);
        assert P(Noted(reset, Try(member, false)));
        TryMemberKeeps(P, reset, env, cfg, member, false);
        SweepFromKeeps(P, TryMember(reset, env, cfg, member, false).session, env, cfg, tried + {member}, member + 1);
      }
    }
  }

  lemma {:induction false} ConnectFromKeeps(
    P: Session -> bool, s: Session, env: Env, cfg: Config, tried: set<int>, attempt: nat)
    requires KeptInTry(P) && KeptByTries(P) && P(s)
    ensures P(ConnectFrom(s, env, cfg, tried, attempt).session)
    ensures var r := ConnectFrom(s, env, cfg, tried, attempt); r.ok ==> r.session.connected
    decreases cfg.maxRetries - attempt
  {
    if attempt < cfg.maxRetries {
      if Followable(s, cfg, tried) {
        var target := s.redirect;
        assert P(Noted(s, Try(target, true)));
        TryMemberKeeps(P, s, env, cfg, target, true);
        var t := TryMember(s, env, cfg, target, true);
        var kept := t.session.(redirect := -1);
        assert Upkeep(t.session, kept);
        var next := if t.session.redirect < 0 then kept else t.session;
        PausesKeep(P, next, env);
        ConnectFromKeeps(P, PauseBetween(next, env), env, cfg, (tried + {target}) - {target}, attempt + 1);
      } else if s.redirect >= 0 {
        PausesKeep(P, s, env);
        ConnectFromKeeps(P, PauseBetween(s, env), env, cfg, tried, attempt + 1);
      } else {
        SweepFromKeeps(P, s, env, cfg, tried, 0);
        var swept := SweepFrom(s, env, cfg, tried, 0);
        PausesKeep(P, swept.session, env);
        var next := if attempt < cfg.maxRetries - 1 then PauseBetween(swept.session, env) else swept.session;
        ConnectFromKeeps(P, next, env, cfg, swept.tried, attempt + 1);
      }
    }
  }

  lemma PerformKeeps(P: Session -> bool, s: Session, env: Env, cfg: Config, c: Call)
    requires KeptInTry(P) && KeptByTries(P) && P(s)
    ensures P(Perform(s, env, cfg, c))
  {
    match c
    case ConnectCall => ConnectFromKeeps(P, s, env, cfg, {}, 0);
    case DisconnectCall => DisconnectKeeps(P, s, env, cfg);
    case RawCall(frame) => SendRawKeeps(P, s, env, cfg, Raw, frame);
    case CombinedCall(message) => SendCombinedKeeps(P, s, env, cfg, message);
    case PublishCall(m) => PublishKeeps(P, s, env, cfg, m);
    case KeepAliveCall => SendKeepAliveKeeps(P, s, env);
    case EventCall(e) => assert P(OnEvent(s, e));
  }

  /** What holds at the start and is kept by the parts holds after every run. */
  lemma {:induction false} RunKeeps(P: Session -> bool, env: Env, cfg: Config, cs: seq<Call>)
    requires KeptInTry(P) && KeptByTries(P) && P(NewSession())
    ensures P(Run(env, cfg, cs))
    decreases |cs|
  {
    if cs != [] {
      RunKeeps(P, env, cfg, cs[..|cs| - 1]);
      PerformKeeps(P, Run(env, cfg, cs[..|cs| - 1]), env, cfg, cs[|cs| - 1]);
    }
  }
}
