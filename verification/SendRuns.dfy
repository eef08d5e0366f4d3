/**
 When a send of the session manager really offers, and what: each send, keepalive and close
 request exactly, in terms of the session and of what the publication answers.
 */
module SendRuns {
  import opened Bytes
  import opened SessionFrames
  import opened TopicCodec
  import opened SessionProtocol
  import opened SessionInduction
  import opened SessionInvariant
  import opened SessionTheorems

  /** Everything the session itself must have for a send; the publication is asked besides. */
  predicate Armed(s: Session) {
    s.connected && s.publication && s.sessionId > 0 && s.term > 0
  }

  /** The check of the publication that comes after i others finds it up. */
  predicate FindsUp(s: Session, env: Env, i: nat) {
    env.probe(s.trace.probes + i) == Up
  }

  lemma CheckExactly(s: Session, env: Env)
    ensures var c := CheckConnected(s, env);
            && (c.ok <==> Armed(s) && env.probe(s.trace.probes) == Up)
            && c.session == s.(trace := s.trace.(probes := c.session.trace.probes))
            && c.session.trace.probes == s.trace.probes + if s.connected && s.publication then 1 else 0
  {
  }

  /** The whole outcome of a send that offers `frame`, or does not get to offer. */
  ghost predicate SendsIf(ready: bool, s: Session, r: Sent, env: Env, purpose: Purpose, frame: seq<byte>, limit: nat) {
    if ready then SendLog(s, r, env, purpose, frame, limit)
    else !r.ok && r.session.trace.offers == s.trace.offers
  }

  lemma SendLogAfterCheck(s: Session, s': Session, r: Sent, env: Env, purpose: Purpose, frame: seq<byte>, limit: nat)
    requires s'.trace.offers == s.trace.offers && s'.trace.established == s.trace.established
    requires SendLog(s', r, env, purpose, frame, limit)
    ensures SendLog(s, r, env, purpose, frame, limit)
  {
  }

  /** A raw frame or a close request is offered if and only if the session is armed and the publication up. */
  lemma RawExactly(s: Session, env: Env, cfg: Config, purpose: Purpose, frame: seq<byte>)
    requires purpose in {Raw, Closing}
    ensures SendsIf(Armed(s) && FindsUp(s, env, 0), s, SendRaw(s, env, cfg, purpose, frame), env, purpose, frame,
                    Attempts(cfg))
  {
    CheckExactly(s, env);
    var c := CheckConnected(s, env);
    if c.ok {
      OfferAccounting(c.session, env, cfg, purpose, frame, 0);
      SendLogAfterCheck(s, c.session, SendRaw(s, env, cfg, purpose, frame), env, purpose, frame, Attempts(cfg));
    }
  }

  /** A message is offered behind the header buffer if and only if two checks in a row find the publication up. */
  lemma CombinedExactly(s: Session, env: Env, cfg: Config, message: seq<byte>)
    ensures SendsIf(Armed(s) && FindsUp(s, env, 0) && FindsUp(s, env, 1), s, SendCombined(s, env, cfg, message),
                    env, Combined, s.header + message, Attempts(cfg))
  {
    CheckExactly(s, env);
    var outside := CheckConnected(s, env);
    CheckExactly(outside.session, env);
    var inside := CheckConnected(outside.session, env);
    if outside.ok && inside.ok {
      OfferAccounting(inside.session, env, cfg, Combined, s.header + message, 0);
      SendLogAfterCheck(s, inside.session, SendCombined(s, env, cfg, message), env, Combined, s.header + message,
                        Attempts(cfg));
    }
  }

  /** A topic message is offered if and only if three checks find the publication up and its fields fit. */
  lemma PublishExactly(s: Session, env: Env, cfg: Config, m: TopicMessage)
    ensures SendsIf(PublishReady(s, env, m), s, Publish(s, env, cfg, m), env, Combined,
                    s.header + SentFrame(m), Attempts(cfg))
  {
    CheckExactly(s, env);
    var c := CheckConnected(s, env);
    if c.ok && FitsLengthType(m) {
      CombinedExactly(c.session, env, cfg, SentFrame(m));
      assert forall i: nat :: FindsUp(c.session, env, i) <==> FindsUp(s, env, i + 1);
      if PublishReady(s, env, m) {
        SendLogAfterCheck(s, c.session, Publish(s, env, cfg, m), env, Combined, s.header + SentFrame(m), Attempts(cfg));
      }
    }
  }

  predicate PublishReady(s: Session, env: Env, m: TopicMessage) {
    Armed(s) && FindsUp(s, env, 0) && FindsUp(s, env, 1) && FindsUp(s, env, 2) && FitsLengthType(m)
  }

  /** Under lasting back pressure a send makes exactly max(1, publish_max_retry_attempts) offers. */
  lemma BackPressureExhausts(s: Session, env: Env, cfg: Config, m: TopicMessage)
    requires PublishReady(s, env, m) && forall n: nat :: TransientFailure(env.offer(n))
    ensures var r := Publish(s, env, cfg, m);
            && s.trace.offers <= r.session.trace.offers && !r.ok
            && |NewOffers(s, r.session)| == if cfg.publishAttempts <= 1 then 1 else cfg.publishAttempts
  {
    PublishExactly(s, env, cfg, m);
    var added := NewOffers(s, Publish(s, env, cfg, m).session);
    assert added[|added| - 1].outcome == env.offer(|s.trace.offers| + (|added| - 1));
  }

  // ---- Keepalives ----

  lemma {:induction false} KeepAliveLog(s: Session, env: Env, i: nat)
    requires i < KEEP_ALIVE_ATTEMPTS
    ensures SendLog(s, KeepAliveFrom(s, env, i), env, KeepingAlive, s.keepAlive, KEEP_ALIVE_ATTEMPTS - i)
    decreases KEEP_ALIVE_ATTEMPTS - i
  {
    var o, r := NextOffer(s, env), KeepAliveFrom(s, env, i);
    var next := Settled(s, env, KeepingAlive, s.keepAlive);
    SettledFrame(s, env, KeepingAlive, s.keepAlive);
    if TransientFailure(o) && i + 1 < KEEP_ALIVE_ATTEMPTS {
      KeepAliveLog(next, env, i + 1);
      SendLogPrepend(s, next, r, env, KeepingAlive, s.keepAlive, KEEP_ALIVE_ATTEMPTS - i);
    } else {
      KeepAliveEnds(s, env, i);
      SendLogOnce(s, r, env, KeepingAlive, s.keepAlive, KEEP_ALIVE_ATTEMPTS - i);
    }
  }

  /** The last offer of a keepalive: an accepted one, a definite failure, or the third. */
  lemma KeepAliveEnds(s: Session, env: Env, i: nat)
    requires i < KEEP_ALIVE_ATTEMPTS && (!TransientFailure(NextOffer(s, env)) || i + 1 == KEEP_ALIVE_ATTEMPTS)
    ensures var r := KeepAliveFrom(s, env, i);
            r.session.trace.offers == Settled(s, env, KeepingAlive, s.keepAlive).trace.offers &&
            (r.ok <==> Accepted(NextOffer(s, env)))
  {
  }

  lemma {:induction false} KeepAliveCounts(s: Session, env: Env, i: nat)
    ensures var r := KeepAliveFrom(s, env, i);
            && r.session.stats.keepAlivesSent == s.stats.keepAlivesSent + (if r.ok then 1 else 0)
            && r.session.stats.keepAlivesFailed == s.stats.keepAlivesFailed + (if r.ok then 0 else 1)
    decreases KEEP_ALIVE_ATTEMPTS - i
  {
    if i < KEEP_ALIVE_ATTEMPTS && TransientFailure(NextOffer(s, env)) {
      KeepAliveCounts(OnFailure(Record(s, env, KeepingAlive, s.keepAlive), NextOffer(s, env).code), env, i + 1);
    }
  }

  /**
   A keepalive is offered, up to three times, if and only if the session is armed and the
   publication up; and then it is counted once, as sent or as failed.
   */
  lemma KeepAliveExactly(s: Session, env: Env)
    ensures var r := SendKeepAlive(s, env);
            var ready := Armed(s) && FindsUp(s, env, 0);
            && SendsIf(ready, s, r, env, KeepingAlive, s.keepAlive, KEEP_ALIVE_ATTEMPTS)
            && r.session.stats.keepAlivesSent == s.stats.keepAlivesSent + (if r.ok then 1 else 0)
            && r.session.stats.keepAlivesFailed == s.stats.keepAlivesFailed + (if ready && !r.ok then 1 else 0)
  {
    CheckExactly(s, env);
    var c := CheckConnected(s, env);
    if c.ok {
      KeepAliveLog(c.session, env, 0);
      KeepAliveCounts(c.session, env, 0);
      SendLogAfterCheck(s, c.session, SendKeepAlive(s, env), env, KeepingAlive, s.keepAlive, KEEP_ALIVE_ATTEMPTS);
    }
  }

  // ---- Close requests ----

  /** One of the next n checks finds the publication up. */
  predicate UpOnce(s: Session, env: Env, n: nat) {
    exists i: nat :: i < n && FindsUp(s, env, i)
  }

  /** Some close request was offered between the two states, and the first one is as given. */
  ghost predicate StartsClosing(s: Session, s': Session, env: Env, frame: seq<byte>) {
    && s.trace.offers <= s'.trace.offers && NewOffers(s, s') != []
    && NewOffers(s, s')[0] == Offered(Closing, frame, NextOffer(s, env), |s.trace.established|)
    && (Accepted(NextOffer(s, env)) ==> |NewOffers(s, s')| == 1)
  }

  lemma {:induction false} CloseExactly(s: Session, env: Env, cfg: Config, frame: seq<byte>, left: nat)
    ensures var s' := CloseFrom(s, env, cfg, frame, left);
            if Armed(s) && UpOnce(s, env, left) then StartsClosing(s, s', env, frame)
            else s'.trace.offers == s.trace.offers
    decreases left
  {
    if left > 0 {
      var sent := SendRaw(s, env, cfg, Closing, frame);
      RawExactly(s, env, cfg, Closing, frame);
      if Armed(s) && FindsUp(s, env, 0) {
        CloseStarts(s, env, cfg, frame, left);
      } else {
        var next := CheckConnected(s, env).session;
        CheckExactly(s, env);
        assert sent == Sent(next, false);
        CloseExactly(next, env, cfg, frame, left - 1);
        if Armed(s) {
          UpOnceLater(s, next, env, left);
        }
      }
    }
  }

  lemma UpOnceLater(s: Session, next: Session, env: Env, n: nat)
    requires n > 0 && !FindsUp(s, env, 0) && next.trace.probes == s.trace.probes + 1
    ensures UpOnce(s, env, n) <==> UpOnce(next, env, n - 1)
  {
    if UpOnce(s, env, n) {
      var i: nat :| i < n && FindsUp(s, env, i);
      assert FindsUp(next, env, i - 1);
    }
    if UpOnce(next, env, n - 1) {
      var i: nat :| i < n - 1 && FindsUp(next, env, i);
      assert FindsUp(s, env, i + 1);
    }
  }

  /** The first attempt that gets to offer decides how the log starts. */
  lemma CloseStarts(s: Session, env: Env, cfg: Config, frame: seq<byte>, left: nat)
    requires left > 0 && Armed(s) && FindsUp(s, env, 0)
    ensures StartsClosing(s, CloseFrom(s, env, cfg, frame, left), env, frame)
  {
    var sent := SendRaw(s, env, cfg, Closing, frame);
    RawExactly(s, env, cfg, Closing, frame);
    var added := NewOffers(s, sent.session);
    assert added[0] == Offered(Closing, frame, env.offer(|s.trace.offers| + 0), |s.trace.established|);
    if !sent.ok {
      var s' := CloseFrom(sent.session, env, cfg, frame, left - 1);
      CloseAccount(sent.session, env, cfg, frame, left - 1);
      GrowthSplits(s.trace.offers, sent.session.trace.offers, s'.trace.offers);
      assert NewOffers(s, s')[0] == added[0];
      FirstIsLast(added);
    } else {
      FirstIsLast(added);
    }
  }

  /** In a row where only the last may be accepted, a first that is accepted is the only one. */
  lemma FirstIsLast(os: seq<Offered>)
    requires os != [] && forall k :: 0 <= k < |os| - 1 ==> TransientFailure(os[k].outcome)
    ensures Accepted(os[0].outcome) ==> |os| == 1 && Last(os) == os[0]
  {
  }

  /**
   When a disconnect sends a close request: if and only if the session is armed and one of
   the three checks before its sends, which follow the one that disconnect itself makes,
   finds the publication up. The first frame is the close request of the live session and
   term, and it is the only one if it is accepted. Afterwards the session is down.
   */
  lemma DisconnectExactly(s: Session, env: Env, cfg: Config)
    ensures var s' := Disconnect(s, env, cfg);
            && s.trace.offers <= s'.trace.offers
            && !s'.connected && !s'.publication && s'.sessionId == -1
            && (if Armed(s) && UpOnce(Probed(s), env, CLOSE_ATTEMPTS)
                then StartsClosing(s, s', env, CloseRequest(s.term, s.sessionId))
                else NewOffers(s, s') == [])
  {
    var probed, frame := Probed(s), CloseRequest(s.term, s.sessionId);
    CloseExactly(probed, env, cfg, frame, CLOSE_ATTEMPTS);
    var s' := Disconnect(s, env, cfg);
    if Armed(s) {
      assert s' == TornDown(CloseFrom(probed, env, cfg, frame, CLOSE_ATTEMPTS));
      assert NextOffer(probed, env) == NextOffer(s, env);
    }
  }

  /** The session after disconnect's own check of the publication. */
  function Probed(s: Session): Session {
    s.(trace := s.trace.(probes := s.trace.probes + 1))
  }

  // ---- Backoff ----

  /** The waits of n retries from a given attempt on. */
  function Waits(cfg: Config, attempt: nat, n: nat): nat
    decreases n, attempt
  {
    if n == 0 then 0 else RetryDelay(cfg, attempt) + Waits(cfg, attempt + 1, n - 1)
  }

  /** Between the two states n offers were made, with one wait between any two of them. */
  ghost predicate WaitedBetween(s: Session, s': Session, cfg: Config, attempt: nat) {
    && |s'.trace.offers| > |s.trace.offers|
    && s'.trace.waited == s.trace.waited + Waits(cfg, attempt, |s'.trace.offers| - |s.trace.offers| - 1)
  }

  lemma RetryWaits(s: Session, env: Env, cfg: Config, purpose: Purpose, frame: seq<byte>, attempt: nat, s': Session)
    requires NextOffer(s, env).Answer?
    requires WaitedBetween(Waited(OnFailure(Record(s, env, purpose, frame), NextOffer(s, env).code), cfg, attempt),
                           s', cfg, attempt + 1)
    ensures WaitedBetween(s, s', cfg, attempt)
  {
  }

  /** A send waits once between any two of its offers, each time as long as its attempt says. */
  lemma {:induction false} OfferWaitsExactly(
    s: Session, env: Env, cfg: Config, purpose: Purpose, frame: seq<byte>, attempt: nat)
    requires attempt < Attempts(cfg)
    ensures WaitedBetween(s, OfferFrom(s, env, cfg, purpose, frame, attempt).session, cfg, attempt)
    decreases Attempts(cfg) - attempt
  {
    var o := NextOffer(s, env);
    if TransientFailure(o) && attempt != Attempts(cfg) - 1 {
      var next := Waited(OnFailure(Record(s, env, purpose, frame), o.code), cfg, attempt);
      OfferWaitsExactly(next, env, cfg, purpose, frame, attempt + 1);
      RetryWaits(s, env, cfg, purpose, frame, attempt, OfferFrom(next, env, cfg, purpose, frame, attempt + 1).session);
    }
  }

  /** The backoff is linear up to the cap: never shorter later on, and never over the cap. */
  lemma BackoffShape(cfg: Config, j: nat, k: nat)
    requires j <= k
    ensures RetryDelay(cfg, j) <= RetryDelay(cfg, k)
    ensures cfg.idleMax > 0 ==> RetryDelay(cfg, k) <= cfg.idleMax
    ensures cfg.idleMax <= 0 || RetryDelay(cfg, k) < cfg.idleMax ==> RetryDelay(cfg, k) == (k + 1) * RetryDelay(cfg, 0)
    ensures RetryDelay(cfg, k) == 0 <==> cfg.idleBase <= 0 && cfg.idleMax <= 0
  {
    if !(cfg.idleBase <= 0 && cfg.idleMax <= 0) {
      var base := if cfg.idleBase > 0 then cfg.idleBase else 100;
      Grows(base, j + 1, k + 1);
      Grows(base, 1, k + 1);
    }
  }

  lemma Grows(base: nat, a: nat, b: nat)
    requires 1 <= a <= b && base > 0
    ensures base <= base * a <= base * b
  {
    assert base * b == base * a + base * (b - a);
  }

  // ---- What was heard ----

  predicate IsSeen(c: Callback, redirects: bool) {
    c.EventSeen? && (redirects ==> c.event.code == REDIRECT)
  }

  function CountSeen(cs: seq<Callback>, redirects: bool): nat {
    if cs == [] then 0 else CountSeen(cs[..|cs| - 1], redirects) + if IsSeen(cs[|cs| - 1], redirects) then 1 else 0
  }

  /** The event counters count the events that were reported. */
  ghost predicate Heard(s: Session) {
    && s.stats.eventsReceived == CountSeen(s.trace.callbacks, false)
    && s.stats.redirectsReceived == CountSeen(s.trace.callbacks, true)
  }

  lemma CountOne(cs: seq<Callback>, c: Callback, redirects: bool)
    ensures CountSeen(cs + [c], redirects) == CountSeen(cs, redirects) + if IsSeen(c, redirects) then 1 else 0
  {
    assert (cs + [c])[..|cs|] == cs;
  }

  /** An event is reported last, after the state it may have changed. */
  lemma EventCallbacks(s: Session, e: SessionEvent)
    ensures var cs, cs' := s.trace.callbacks, OnEvent(s, e).trace.callbacks;
            || cs' == cs + [EventSeen(e)]
            || (exists up :: cs' == cs + [StateChanged(up)] + [EventSeen(e)])
  {
  }

  lemma CountEvent(s: Session, e: SessionEvent, redirects: bool)
    ensures CountSeen(OnEvent(s, e).trace.callbacks, redirects)
            == CountSeen(s.trace.callbacks, redirects) + if redirects ==> e.code == REDIRECT then 1 else 0
  {
    var cs, cs' := s.trace.callbacks, OnEvent(s, e).trace.callbacks;
    EventCallbacks(s, e);
    CountOne(cs, EventSeen(e), redirects);
    if cs' != cs + [EventSeen(e)] {
      var up :| cs' == cs + [StateChanged(up)] + [EventSeen(e)];
      CountOne(cs, StateChanged(up), redirects);
      CountOne(cs + [StateChanged(up)], EventSeen(e), redirects);
    }
  }

  lemma EventIsHeard(s: Session, e: SessionEvent)
    requires Heard(s)
    ensures Heard(OnEvent(s, e))
  {
    CountEvent(s, e, false);
    CountEvent(s, e, true);
  }

  lemma OfferCallbacks(s: Session, env: Env, purpose: Purpose, frame: seq<byte>)
    ensures var s' := Settled(s, env, purpose, frame);
            && s'.trace.callbacks in {s.trace.callbacks, s.trace.callbacks + [StateChanged(false)]}
            && s'.stats.eventsReceived == s.stats.eventsReceived
            && s'.stats.redirectsReceived == s.stats.redirectsReceived
  {
  }

  lemma OfferIsNotHeard(s: Session, env: Env, purpose: Purpose, frame: seq<byte>)
    requires Heard(s)
    ensures Heard(Settled(s, env, purpose, frame))
  {
    OfferCallbacks(s, env, purpose, frame);
    CountOne(s.trace.callbacks, StateChanged(false), false);
    CountOne(s.trace.callbacks, StateChanged(false), true);
  }

  /** Over every run the event counters agree with the events reported to the client. */
  lemma EventBooks(env: Env, cfg: Config, cs: seq<Call>)
    ensures Heard(Run(env, cfg, cs))
  {
    var P := (s: Session) => Heard(s);
    forall s, e | P(s) ensures P(OnEvent(s, e)) { EventIsHeard(s, e); }
    forall s, e, purpose, frame | P(s)
      ensures P(Settled(s, e, purpose, frame)) && P(TornDown(Settled(s, e, purpose, frame)))
    {
      OfferIsNotHeard(s, e, purpose, frame);
    }
    RunKeeps(P, env, cfg, cs);
  }
}
