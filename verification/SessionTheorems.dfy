/** The main results about the session protocol. */
module SessionTheorems {
  import opened Bytes
  import opened Flyweights
  import opened SessionFrames
  import opened SessionProtocol
  import opened SessionInduction
  import opened SessionInvariant

  // ---- Cached buffers ----

  /** In every reachable state with a session, both buffers are those of that session and term. */
  lemma BuffersAgree(env: Env, cfg: Config, cs: seq<Call>)
    ensures var s := Run(env, cfg, cs);
            s.sessionId != -1 ==>
              && s.keepAlive == KeepAlive(s.term, s.sessionId)
              && s.header == SessionHeader(s.term, s.sessionId)
              && (IsInt64(s.term) && IsInt64(s.sessionId) ==>
                    ReadEnvelope(s.header) == Some(Envelope(SESSION_HEADER, s.term, s.sessionId, Some(0))))
  {
    RunInv(env, cfg, cs);
    var s := Run(env, cfg, cs);
    if IsInt64(s.term) && IsInt64(s.sessionId) {
      EnvelopeRoundTrip(s.term, s.sessionId, []);
      assert SessionHeader(s.term, s.sessionId) + [] == SessionHeader(s.term, s.sessionId);
    }
  }

  function HeaderOf(p: Purpose): Header {
    match p
    case Combined => SESSION_HEADER
    case KeepingAlive => SESSION_KEEP_ALIVE
    case _ => SESSION_CLOSE
  }

  lemma CarriedIdsRead(es: seq<SessionEvent>, o: Offered)
    requires CarriesIds(es, o) && o.purpose in {Combined, KeepingAlive, Closing}
    requires IsInt64(es[o.epoch - 1].term) && IsInt64(es[o.epoch - 1].correlationId)
    ensures var e, read := es[o.epoch - 1], ReadEnvelope(o.frame);
            read.Some? && read.value.header == HeaderOf(o.purpose) &&
            read.value.term == e.term && read.value.session == e.correlationId
  {
    var e := es[o.epoch - 1];
    if o.purpose == Combined {
      var rest := o.frame[32..];
      assert o.frame == o.frame[..32] + rest;
      EnvelopeRoundTrip(e.term, e.correlationId, rest);
    } else {
      EnvelopeRoundTrip(e.term, e.correlationId, []);
    }
  }

  /** Every keepalive, combined or close frame ever offered names the session of its time. */
  lemma OfferedFramesNameTheirSession(env: Env, cfg: Config, cs: seq<Call>, o: Offered)
    requires o in Run(env, cfg, cs).trace.offers && o.purpose in {Combined, KeepingAlive, Closing}
    ensures var es := Run(env, cfg, cs).trace.established;
            1 <= o.epoch <= |es| &&
            var e, read := es[o.epoch - 1], ReadEnvelope(o.frame);
            IsInt64(e.term) && IsInt64(e.correlationId) ==>
              read.Some? && read.value.header == HeaderOf(o.purpose) &&
              read.value.term == e.term && read.value.session == e.correlationId
  {
    RunInv(env, cfg, cs);
    var es := Run(env, cfg, cs).trace.established;
    assert CarriesIds(es, o);
    if IsInt64(es[o.epoch - 1].term) && IsInt64(es[o.epoch - 1].correlationId) {
      CarriedIdsRead(es, o);
    }
  }

  // ---- Offers ----

  function NewOffers(s: Session, s': Session): seq<Offered>
    requires |s.trace.offers| <= |s'.trace.offers|
  {
    s'.trace.offers[|s.trace.offers|..]
  }

  predicate TransientFailure(o: Offer) { o.Answer? && Transient(o.code) }

  /**
   The log of one send: at most `limit` offers of the same frame, all but the last a back
   pressure or admin action, accepted exactly when the last one was; it stops early only
   when retrying is ruled out.
   */
  ghost predicate SendLog(s: Session, r: Sent, env: Env, purpose: Purpose, frame: seq<byte>, limit: nat) {
    && s.trace.offers <= r.session.trace.offers
    && var added := NewOffers(s, r.session);
    && 1 <= |added| <= limit
    && (forall k :: 0 <= k < |added| ==>
          added[k] == Offered(purpose, frame, env.offer(|s.trace.offers| + k), |s.trace.established|))
    && (forall k :: 0 <= k < |added| - 1 ==> TransientFailure(added[k].outcome))
    && (r.ok <==> Accepted(Last(added).outcome))
    && (|added| < limit ==> !TransientFailure(Last(added).outcome))
  }

  lemma {:induction false} OfferAccounting(
    s: Session, env: Env, cfg: Config, purpose: Purpose, frame: seq<byte>, attempt: nat)
    requires attempt < Attempts(cfg) && purpose in {Raw, Combined, Closing}
    ensures SendLog(s, OfferFrom(s, env, cfg, purpose, frame, attempt), env, purpose, frame, Attempts(cfg) - attempt)
    decreases Attempts(cfg) - attempt
  {
    var o := NextOffer(s, env);
    var r := OfferFrom(s, env, cfg, purpose, frame, attempt);
    SettledFrame(s, env, purpose, frame);
    if TransientFailure(o) && attempt != Attempts(cfg) - 1 {
      var next := Waited(Settled(s, env, purpose, frame), cfg, attempt);
      OfferAccounting(next, env, cfg, purpose, frame, attempt + 1);
      SendLogPrepend(s, next, r, env, purpose, frame, Attempts(cfg) - attempt);
    } else {
      assert r.session == Settled(s, env, purpose, frame);
      SendLogOnce(s, r, env, purpose, frame, Attempts(cfg) - attempt);
    }
  }

  lemma SendLogOnce(s: Session, r: Sent, env: Env, purpose: Purpose, frame: seq<byte>, limit: nat)
    requires limit > 0 && (limit > 1 ==> !TransientFailure(NextOffer(s, env)))
    requires r.session.trace.offers ==
             s.trace.offers + [Offered(purpose, frame, NextOffer(s, env), |s.trace.established|)]
    requires r.ok <==> Accepted(NextOffer(s, env))
    ensures SendLog(s, r, env, purpose, frame, limit)
  {
    assert NewOffers(s, r.session) == [Offered(purpose, frame, NextOffer(s, env), |s.trace.established|)];
  }

  lemma SendLogPrepend(s: Session, next: Session, r: Sent, env: Env, purpose: Purpose, frame: seq<byte>, limit: nat)
    requires limit > 1 && SendLog(next, r, env, purpose, frame, limit - 1)
    requires TransientFailure(NextOffer(s, env))
    requires next.trace.established == s.trace.established
    requires next.trace.offers == s.trace.offers + [Offered(purpose, frame, NextOffer(s, env), |s.trace.established|)]
    ensures SendLog(s, r, env, purpose, frame, limit)
  {
    var first := Offered(purpose, frame, NextOffer(s, env), |s.trace.established|);
    var rest := NewOffers(next, r.session);
    assert NewOffers(s, r.session) == [first] + rest;
    forall k | 0 < k <= |rest|
      ensures ([first] + rest)[k] == Offered(purpose, frame, env.offer(|s.trace.offers| + k), |s.trace.established|)
    {
      assert rest[k - 1] == Offered(purpose, frame, env.offer(|next.trace.offers| + (k - 1)), |s.trace.established|);
    }
  }

  lemma {:induction false} OfferEstablishes(
    s: Session, env: Env, cfg: Config, purpose: Purpose, frame: seq<byte>, attempt: nat)
    ensures OfferFrom(s, env, cfg, purpose, frame, attempt).session.trace.established == s.trace.established
    decreases Attempts(cfg) - attempt
  {
    var o := NextOffer(s, env);
    if attempt < Attempts(cfg) && TransientFailure(o) && attempt != Attempts(cfg) - 1 {
      OfferEstablishes(Waited(OnFailure(Record(s, env, purpose, frame), o.code), cfg, attempt),
                       env, cfg, purpose, frame, attempt + 1);
    }
  }

  /** Success is counted once. */
  lemma {:induction false} OfferCounts(
    s: Session, env: Env, cfg: Config, purpose: Purpose, frame: seq<byte>, attempt: nat)
    requires attempt < Attempts(cfg)
    ensures var r := OfferFrom(s, env, cfg, purpose, frame, attempt);
            r.session.stats.messagesSent == s.stats.messagesSent + (if r.ok then 1 else 0)
    decreases Attempts(cfg) - attempt
  {
    var o := NextOffer(s, env);
    if TransientFailure(o) && attempt != Attempts(cfg) - 1 {
      var next := Waited(OnFailure(Record(s, env, purpose, frame), o.code), cfg, attempt);
      OfferCounts(next, env, cfg, purpose, frame, attempt + 1);
    }
  }

  /** A send is counted once if it succeeds, and neither ids nor sessions change under it. */
  lemma SendEffects(s: Session, env: Env, cfg: Config, purpose: Purpose, frame: seq<byte>)
    ensures var r := OfferFrom(s, env, cfg, purpose, frame, 0);
            && r.session.stats.messagesSent == s.stats.messagesSent + (if r.ok then 1 else 0)
            && r.session.trace.established == s.trace.established
            && r.session.term == s.term && r.session.sessionId == s.sessionId
  {
    OfferCounts(s, env, cfg, purpose, frame, 0);
    OfferEstablishes(s, env, cfg, purpose, frame, 0);
    OfferFromKeepsIds(s, env, cfg, purpose, frame, 0);
  }
  /** Of several offers, each but the last was followed by a wait of at most `most`. */
  ghost predicate WaitsWithin(s: Session, s': Session, most: nat) {
    && |s.trace.offers| < |s'.trace.offers|
    && s.trace.waited <= s'.trace.waited <= s.trace.waited + (|s'.trace.offers| - |s.trace.offers| - 1) * most
  }

  /** A retry: one more offer, one more wait. */
  lemma RetryStep(s: Session, env: Env, cfg: Config, purpose: Purpose, frame: seq<byte>, attempt: nat, s': Session)
    requires cfg.idleMax > 0 && NextOffer(s, env).Answer?
    requires var next := Waited(OnFailure(Record(s, env, purpose, frame), NextOffer(s, env).code), cfg, attempt);
             WaitsWithin(next, s', cfg.idleMax)
    ensures WaitsWithin(s, s', cfg.idleMax)
  {
    OneMore(|s'.trace.offers| - |s.trace.offers| - 1, cfg.idleMax);
  }

  /** The waits between the offers of one send add up to at most idleMax each. */
  lemma {:induction false} OfferWaits(
    s: Session, env: Env, cfg: Config, purpose: Purpose, frame: seq<byte>, attempt: nat)
    requires attempt < Attempts(cfg) && cfg.idleMax > 0
    ensures WaitsWithin(s, OfferFrom(s, env, cfg, purpose, frame, attempt).session, cfg.idleMax)
    decreases Attempts(cfg) - attempt
  {
    var o := NextOffer(s, env);
    if TransientFailure(o) && attempt != Attempts(cfg) - 1 {
      var next := Waited(OnFailure(Record(s, env, purpose, frame), o.code), cfg, attempt);
      OfferWaits(next, env, cfg, purpose, frame, attempt + 1);
      RetryStep(s, env, cfg, purpose, frame, attempt, OfferFrom(next, env, cfg, purpose, frame, attempt + 1).session);
    }
  }

  /** messages_sent and the last-error text, over every run. */
  lemma OfferBooks(env: Env, cfg: Config, cs: seq<Call>)
    ensures var s := Run(env, cfg, cs);
            && s.stats.messagesSent == CountAccepted(s.trace.offers, false)
            && s.stats.keepAlivesSent == CountAccepted(s.trace.offers, true)
            && (s.lastText == NoText <==>
                  LastAnswer(s.trace.offers) == None || LastAnswer(s.trace.offers).value > 0)
  {
    RunInv(env, cfg, cs);
  }

  // ---- Close requests ----

  /** A close request offered from `s`, and what a row of them looks like: only the last is accepted. */
  predicate CloseOf(s: Session, frame: seq<byte>, o: Offered) {
    o.purpose == Closing && o.frame == frame && o.epoch == |s.trace.established|
  }

  ghost predicate CloseRow(s: Session, frame: seq<byte>, os: seq<Offered>) {
    (forall o :: o in os ==> CloseOf(s, frame, o)) && (forall k :: 0 <= k < |os| - 1 ==> !Accepted(os[k].outcome))
  }

  lemma CloseRowConcat(s: Session, s': Session, frame: seq<byte>, os: seq<Offered>, more: seq<Offered>)
    requires CloseRow(s, frame, os) && CloseRow(s', frame, more)
    requires s.trace.established == s'.trace.established
    requires os == [] || !Accepted(Last(os).outcome)
    ensures CloseRow(s, frame, os + more)
  {
    forall o | o in os + more ensures CloseOf(s, frame, o) {
      assert o in os || o in more;
      if o in more { assert CloseOf(s', frame, o); }
    }
  }

  lemma GrowthSplits<T>(a: seq<T>, b: seq<T>, c: seq<T>)
    requires a <= b <= c
    ensures a <= c && c[|a|..] == b[|a|..] + c[|b|..]
  {
  }

  lemma SendCloseAccount(s: Session, env: Env, cfg: Config, frame: seq<byte>)
    ensures var r := SendRaw(s, env, cfg, Closing, frame);
            && s.trace.offers <= r.session.trace.offers
            && var added := NewOffers(s, r.session);
            && |added| <= Attempts(cfg)
            && CloseRow(s, frame, added)
            && (r.ok <==> added != [] && Accepted(Last(added).outcome))
            && (!s.connected ==> added == [] && !r.session.connected)
            && r.session.trace.established == s.trace.established
  {
    var c := CheckConnected(s, env);
    if c.ok {
      OfferAccounting(c.session, env, cfg, Closing, frame, 0);
      OfferEstablishes(c.session, env, cfg, Closing, frame, 0);
    }
  }

  lemma {:induction false} CloseAccount(s: Session, env: Env, cfg: Config, frame: seq<byte>, left: nat)
    ensures var s' := CloseFrom(s, env, cfg, frame, left);
            && s.trace.offers <= s'.trace.offers
            && |NewOffers(s, s')| <= left * Attempts(cfg)
            && CloseRow(s, frame, NewOffers(s, s'))
            && (!s.connected ==> NewOffers(s, s') == [])
    decreases left
  {
    if left > 0 {
      var sent := SendRaw(s, env, cfg, Closing, frame);
      SendCloseAccount(s, env, cfg, frame);
      OneMore(left, Attempts(cfg));
      if !sent.ok {
        CloseAccount(sent.session, env, cfg, frame, left - 1);
        CloseAccounts(s, sent.session, CloseFrom(sent.session, env, cfg, frame, left - 1), frame);
      }
    }
  }

  /** The offers of one close attempt, and of those after it. */
  lemma CloseAccounts(s: Session, s': Session, s'': Session, frame: seq<byte>)
    requires s.trace.offers <= s'.trace.offers <= s''.trace.offers
    requires CloseRow(s, frame, NewOffers(s, s')) && CloseRow(s', frame, NewOffers(s', s''))
    requires s'.trace.established == s.trace.established
    requires NewOffers(s, s') != [] ==> !Accepted(Last(NewOffers(s, s')).outcome)
    ensures CloseRow(s, frame, NewOffers(s, s''))
    ensures |NewOffers(s, s'')| == |NewOffers(s, s')| + |NewOffers(s', s'')|
  {
    GrowthSplits(s.trace.offers, s'.trace.offers, s''.trace.offers);
    CloseRowConcat(s, s', frame, NewOffers(s, s'), NewOffers(s', s''));
  }

  /**
   One disconnect: at most 3 * max(1, attempts) offers, each the close request of the live
   session and term, at most the last one accepted, and none at all once connected_ dropped.
   */
  lemma DisconnectOffers(s: Session, env: Env, cfg: Config)
    ensures var s' := Disconnect(s, env, cfg);
            && s.trace.offers <= s'.trace.offers
            && var added := NewOffers(s, s');
            && |added| <= CLOSE_ATTEMPTS * Attempts(cfg)
            && CloseRow(s, CloseRequest(s.term, s.sessionId), added)
            && (!s.connected || s.sessionId <= 0 || s.term <= 0 || !s.publication ==> added == [])
            && !s'.connected && s'.sessionId == -1
  {
    var probed := s.(trace := s.trace.(probes := s.trace.probes + 1));
    CloseAccount(probed, env, cfg, CloseRequest(s.term, s.sessionId), CLOSE_ATTEMPTS);
  }

  /** Over every run, an established session is the subject of at most one accepted close request, with its ids. */
  lemma AtMostOneCloseAccepted(env: Env, cfg: Config, cs: seq<Call>, i: nat, j: nat)
    requires var os := Run(env, cfg, cs).trace.offers;
             i < j < |os| && AcceptedClose(os[i]) && AcceptedClose(os[j])
    ensures var s := Run(env, cfg, cs);
            var e := s.trace.established;
            && 1 <= s.trace.offers[i].epoch < s.trace.offers[j].epoch <= |e|
            && ClosesItsSession(e, s.trace.offers[i]) && ClosesItsSession(e, s.trace.offers[j])
  {
    RunInv(env, cfg, cs);
    var s := Run(env, cfg, cs);
    assert s.trace.offers[i] in s.trace.offers && s.trace.offers[j] in s.trace.offers;
    assert CarriesIds(s.trace.established, s.trace.offers[i]) && CarriesIds(s.trace.established, s.trace.offers[j]);
  }

  /** The frame is the close request of the session that was live when it was offered. */
  predicate ClosesItsSession(es: seq<SessionEvent>, o: Offered) {
    1 <= o.epoch <= |es| && o.frame == CloseRequest(es[o.epoch - 1].term, es[o.epoch - 1].correlationId)
  }

  // ---- Member tries ----

  lemma TriesKept(ts: seq<Try>)
    ensures KeptInTry((s: Session) => s.trace.tries == ts)
  {
  }

  lemma TryMemberTries(s: Session, env: Env, cfg: Config, member: int, redirected: bool)
    ensures TryMember(s, env, cfg, member, redirected).session.trace.tries == s.trace.tries + [Try(member, redirected)]
  {
    var ts := s.trace.tries + [Try(member, redirected)];
    TriesKept(ts);
    TryMemberKeeps((x: Session) => x.trace.tries == ts, s, env, cfg, member, redirected);
  }

  lemma PauseTries(s: Session, env: Env)
    ensures PauseBetween(s, env).trace.tries == s.trace.tries
  {
    TriesKept(s.trace.tries);
    PausesKeep((x: Session) => x.trace.tries == s.trace.tries, s, env);
  }

  /** The sweeps among the tries hit members that are in range and were not hit before. */
  predicate Fresh(ts: seq<Try>, n: nat, tried: set<int>) {
    ts == [] ||
    if ts[0].redirected then Fresh(ts[1..], n, tried)
    else 0 <= ts[0].member < n && ts[0].member !in tried && Fresh(ts[1..], n, tried + {ts[0].member})
  }

  function Swept(ts: seq<Try>): set<int> {
    if ts == [] then {} else (if ts[0].redirected then {} else {ts[0].member}) + Swept(ts[1..])
  }

  function Redirects(ts: seq<Try>): nat {
    if ts == [] then 0 else (if ts[0].redirected then 1 else 0) + Redirects(ts[1..])
  }

  lemma {:induction false} FreshConcat(ts: seq<Try>, us: seq<Try>, n: nat, tried: set<int>)
    requires Fresh(ts, n, tried) && Fresh(us, n, tried + Swept(ts))
    ensures Fresh(ts + us, n, tried)
    ensures Swept(ts + us) == Swept(ts) + Swept(us) && Redirects(ts + us) == Redirects(ts) + Redirects(us)
    decreases |ts|
  {
    if ts == [] {
      assert ts + us == us && tried + {} == tried;
    } else {
      assert (ts + us)[1..] == ts[1..] + us;
      var hit := if ts[0].redirected then {} else {ts[0].member};
      assert tried + Swept(ts) == (tried + hit) + Swept(ts[1..]);
      assert tried + {} == tried;
      FreshConcat(ts[1..], us, n, tried + hit);
    }
  }

  function Members(n: nat): (r: set<int>)
    ensures |r| == n
    ensures forall i :: i in r <==> 0 <= i < n
  {
    if n == 0 then {} else Members(n - 1) + {n - 1}
  }

  /** There are only n members to sweep. */
  lemma {:induction false} FreshBound(ts: seq<Try>, n: nat, tried: set<int>)
    requires Fresh(ts, n, tried)
    ensures |ts| <= Redirects(ts) + |Members(n) - tried|
    decreases |ts|
  {
    if ts != [] {
      if ts[0].redirected {
        FreshBound(ts[1..], n, tried);
      } else {
        var m := ts[0].member;
        FreshBound(ts[1..], n, tried + {m});
        assert Members(n) - (tried + {m}) == (Members(n) - tried) - {m};
      }
    }
  }

  /** Logs that grow one after the other. */
  lemma FreshChain(a: seq<Try>, b: seq<Try>, c: seq<Try>, n: nat, tried: set<int>)
    requires a <= b <= c
    requires Fresh(b[|a|..], n, tried) && Fresh(c[|b|..], n, tried + Swept(b[|a|..]))
    ensures a <= c && Fresh(c[|a|..], n, tried)
    ensures Swept(c[|a|..]) == Swept(b[|a|..]) + Swept(c[|b|..])
    ensures Redirects(c[|a|..]) == Redirects(b[|a|..]) + Redirects(c[|b|..])
  {
    GrowthSplits(a, b, c);
    FreshConcat(b[|a|..], c[|b|..], n, tried);
  }

  function NewTries(s: Session, s': Session): seq<Try>
    requires |s.trace.tries| <= |s'.trace.tries|
  {
    s'.trace.tries[|s.trace.tries|..]
  }

  /** The log of one swept member. */
  lemma OneSweep(before: seq<Try>, n: nat, tried: set<int>, member: nat)
    requires member < n && member !in tried
    ensures var added := (before + [Try(member, false)])[|before|..];
            Fresh(added, n, tried) && Redirects(added) == 0 && Swept(added) == {member}
  {
    var added := (before + [Try(member, false)])[|before|..];
    assert added == [Try(member, false)] && added[1..] == [];
  }

  lemma {:induction false} SweepTries(s: Session, env: Env, cfg: Config, tried: set<int>, member: nat)
    ensures var r := SweepFrom(s, env, cfg, tried, member);
            && s.trace.tries <= r.session.trace.tries
            && var added := NewTries(s, r.session);
            && Fresh(added, cfg.members, tried)
            && Redirects(added) == 0
            && r.tried == tried + Swept(added)
    decreases cfg.members - member
  {
    var r := SweepFrom(s, env, cfg, tried, member);
    if member < cfg.members {
      if member in tried {
        SweepTries(s, env, cfg, tried, member + 1);
      } else {
        var try := TryMember(s.(redirect := -1), env, cfg, member, false);
        var t := try.session;
        TryMemberTries(s.(redirect := -1), env, cfg, member, false);
        OneSweep(s.trace.tries, cfg.members, tried, member);
        if !try.ok && !(t.redirect >= 0 && t.redirect != member) {
          SweepTries(t, env, cfg, tried + {member}, member + 1);
          FreshChain(s.trace.tries, t.trace.tries, r.session.trace.tries, cfg.members, tried);
        }
      }
    }
  }

  /**
   The connect loop from any attempt on, whatever redirects arrive and whenever: the sweeps
   never repeat a member, because a failed redirect try takes back only its own entry, and
   each remaining attempt makes at most one redirect try.
   */
  lemma {:induction false} ConnectTries(s: Session, env: Env, cfg: Config, tried: set<int>, attempt: nat)
    ensures var r := ConnectFrom(s, env, cfg, tried, attempt);
            && s.trace.tries <= r.session.trace.tries
            && var added := NewTries(s, r.session);
            && Fresh(added, cfg.members, tried)
            && Redirects(added) <= if attempt < cfg.maxRetries then cfg.maxRetries - attempt else 0
    decreases cfg.maxRetries - attempt
  {
    var r := ConnectFrom(s, env, cfg, tried, attempt);
    if attempt < cfg.maxRetries {
      if Followable(s, cfg, tried) {
        var target := s.redirect;
        var t := TryMember(s, env, cfg, target, true);
        TryMemberTries(s, env, cfg, target, true);
        var first := t.session.trace.tries[|s.trace.tries|..];
        assert first == [Try(target, true)] && first[1..] == [] && tried + Swept(first) == tried;
        if !t.ok {
          var kept := if t.session.redirect < 0 then t.session.(redirect := -1) else t.session;
          PauseTries(kept, env);
          assert (tried + {target}) - {target} == tried;
          ConnectTries(PauseBetween(kept, env), env, cfg, tried, attempt + 1);
          FreshChain(s.trace.tries, t.session.trace.tries, r.session.trace.tries, cfg.members, tried);
        }
      } else if s.redirect >= 0 {
        PauseTries(s, env);
        ConnectTries(PauseBetween(s, env), env, cfg, tried, attempt + 1);
      } else {
        SweepTries(s, env, cfg, tried, 0);
        var swept := SweepFrom(s, env, cfg, tried, 0);
        if !swept.ok {
          PauseTries(swept.session, env);
          var next := if attempt < cfg.maxRetries - 1 then PauseBetween(swept.session, env) else swept.session;
          ConnectTries(next, env, cfg, swept.tried, attempt + 1);
          FreshChain(s.trace.tries, next.trace.tries, r.session.trace.tries, cfg.members, tried);
        }
      }
    }
  }

  function MaxTries(cfg: Config): nat {
    (if cfg.maxRetries > 0 then cfg.maxRetries else 0) + cfg.members
  }

  /** No member is swept twice, and only members are swept. */
  ghost predicate SweepsOnce(ts: seq<Try>, n: nat) {
    && (forall i :: 0 <= i < |ts| && !ts[i].redirected ==> 0 <= ts[i].member < n)
    && (forall i, j :: 0 <= i < j < |ts| && !ts[i].redirected && !ts[j].redirected ==> ts[i].member != ts[j].member)
  }

  lemma {:induction false} FreshSweepsOnce(ts: seq<Try>, n: nat, tried: set<int>)
    requires Fresh(ts, n, tried)
    ensures SweepsOnce(ts, n)
    ensures forall i :: 0 <= i < |ts| && !ts[i].redirected ==> ts[i].member !in tried
    decreases |ts|
  {
    if ts != [] {
      var rest := ts[1..];
      FreshSweepsOnce(rest, n, if ts[0].redirected then tried else tried + {ts[0].member});
      assert forall i :: 0 < i < |ts| ==> ts[i] == rest[i - 1];
    }
  }

  /** Connect makes at most max_retries + n member tries, whatever the cluster answers, and sweeps no member twice. */
  lemma ConnectBound(s: Session, env: Env, cfg: Config)
    ensures var r := Connect(s, env, cfg).session;
            && s.trace.tries <= r.trace.tries && |NewTries(s, r)| <= MaxTries(cfg)
            && SweepsOnce(NewTries(s, r), cfg.members)
  {
    ConnectTries(s, env, cfg, {}, 0);
    FreshBound(NewTries(s, Connect(s, env, cfg).session), cfg.members, {});
    FreshSweepsOnce(NewTries(s, Connect(s, env, cfg).session), cfg.members, {});
    assert Members(cfg.members) - {} == Members(cfg.members);
  }

  ghost predicate OnlyByOk(s: Session, s': Session) {
    s.trace.established <= s'.trace.established && (s.trace.established == s'.trace.established ==> !s'.connected)
  }

  lemma OnlyByOkKept(s: Session)
    ensures KeptInTry((x: Session) => OnlyByOk(s, x)) && KeptByTries((x: Session) => OnlyByOk(s, x))
  {
    forall x, e | OnlyByOk(s, x) ensures OnlyByOk(s, OnEvent(x, e)) { EventFrame(x, e); }
    forall x, env, purpose, frame | OnlyByOk(s, x)
      ensures OnlyByOk(s, Settled(x, env, purpose, frame)) && OnlyByOk(s, TornDown(Settled(x, env, purpose, frame)))
    {
      SettledFrame(x, env, purpose, frame);
    }
  }

  /**
   A connect that starts unconnected and succeeds has handled an OK event, and the session
   id and term it returns are those of the last one.
   */
  lemma ConnectSucceedsByOk(s: Session, env: Env, cfg: Config)
    requires Inv(s) && !s.connected
    ensures var r := Connect(s, env, cfg);
            r.ok ==>
              && |s.trace.established| < |r.session.trace.established|
              && r.session.connected
              && r.session.sessionId == Last(r.session.trace.established).correlationId
              && r.session.term == Last(r.session.trace.established).term
  {
    InvKept();
    ConnectFromKeeps(Invariant(), s, env, cfg, {}, 0);
    OnlyByOkKept(s);
    ConnectFromKeeps(x => OnlyByOk(s, x), s, env, cfg, {}, 0);
  }

  // ---- The redirect rule ----

  /** The rule in terms of the loop's own set, from any attempt on. */
  lemma {:induction false} RedirectFrom(s: Session, env: Env, cfg: Config, tried: set<int>, attempt: nat)
    requires s.redirect >= 0 && attempt < cfg.maxRetries
    requires forall k :: env.betweenTries(k) == []
    ensures var r := ConnectFrom(s, env, cfg, tried, attempt);
            && s.trace.tries <= r.session.trace.tries
            && var added := NewTries(s, r.session);
            && (Followable(s, cfg, tried) ==> added != [] && added[0] == Try(s.redirect, true))
            && (!Followable(s, cfg, tried) ==>
                  !r.ok && Upkeep(s, r.session) && r.session.redirect == s.redirect && added == [])
    decreases cfg.maxRetries - attempt
  {
    ConnectTries(s, env, cfg, tried, attempt);
    if Followable(s, cfg, tried) {
      TryMemberTries(s, env, cfg, s.redirect, true);
      var t := TryMember(s, env, cfg, s.redirect, true);
      if !t.ok {
        var kept := if t.session.redirect < 0 then t.session.(redirect := -1) else t.session;
        PauseTries(kept, env);
        ConnectTries(PauseBetween(kept, env), env, cfg, (tried + {s.redirect}) - {s.redirect}, attempt + 1);
      }
    } else {
      var next := PauseBetween(s, env);
      assert OnEvents(s, env.betweenTries(s.trace.pollsBetween)) == s;
      if attempt + 1 < cfg.maxRetries {
        RedirectFrom(next, env, cfg, tried, attempt + 1);
      }
    }
  }

  /** One pass of the connect loop: `ok` ends it, otherwise the next pass starts from here. */
  function ConnectPass(s: Session, env: Env, cfg: Config, tried: set<int>, attempt: nat): Sweep {
    if Followable(s, cfg, tried) then
      var t := TryMember(s, env, cfg, s.redirect, true);
      if t.ok then Sweep(t.session.(redirect := -1), tried, true)
      else
        var kept := if t.session.redirect < 0 then t.session.(redirect := -1) else t.session;
        Sweep(PauseBetween(kept, env), (tried + {s.redirect}) - {s.redirect}, false)
    else if s.redirect >= 0 then Sweep(PauseBetween(s, env), tried, false)
    else
      var swept := SweepFrom(s, env, cfg, tried, 0);
      if swept.ok then swept
      else if attempt < cfg.maxRetries - 1 then swept.(session := PauseBetween(swept.session, env)) else swept
  }

  lemma PassUnfolds(s: Session, env: Env, cfg: Config, tried: set<int>, attempt: nat)
    requires attempt < cfg.maxRetries
    ensures var p := ConnectPass(s, env, cfg, tried, attempt);
            ConnectFrom(s, env, cfg, tried, attempt)
            == if p.ok then Sent(p.session, true) else ConnectFrom(p.session, env, cfg, p.tried, attempt + 1)
  {
  }

  /** A pass adds to the set exactly the members it swept. */
  lemma PassTries(s: Session, env: Env, cfg: Config, tried: set<int>, attempt: nat)
    ensures var p := ConnectPass(s, env, cfg, tried, attempt);
            && s.trace.tries <= p.session.trace.tries
            && (!p.ok ==> p.tried == tried + Swept(NewTries(s, p.session)))
  {
    if Followable(s, cfg, tried) {
      var t := TryMember(s, env, cfg, s.redirect, true);
      TryMemberTries(s, env, cfg, s.redirect, true);
      var first := t.session.trace.tries[|s.trace.tries|..];
      assert first == [Try(s.redirect, true)] && first[1..] == [] && Swept(first) == {};
      if !t.ok {
        PauseTries(if t.session.redirect < 0 then t.session.(redirect := -1) else t.session, env);
      }
    } else if s.redirect >= 0 {
      PauseTries(s, env);
    } else {
      SweepTries(s, env, cfg, tried, 0);
      PauseTries(SweepFrom(s, env, cfg, tried, 0).session, env);
    }
  }

  datatype Head = Head(session: Session, tried: set<int>)

  /** The passes of a connect in one environment. */
  function Passes(env: Env, cfg: Config): (Head, nat) -> Sweep {
    (h: Head, k: nat) => ConnectPass(h.session, env, cfg, h.tried, k)
  }

  /** The state at the head of the loop before attempt k, if it gets there. */
  function HeadAt(s: Session, pass: (Head, nat) -> Sweep, cfg: Config, k: nat): Option<Head>
    decreases k
  {
    if k == 0 then Some(Head(s, {}))
    else
      var h := HeadAt(s, pass, cfg, k - 1);
      if h == None || k - 1 >= cfg.maxRetries then None
      else
        var p := pass(h.value, k - 1);
        if p.ok then None else Some(Head(p.session, p.tried))
  }

  /** What holds at the first head and is kept by every pass holds at every head. */
  lemma {:induction false} HeadsKeep(
    K: (Head, nat) -> bool, s: Session, pass: (Head, nat) -> Sweep, cfg: Config, k: nat)
    requires K(Head(s, {}), 0)
    requires forall h: Head, n: nat :: K(h, n) && n < cfg.maxRetries && !pass(h, n).ok ==>
               K(Head(pass(h, n).session, pass(h, n).tried), n + 1)
    requires HeadAt(s, pass, cfg, k).Some?
    ensures K(HeadAt(s, pass, cfg, k).value, k)
    decreases k
  {
    if k > 0 {
      HeadsKeep(K, s, pass, cfg, k - 1);
    }
  }

  lemma HeadMoves(h: Head, h': Head, env: Env, cfg: Config, attempt: nat)
    requires attempt < cfg.maxRetries
    requires ConnectPass(h.session, env, cfg, h.tried, attempt) == Sweep(h'.session, h'.tried, false)
    ensures ConnectFrom(h.session, env, cfg, h.tried, attempt) ==
            ConnectFrom(h'.session, env, cfg, h'.tried, attempt + 1)
    ensures h.session.trace.tries <= h'.session.trace.tries
    ensures h'.tried == h.tried + Swept(NewTries(h.session, h'.session))
  {
    PassUnfolds(h.session, env, cfg, h.tried, attempt);
    PassTries(h.session, env, cfg, h.tried, attempt);
  }

  lemma {:induction false} SweptConcat(ts: seq<Try>, us: seq<Try>)
    ensures Swept(ts + us) == Swept(ts) + Swept(us)
    decreases |ts|
  {
    if ts == [] {
      assert ts + us == us;
    } else {
      assert (ts + us)[1..] == ts[1..] + us;
      SweptConcat(ts[1..], us);
    }
  }

  /** tried_members holds exactly the members swept so far, and the connect goes on from this head. */
  ghost predicate HeadKnows(s: Session, env: Env, cfg: Config, h: Head, k: nat) {
    && s.trace.tries <= h.session.trace.tries
    && h.tried == Swept(NewTries(s, h.session))
    && Connect(s, env, cfg) == ConnectFrom(h.session, env, cfg, h.tried, k)
  }

  lemma HeadKnowsNext(s: Session, env: Env, cfg: Config, h: Head, k: nat)
    requires HeadKnows(s, env, cfg, h, k) && k < cfg.maxRetries && !Passes(env, cfg)(h, k).ok
    ensures var p := Passes(env, cfg)(h, k); HeadKnows(s, env, cfg, Head(p.session, p.tried), k + 1)
  {
    var p := Passes(env, cfg)(h, k);
    HeadMoves(h, Head(p.session, p.tried), env, cfg, k);
    GrowthSplits(s.trace.tries, h.session.trace.tries, p.session.trace.tries);
    SweptConcat(NewTries(s, h.session), NewTries(h.session, p.session));
  }

  /** That holds at every head of the loop. */
  lemma TriedIsSwept(s: Session, env: Env, cfg: Config, k: nat)
    requires HeadAt(s, Passes(env, cfg), cfg, k).Some?
    ensures HeadKnows(s, env, cfg, HeadAt(s, Passes(env, cfg), cfg, k).value, k)
  {
    assert HeadKnows(s, env, cfg, Head(s, {}), 0) by {
      assert s.trace.tries[|s.trace.tries|..] == [];
    }
    forall h: Head, n: nat | HeadKnows(s, env, cfg, h, n) && n < cfg.maxRetries && !Passes(env, cfg)(h, n).ok
      ensures HeadKnows(s, env, cfg, Head(Passes(env, cfg)(h, n).session, Passes(env, cfg)(h, n).tried), n + 1)
    {
      HeadKnowsNext(s, env, cfg, h, n);
    }
    HeadsKeep((h: Head, n: nat) => HeadKnows(s, env, cfg, h, n), s, Passes(env, cfg), cfg, k);
  }

  /**
   With events arriving only during member tries: whenever a connect comes to an attempt with
   a redirect pending, that member is tried in the very next try if and only if it is in
   range and was not swept by this connect. Otherwise nothing is tried any more, the
   redirect stays pending and connect fails.
   */
  lemma RedirectRule(s: Session, env: Env, cfg: Config, k: nat)
    requires k < cfg.maxRetries && HeadAt(s, Passes(env, cfg), cfg, k).Some?
    requires HeadAt(s, Passes(env, cfg), cfg, k).value.session.redirect >= 0
    requires forall n :: env.betweenTries(n) == []
    ensures var h := HeadAt(s, Passes(env, cfg), cfg, k).value.session;
            var r := Connect(s, env, cfg);
            && s.trace.tries <= h.trace.tries <= r.session.trace.tries
            && var added := NewTries(h, r.session);
               if h.redirect < cfg.members && h.redirect !in Swept(NewTries(s, h))
               then added != [] && added[0] == Try(h.redirect, true)
               else !r.ok && added == [] && r.session.redirect == h.redirect
  {
    TriedIsSwept(s, env, cfg, k);
    var h := HeadAt(s, Passes(env, cfg), cfg, k).value;
    RedirectFrom(h.session, env, cfg, h.tried, k);
  }
}
