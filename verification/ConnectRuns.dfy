/**
 What a connect does with what it hears: redirects end a sweep and are tried next, each
 member is asked at most twenty times, and the result names the session that was opened.
 */
module ConnectRuns {
  import opened Bytes
  import opened SessionFrames
  import opened SessionProtocol
  import opened SessionInduction
  import opened SessionInvariant
  import opened SessionTheorems
  import opened SessionManagers

  // ---- What was heard ----

  /** The leader named by the last REDIRECT among the events that were seen, or `before`. */
  function LastRedirect(before: int, seen: seq<Callback>): int
    decreases |seen|
  {
    if seen == [] then before
    else
      var last := seen[|seen| - 1];
      if last.EventSeen? && last.event.code == REDIRECT then last.event.leader
      else LastRedirect(before, seen[..|seen| - 1])
  }

  lemma {:induction false} LastRedirectConcat(before: int, a: seq<Callback>, b: seq<Callback>)
    ensures LastRedirect(before, a + b) == LastRedirect(LastRedirect(before, a), b)
    decreases |b|
  {
    if b == [] {
      assert a + b == a;
    } else {
      assert (a + b)[..|a + b| - 1] == a + b[..|b| - 1];
      LastRedirectConcat(before, a, b[..|b| - 1]);
    }
  }

  /** What the session manager has reported between two states. */
  function Seen(s: Session, s': Session): seq<Callback>
    requires |s.trace.callbacks| <= |s'.trace.callbacks|
  {
    s'.trace.callbacks[|s.trace.callbacks|..]
  }

  /** Between the two states the pending redirect is the last one that was heard. */
  ghost predicate Heeds(s: Session, s': Session) {
    && s.trace.callbacks <= s'.trace.callbacks
    && s'.redirect == LastRedirect(s.redirect, Seen(s, s'))
  }

  lemma HeedsTwice(s: Session, s': Session, s'': Session)
    requires Heeds(s, s') && Heeds(s', s'')
    ensures Heeds(s, s'')
  {
    GrowthSplits(s.trace.callbacks, s'.trace.callbacks, s''.trace.callbacks);
    LastRedirectConcat(s.redirect, Seen(s, s'), Seen(s', s''));
  }

  lemma HeedsNothing(s: Session, s': Session)
    requires s'.trace.callbacks == s.trace.callbacks && s'.redirect == s.redirect
    ensures Heeds(s, s')
  {
    assert Seen(s, s') == [];
  }

  lemma EventHeeds(s: Session, e: SessionEvent)
    ensures Heeds(s, OnEvent(s, e))
  {
    var seen := Seen(s, OnEvent(s, e));
    assert seen[|seen| - 1] == EventSeen(e);
    if e.code != REDIRECT && |seen| == 2 {
      assert seen[..1][..0] == [];
      assert LastRedirect(s.redirect, seen[..1]) == s.redirect;
    }
  }

  lemma {:induction false} EventsHeed(s: Session, es: seq<SessionEvent>)
    ensures Heeds(s, OnEvents(s, es))
    decreases |es|
  {
    if es == [] {
      HeedsNothing(s, s);
    } else {
      EventHeeds(s, es[0]);
      EventsHeed(OnEvent(s, es[0]), es[1..]);
      HeedsTwice(s, OnEvent(s, es[0]), OnEvents(s, es));
    }
  }

  lemma PauseHeeds(s: Session, env: Env)
    ensures Heeds(s, PauseInTry(s, env))
  {
    var heard := OnEvents(s, env.duringTry(s.trace.pollsInTry));
    EventsHeed(s, env.duringTry(s.trace.pollsInTry));
    HeedsNothing(heard, PauseInTry(s, env));
    HeedsTwice(s, heard, PauseInTry(s, env));
  }

  lemma OfferHeeds(s: Session, env: Env, cfg: Config)
    ensures Heeds(s, OfferConnect(s, env, cfg).session)
  {
    var s' := OfferConnect(s, env, cfg).session;
    assert s'.redirect == s.redirect;
    assert Seen(s, s') == [] || Seen(s, s') == [StateChanged(false)];
    if Seen(s, s') != [] {
      assert Seen(s, s')[..0] == [];
    }
  }

  lemma {:induction false} RequestHeeds(s: Session, env: Env, cfg: Config, left: nat)
    ensures Heeds(s, RequestFrom(s, env, cfg, left).session)
    decreases left
  {
    if left == 0 {
      HeedsNothing(s, s);
    } else {
      var sent := OfferConnect(s, env, cfg);
      OfferHeeds(s, env, cfg);
      if !sent.ok {
        var next := PauseInTry(sent.session, env);
        PauseHeeds(sent.session, env);
        HeedsTwice(s, sent.session, next);
        RequestHeeds(next, env, cfg, left - 1);
        HeedsTwice(s, next, RequestFrom(next, env, cfg, left - 1).session);
      }
    }
  }

  lemma {:induction false} AwaitHeeds(s: Session, env: Env, member: int, left: nat)
    ensures Heeds(s, AwaitFrom(s, env, member, left).session)
    decreases left
  {
    if left == 0 || s.connected || (s.redirect >= 0 && s.redirect != member) {
      HeedsNothing(s, s);
    } else {
      var next := PauseInTry(s, env);
      PauseHeeds(s, env);
      AwaitHeeds(next, env, member, left - 1);
      HeedsTwice(s, next, AwaitFrom(next, env, member, left - 1).session);
    }
  }

  /** During a member try the pending redirect is exactly the last one heard. */
  lemma TryHeeds(s: Session, env: Env, cfg: Config, member: int, redirected: bool)
    ensures Heeds(s, TryMember(s, env, cfg, member, redirected).session)
  {
    var noted := Noted(s, Try(member, redirected));
    HeedsNothing(s, noted);
    if env.resolves(member) {
      var wait := env.publication(|s.trace.tries|);
      var there := noted.(publication := wait != Absent);
      HeedsNothing(s, there);
      PauseHeeds(there, env);
      var waited := PauseInTry(there, env);
      HeedsTwice(s, there, waited);
      if wait == Ready {
        var requested := RequestFrom(waited, env, cfg, CONNECT_OFFERS);
        RequestHeeds(waited, env, cfg, CONNECT_OFFERS);
        HeedsTwice(s, waited, requested.session);
        if requested.ok {
          var led := requested.session.(leader := member);
          HeedsNothing(requested.session, led);
          HeedsTwice(s, requested.session, led);
          AwaitHeeds(led, env, member, env.looks(|s.trace.tries|));
          HeedsTwice(s, led, AwaitFrom(led, env, member, env.looks(|s.trace.tries|)).session);
        }
      }
    }
  }

  // ---- A redirect ends the sweep ----

  /** The state in which a sweep comes to member m, and the members tried by then, if it does. */
  function ComesTo(s: Session, env: Env, cfg: Config, tried: set<int>, member: nat, m: nat): Option<Head>
    decreases m - member
  {
    if member > m || member >= cfg.members then None
    else if member in tried then ComesTo(s, env, cfg, tried, member + 1, m)
    else if member == m then Some(Head(s.(redirect := -1), tried))
    else
      var t := TryMember(s.(redirect := -1), env, cfg, member, false);
      if t.ok || (t.session.redirect >= 0 && t.session.redirect != member) then None
      else ComesTo(t.session, env, cfg, tried + {member}, member + 1, m)
  }

  /** A failed try during which the last redirect heard names another member ends the sweep right there. */
  lemma {:induction false} RedirectEndsSweep(
    s: Session, env: Env, cfg: Config, tried: set<int>, member: nat, m: nat)
    requires ComesTo(s, env, cfg, tried, member, m).Some?
    requires var h := ComesTo(s, env, cfg, tried, member, m).value;
             var t := TryMember(h.session, env, cfg, m, false);
             Diverts(h.session, t, m)
    ensures var h := ComesTo(s, env, cfg, tried, member, m).value;
            var t := TryMember(h.session, env, cfg, m, false);
            SweepFrom(s, env, cfg, tried, member) == Sweep(t.session, h.tried + {m}, false)
    decreases m - member
  {
    var h := ComesTo(s, env, cfg, tried, member, m).value;
    TryHeeds(h.session, env, cfg, m, false);
    if member in tried {
      RedirectEndsSweep(s, env, cfg, tried, member + 1, m);
    } else if member != m {
      var t := TryMember(s.(redirect := -1), env, cfg, member, false);
      RedirectEndsSweep(t.session, env, cfg, tried + {member}, member + 1, m);
    }
  }

  /** The try from `s` failed, and the last redirect heard in it names a member other than m. */
  ghost predicate Diverts(s: Session, t: Sent, m: int) {
    && s.redirect == -1 && !t.ok && |s.trace.callbacks| <= |t.session.trace.callbacks|
    && LastRedirect(-1, Seen(s, t.session)) >= 0 && LastRedirect(-1, Seen(s, t.session)) != m
  }

  /** The members tried when a sweep comes to m are those before and those it has swept. */
  lemma {:induction false} ComesToTries(s: Session, env: Env, cfg: Config, tried: set<int>, member: nat, m: nat)
    requires ComesTo(s, env, cfg, tried, member, m).Some?
    ensures var h := ComesTo(s, env, cfg, tried, member, m).value;
            && s.trace.tries <= h.session.trace.tries && h.session.redirect == -1 && m !in h.tried && m < cfg.members
            && h.tried == tried + Swept(NewTries(s, h.session))
    decreases m - member
  {
    var h := ComesTo(s, env, cfg, tried, member, m).value;
    if member in tried {
      ComesToTries(s, env, cfg, tried, member + 1, m);
    } else if member == m {
      assert NewTries(s, h.session) == [];
    } else {
      var t := TryMember(s.(redirect := -1), env, cfg, member, false).session;
      TryMemberTries(s.(redirect := -1), env, cfg, member, false);
      OneSweep(s.trace.tries, cfg.members, tried, member);
      ComesToTries(t, env, cfg, tried + {member}, member + 1, m);
      GrowthSplits(s.trace.tries, t.trace.tries, h.session.trace.tries);
      SweptConcat(NewTries(s, t), NewTries(t, h.session));
    }
  }

  /** The state after the try of m in the sweep of attempt k of a connect. */
  ghost predicate SweptAt(s: Session, env: Env, cfg: Config, k: nat, m: nat, t: Session) {
    && HeadAt(s, Passes(env, cfg), cfg, k).Some?
    && var h := HeadAt(s, Passes(env, cfg), cfg, k).value;
    && h.session.redirect < 0
    && ComesTo(h.session, env, cfg, h.tried, 0, m).Some?
    && var before := ComesTo(h.session, env, cfg, h.tried, 0, m).value;
    && var r := TryMember(before.session, env, cfg, m, false);
    && t == r.session && Diverts(before.session, r, m)
  }

  lemma DivertedPass(s: Session, env: Env, cfg: Config, tried: set<int>, k: nat, m: nat)
    requires s.redirect < 0 && ComesTo(s, env, cfg, tried, 0, m).Some?
    requires forall n :: env.betweenTries(n) == []
    requires var h := ComesTo(s, env, cfg, tried, 0, m).value;
             Diverts(h.session, TryMember(h.session, env, cfg, m, false), m)
    ensures var h := ComesTo(s, env, cfg, tried, 0, m).value;
            var t := TryMember(h.session, env, cfg, m, false).session;
            var p := ConnectPass(s, env, cfg, tried, k);
            && !p.ok && p.session.trace.tries == t.trace.tries && p.session.redirect == t.redirect
            && t.redirect == LastRedirect(-1, Seen(h.session, t))
  {
    var h := ComesTo(s, env, cfg, tried, 0, m).value;
    var t := TryMember(h.session, env, cfg, m, false).session;
    RedirectEndsSweep(s, env, cfg, tried, 0, m);
    TryHeeds(h.session, env, cfg, m, false);
    assert OnEvents(t, env.betweenTries(t.trace.pollsBetween)) == t;
  }

  /** The last redirect heard during that try. */
  ghost function HeardRedirect(s: Session, env: Env, cfg: Config, k: nat, m: nat, t: Session): int
    requires SweptAt(s, env, cfg, k, m, t)
  {
    var h := HeadAt(s, Passes(env, cfg), cfg, k).value;
    LastRedirect(-1, Seen(ComesTo(h.session, env, cfg, h.tried, 0, m).value.session, t))
  }

  /** The connect comes to its next attempt with that redirect pending. */
  lemma HeadAfterDiversion(s: Session, env: Env, cfg: Config, k: nat, m: nat, t: Session)
    requires SweptAt(s, env, cfg, k, m, t) && k < cfg.maxRetries && forall n :: env.betweenTries(n) == []
    ensures var next := HeadAt(s, Passes(env, cfg), cfg, k + 1);
            && next.Some? && next.value.session.trace.tries == t.trace.tries
            && next.value.session.redirect == HeardRedirect(s, env, cfg, k, m, t)
  {
    var h := HeadAt(s, Passes(env, cfg), cfg, k).value;
    DivertedPass(h.session, env, cfg, h.tried, k, m);
    assert Passes(env, cfg)(h, k) == ConnectPass(h.session, env, cfg, h.tried, k);
  }

  /**
   From the event on: when during the sweep's try of m the last event that names a leader is
   a REDIRECT to r, with r another member in range that this connect has not swept, then the
   next member tried is r, as a redirect, provided an attempt is left and no events arrive
   between the tries.
   */
  lemma RedirectIsTriedNext(s: Session, env: Env, cfg: Config, k: nat, m: nat, t: Session)
    requires SweptAt(s, env, cfg, k, m, t) && k + 1 < cfg.maxRetries && forall n :: env.betweenTries(n) == []
    requires s.trace.tries <= t.trace.tries
    requires var r := HeardRedirect(s, env, cfg, k, m, t); r < cfg.members && r !in Swept(NewTries(s, t))
    ensures var tries := Connect(s, env, cfg).session.trace.tries;
            && |t.trace.tries| < |tries| && t.trace.tries <= tries
            && tries[|t.trace.tries|] == Try(HeardRedirect(s, env, cfg, k, m, t), true)
  {
    HeadAfterDiversion(s, env, cfg, k, m, t);
    RedirectRule(s, env, cfg, k + 1);
    var next := HeadAt(s, Passes(env, cfg), cfg, k + 1).value.session;
    assert NewTries(next, Connect(s, env, cfg).session)[0] == Connect(s, env, cfg).session.trace.tries[|t.trace.tries|];
  }

  /**
   After a failed redirect try the pending redirect is the last one heard in it, or still the
   same one if none was; so the next attempt follows it by the same rule.
   */
  lemma RedirectsChain(s: Session, env: Env, cfg: Config, k: nat)
    requires k < cfg.maxRetries && HeadAt(s, Passes(env, cfg), cfg, k).Some? && forall n :: env.betweenTries(n) == []
    requires var h := HeadAt(s, Passes(env, cfg), cfg, k).value;
             Followable(h.session, cfg, h.tried) && !TryMember(h.session, env, cfg, h.session.redirect, true).ok
    ensures var h, next := HeadAt(s, Passes(env, cfg), cfg, k).value, HeadAt(s, Passes(env, cfg), cfg, k + 1);
            var t := TryMember(h.session, env, cfg, h.session.redirect, true).session;
            && Heeds(h.session, t) && next.Some?
            && next.value.session.trace.tries == t.trace.tries && next.value.tried == h.tried
            && (LastRedirect(h.session.redirect, Seen(h.session, t)) >= 0 ==>
                  next.value.session.redirect == LastRedirect(h.session.redirect, Seen(h.session, t)))
  {
    var h := HeadAt(s, Passes(env, cfg), cfg, k).value;
    var t := TryMember(h.session, env, cfg, h.session.redirect, true).session;
    TryHeeds(h.session, env, cfg, h.session.redirect, true);
    assert Passes(env, cfg)(h, k) == ConnectPass(h.session, env, cfg, h.tried, k);
    var kept := if t.redirect < 0 then t.(redirect := -1) else t;
    assert OnEvents(kept, env.betweenTries(kept.trace.pollsBetween)) == kept;
    assert (h.tried + {h.session.redirect}) - {h.session.redirect} == h.tried;
  }

  /** An OK and a REDIRECT name the leader; the other events leave it. */
  lemma EventNamesLeader(s: Session, e: SessionEvent)
    ensures OnEvent(s, e).leader == if e.code == OK || e.code == REDIRECT then e.leader else s.leader
  {
  }

  /** An unsuccessful sweep that was not diverted has tried every member. */
  lemma {:induction false} SweepCovers(s: Session, env: Env, cfg: Config, tried: set<int>, member: nat)
    ensures var r := SweepFrom(s, env, cfg, tried, member);
            !r.ok ==>
              || (forall m :: member <= m < cfg.members ==> m in r.tried)
              || (r.session.redirect >= 0 && r.session.trace.tries != [] &&
                  r.session.redirect != Last(r.session.trace.tries).member)
    ensures tried <= SweepFrom(s, env, cfg, tried, member).tried
    decreases cfg.members - member
  {
    if member < cfg.members {
      if member in tried {
        SweepCovers(s, env, cfg, tried, member + 1);
      } else {
        var t := TryMember(s.(redirect := -1), env, cfg, member, false);
        TryMemberTries(s.(redirect := -1), env, cfg, member, false);
        if !t.ok && !(t.session.redirect >= 0 && t.session.redirect != member) {
          SweepCovers(t.session, env, cfg, tried + {member}, member + 1);
        }
      }
    }
  }

  // ---- A run with one redirect ----

  /** The member is there, takes the first connect request, and e arrives before that. */
  ghost predicate Answers(s: Session, env: Env, member: int, e: SessionEvent) {
    && env.resolves(member) && env.publication(|s.trace.tries|) == Ready
    && env.duringTry(s.trace.pollsInTry) == [e] && Accepted(env.offer(|s.trace.offers|))
  }

  /** The state in which the session wait of such a try begins. */
  function AtWait(s: Session, env: Env, cfg: Config, member: int, redirected: bool): Session {
    var there := Noted(s, Try(member, redirected)).(publication := true);
    RequestFrom(PauseInTry(there, env), env, cfg, CONNECT_OFFERS).session.(leader := member)
  }

  lemma AnsweredWait(s: Session, env: Env, cfg: Config, member: int, redirected: bool, e: SessionEvent)
    requires Answers(s, env, member, e)
    ensures var there := Noted(s, Try(member, redirected)).(publication := true);
            var x, heard := AtWait(s, env, cfg, member, redirected), OnEvent(there, e);
            && TryMember(s, env, cfg, member, redirected) == AwaitFrom(x, env, member, env.looks(|s.trace.tries|))
            && x.leader == member && x.publication && x.connected == heard.connected && x.redirect == heard.redirect
            && x.sessionId == heard.sessionId && x.term == heard.term
            && x.trace.tries == s.trace.tries + [Try(member, redirected)]
            && x.trace.pollsInTry == s.trace.pollsInTry + 1 && |x.trace.offers| == |s.trace.offers| + 1
  {
    var there := Noted(s, Try(member, redirected)).(publication := true);
    HearsOne(there, env, e);
    TakesFirst(PauseInTry(there, env), env, cfg);
  }

  /** A pause in which one event arrives. */
  lemma HearsOne(s: Session, env: Env, e: SessionEvent)
    requires env.duringTry(s.trace.pollsInTry) == [e]
    ensures var s', heard := PauseInTry(s, env), OnEvent(s, e);
            && s' == heard.(trace := heard.trace.(pollsInTry := s'.trace.pollsInTry))
            && s'.trace.pollsInTry == s.trace.pollsInTry + 1
            && s'.trace.tries == s.trace.tries && s'.trace.offers == s.trace.offers && s'.publication == s.publication
  {
    assert [e][1..] == [];
    assert OnEvents(s, [e]) == OnEvents(OnEvent(s, e), []);
  }

  /** A first connect request that is accepted is the only one. */
  lemma TakesFirst(s: Session, env: Env, cfg: Config)
    requires Accepted(NextOffer(s, env))
    ensures var r := RequestFrom(s, env, cfg, CONNECT_OFFERS);
            && r.ok && |r.session.trace.offers| == |s.trace.offers| + 1
            && r.session == s.(lastCode := 0, lastText := NoText, trace := s.trace.(offers := r.session.trace.offers))
  {
    assert RequestFrom(s, env, cfg, CONNECT_OFFERS) == OfferConnect(s, env, cfg);
  }

  /** A member that answers OK gives the session of that event, with the member as leader. */
  lemma OkOpens(s: Session, env: Env, cfg: Config, member: int, redirected: bool, e: SessionEvent)
    requires Answers(s, env, member, e) && e.code == OK
    ensures var r := TryMember(s, env, cfg, member, redirected);
            && r.ok && r.session.connected && r.session.publication && r.session.leader == member
            && r.session.sessionId == e.correlationId && r.session.term == e.term
            && r.session.trace.tries == s.trace.tries + [Try(member, redirected)]
  {
    AnsweredWait(s, env, cfg, member, redirected, e);
  }

  /** A member that redirects elsewhere fails at once, with the redirect pending. */
  lemma RedirectFails(s: Session, env: Env, cfg: Config, member: int, redirected: bool, e: SessionEvent)
    requires Answers(s, env, member, e) && e.code == REDIRECT && !s.connected && e.leader >= 0 && e.leader != member
    ensures var r := TryMember(s, env, cfg, member, redirected);
            && !r.ok && !r.session.connected && r.session.redirect == e.leader
            && r.session.trace.tries == s.trace.tries + [Try(member, redirected)]
            && r.session.trace.pollsInTry == s.trace.pollsInTry + 1
            && |r.session.trace.offers| == |s.trace.offers| + 1
  {
    AnsweredWait(s, env, cfg, member, redirected, e);
  }

  /** Member 0 redirects to another member, and that one opens the session. */
  ghost predicate RedirectedOnce(env: Env, cfg: Config, redirect: SessionEvent, answer: SessionEvent) {
    && cfg.maxRetries >= 2 && 0 < redirect.leader < cfg.members && redirect.code == REDIRECT && answer.code == OK
    && env.resolves(0) && env.publication(0) == Ready && env.duringTry(0) == [redirect] && Accepted(env.offer(0))
    && env.resolves(redirect.leader) && env.publication(1) == Ready && env.duringTry(1) == [answer]
    && Accepted(env.offer(1)) && forall n :: env.betweenTries(n) == []
  }

  lemma SweepIsRedirected(env: Env, cfg: Config, redirect: SessionEvent, answer: SessionEvent)
    requires RedirectedOnce(env, cfg, redirect, answer)
    ensures var r := SweepFrom(NewSession(), env, cfg, {}, 0);
            && !r.ok && r.tried == {0} && !r.session.connected && r.session.redirect == redirect.leader
            && r.session.trace.tries == [Try(0, false)]
            && r.session.trace.pollsInTry == 1 && |r.session.trace.offers| == 1
  {
    var s := NewSession();
    assert s.(redirect := -1) == s;
    RedirectFails(s, env, cfg, 0, false, redirect);
    assert [] + [Try(0, false)] == [Try(0, false)];
  }

  /**
   A whole run: member 0 redirects to r and r answers OK. Connect tries 0 and then r, no other
   member, and returns the session and term of the OK event with r as the leader.
   */
  lemma RedirectRun(env: Env, cfg: Config, redirect: SessionEvent, answer: SessionEvent)
    requires RedirectedOnce(env, cfg, redirect, answer)
    ensures var r := Connect(NewSession(), env, cfg);
            && r.session.trace.tries == [Try(0, false), Try(redirect.leader, true)]
            && ResultOf(r) == ConnectionResult(true, answer.correlationId, redirect.leader, answer.term)
            && r.session.redirect == -1
  {
    var s := NewSession();
    SweepIsRedirected(env, cfg, redirect, answer);
    var swept := SweepFrom(s, env, cfg, {}, 0).session;
    var paused := PauseBetween(swept, env);
    assert OnEvents(swept, env.betweenTries(swept.trace.pollsBetween)) == swept;
    assert Connect(s, env, cfg) == ConnectFrom(paused, env, cfg, {0}, 1);
    OkOpens(paused, env, cfg, redirect.leader, true, answer);
    assert [Try(0, false)] + [Try(redirect.leader, true)] == [Try(0, false), Try(redirect.leader, true)];
  }

  /** The result of a connect that starts unconnected: the ids of the last OK event, or the failure values. */
  lemma ResultNamesTheSession(s: Session, env: Env, cfg: Config)
    requires Inv(s) && !s.connected
    ensures var sent := Connect(s, env, cfg);
            var r := ResultOf(sent);
            && (r.success <==> sent.ok)
            && (r.success ==>
                  && |s.trace.established| < |sent.session.trace.established|
                  && r.sessionId == Last(sent.session.trace.established).correlationId
                  && r.term == Last(sent.session.trace.established).term
                  && r.leader == sent.session.leader)
            && (!r.success ==> r == ConnectionResult(false, -1, -1, -1))
  {
    ConnectSucceedsByOk(s, env, cfg);
  }

  // ---- Inside a try ----

  /** A try of a member that does not resolve, or whose publication does not come up, offers nothing. */
  lemma TryWithoutPublication(s: Session, env: Env, cfg: Config, member: int, redirected: bool)
    requires !env.resolves(member) || env.publication(|s.trace.tries|) != Ready
    ensures var r := TryMember(s, env, cfg, member, redirected);
            !r.ok && r.session.trace.offers == s.trace.offers
  {
    var there := Noted(s, Try(member, redirected)).(publication := env.publication(|s.trace.tries|) != Absent);
    EventsOffer(there, env.duringTry(there.trace.pollsInTry));
  }

  predicate IsRequest(o: Offered, cfg: Config) {
    o.purpose == Connecting && o.frame == ConnectRequest(cfg.connect)
  }

  /** Connect requests only, none but the last accepted. */
  ghost predicate RequestRow(os: seq<Offered>, cfg: Config) {
    && (forall i :: 0 <= i < |os| ==> IsRequest(os[i], cfg))
    && (forall i :: 0 <= i < |os| - 1 ==> !Accepted(os[i].outcome))
  }

  /** The log of the connect requests of one try. */
  ghost predicate RequestLog(s: Session, r: Sent, cfg: Config, limit: nat) {
    && s.trace.offers <= r.session.trace.offers
    && var added := NewOffers(s, r.session);
    && |added| <= limit && RequestRow(added, cfg)
    && (r.ok <==> added != [] && Accepted(Last(added).outcome))
    && (!r.ok ==> |added| == limit)
  }

  lemma OfferConnectLog(s: Session, env: Env, cfg: Config)
    ensures var r := OfferConnect(s, env, cfg);
            && s.trace.offers <= r.session.trace.offers
            && NewOffers(s, r.session) ==
               [Offered(Connecting, ConnectRequest(cfg.connect), NextOffer(s, env), |s.trace.established|)]
            && r.ok == Accepted(NextOffer(s, env))
  {
  }

  lemma {:induction false} EventsOffer(s: Session, es: seq<SessionEvent>)
    ensures OnEvents(s, es).trace.offers == s.trace.offers
    decreases |es|
  {
    if es != [] {
      EventFrame(s, es[0]);
      EventsOffer(OnEvent(s, es[0]), es[1..]);
    }
  }

  lemma RequestRowMore(first: Offered, rest: seq<Offered>, cfg: Config)
    requires IsRequest(first, cfg) && !Accepted(first.outcome) && RequestRow(rest, cfg)
    ensures RequestRow([first] + rest, cfg)
    ensures rest != [] ==> Last([first] + rest) == Last(rest)
  {
    var os := [first] + rest;
    assert forall i :: 0 < i < |os| ==> os[i] == rest[i - 1];
  }

  lemma RequestLogMore(s: Session, s': Session, r: Sent, cfg: Config, limit: nat, first: Offered)
    requires s.trace.offers <= s'.trace.offers && NewOffers(s, s') == [first] && limit > 0
    requires IsRequest(first, cfg) && !Accepted(first.outcome) && RequestLog(s', r, cfg, limit - 1)
    ensures RequestLog(s, r, cfg, limit)
  {
    GrowthSplits(s.trace.offers, s'.trace.offers, r.session.trace.offers);
    RequestRowMore(first, NewOffers(s', r.session), cfg);
  }

  /**
   One try offers the connect request up to twenty times, whatever the answers, until one is
   accepted; it goes on to wait for the session if and only if one was.
   */
  lemma {:induction false} RequestOffers(s: Session, env: Env, cfg: Config, left: nat)
    ensures RequestLog(s, RequestFrom(s, env, cfg, left), cfg, left)
    decreases left
  {
    if left == 0 {
      assert NewOffers(s, s) == [];
    } else {
      var sent := OfferConnect(s, env, cfg);
      OfferConnectLog(s, env, cfg);
      if !sent.ok {
        var next := PauseInTry(sent.session, env);
        EventsOffer(sent.session, env.duringTry(sent.session.trace.pollsInTry));
        RequestOffers(next, env, cfg, left - 1);
        RequestLogMore(s, next, RequestFrom(next, env, cfg, left - 1), cfg, left, NewOffers(s, sent.session)[0]);
      }
    }
  }

  /** The state after k pauses of a try. */
  function AfterPauses(s: Session, env: Env, k: nat): Session {
    if k == 0 then s else PauseInTry(AfterPauses(s, env, k - 1), env)
  }

  predicate Settles(s: Session, member: int) {
    s.connected || (s.redirect >= 0 && s.redirect != member)
  }

  lemma {:induction false} PausesShift(s: Session, env: Env, k: nat)
    ensures AfterPauses(PauseInTry(s, env), env, k) == AfterPauses(s, env, k + 1)
    decreases k
  {
    if k > 0 { PausesShift(s, env, k - 1); }
  }

  /**
   The session wait looks at most `left` times and ends at the first look that finds the
   session open or a redirect elsewhere; it succeeds if and only if the session is open then.
   */
  lemma {:induction false} AwaitExactly(s: Session, env: Env, member: int, left: nat) returns (k: nat)
    ensures k <= left && (k < left ==> Settles(AfterPauses(s, env, k), member))
    ensures forall j :: 0 <= j < k ==> !Settles(AfterPauses(s, env, j), member)
    ensures AwaitFrom(s, env, member, left) == Sent(AfterPauses(s, env, k), AfterPauses(s, env, k).connected)
    decreases left
  {
    if left == 0 || Settles(s, member) {
      k := 0;
    } else {
      var next := PauseInTry(s, env);
      var n := AwaitExactly(next, env, member, left - 1);
      k := n + 1;
      PausesShift(s, env, n);
      forall j | 0 <= j < k ensures !Settles(AfterPauses(s, env, j), member) {
        if j > 0 { PausesShift(s, env, j - 1); }
      }
    }
  }
}
