/** SessionManager::Impl: the session protocol as the source runs it, field by field. */
module SessionManagers {
  import opened Bytes
  import opened Flyweights
  import opened SessionFrames
  import opened TopicCodec
  import opened SessionProtocol

  datatype ConnectionResult = ConnectionResult(success: bool, sessionId: int, leader: int, term: int)

  function ResultOf(r: Sent): ConnectionResult {
    if r.ok then ConnectionResult(true, r.session.sessionId, r.session.leader, r.session.term)
    else ConnectionResult(false, -1, -1, -1)
  }

  class SessionManager {
    const cfg: Config
    const env: Env
    const headerBuffer: array<byte>
    const keepAliveBuffer: array<byte>
    var sessionId: int
    var leader: int
    var term: int
    var connected: bool
    var redirect: int
    var publication: bool
    var stats: Stats
    var lastCode: int
    var lastText: ErrorText
    var trace: Trace

    ghost predicate Valid() {
      headerBuffer.Length == 32 && keepAliveBuffer.Length == 24 && headerBuffer != keepAliveBuffer
    }

    ghost function State(): Session
      requires Valid()
      reads this, headerBuffer, keepAliveBuffer
    {
      Session(sessionId, leader, term, connected, redirect, publication, headerBuffer[..], keepAliveBuffer[..],
              stats, lastCode, lastText, trace)
    }

    constructor (cfg: Config, env: Env)
      ensures Valid() && fresh(headerBuffer) && fresh(keepAliveBuffer)
      ensures this.cfg == cfg && this.env == env
      ensures State() == NewSession()
    {
      this.cfg, this.env := cfg, env;
      var h := NewHeaderBuffer();
      var k := NewKeepAliveBuffer();
      headerBuffer, keepAliveBuffer := h, k;
      sessionId, leader, term, connected, redirect, publication := -1, 0, -1, false, -1, false;
      stats := Stats(0, 0, 0, 0, 0);
      lastCode, lastText, trace := 0, NoText, EMPTY_TRACE;
    }

    /** create_session_message_header_buffer */
    static method NewHeaderBuffer() returns (buffer: array<byte>)
      ensures fresh(buffer) && buffer.Length == 32 && buffer[..] == SessionHeader(0, 0)
    {
      buffer := new byte[32](_ => 0);
      ghost var blank := buffer[..];
      var f := new Flyweight(buffer);
      f.ApplyHeader(0, SESSION_HEADER);
      WriteIds(buffer, 0, 0);
      WriteLE(buffer, 24, 0, 8);
      SpliceTwice(blank, 0, HeaderBytes(SESSION_HEADER), ToLE(0, 8) + ToLE(0, 8));
      SpliceTwice(blank, 0, HeaderBytes(SESSION_HEADER) + (ToLE(0, 8) + ToLE(0, 8)), ToLE(0, 8));
      SpliceAll(blank, HeaderBytes(SESSION_HEADER) + (ToLE(0, 8) + ToLE(0, 8)) + ToLE(0, 8));
      Reassociate(HeaderBytes(SESSION_HEADER), ToLE(0, 8), ToLE(0, 8));
    }

    /** create_keepalive_buffer */
    static method NewKeepAliveBuffer() returns (buffer: array<byte>)
      ensures fresh(buffer) && buffer.Length == 24 && buffer[..] == KeepAlive(0, 0)
    {
      buffer := new byte[24](_ => 0);
      ghost var blank := buffer[..];
      var f := new Flyweight(buffer);
      f.ApplyHeader(0, SESSION_KEEP_ALIVE);
      WriteIds(buffer, 0, 0);
      SpliceTwice(blank, 0, HeaderBytes(SESSION_KEEP_ALIVE), ToLE(0, 8) + ToLE(0, 8));
      SpliceAll(blank, HeaderBytes(SESSION_KEEP_ALIVE) + (ToLE(0, 8) + ToLE(0, 8)));
      Reassociate(HeaderBytes(SESSION_KEEP_ALIVE), ToLE(0, 8), ToLE(0, 8));
    }

    /** The two int64 ids both buffers have at offset 8. */
    static method WriteIds(buffer: array<byte>, term: int, session: int)
      requires buffer.Length >= 24
      modifies buffer
      ensures buffer[..] == Splice(old(buffer[..]), 8, ToLE(term, 8) + ToLE(session, 8))
    {
      WriteLE(buffer, 8, term, 8);
      WriteLE(buffer, 16, session, 8);
      SpliceTwice(old(buffer[..]), 8, ToLE(term, 8), ToLE(session, 8));
    }

    // ---- Session events ----

    method NotifyClient(c: Callback)
      requires Valid()
      modifies this`trace
      ensures State() == Notify(old(State()), c)
    {
      trace := trace.(callbacks := trace.callbacks + [c]);
    }

    /** update_session_header and update_keepalive_buffer */
    method UpdateBuffers()
      requires Valid()
      modifies headerBuffer, keepAliveBuffer
      ensures headerBuffer[..] == UpdateHeader(old(headerBuffer[..]), term, sessionId)
      ensures keepAliveBuffer[..] == UpdateKeepAlive(old(keepAliveBuffer[..]), term, sessionId)
    {
      WriteIds(headerBuffer, term, sessionId);
      WriteLE(headerBuffer, 24, 0, 8);
      SpliceTwice(old(headerBuffer[..]), 8, ToLE(term, 8) + ToLE(sessionId, 8), ToLE(0, 8));
      WriteIds(keepAliveBuffer, term, sessionId);
    }

    method HandleSessionOk(e: SessionEvent)
      requires Valid()
      modifies this, headerBuffer, keepAliveBuffer
      ensures State() == OnOk(old(State()), e)
    {
      sessionId := e.correlationId;
      connected := true;
      term := e.term;
      leader := e.leader;
      UpdateBuffers();
      trace := trace.(established := trace.established + [e]);
      NotifyClient(StateChanged(true));
    }

    method HandleSessionEvent(e: SessionEvent)
      requires Valid()
      modifies this, headerBuffer, keepAliveBuffer
      ensures State() == OnEvent(old(State()), e)
    {
      stats := stats.(eventsReceived := stats.eventsReceived + 1);
      if e.code == OK {
        HandleSessionOk(e);
      } else if e.code == REDIRECT {
        stats := stats.(redirectsReceived := stats.redirectsReceived + 1);
        redirect := e.leader;
        leader := e.leader;
      } else if e.code == ERROR || e.code == AUTHENTICATION_REJECTED {
        connected := false;
        NotifyClient(StateChanged(false));
      } else if e.code == CLOSED {
        connected := false;
        sessionId := -1;
        NotifyClient(StateChanged(false));
      }
      NotifyClient(EventSeen(e));
    }

    /** The polling thread handles what has arrived while the caller sleeps. */
    method HandleArrivals(es: seq<SessionEvent>)
      requires Valid()
      modifies this, headerBuffer, keepAliveBuffer
      ensures State() == OnEvents(old(State()), es)
    {
      var i := 0;
      while i < |es|
        invariant i <= |es|
        invariant OnEvents(State(), es[i..]) == OnEvents(old(State()), es)
      {
        assert es[i..][0] == es[i] && es[i..][1..] == es[i + 1..];
        HandleSessionEvent(es[i]);
        i := i + 1;
      }
    }

    method SleepInTry()
      requires Valid()
      modifies this, headerBuffer, keepAliveBuffer
      ensures State() == PauseInTry(old(State()), env)
    {
      HandleArrivals(env.duringTry(trace.pollsInTry));
      trace := trace.(pollsInTry := trace.pollsInTry + 1);
    }

    method SleepBetweenTries()
      requires Valid()
      modifies this, headerBuffer, keepAliveBuffer
      ensures State() == PauseBetween(old(State()), env)
    {
      HandleArrivals(env.betweenTries(trace.pollsBetween));
      trace := trace.(pollsBetween := trace.pollsBetween + 1);
    }

    // ---- Offers ----

    method MakeOffer(purpose: Purpose, frame: seq<byte>) returns (o: Offer)
      requires Valid()
      modifies this`trace
      ensures State() == Record(old(State()), env, purpose, frame) && o == NextOffer(old(State()), env)
    {
      o := env.offer(|trace.offers|);
      trace := trace.(offers := trace.offers + [Offered(purpose, frame, o, |trace.established|)]);
    }

    method ClearLastError()
      requires Valid()
      modifies this`lastCode, this`lastText
      ensures State() == Cleared(old(State()))
    {
      lastCode, lastText := 0, NoText;
    }

    method CountMessageSent()
      requires Valid()
      modifies this`stats
      ensures State() == old(State()).(stats := old(stats).(messagesSent := old(stats).messagesSent + 1))
    {
      stats := stats.(messagesSent := stats.messagesSent + 1);
    }

    method CountKeepAlive(sent: bool)
      requires Valid()
      modifies this`stats
      ensures State() == old(State()).(stats :=
        if sent then old(stats).(keepAlivesSent := old(stats).keepAlivesSent + 1)
        else old(stats).(keepAlivesFailed := old(stats).keepAlivesFailed + 1))
    {
      if sent {
        stats := stats.(keepAlivesSent := stats.keepAlivesSent + 1);
      } else {
        stats := stats.(keepAlivesFailed := stats.keepAlivesFailed + 1);
      }
    }

    method WaitBeforeRetry(attempt: nat)
      requires Valid()
      modifies this`trace
      ensures State() == Waited(old(State()), cfg, attempt)
    {
      trace := trace.(waited := trace.waited + RetryDelay(cfg, attempt));
    }

    method HandleOfferFailure(code: int)
      requires Valid()
      modifies this`lastCode, this`lastText, this`connected, this`trace
      ensures State() == OnFailure(old(State()), code)
    {
      lastCode, lastText := code, Describes(code);
      if ConnectionLoss(code) {
        var wasConnected := connected;
        connected := false;
        if wasConnected {
          NotifyClient(StateChanged(false));
        }
      }
    }

    method IsConnected() returns (ok: bool)
      requires Valid()
      modifies this`trace
      ensures Sent(State(), ok) == CheckConnected(old(State()), env)
    {
      if !connected || !publication {
        return false;
      }
      var up := ProbePublication();
      return up == Up && sessionId > 0 && term > 0;
    }

    /** The retry loop that send_raw_message and send_combined_message share. */
    method OfferWithRetries(purpose: Purpose, frame: seq<byte>) returns (ok: bool)
      requires Valid()
      modifies this
      ensures Sent(State(), ok) == OfferFrom(old(State()), env, cfg, purpose, frame, 0)
    {
      var attempt := 0;
      while attempt < Attempts(cfg)
        invariant OfferFrom(State(), env, cfg, purpose, frame, attempt)
                  == OfferFrom(old(State()), env, cfg, purpose, frame, 0)
      {
        var o := MakeOffer(purpose, frame);
        if o.OfferRaised? {
          return false;
        }
        if o.code > 0 {
          ClearLastError();
          CountMessageSent();
          return true;
        }
        HandleOfferFailure(o.code);
        if !Transient(o.code) || attempt == Attempts(cfg) - 1 {
          return false;
        }
        WaitBeforeRetry(attempt);
        attempt := attempt + 1;
      }
      return false;
    }

    method SendRawMessage(purpose: Purpose, frame: seq<byte>) returns (ok: bool)
      requires Valid()
      modifies this
      ensures Sent(State(), ok) == SendRaw(old(State()), env, cfg, purpose, frame)
    {
      ok := IsConnected();
      if ok {
        ok := OfferWithRetries(purpose, frame);
      }
    }

    method SendCombinedMessage(message: seq<byte>) returns (ok: bool)
      requires Valid()
      modifies this
      ensures Sent(State(), ok) == SendCombined(old(State()), env, cfg, message)
    {
      ok := IsConnected();
      if !ok { return; }
      ok := IsConnected();
      if !ok { return; }
      ok := OfferWithRetries(Combined, headerBuffer[..] + message);
    }

    method PublishMessage(m: TopicMessage) returns (ok: bool)
      requires Valid()
      modifies this
      ensures Sent(State(), ok) == Publish(old(State()), env, cfg, m)
    {
      ok := IsConnected();
      if !ok { return; }
      var encoded := EncodeTopicMessage(m);
      if !encoded.Ok? { return false; }
      ok := SendCombinedMessage(encoded.value);
    }

    method SendKeepAliveMessage() returns (ok: bool)
      requires Valid()
      modifies this
      ensures Sent(State(), ok) == SendKeepAlive(old(State()), env)
    {
      ok := IsConnected();
      if !ok || term == -1 || sessionId == -1 {
        return false;
      }
      ok := OfferKeepAlives();
    }

    method OfferKeepAlives() returns (ok: bool)
      requires Valid()
      modifies this
      ensures Sent(State(), ok) == KeepAliveFrom(old(State()), env, 0)
    {
      var i := 0;
      while i < KEEP_ALIVE_ATTEMPTS
        invariant KeepAliveFrom(State(), env, i) == KeepAliveFrom(old(State()), env, 0)
      {
        var o := MakeOffer(KeepingAlive, keepAliveBuffer[..]);
        if o.OfferRaised? {
          break;
        }
        if o.code > 0 {
          ClearLastError();
          CountKeepAlive(true);
          return true;
        }
        HandleOfferFailure(o.code);
        if !Transient(o.code) {
          break;
        }
        i := i + 1;
      }
      CountKeepAlive(false);
      return false;
    }

    // ---- Disconnect ----

    method SendCloseRequest()
      requires Valid()
      modifies this
      ensures State() == CloseFrom(old(State()), env, cfg, CloseRequest(old(term), old(sessionId)), CLOSE_ATTEMPTS)
    {
      var frame := CloseRequest(term, sessionId);
      var left: nat := CLOSE_ATTEMPTS;
      while left > 0
        invariant CloseFrom(State(), env, cfg, frame, left) == CloseFrom(old(State()), env, cfg, frame, CLOSE_ATTEMPTS)
      {
        var ok := SendRawMessage(Closing, frame);
        if ok { return; }
        left := left - 1;
      }
    }

    method Disconnect()
      requires Valid()
      modifies this
      ensures State() == SessionProtocol.Disconnect(old(State()), env, cfg)
    {
      if sessionId > 0 && term > 0 && publication {
        var up := ProbePublication();
        if up == Up || connected {
          SendCloseRequest();
        }
      }
      TearDown();
    }

    method ProbePublication() returns (up: Probe)
      requires Valid()
      modifies this`trace
      ensures up == env.probe(old(trace).probes)
      ensures State() == old(State()).(trace := old(trace).(probes := old(trace).probes + 1))
    {
      up := env.probe(trace.probes);
      trace := trace.(probes := trace.probes + 1);
    }

    method TearDown()
      requires Valid()
      modifies this`publication, this`connected, this`sessionId
      ensures State() == TornDown(old(State()))
    {
      publication, connected, sessionId := false, false, -1;
    }

    // ---- Connect ----

    method SendConnectRequest() returns (ok: bool)
      requires Valid()
      modifies this
      ensures Sent(State(), ok) == OfferConnect(old(State()), env, cfg)
    {
      var o := MakeOffer(Connecting, ConnectRequest(cfg.connect));
      if o.OfferRaised? { return false; }
      if o.code > 0 {
        ClearLastError();
        return true;
      }
      HandleOfferFailure(o.code);
      return false;
    }

    method SendConnectRequests() returns (ok: bool)
      requires Valid()
      modifies this, headerBuffer, keepAliveBuffer
      ensures Sent(State(), ok) == RequestFrom(old(State()), env, cfg, CONNECT_OFFERS)
    {
      var left: nat := CONNECT_OFFERS;
      while left > 0
        invariant RequestFrom(State(), env, cfg, left) == RequestFrom(old(State()), env, cfg, CONNECT_OFFERS)
      {
        ok := SendConnectRequest();
        if ok { return; }
        SleepInTry();
        left := left - 1;
      }
      return false;
    }

    method AwaitSession(member: int, looks: nat) returns (ok: bool)
      requires Valid()
      modifies this, headerBuffer, keepAliveBuffer
      ensures Sent(State(), ok) == AwaitFrom(old(State()), env, member, looks)
    {
      var left := looks;
      while left > 0
        invariant AwaitFrom(State(), env, member, left) == AwaitFrom(old(State()), env, member, looks)
      {
        if connected {
          return true;
        }
        if redirect >= 0 && redirect != member {
          return false;
        }
        SleepInTry();
        left := left - 1;
      }
      return connected;
    }

    method NoteTry(member: int, redirected: bool)
      requires Valid()
      modifies this`trace
      ensures State() == old(State()).(trace := old(trace).(tries := old(trace).tries + [Try(member, redirected)]))
    {
      trace := trace.(tries := trace.tries + [Try(member, redirected)]);
    }

    method ClearRedirect()
      requires Valid()
      modifies this`redirect
      ensures State() == old(State()).(redirect := -1)
    {
      redirect := -1;
    }

    method TryConnectToMember(member: int, redirected: bool) returns (ok: bool)
      requires Valid()
      modifies this, headerBuffer, keepAliveBuffer
      ensures Sent(State(), ok) == TryMember(old(State()), env, cfg, member, redirected)
    {
      var n := |trace.tries|;
      NoteTry(member, redirected);
      if !env.resolves(member) {
        return false;
      }
      var wait := env.publication(n);
      publication := wait != Absent;
      SleepInTry();
      if wait != Ready {
        return false;
      }
      ok := SendConnectRequests();
      if ok {
        leader := member;
        ok := AwaitSession(member, env.looks(n));
      }
    }

    /** The inner loop of connect: `tried_members` is returned grown. */
    method SweepMembers(before: set<int>) returns (tried: set<int>, ok: bool)
      requires Valid()
      modifies this, headerBuffer, keepAliveBuffer
      ensures Sweep(State(), tried, ok) == SweepFrom(old(State()), env, cfg, before, 0)
    {
      tried := before;
      var member := 0;
      while member < cfg.members
        invariant SweepFrom(State(), env, cfg, tried, member) == SweepFrom(old(State()), env, cfg, before, 0)
      {
        if member !in tried {
          tried := tried + {member};
          ClearRedirect();
          ok := TryConnectToMember(member, false);
          if ok { return; }
          if redirect >= 0 && redirect != member { return; }
        }
        member := member + 1;
      }
      ok := false;
    }

    method Connect() returns (r: ConnectionResult)
      requires Valid()
      modifies this, headerBuffer, keepAliveBuffer
      ensures State() == SessionProtocol.Connect(old(State()), env, cfg).session
      ensures r == ResultOf(SessionProtocol.Connect(old(State()), env, cfg))
    {
      var tried: set<int> := {};
      var attempt := 0;
      while attempt < cfg.maxRetries
        invariant ConnectFrom(State(), env, cfg, tried, attempt) == SessionProtocol.Connect(old(State()), env, cfg)
        decreases cfg.maxRetries - attempt
      {
        var target := redirect;
        if 0 <= target < cfg.members && target !in tried {
          tried := tried + {target};
          var ok := TryConnectToMember(target, true);
          if ok {
            ClearRedirect();
            return ConnectionResult(true, sessionId, leader, term);
          }
          tried := tried - {target};
          if redirect < 0 {
            ClearRedirect();
          }
          SleepBetweenTries();
        } else if redirect >= 0 {
          SleepBetweenTries();
        } else {
          var ok;
          tried, ok := SweepMembers(tried);
          if ok {
            return ConnectionResult(true, sessionId, leader, term);
          }
          if attempt < cfg.maxRetries - 1 {
            SleepBetweenTries();
          }
        }
        attempt := attempt + 1;
      }
      return ConnectionResult(false, -1, -1, -1);
    }
  }
}
