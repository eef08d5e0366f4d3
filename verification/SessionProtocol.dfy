/**
 The session protocol of SessionManager::Impl as functions on a state value.

 The class in SessionManager.dfy is proved to compute these functions; the theorems about
 them are in SessionTheorems.dfy. The environment is a set of oracles: what the n-th offer
 returns, what the n-th connectedness check says, how each publication wait ends, how many
 times a session wait looks before its deadline, and which session events the polling thread
 handles at each pause. A theorem for all oracles is a theorem for every adversary.

 Handlers and public calls run to completion: an event is handled at a pause (a sleep or a
 wait of the source), never inside a send. The two callbacks into the client are recorded
 in order and replayed by the client model; neither calls back into the session manager.
 */
module SessionProtocol {
  import opened Bytes
  import opened Flyweights
  import opened SessionFrames
  import opened TopicCodec

  datatype Config = Config(
    maxRetries: int, members: nat, publishAttempts: int, idleBase: int, idleMax: int, connect: ConnectIds)

  /** What ExclusivePublication::offer does: return a position or a code, or throw. */
  datatype Offer = Answer(code: int) | OfferRaised

  datatype Probe = Up | Down | ProbeRaised

  /** How the wait for the ingress publication ends: connected, present only, or absent. */
  datatype PublicationWait = Ready | Present | Absent

  datatype Env = Env(
    offer: nat -> Offer,
    probe: nat -> Probe,
    resolves: int -> bool,
    publication: nat -> PublicationWait,
    looks: nat -> nat,
    duringTry: nat -> seq<SessionEvent>,
    betweenTries: nat -> seq<SessionEvent>)

  datatype Purpose = Connecting | Raw | Combined | KeepingAlive | Closing

  /** One offer; `epoch` counts the sessions established when it was made. */
  datatype Offered = Offered(purpose: Purpose, frame: seq<byte>, outcome: Offer, epoch: nat)

  datatype Try = Try(member: int, redirected: bool)

  datatype Callback = StateChanged(connected: bool) | EventSeen(event: SessionEvent)

  datatype Trace = Trace(
    offers: seq<Offered>, established: seq<SessionEvent>, tries: seq<Try>, callbacks: seq<Callback>,
    probes: nat, pollsInTry: nat, pollsBetween: nat, waited: nat)

  type Buffer32 = s: seq<byte> | |s| == 32 witness seq(32, _ => 0)

  type Buffer24 = s: seq<byte> | |s| == 24 witness seq(24, _ => 0)

  /** last_offer_error_message_: empty, or the description of a code. */
  datatype ErrorText = NoText | Describes(code: int)

  datatype Stats = Stats(
    messagesSent: nat, keepAlivesSent: nat, keepAlivesFailed: nat, eventsReceived: nat, redirectsReceived: nat)

  datatype Session = Session(
    sessionId: int, leader: int, term: int, connected: bool, redirect: int, publication: bool,
    header: Buffer32, keepAlive: Buffer24,
    stats: Stats,
    lastCode: int, lastText: ErrorText,
    trace: Trace)

  const EMPTY_TRACE := Trace([], [], [], [], 0, 0, 0, 0)

  function NewSession(): Session {
    Session(-1, 0, -1, false, -1, false, SessionHeader(0, 0), KeepAlive(0, 0), Stats(0, 0, 0, 0, 0),
            0, NoText, EMPTY_TRACE)
  }

  // ---- Session events ----

  function Notify(s: Session, c: Callback): Session {
    s.(trace := s.trace.(callbacks := s.trace.callbacks + [c]))
  }

  /** update_session_header: the block is overwritten, the SBE header stays as created. */
  function UpdateHeader(buffer: Buffer32, term: int, session: int): (r: Buffer32) {
    Splice(buffer, 8, ToLE(term, 8) + ToLE(session, 8) + ToLE(0, 8))
  }

  function UpdateKeepAlive(buffer: Buffer24, term: int, session: int): (r: Buffer24) {
    Splice(buffer, 8, ToLE(term, 8) + ToLE(session, 8))
  }

  /** handle_session_ok: the correlation id of the event becomes the session id. */
  function OnOk(s: Session, e: SessionEvent): Session {
    Notify(s.(sessionId := e.correlationId, connected := true, term := e.term, leader := e.leader,
              header := UpdateHeader(s.header, e.term, e.correlationId),
              keepAlive := UpdateKeepAlive(s.keepAlive, e.term, e.correlationId),
              trace := s.trace.(established := s.trace.established + [e])),
           StateChanged(true))
  }

  function OnRedirect(s: Session, e: SessionEvent): Session {
    s.(redirect := e.leader, leader := e.leader, stats := s.stats.(redirectsReceived := s.stats.redirectsReceived + 1))
  }

  function OnErrorEvent(s: Session): Session {
    Notify(s.(connected := false), StateChanged(false))
  }

  function OnClosed(s: Session): Session {
    Notify(s.(connected := false, sessionId := -1), StateChanged(false))
  }

  /** handle_session_event: the state callback runs inside the handler, the event callback after it. */
  function OnEvent(s: Session, e: SessionEvent): Session {
    var counted := s.(stats := s.stats.(eventsReceived := s.stats.eventsReceived + 1));
    var handled :=
      if e.code == OK then OnOk(counted, e)
      else if e.code == REDIRECT then OnRedirect(counted, e)
      else if e.code == ERROR || e.code == AUTHENTICATION_REJECTED then OnErrorEvent(counted)
      else if e.code == CLOSED then OnClosed(counted)
      else counted;
    Notify(handled, EventSeen(e))
  }

  function OnEvents(s: Session, es: seq<SessionEvent>): Session
    decreases |es|
  {
    if es == [] then s else OnEvents(OnEvent(s, es[0]), es[1..])
  }

  function PauseInTry(s: Session, env: Env): Session {
    var s' := OnEvents(s, env.duringTry(s.trace.pollsInTry));
    s'.(trace := s'.trace.(pollsInTry := s'.trace.pollsInTry + 1))
  }

  function PauseBetween(s: Session, env: Env): Session {
    var s' := OnEvents(s, env.betweenTries(s.trace.pollsBetween));
    s'.(trace := s'.trace.(pollsBetween := s'.trace.pollsBetween + 1))
  }

  // ---- Offers ----

  predicate Transient(code: int) { code == -2 || code == -3 }

  predicate ConnectionLoss(code: int) { code == -1 || code == -4 || code == -5 || code == -6 }

  predicate Accepted(o: Offer) { o.Answer? && o.code > 0 }

  /** handle_connection_loss: the callback runs only on the step from connected to not. */
  function LoseConnection(s: Session): Session {
    if s.connected then Notify(s.(connected := false), StateChanged(false)) else s
  }

  /** handle_offer_failure */
  function OnFailure(s: Session, code: int): Session {
    var described := s.(lastCode := code, lastText := Describes(code));
    if ConnectionLoss(code) then LoseConnection(described) else described
  }

  function NextOffer(s: Session, env: Env): Offer {
    env.offer(|s.trace.offers|)
  }

  /** The offer is made: it is on record, and nothing else has changed. */
  function Record(s: Session, env: Env, purpose: Purpose, frame: seq<byte>): Session {
    s.(trace := s.trace.(offers :=
      s.trace.offers + [Offered(purpose, frame, NextOffer(s, env), |s.trace.established|)]))
  }

  function Cleared(s: Session): Session {
    s.(lastCode := 0, lastText := NoText)
  }

  function Attempts(cfg: Config): (n: nat)
    ensures n >= 1
  {
    if cfg.publishAttempts > 1 then cfg.publishAttempts else 1
  }

  /** wait_before_publish_retry, in microseconds; a yield counts as nothing. */
  function RetryDelay(cfg: Config, attempt: nat): (d: nat) {
    if cfg.idleBase <= 0 && cfg.idleMax <= 0 then 0
    else
      var base := if cfg.idleBase > 0 then cfg.idleBase else 100;
      var delay := base * (attempt + 1);
      if cfg.idleMax > 0 && delay > cfg.idleMax then cfg.idleMax else delay
  }

  function Waited(s: Session, cfg: Config, attempt: nat): Session {
    s.(trace := s.trace.(waited := s.trace.waited + RetryDelay(cfg, attempt)))
  }

  datatype Sent = Sent(session: Session, ok: bool)

  /** The offer loop of send_raw_message and send_combined_message from a given attempt on. */
  function OfferFrom(s: Session, env: Env, cfg: Config, purpose: Purpose, frame: seq<byte>, attempt: nat): Sent
    decreases Attempts(cfg) - attempt
  {
    if attempt >= Attempts(cfg) then Sent(s, false)
    else
      var o, made := NextOffer(s, env), Record(s, env, purpose, frame);
      if o.OfferRaised? then Sent(made, false)
      else if o.code > 0 then
        Sent(Cleared(made).(stats := made.stats.(messagesSent := made.stats.messagesSent + 1)), true)
      else
        var failed := OnFailure(made, o.code);
        if !Transient(o.code) || attempt == Attempts(cfg) - 1 then Sent(failed, false)
        else OfferFrom(Waited(failed, cfg, attempt), env, cfg, purpose, frame, attempt + 1)
  }

  /** is_connected: the publication is asked only after the two local checks. */
  function CheckConnected(s: Session, env: Env): Sent {
    if !s.connected || !s.publication then Sent(s, false)
    else Sent(s.(trace := s.trace.(probes := s.trace.probes + 1)),
              env.probe(s.trace.probes) == Up && s.sessionId > 0 && s.term > 0)
  }

  function SendRaw(s: Session, env: Env, cfg: Config, purpose: Purpose, frame: seq<byte>): Sent {
    var checked := CheckConnected(s, env);
    if !checked.ok then checked else OfferFrom(checked.session, env, cfg, purpose, frame, 0)
  }

  /** send_combined_message checks once outside the lock and once inside. */
  function SendCombined(s: Session, env: Env, cfg: Config, message: seq<byte>): Sent {
    var outside := CheckConnected(s, env);
    if !outside.ok then outside
    else
      var inside := CheckConnected(outside.session, env);
      if !inside.ok then inside
      else OfferFrom(inside.session, env, cfg, Combined, inside.session.header + message, 0)
  }

  /** publish_message: an encoding exception is caught and reported as false. */
  function Publish(s: Session, env: Env, cfg: Config, m: TopicMessage): Sent {
    var checked := CheckConnected(s, env);
    if !checked.ok then checked
    else if !FitsLengthType(m) then Sent(checked.session, false)
    else SendCombined(checked.session, env, cfg, SentFrame(m))
  }

  const KEEP_ALIVE_ATTEMPTS: nat := 3

  function KeepAliveFrom(s: Session, env: Env, i: nat): Sent
    decreases KEEP_ALIVE_ATTEMPTS - i, s.sessionId
  {
    if i >= KEEP_ALIVE_ATTEMPTS then
      Sent(s.(stats := s.stats.(keepAlivesFailed := s.stats.keepAlivesFailed + 1)), false)
    else
      var o, made := NextOffer(s, env), Record(s, env, KeepingAlive, s.keepAlive);
      if o.OfferRaised? then
        Sent(made.(stats := made.stats.(keepAlivesFailed := made.stats.keepAlivesFailed + 1)), false)
      else if o.code > 0 then
        Sent(Cleared(made).(stats := made.stats.(keepAlivesSent := made.stats.keepAlivesSent + 1)), true)
      else
        var failed := OnFailure(made, o.code);
        if !Transient(o.code) then
          Sent(failed.(stats := failed.stats.(keepAlivesFailed := failed.stats.keepAlivesFailed + 1)), false)
        else KeepAliveFrom(failed, env, i + 1)
  }

  function SendKeepAlive(s: Session, env: Env): Sent {
    var checked := CheckConnected(s, env);
    if !checked.ok || s.term == -1 || s.sessionId == -1 then Sent(checked.session, false)
    else KeepAliveFrom(checked.session, env, 0)
  }

  // ---- Disconnect ----

  const CLOSE_ATTEMPTS: nat := 3

  function CloseFrom(s: Session, env: Env, cfg: Config, frame: seq<byte>, left: nat): Session
    decreases left, |frame|
  {
    if left == 0 then s
    else
      var sent := SendRaw(s, env, cfg, Closing, frame);
      if sent.ok then sent.session else CloseFrom(sent.session, env, cfg, frame, left - 1)
  }

  function TornDown(s: Session): Session {
    s.(publication := false, connected := false, sessionId := -1)
  }

  function Disconnect(s: Session, env: Env, cfg: Config): Session {
    if s.sessionId > 0 && s.term > 0 && s.publication then
      var up := env.probe(s.trace.probes) == Up;
      var probed := s.(trace := s.trace.(probes := s.trace.probes + 1));
      TornDown(if up || s.connected
               then CloseFrom(probed, env, cfg, CloseRequest(s.term, s.sessionId), CLOSE_ATTEMPTS)
               else probed)
    else TornDown(s)
  }

  // ---- Connect ----

  const CONNECT_OFFERS: nat := 20

  /** The SessionConnectRequest loop: any failure is retried after a pause. */
  function RequestFrom(s: Session, env: Env, cfg: Config, left: nat): Sent
    decreases left, cfg.members
  {
    if left == 0 then Sent(s, false)
    else
      var sent := OfferConnect(s, env, cfg);
      if sent.ok then sent else RequestFrom(PauseInTry(sent.session, env), env, cfg, left - 1)
  }

  /** send_session_connect_request */
  function OfferConnect(s: Session, env: Env, cfg: Config): Sent {
    var o, made := NextOffer(s, env), Record(s, env, Connecting, ConnectRequest(cfg.connect));
    if Accepted(o) then Sent(Cleared(made), true)
    else Sent(if o.OfferRaised? then made else OnFailure(made, o.code), false)
  }

  /** The session wait: connected, redirected elsewhere, or out of looks. */
  function AwaitFrom(s: Session, env: Env, member: int, left: nat): Sent
    decreases left
  {
    if left == 0 || s.connected then Sent(s, s.connected)
    else if s.redirect >= 0 && s.redirect != member then Sent(s, false)
    else AwaitFrom(PauseInTry(s, env), env, member, left - 1)
  }

  function TryMember(s: Session, env: Env, cfg: Config, member: int, redirected: bool): Sent {
    var n := |s.trace.tries|;
    var noted := s.(trace := s.trace.(tries := s.trace.tries + [Try(member, redirected)]));
    if !env.resolves(member) then Sent(noted, false)
    else
      var wait := env.publication(n);
      var waited := PauseInTry(noted.(publication := wait != Absent), env);
      if wait != Ready then Sent(waited, false)
      else
        var requested := RequestFrom(waited, env, cfg, CONNECT_OFFERS);
        if !requested.ok then requested
        else AwaitFrom(requested.session.(leader := member), env, member, env.looks(n))
  }

  datatype Sweep = Sweep(session: Session, tried: set<int>, ok: bool)

  /** One pass over the members that were not tried yet; a redirect elsewhere ends it. */
  function SweepFrom(s: Session, env: Env, cfg: Config, tried: set<int>, member: nat): Sweep
    decreases cfg.members - member
  {
    if member >= cfg.members then Sweep(s, tried, false)
    else if member in tried then SweepFrom(s, env, cfg, tried, member + 1)
    else
      var t := TryMember(s.(redirect := -1), env, cfg, member, false);
      if t.ok || (t.session.redirect >= 0 && t.session.redirect != member) then
        Sweep(t.session, tried + {member}, t.ok)
      else SweepFrom(t.session, env, cfg, tried + {member}, member + 1)
  }

  predicate Followable(s: Session, cfg: Config, tried: set<int>) {
    0 <= s.redirect < cfg.members && s.redirect !in tried
  }

  /** The connect loop from a given attempt on. */
  function ConnectFrom(s: Session, env: Env, cfg: Config, tried: set<int>, attempt: nat): Sent
    decreases cfg.maxRetries - attempt
  {
    if attempt >= cfg.maxRetries then Sent(s, false)
    else if Followable(s, cfg, tried) then
      var target := s.redirect;
      var t := TryMember(s, env, cfg, target, true);
      if t.ok then Sent(t.session.(redirect := -1), true)
      else
        var kept := if t.session.redirect < 0 then t.session.(redirect := -1) else t.session;
        ConnectFrom(PauseBetween(kept, env), env, cfg, (tried + {target}) - {target}, attempt + 1)
    else if s.redirect >= 0 then
      ConnectFrom(PauseBetween(s, env), env, cfg, tried, attempt + 1)
    else
      var swept := SweepFrom(s, env, cfg, tried, 0);
      if swept.ok then Sent(swept.session, true)
      else
        var paused := if attempt < cfg.maxRetries - 1 then PauseBetween(swept.session, env) else swept.session;
        ConnectFrom(paused, env, cfg, swept.tried, attempt + 1)
  }

  function Connect(s: Session, env: Env, cfg: Config): Sent {
    ConnectFrom(s, env, cfg, {}, 0)
  }

  // ---- Runs ----

  datatype Call =
    | ConnectCall | DisconnectCall | RawCall(frame: seq<byte>) | CombinedCall(message: seq<byte>)
    | PublishCall(m: TopicMessage) | KeepAliveCall | EventCall(event: SessionEvent)

  function Perform(s: Session, env: Env, cfg: Config, c: Call): Session {
    match c
    case ConnectCall => Connect(s, env, cfg).session
    case DisconnectCall => Disconnect(s, env, cfg)
    case RawCall(frame) => SendRaw(s, env, cfg, Raw, frame).session
    case CombinedCall(message) => SendCombined(s, env, cfg, message).session
    case PublishCall(m) => Publish(s, env, cfg, m).session
    case KeepAliveCall => SendKeepAlive(s, env).session
    case EventCall(e) => OnEvent(s, e)
  }

  /** The state after any sequence of calls on a new session manager. */
  function Run(env: Env, cfg: Config, cs: seq<Call>): Session {
    if cs == [] then NewSession() else Perform(Run(env, cfg, cs[..|cs| - 1]), env, cfg, cs[|cs| - 1])
  }
}
