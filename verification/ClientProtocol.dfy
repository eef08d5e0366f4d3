/**
 The connection, commit and subscription state machine of ClusterClient::Impl as functions
 on a state value. The class in ClusterClient.dfy is proved to compute them; the theorems
 are in ClientTheorems.dfy, ClientDelivery.dfy, Subscriptions.dfy and Liveness.dfy.

 Every handler and every public call is one atomic step. Session events that arrive while
 a connect is under way are handled inside it; a business message is handled before or
 after a connect. User callbacks do not call back into the client.
 */
module ClientProtocol {
  import opened Bytes
  import opened Flyweights
  import opened SessionFrames
  import opened TopicCodec
  import opened Parser
  import opened CommitStore
  import opened CommitFrames
  import opened SessionProtocol

  datatype ConnectionState = DISCONNECTED | CONNECTING | CONNECTED | FAILED

  /** What the error callback is told. */
  datatype Reason =
    | SessionDisconnected | SessionClosed | SessionErrored | AuthenticationRejected
    | DriverError | PollingLoss | HandlingError | ReconnectFailed

  datatype Subscription = Subscription(topic: Text, identifier: Text, strategy: Text, instance: Text)

  /** subscribed_topics_, subscription_message_identifiers_ and tracked_subscriptions_ */
  datatype Tables = Tables(topics: set<Text>, identifiers: map<Text, Text>, tracked: map<Text, Subscription>)

  /** Flags that no callback of the session manager changes. */
  datatype Mode = Mode(suppressed: bool, fatal: bool, autoReconnect: bool, egress: bool, instance: Text)

  /** Dedup set, commit store and tables; `invoked` is what the message callback was called with. */
  datatype Data = Data(processed: set<Text>, commits: Store, tables: Tables, invoked: seq<Text>)

  /** `errors` is what the error callback was told, `scheduled` counts reconnect threads started. */
  datatype Client = Client(
    session: Session, conn: ConnectionState, notified: bool, reconnecting: bool, imageChecks: nat,
    errors: seq<Reason>, scheduled: nat, mode: Mode, data: Data)

  /** Configuration and oracles; topicOf and sequenceOf stand for the JSON searches. */
  datatype World = World(
    env: Env, cfg: Config, clientId: Text, autoCommit: bool,
    images: nat -> bool, sequenceOf: Text -> nat, topicOf: (Text, Text) -> Option<Text>,
    commitJson: CommitOffset -> Text, clock: nat -> nat)

  function NewClient(instance: Text): Client {
    Client(NewSession(), DISCONNECTED, false, false, 0, [], 0, Mode(false, false, false, false, instance),
           Data({}, map[], Tables({}, map[], map[]), []))
  }

  datatype Ended = Done | Refused | Threw

  datatype Did = Did(client: Client, ended: Ended)

  // ---- Connection loss ----

  function Schedule(c: Client): Client {
    if c.reconnecting then c else c.(reconnecting := true, scheduled := c.scheduled + 1)
  }

  function Report(c: Client, reason: Reason): Client {
    c.(errors := c.errors + [reason])
  }

  /** notify_connection_loss */
  function NotifyLoss(c: Client, reason: Reason, allowReconnect: bool): Client {
    if c.mode.suppressed || c.notified then c
    else
      var lost := Report(c.(notified := true, conn := DISCONNECTED), reason);
      if allowReconnect && c.mode.autoReconnect then Schedule(lost) else lost
  }

  /** on_session_connection_state_changed and on_session_event */
  function OnCallback(c: Client, b: Callback): Client {
    match b
    case StateChanged(up) => if up then c.(notified := false) else NotifyLoss(c, SessionDisconnected, true)
    case EventSeen(e) =>
      if e.code == CLOSED then NotifyLoss(c, SessionClosed, true)
      else if e.code == ERROR then NotifyLoss(c, SessionErrored, true)
      else if e.code == AUTHENTICATION_REJECTED then NotifyLoss(c, AuthenticationRejected, false)
      else c
  }

  function OnCallbacks(c: Client, bs: seq<Callback>): Client
    decreases |bs|
  {
    if bs == [] then c else OnCallbacks(OnCallback(c, bs[0]), bs[1..])
  }

  function CallbacksSince(seen: nat, bs: seq<Callback>): seq<Callback> {
    if seen <= |bs| then bs[seen..] else []
  }

  function NewCallbacks(s: Session, s': Session): seq<Callback> {
    CallbacksSince(|s.trace.callbacks|, s'.trace.callbacks)
  }

  /** The session manager has moved on to `s'`, and its callbacks have run in order. */
  function Adopt(c: Client, s': Session): Client {
    OnCallbacks(c.(session := s'), NewCallbacks(c.session, s'))
  }

  // ---- Sending ----

  datatype Check = Check(client: Client, ok: bool)

  /** ClusterClient::Impl::is_connected */
  function IsConnected(c: Client, w: World): Check {
    if c.conn != CONNECTED then Check(c, false)
    else
      var k := CheckConnected(c.session, w.env);
      var asked := c.(session := k.session);
      if !k.ok then Check(asked, false)
      else if asked.mode.egress then Check(asked.(imageChecks := asked.imageChecks + 1), w.images(asked.imageChecks))
      else Check(asked, true)
  }

  function PublishRequest(c: Client, w: World, m: TopicMessage): Did {
    if c.mode.fatal then Did(c, Threw)
    else
      var k := IsConnected(c, w);
      if !k.ok then Did(k.client, Threw)
      else
        var r := Publish(k.client.session, w.env, w.cfg, m);
        Did(Adopt(k.client, r.session), if r.ok then Done else Threw)
  }

  function CommitFrame(c: Client, w: World, o: CommitOffset): Outcome<seq<byte>> {
    var now := w.clock(|c.session.trace.offers|);
    CommitOffsetFrame(o, o.identifier, w.commitJson(o), now, Decimal(now))
  }

  function SendCommitOffset(c: Client, w: World, o: CommitOffset): Did {
    if c.mode.fatal then Did(c, Threw)
    else
      var k := IsConnected(c, w);
      if !k.ok then Did(k.client, Refused)
      else
        var frame := CommitFrame(k.client, w, o);
        if !frame.Ok? then Did(k.client, Threw)
        else
          var r := SendCombined(k.client.session, w.env, w.cfg, frame.value);
          Did(Adopt(k.client, r.session), if r.ok then Done else Refused)
  }

  /** send_commit_request: the frame goes out without a session header. */
  function SendCommitRequest(c: Client, w: World, topic: Text): Did {
    if c.mode.fatal then Did(c, Threw)
    else
      var k := IsConnected(c, w);
      if !k.ok then Did(k.client, Refused)
      else
        var now := w.clock(|k.client.session.trace.offers|);
        var frame := CommitRequestFrame(topic, w.clientId, now, Decimal(now));
        if !frame.Ok? then Did(k.client, Threw)
        else
          var r := SendRaw(k.client.session, w.env, w.cfg, Raw, frame.value);
          Did(Adopt(k.client, r.session), if r.ok then Done else Refused)
  }

  function Stored(c: Client, o: CommitOffset): Client {
    c.(data := c.data.(commits := Put(c.data.commits, o)))
  }

  /** commit_message: the store is written before anything can throw. */
  function CommitMessage(c: Client, w: World, o: CommitOffset): Did {
    SendCommitOffset(Stored(c, o), w, o)
  }

  // ---- Subscriptions ----

  const PIPE: byte := 124

  function SubscriptionKey(s: Subscription): Text {
    s.topic + [PIPE] + s.identifier + [PIPE] + s.instance
  }

  /** The three table updates after a subscription request was sent. */
  function Track(t: Tables, clientId: Text, s: Subscription): Tables {
    var record := s.(identifier := if s.identifier == [] then clientId else s.identifier);
    Tables(t.topics + {s.topic}, t.identifiers[s.topic := s.identifier], t.tracked[SubscriptionKey(record) := record])
  }

  predicate Untracked(s: Subscription, topic: Text, identifier: Text) {
    s.topic == topic && (identifier == [] || s.identifier == identifier)
  }

  function Untrack(t: Tables, topic: Text, identifier: Text): Tables {
    Tables(t.topics - {topic}, t.identifiers - {topic},
           map k | k in t.tracked && !Untracked(t.tracked[k], topic, identifier) :: t.tracked[k])
  }

  /** An empty instance means the configured one. */
  function Effective(c: Client, s: Subscription): Subscription {
    if s.instance == [] then s.(instance := c.mode.instance) else s
  }

  function Retabled(c: Client, t: Tables): Client {
    c.(data := c.data.(tables := t))
  }

  /** send_subscription_request; `m` is the request message with its JSON payload. */
  function Subscribe(c: Client, w: World, s: Subscription, m: TopicMessage): Did {
    var sent := PublishRequest(c, w, m);
    if sent.ended != Done then sent
    else Did(Retabled(sent.client, Track(c.data.tables, w.clientId, Effective(c, s))), Done)
  }

  function Unsubscribe(c: Client, w: World, topic: Text, identifier: Text, m: TopicMessage): Did {
    var sent := PublishRequest(c, w, m);
    if sent.ended != Done then sent
    else Did(Retabled(sent.client, Untrack(c.data.tables, topic, identifier)), Done)
  }

  function Latest(): Text { Ascii("LATEST") }

  /** resume_from_last_commit */
  function ResumeOne(c: Client, w: World, topic: Text, identifier: Text, m: TopicMessage): Did {
    if c.mode.fatal then Did(c, Threw)
    else
      var k := IsConnected(c, w);
      if !k.ok then Did(k.client, Refused)
      else
        var last := Lookup(k.client.data.commits, topic, identifier);
        if last == None then Subscribe(k.client, w, Subscription(topic, identifier, Latest(), []), m)
        else SendCommitOffset(k.client, w, last.value)
  }

  /** The record a table entry stands for: a tracked one, or a topic when nothing is tracked. */
  function RecordOf(c: Client, w: World, key: Text): seq<Subscription> {
    var t := c.data.tables;
    if t.tracked != map[] then
      if key in t.tracked then [t.tracked[key]] else []
    else if key in t.topics then [FallbackRecord(c, w, key)] else []
  }

  /** The records resume_subscribed_topics goes through; `order` is the table's iteration order. */
  function ToResume(c: Client, w: World, order: seq<Text>): seq<Subscription> {
    if order == [] then [] else RecordOf(c, w, order[0]) + ToResume(c, w, order[1..])
  }

  /** The branch for topics that are subscribed but not tracked. */
  function FallbackRecord(c: Client, w: World, topic: Text): Subscription {
    var ids := c.data.tables.identifiers;
    Subscription(topic, if topic in ids then ids[topic] else w.clientId, Latest(), c.mode.instance)
  }

  /** The loop over the records: a commit exception leaves it, a subscription one does not. */
  function Resume(c: Client, w: World, subs: seq<Subscription>, request: Subscription -> TopicMessage): Did
    decreases |subs|
  {
    if subs == [] then Did(c, Done)
    else
      var last := Lookup(c.data.commits, subs[0].topic, subs[0].identifier);
      if last.Some? then
        var sent := SendCommitOffset(c, w, last.value);
        if sent.ended == Threw then sent else Resume(sent.client, w, subs[1..], request)
      else Resume(Subscribe(c, w, subs[0], request(subs[0])).client, w, subs[1..], request)
  }

  // ---- Connect and disconnect ----

  /** What a connect finds: does Aeron start, does egress appear, in which order are tables read. */
  datatype Attempt = Attempt(aeronUp: bool, egressUp: bool, order: seq<Text>, request: Subscription -> TopicMessage)

  /** `order` lists every key of the table that resume will read. */
  ghost predicate Covers(c: Client, order: seq<Text>) {
    if c.data.tables.tracked != map[] then forall k :: k in c.data.tables.tracked ==> k in order
    else forall t :: t in c.data.tables.topics ==> t in order
  }

  function ConnectClient(c: Client, w: World, a: Attempt): Check {
    if c.conn == CONNECTED then Check(c, true)
    else
      var trying := c.(conn := CONNECTING);
      if !a.aeronUp || !a.egressUp then Check(trying.(conn := FAILED), false)
      else
        var r := SessionProtocol.Connect(trying.session, w.env, w.cfg);
        var called := Adopt(trying.(mode := c.mode.(egress := true)), r.session);
        if !r.ok then Check(called.(conn := FAILED), false) else Connected(called, w, a)
  }

  /** The last lines of connect, once there is a session. */
  function Connected(c: Client, w: World, a: Attempt): Check {
    var resumed := Resume(c.(notified := false, reconnecting := false), w, ToResume(c, w, a.order), a.request);
    if resumed.ended == Threw then Check(resumed.client.(conn := FAILED), false)
    else Check(resumed.client.(mode := resumed.client.mode.(fatal := false), conn := CONNECTED), true)
  }

  /** disconnect: notifications are suppressed while the close request is sent. */
  function DisconnectQuietly(c: Client, w: World): Client {
    var hushed := c.(mode := c.mode.(suppressed := true));
    var closed := Adopt(hushed, SessionProtocol.Disconnect(c.session, w.env, w.cfg));
    closed.(mode := closed.mode.(suppressed := false))
  }

  function DisconnectClient(c: Client, w: World): Client {
    var closed := DisconnectQuietly(c, w);
    if c.conn == CONNECTED then closed.(conn := DISCONNECTED, mode := closed.mode.(egress := false)) else closed
  }

  /** handle_aeron_error: the first error latches; later ones only replace the text. */
  function OnDriverError(c: Client, w: World): Client {
    if c.mode.fatal then c
    else
      var latched := c.(mode := c.mode.(fatal := true));
      NotifyLoss(Adopt(latched, SessionProtocol.Disconnect(c.session, w.env, w.cfg)), DriverError, false)
  }

  // ---- Auto-reconnect ----

  const MAX_RECONNECT_ATTEMPTS: nat := 10

  function Dropped(c: Client, w: World): Client {
    var closed := DisconnectQuietly(c, w);
    closed.(mode := closed.mode.(egress := false))
  }

  /** One turn of the reconnect thread. */
  function Reconnect(c: Client, w: World, a: Attempt): Check {
    var r := ConnectClient(Dropped(c, w), w, a);
    if r.ok then Check(r.client.(notified := false, reconnecting := false), true) else r
  }

  /** The turns of the reconnect thread in one environment. */
  function Turns(w: World, attempts: nat -> Attempt): (Client, nat) -> Check {
    (c: Client, k: nat) => Reconnect(c, w, attempts(k))
  }

  /** The reconnect thread from a given attempt on; each turn rereads the enabled flag. */
  function Episode(c: Client, turn: (Client, nat) -> Check, enabled: nat -> bool, attempt: nat): Client
    decreases MAX_RECONNECT_ATTEMPTS - attempt, |c.errors|
  {
    if attempt < MAX_RECONNECT_ATTEMPTS && enabled(attempt) then
      var r := turn(c, attempt);
      if r.ok then r.client else Episode(r.client, turn, enabled, attempt + 1)
    else GiveUp(c, enabled(attempt))
  }

  /** The end of the reconnect thread without a connection. */
  function GiveUp(c: Client, reported: bool): Client {
    var over := c.(reconnecting := false);
    if reported then Report(over, ReconnectFailed) else over
  }

  // ---- Incoming messages ----

  /** The choices the source leaves to hash order and to the user's callback. */
  datatype Choice = Choice(throws: bool, pick: Text, evict: set<Text>)

  /** extract_topic_from_message, with `pick` the first subscribed topic. */
  function ExtractTopic(c: Client, w: World, r: ParseResult, pick: Text): Text {
    var found := w.topicOf(r.headers, r.payload);
    if found.Some? then found.value
    else if c.data.tables.topics != {} then pick
    else Ascii("default")
  }

  predicate ShouldSkip(r: ParseResult, topic: Text) {
    || r.messageType in {Ascii("acknowledgment"), Ascii("acknowledgment_legacy"), Ascii("Acknowledgment"),
                         Ascii("Acknowledgment_legacy"), Ascii("COMMIT_RESPONSE"), Ascii("SUBSCRIBE")}
    || Ascii("ack_") <= r.messageId
    || topic == Ascii("_ack") || topic == Ascii("_subscriptions")
    || (if topic == Ascii("_control") then
          r.messageType != Ascii("REPLAY_COMPLETE") && !Contains(r.payload, Ascii("REPLAY_COMPLETE"))
        else r.payload == [])
  }

  const CAPACITY: nat := 1000
  const EVICTION: nat := 100

  /** mark_message_processed; which 100 ids go is up to the hash order. */
  function MarkProcessed(d: Data, id: Text, evict: set<Text>): Data {
    var grown := d.processed + {id};
    d.(processed := if |grown| > CAPACITY then grown - evict else grown)
  }

  ghost predicate MayEvict(d: Data, id: Text, evict: set<Text>) {
    |d.processed + {id}| > CAPACITY ==> evict <= d.processed + {id} && |evict| == EVICTION
  }

  /** The message callback; a duplicate is not passed on and counts as handled. */
  function Deliver(d: Data, id: Text, throws: bool): (r: (Data, bool)) {
    if id != [] && id in d.processed then (d, true)
    else
      (d.(invoked := d.invoked + [id]), !throws)
  }

  /** Delivery and marking; `keep` says that the message is to be committed. */
  function Receive(d: Data, id: Text, skip: bool, ch: Choice): (r: (Data, bool)) {
    var delivered := Deliver(d, id, ch.throws);
    if !delivered.1 || skip || id == [] then (delivered.0, false)
    else (if id in d.processed then delivered.0 else MarkProcessed(delivered.0, id, ch.evict), true)
  }

  /** The message is handled for the first time, and is to be remembered. */
  predicate Marks(d: Data, id: Text, skip: bool, throws: bool) {
    id != [] && id !in d.processed && !throws && !skip
  }

  function OffsetOf(t: Tables, w: World, r: ParseResult, topic: Text): CommitOffset {
    CommitOffset(topic, if topic in t.identifiers then t.identifiers[topic] else w.clientId,
                 r.messageId, r.timestamp % TWO_64, r.sequence)
  }

  /** Auto-commit; an exception of the send ends in the error callback. */
  function AutoCommit(c: Client, w: World, o: CommitOffset): Client {
    if !w.autoCommit then c else Reported(CommitMessage(c, w, o))
  }

  function Reported(sent: Did): Client {
    if sent.ended == Threw then Report(sent.client, HandlingError) else sent.client
  }

  /** A session event goes to the session manager before anything else. */
  function Observe(c: Client, r: ParseResult): Client {
    if IsSessionEvent(r) then Adopt(c, OnEvent(c.session, r.event)) else c
  }

  /** handle_incoming_message after a successful parse. */
  function Handle(c: Client, w: World, r: ParseResult, ch: Choice): Client {
    var topic := ExtractTopic(c, w, r, ch.pick);
    Finish(Observe(c, r), w, r, topic, ShouldSkip(r, topic), ch)
  }

  function Finish(c: Client, w: World, r: ParseResult, topic: Text, skip: bool, ch: Choice): Client {
    var received := Receive(c.data, r.messageId, skip, ch);
    var kept := c.(data := received.0);
    if received.1 then AutoCommit(kept, w, OffsetOf(c.data.tables, w, r, topic)) else kept
  }

  function Incoming(c: Client, w: World, data: seq<byte>, ch: Choice): Client {
    var r := ParseMessage(data, w.sequenceOf);
    if r.success then Handle(c, w, r, ch) else c
  }

  // ---- Runs ----

  datatype Step =
    | ConnectStep(attempt: Attempt)
    | DisconnectStep
    | DriverErrorStep
    | ReconnectStep(attempt: Attempt)
    | GiveUpStep(reported: bool)
    | IncomingStep(data: seq<byte>, choice: Choice)
    | SubscribeStep(subscription: Subscription, m: TopicMessage)
    | UnsubscribeStep(topic: Text, identifier: Text, m: TopicMessage)
    | CommitStep(offset: CommitOffset)
    | SendOffsetStep(offset: CommitOffset)
    | CommitRequestStep(topic: Text)
    | ResumeStep(topic: Text, identifier: Text, m: TopicMessage)
    | PublishStep(m: TopicMessage)
    | KeepAliveStep
    | PollingLossStep
    | SetAutoReconnect(enabled: bool)
    | SetInstance(instance: Text)

  /** The choices of a step are ones the source can make. */
  ghost predicate Possible(c: Client, w: World, st: Step) {
    match st
    case ConnectStep(a) => Covers(c, a.order)
    case ReconnectStep(a) => Covers(c, a.order)
    case IncomingStep(data, ch) =>
      var r := ParseMessage(data, w.sequenceOf);
      && (c.data.tables.topics != {} ==> ch.pick in c.data.tables.topics)
      && (Marks(c.data, r.messageId, ShouldSkip(r, ExtractTopic(c, w, r, ch.pick)), ch.throws) ==>
            MayEvict(c.data, r.messageId, ch.evict))
    case _ => true
  }

  function PerformStep(c: Client, w: World, st: Step): Client {
    match st
    case ConnectStep(a) => ConnectClient(c, w, a).client
    case DisconnectStep => DisconnectClient(c, w)
    case DriverErrorStep => OnDriverError(c, w)
    case ReconnectStep(a) => Reconnect(c, w, a).client
    case GiveUpStep(reported) => GiveUp(c, reported)
    case IncomingStep(data, ch) => Incoming(c, w, data, ch)
    case SubscribeStep(s, m) => Subscribe(c, w, s, m).client
    case UnsubscribeStep(topic, identifier, m) => Unsubscribe(c, w, topic, identifier, m).client
    case CommitStep(o) => CommitMessage(c, w, o).client
    case SendOffsetStep(o) => SendCommitOffset(c, w, o).client
    case CommitRequestStep(topic) => SendCommitRequest(c, w, topic).client
    case ResumeStep(topic, identifier, m) => ResumeOne(c, w, topic, identifier, m).client
    case PublishStep(m) => PublishRequest(c, w, m).client
    case KeepAliveStep => Adopt(c, SendKeepAlive(c.session, w.env).session)
    case PollingLossStep => NotifyLoss(c, PollingLoss, true)
    case SetAutoReconnect(b) => c.(mode := c.mode.(autoReconnect := b))
    case SetInstance(t) => c.(mode := c.mode.(instance := t))
  }

  /** A step whose choices are impossible does not happen. */
  ghost function Next(c: Client, w: World, st: Step): Client {
    if Possible(c, w, st) then PerformStep(c, w, st) else c
  }

  ghost function RunFrom(c: Client, w: World, steps: seq<Step>): Client {
    if steps == [] then c else Next(RunFrom(c, w, steps[..|steps| - 1]), w, steps[|steps| - 1])
  }
}
