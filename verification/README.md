# A verified model of the Aeron Cluster client

The repository is a C++ client for Aeron Cluster. This project models its four hard parts
and how they meet, and proves what they do on every input, every run and every reachable
state:

- **Session protocol** (`SessionProtocol`, `SessionManager`): connect with leader
  redirects, session events, sends with retries and backoff, the two pre-built buffers.
- **Client** (`ClientProtocol`, `ClusterClient`): connection state, driver errors, loss
  notification, auto-reconnect, message handling with deduplication and auto-commit, the
  three subscription tables; and the polling thread (`Polling`).
- **Codec and parser** (`Flyweights`, `SessionFrames`, `TopicCodec`, `Parser`,
  `CommitFrames`): FIX Simple Binary Encoding 1.0 (section 3 for the message header and
  body order, section 2 for variable-length data) with cursors over byte buffers.
- **Reassembler** and **commit store** (`Reassembler`, `CommitStore`), and the wire path
  through all of it (`WirePath`, `PublishPath`, `ClientDelivery`).

## How it is built

Code that the source writes as objects with fields is a class here: `Flyweight`,
`LocalFragmentReassembler`, `CommitManager`, `SessionManager`, `ClusterClient`. Each method
is proved to compute a function on a state value (`State() == Spec(old(State()))`), and the
theorems are about those functions, over all sequences of calls. `SessionInduction` holds
the induction once, for any property; `SessionInvariant` and `ClientInvariant` use it.
`ConnectRuns`, `SendRuns`, `ClientSends`, `ClientRuns` and `SkipRules` say when each operation
really does its work and what reaches the other side; `Liveness` shows that the runs these
theorems speak about exist.

Aeron is an environment of oracles: what the n-th offer returns, whether the publication is
connected, which endpoints resolve, how waits end, which session events arrive at which
pause, whether the egress has images. JSON searches (sequence number, topic) are functions
of the text. A theorem holds for every choice of these, so for every adversary.

Assumptions. Every handler and every public call is one atomic step. A session event is
handled at a pause (a sleep or a wait of the source), never inside a send; a business
message is handled before or after a connect, not inside it. User callbacks do not call back
into the client, and an error callback is installed. The bytes of a buffer are 0 to 255 and
integers are unbounded; widths are written out where the source's width matters.

## What the code does, where its comments say otherwise

- The encoders cut the frame at `encodedLength()`, which does not count the header, so 8
  bytes are missing from every published frame (`Parser.SentFrameMeaning`). Readers that
  tolerate unreadable headers hide this when the headers have 6 bytes or more.
- `resume_subscribed_topics` runs before CONNECTED is set, so it never sends anything
  (`ClientTheorems.ConnectReachesConnected`); with a driver error pending it makes the
  connect fail, for good (`ClientTheorems.DriverErrorIsForever`).
- AUTHENTICATION_REJECTED is meant not to reconnect, but the state callback comes first and
  schedules it (`ClientTheorems.LossNotifiedOnce`). A driver error can schedule one in the
  same way, through its own close request (`ClientTheorems.DriverErrorOutcome`).
- `clear_commits(topic)` erases a key that never exists for a colon-free topic
  (`CommitStore.ClearingATopicDoesNothing`).
- `subscribe_topic` gives no identifier, so its commits are stored under an empty one and
  looked up under the client id (`Subscriptions.CommitFoundByResume`).
- A reconnect thread that wakes up after the client has connected again closes the new session
  and leaves the client CONNECTED without one (`ClientRuns.ReconnectDropsALiveSession`).
- A delivery stall is never declared while the session is up and the loop runs, because the
  grace period is renewed each time (`Polling.GraceIsRenewed`).
- `parse_acknowledgment` is unreachable (`Parser.AcknowledgmentBranchUnreachable`).
- The session id is the correlation id of the OK event, not its session id field
  (`SessionManagers.SessionManager.HandleSessionOk`).

## Model

| member | source | states |
|---|---|---|
| `WirePath.FullFrameEndToEnd` | src/cluster_client.cpp:47-77 | for all fields of at most 65534 bytes: a full frame behind any session header, cut into any fragments, on top of any accumulator contents, comes out of reassembly and parsing with the same type, uuid, payload, headers and timestamp |
| `WirePath.PublishedFrameEndToEnd` | src/session_manager.cpp:1118-1144 | the frame publish_message really sends, on the same path: understood if and only if the headers have at least 6 bytes, and the headers never arrive |
| `WirePath.WrappedFrameArrives` | src/sbe_encoder.cpp:724-831 | any schema-1 frame behind a session header, cut and reassembled in any way, parses as the bare frame does |
| `WirePath.WrappedCutFrameArrives` | src/sbe_encoder.cpp:724-831 | so does a topic frame that was cut at any byte before it was wrapped |
| `PublishPath.PublishedMessageArrives` | src/session_manager.cpp:356-399 | after any calls, a successful publish leaves an accepted offer with the live session's ids whose bytes, cut and reassembled in any way, parse to the message if and only if its headers have at least 6 bytes |
| `Parser.WrappingIsTransparent` | src/sbe_encoder.cpp:724-831 | a schema-1 frame of template 1 or 2 parses to the same result with the 32-byte session header in front and without |
| `Parser.OnlySchemaOneUnwraps` | src/sbe_encoder.cpp:724-831 | every other wrapped frame, a session event too, is refused |
| `Parser.ParseCutFrame` | src/sbe_encoder.cpp:957-1143 | a frame cut anywhere, through the whole parser: fails before the end of the payload; otherwise all but the headers is intact, and the headers are there only if nothing was cut |
| `Parser.SentFrameMeaning` | src/sbe_encoder.cpp:131-167 | the frame minus its last 8 bytes decodes if and only if headers has at least 6 bytes; then all else is intact and headers is empty |
| `Parser.SessionEventParses` | src/sbe_encoder.cpp:618-647 | every session event with valid ids parses back from its bytes, whatever detail follows |
| `Parser.SessionEventDetail` | src/sbe_encoder.cpp:285-318 | the detail string of a session event comes back, and is dropped over 10 MB |
| `Parser.AcknowledgmentFields` | src/sbe_encoder.cpp:833-955 | an acknowledgment with three readable fields of quiet lengths is decoded field by field, timestamp included |
| `Parser.AcknowledgmentFallback` | src/sbe_encoder.cpp:936-942 | without any readable text the id is made from the timestamp and the status is SUCCESS |
| `Parser.DecimalMeans` | src/sbe_encoder.cpp:937-937 | and the digits in it stand for that timestamp |
| `Parser.AcknowledgmentBranchUnreachable` | src/sbe_encoder.cpp:513-551 | parse_message has the acknowledgment branch, and it is never taken: every frame it is for is decoded by the string scan, and a frame of neither earlier kind is refused |
| `Parser.ExtractReadableStrings` | src/sbe_encoder.cpp:459-486 | the in-place scan computes the list of maximal printable runs of three or more bytes |
| `Parser.ScanRun` | src/sbe_encoder.cpp:468-483 | what such a run is: one equation per separator and one for the end of the data |
| `Parser.AcknowledgmentId` | src/sbe_encoder.cpp:833-955 | for every SBE acknowledgment: the id comes back exactly if and only if it is printable, has 3 characters or more, and neither the high byte of its own length nor the low byte of the status length is printable; what it becomes in the most common failing case |
| `Flyweights.HeaderRoundTrip` | include/model/MessageHeader.h:154-276 | the four uint16 header fields read back from the 8 bytes they were written to, whatever follows |
| `Flyweights.ReadVarInCut` | include/model/TopicMessage.h:531-543 | reading a length-prefixed field from a frame cut anywhere succeeds if and only if the field is whole, and gives the field |
| `Flyweights.ReadVarsInCut` | include/model/TopicMessage.h:531-543 | the same for a row of fields |
| `Flyweights.ReadVarsInverse` | include/model/TopicMessage.h:531-543 | the other direction: fields that are read fit their 16-bit lengths, and putting them again gives the bytes they were read from |
| `Flyweights.Flyweight.WrapForEncode` | include/model/TopicMessage.h:210-219 | E100 if and only if the block does not fit; where the cursor starts otherwise |
| `Flyweights.Flyweight.WrapAndApplyHeader` | include/model/TopicMessage.h:221-238 | E107 or E100 exactly when header or block do not fit; the header bytes written, also when the block then fails |
| `Flyweights.Flyweight.PutVar` | include/model/TopicMessage.h:515-529 | E100 if and only if prefix and bytes do not fit; the bytes appended at the cursor; what a failed put leaves in the buffer and at the cursor |
| `Flyweights.Flyweight.GetVar` | include/model/TopicMessage.h:531-543 | the cursor read equals the read of the byte sequence, E100 included |
| `Flyweights.Flyweight.PutVars` | include/model/TopicMessage.h:515-529 | a row of puts appends the row, and throws exactly when the whole row does not fit |
| `Flyweights.Flyweight.GetVars` | include/model/TopicMessage.h:531-543 | a row of gets reads the row and advances past it, or throws |
| `TopicCodec.ComputeLength` | include/model/TopicMessage.h:1382-1434 | defined if and only if no field is longer than 65534 bytes, and with the header it is the length of the frame |
| `TopicCodec.EncodeTopicMessage` | src/sbe_encoder.cpp:131-167 | the encoder never raises E100; it returns the frame without its last 8 bytes, or E109 exactly for too long a field |
| `TopicCodec.DecodeWithCursor` | src/sbe_encoder.cpp:985-1135 | the cursor decode equals the decode of the byte sequence |
| `TopicCodec.DecodeCutFrame` | src/sbe_encoder.cpp:985-1135 | decoding a frame cut at any byte, both directions |
| `TopicCodec.FrameRoundTrip` | include/model/TopicMessage.h:281-284 | a frame cut at 8 + encodedLength() decodes to what was put in |
| `TopicCodec.DecodeInverse` | src/sbe_encoder.cpp:985-1135 | whatever bytes decode with readable headers start with the frame of the message they decode to, so no two messages share an encoding |
| `WireConstants.FrameHeaders` | src/sbe_encoder.cpp:36-129 | the first eight bytes of every frame that is sent, byte for byte |
| `WireConstants.EventCodes` | include/aeron_cluster/config.hpp:191-195 | the codes of the session events |
| `WireConstants.OfferCodes` | src/session_manager.cpp:599-657 | which answers are retried and which mean a lost connection |
| `WireConstants.Limits` | src/session_manager.cpp:245-332 | attempt limits, dedup capacity, string limit and the intervals of the polling thread |
| `WireConstants.CommitPayloadText` | src/commit_manager.cpp:63-105 | the text of a COMMIT request |
| `WireConstants.LegacyTexts` | src/commit_manager.cpp:134-175 | topic, headers and ids of the commit messages in TopicMessage form |
| `SessionFrames.EnvelopeRoundTrip` | src/sbe_encoder.cpp:79-129 | term and session id read back from the session header, keepalive and close request |
| `SessionFrames.EventRoundTrip` | src/sbe_encoder.cpp:183-238 | the fixed block of a session event round-trips for all 64- and 32-bit values |
| `SessionFrames.ConnectRoundTrip` | src/sbe_encoder.cpp:36-77 | the connect request names the client's correlation id, egress stream, version and response channel |
| `Reassembler.LocalFragmentReassembler.OnFragment` | src/cluster_client.cpp:47-77 | the new accumulator and deliveries are the Accept step of the old ones |
| `Reassembler.LocalFragmentReassembler.Poll` | src/cluster_client.cpp:531-555 | a poll is the fold of that step |
| `Reassembler.DeliversExactlyTheMessages` | src/cluster_client.cpp:47-77 | from any accumulator, any concatenation of whole, fragmented and abandoned messages, with unfragmented ones in between, delivers exactly the originals in order; an abandoned one is dropped at the next BEGIN |
| `Reassembler.CutMessageArrives` | src/cluster_client.cpp:47-77 | a message cut into any number of fragments is delivered once, as it was |
| `Reassembler.OpenedEnd` | src/cluster_client.cpp:60-76 | on any stream, an END with a BEGIN since the last END delivers the message from the last such BEGIN on |
| `Reassembler.HeadlessEnd` | src/cluster_client.cpp:60-76 | on any stream, an END without one delivers what nobody sent as a message: the accumulator's contents from before the stream, if no END emptied it, and all pieces since |
| `Reassembler.HeadlessUnlessOpened` | src/cluster_client.cpp:60-76 | which of the two it is: headless if and only if no fragment opens it |
| `Reassembler.LostBeginMerges` | src/cluster_client.cpp:60-76 | an abandoned message followed by one that lost its BEGIN is delivered as one message, the abandoned prefix and the rest |
| `SessionManagers.SessionManager.constructor` | src/session_manager.cpp:49-71 | the initial state, with both buffers pre-built for ids 0, 0 |
| `SessionManagers.SessionManager.UpdateBuffers` | src/session_manager.cpp:998-1046 | in-place update of both cached buffers at their id offsets |
| `SessionManagers.SessionManager.HandleSessionEvent` | src/session_manager.cpp:506-563 | the whole new state for every event code, and both callbacks in their order |
| `SessionManagers.SessionManager.HandleSessionOk` | src/session_manager.cpp:1234-1258 | the correlation id becomes the session id; term, leader and buffers follow |
| `SessionManagers.SessionManager.HandleOfferFailure` | src/session_manager.cpp:659-696 | last error, and on a connection loss one state callback only from connected |
| `SessionManagers.SessionManager.IsConnected` | src/session_manager.cpp:334-342 | the check and the one publication probe it makes |
| `SessionManagers.SessionManager.OfferWithRetries` | src/session_manager.cpp:401-454 | the loop computes the recursive send specification |
| `SessionManagers.SessionManager.SendCombinedMessage` | src/session_manager.cpp:1118-1217 | two checks, then header buffer and message in one frame |
| `SessionManagers.SessionManager.PublishMessage` | src/session_manager.cpp:356-399 | check, encode, send; an encoding exception ends in false |
| `SessionManagers.SessionManager.SendKeepAliveMessage` | src/session_manager.cpp:456-504 | three offers of the cached buffer at most, with the counters |
| `SessionManagers.SessionManager.Disconnect` | src/session_manager.cpp:245-332 | close request while a session is live, then teardown |
| `SessionManagers.SessionManager.TryConnectToMember` | src/session_manager.cpp:793-902 | one member try, with everything that may arrive in it |
| `SessionManagers.SessionManager.SendConnectRequest` | src/session_manager.cpp:904-932 | one offer of the connect request, and the last error it leaves |
| `SessionManagers.SessionManager.SweepMembers` | src/session_manager.cpp:180-222 | one sweep over the members not in tried_members |
| `SessionManagers.SessionManager.Connect` | src/session_manager.cpp:73-243 | the whole connect loop with redirects and the mutable tried_members set, and the result it returns |
| `SessionInduction.RunKeeps` | src/session_manager.cpp:73-563 | induction principle: a property kept by every event, offer, upkeep and try holds after every run |
| `SessionInvariant.RunInv` | src/session_manager.cpp:936-1046 | one invariant in every reachable state and every environment: buffers agree, offered frames carry the ids of their session, closes are accepted once, counters count |
| `SessionTheorems.BuffersAgree` | src/session_manager.cpp:936-1046 | whenever session_id_ is not -1, the keepalive buffer is the encoded keepalive and the header buffer decodes to (24, 1, 111, 8, term, session) |
| `SessionTheorems.OfferedFramesNameTheirSession` | src/session_manager.cpp:456-470 | every combined, keepalive or close frame ever offered decodes to the ids of the session that was live then |
| `SessionTheorems.OfferAccounting` | src/session_manager.cpp:401-454 | the log of a send: at most max(1, attempts) offers of one frame, retried only after back pressure or admin action, at most the last accepted, and success exactly then |
| `SessionTheorems.OfferCounts` | src/session_manager.cpp:425-440 | messages_sent grows by one exactly on success |
| `SessionTheorems.SendEffects` | src/session_manager.cpp:401-454 | and a send changes neither ids nor sessions |
| `SessionTheorems.OfferWaits` | src/session_manager.cpp:702-723 | total backoff is at most (offers - 1) * max when max is positive |
| `SessionTheorems.OfferBooks` | src/session_manager.cpp:587-597 | over every run messages_sent and keepalives_sent count the accepted offers, and the last-error text is empty if and only if no offer returned yet or the last one that did was accepted |
| `SessionTheorems.DisconnectOffers` | src/session_manager.cpp:245-332 | a disconnect makes at most 3 * max(1, attempts) offers, all of the live session's close request, at most the last accepted, and none once connected_ has dropped |
| `SessionTheorems.AtMostOneCloseAccepted` | src/session_manager.cpp:1234-1286 | over every run two accepted close requests belong to different handled OK events, and each carries the ids of its own |
| `SessionTheorems.ConnectTries` | src/session_manager.cpp:73-243 | from any point of the loop: the sweeps try members in range, none of them twice, and redirects are at most one per attempt |
| `SessionTheorems.ConnectBound` | src/session_manager.cpp:73-243 | whatever the cluster answers, connect makes at most max_retries + n member tries, sweeps only members in range, and none of them twice |
| `SessionTheorems.ConnectSucceedsByOk` | src/session_manager.cpp:860-902 | a connect that starts unconnected and succeeds handled an OK event during it, and its ids are the ones returned |
| `SessionTheorems.TriedIsSwept` | src/session_manager.cpp:73-243 | at every attempt a connect comes to, tried_members holds exactly the members it has swept |
| `SessionTheorems.RedirectRule` | src/session_manager.cpp:138-178 | with events only during tries: at every attempt a connect comes to with a redirect pending, that member is tried next if and only if it is in range and this connect has not swept it; otherwise nothing is tried any more and connect fails |
| `ConnectRuns.TryHeeds` | src/session_manager.cpp:1219-1232 | during a member try the pending redirect is exactly the leader of the last REDIRECT event that was reported, or what it was before |
| `ConnectRuns.RedirectIsTriedNext` | src/session_manager.cpp:222-241 | from the event on: a redirect to another unswept member in range, heard last in the sweep's failed try of m, ends the sweep there, and that member is the very next one tried, if an attempt is left |
| `ConnectRuns.RedirectsChain` | src/session_manager.cpp:138-170 | after a failed redirect try the next attempt starts with the redirect heard last, or with the same one again |
| `ConnectRuns.RedirectRun` | src/session_manager.cpp:73-243 | a whole run: member 0 redirects to r, r answers OK; connect tries 0 and r, no other, and returns the ids of the OK event with r as leader |
| `ConnectRuns.ResultNamesTheSession` | src/session_manager.cpp:190-200 | the result of a connect names session and term of the last OK event if it succeeded, else -1 everywhere |
| `ConnectRuns.SweepCovers` | src/session_manager.cpp:180-233 | an unsuccessful sweep that no redirect ended has tried every member |
| `ConnectRuns.OkOpens` | src/session_manager.cpp:793-902 | a member that answers OK gives that event's session, with the member as leader |
| `ConnectRuns.RedirectFails` | src/session_manager.cpp:860-902 | a member that redirects elsewhere fails at once with the redirect pending |
| `ConnectRuns.TryWithoutPublication` | src/session_manager.cpp:793-858 | a member that does not resolve, or whose publication does not come up, is offered nothing |
| `ConnectRuns.RequestOffers` | src/session_manager.cpp:904-932 | one try offers the connect request up to twenty times until one is accepted, and waits for a session if and only if one was |
| `ConnectRuns.AwaitExactly` | src/session_manager.cpp:866-900 | the session wait ends at the first look that finds the session open or a redirect elsewhere, and succeeds exactly in the first case |
| `ConnectRuns.EventNamesLeader` | src/session_manager.cpp:1219-1258 | OK and REDIRECT events name the leader, others leave it |
| `SendRuns.CheckExactly` | src/session_manager.cpp:334-342 | connected means connected_, publication, positive ids, and a publication that answers so |
| `SendRuns.RawExactly` | src/session_manager.cpp:401-454 | a raw frame is offered if and only if that check succeeds, with the full log of its offers |
| `SendRuns.CombinedExactly` | src/session_manager.cpp:1118-1217 | a message goes out behind the header buffer if and only if two checks in a row succeed |
| `SendRuns.PublishExactly` | src/session_manager.cpp:356-399 | a topic message is offered if and only if three checks succeed and its fields fit |
| `SendRuns.BackPressureExhausts` | src/session_manager.cpp:698-700 | under lasting back pressure a send makes exactly max(1, publish_max_retry_attempts) offers |
| `SendRuns.KeepAliveExactly` | src/session_manager.cpp:456-504 | a keepalive is offered, up to three times, if and only if the check succeeds, and is then counted once as sent or failed |
| `SendRuns.DisconnectExactly` | src/session_manager.cpp:245-332 | a close request is sent if and only if the session is live and one of the three checks before its sends succeeds; it is the live session's, the first and, if accepted, the only one; afterwards the session is down |
| `SendRuns.OfferWaitsExactly` | src/session_manager.cpp:702-723 | between any two offers of a send there is one wait, of the length its attempt has |
| `SendRuns.BackoffShape` | src/session_manager.cpp:702-723 | the waits grow linearly up to the cap, and are nothing exactly when neither base nor cap is set |
| `SendRuns.EventBooks` | src/session_manager.cpp:506-563 | over every run the event and redirect counters count the events that were reported |
| `CommitStore.CommitManager.CommitMessage` | src/commit_manager.cpp:29-35 | the new map |
| `CommitStore.CommitManager.GetLastCommit` | src/commit_manager.cpp:37-46 | the lookup under the joined key |
| `CommitStore.CommitManager.ClearCommits` | src/commit_manager.cpp:53-56 | erases the topic as if it were a key |
| `CommitStore.CommitManager.ClearAllCommits` | src/commit_manager.cpp:58-61 | empties the store |
| `CommitStore.StoreRefinesLedger` | src/commit_manager.cpp:29-61 | for colon-free topics the joined-key map answers as a map keyed by pairs after every sequence of commits and clears |
| `CommitStore.KeyCollision` | src/commit_manager.cpp:33-33 | two pairs share a key if and only if they are equal or one topic continues the other past a colon |
| `CommitStore.ColonBreaksTheStore` | src/commit_manager.cpp:29-46 | with a colon in a topic the refinement fails: one commit answers for another pair |
| `CommitStore.LastWriterWins` | src/commit_manager.cpp:29-46 | a lookup returns the last commit of its pair, over all commit sequences |
| `CommitStore.HoldsMaximum` | src/commit_manager.cpp:29-46 | the highest sequence number of a pair is held after every call if and only if its commits arrive in non-decreasing order |
| `CommitStore.EveryKeyHasAColon` | src/commit_manager.cpp:33-34 | over every sequence of calls |
| `CommitStore.ClearingATopicDoesNothing` | src/commit_manager.cpp:53-56 | clear_commits of a colon-free topic changes nothing, ever |
| `CommitFrames.FillLiteFrame` | src/commit_manager.cpp:116-126 | for a known topic no put raises E100, the cursor ends at the end of the allocated buffer, and the buffer is the frame: the uint16 casts lose nothing |
| `CommitFrames.BuildLiteFrame` | src/commit_manager.cpp:107-132 | E109 exactly for too long a field, else the frame |
| `CommitFrames.TopicIdsDiffer` | src/commit_manager.cpp:16-23 | no two known topics share an id |
| `CommitFrames.LiteFrameRoundTrip` | include/model/CommitOffsetLite.h:515-543 | the frame decodes to (topicId, sequence, message id, identifier) |
| `CommitFrames.BuildLegacyFrame` | src/commit_manager.cpp:134-175 | the fallback throws E100 exactly when the frame is longer than the buffer size less 8, because positions are counted from the start of the buffer |
| `CommitFrames.BuildCommitMessage` | src/commit_manager.cpp:63-105 | the same limit (528 bytes) for COMMIT requests |
| `CommitFrames.BuildCommitOffsetMessage` | src/commit_manager.cpp:107-175 | which of the two forms is built, and when it throws |
| `ClusterClients.ClusterClient.NotifyConnectionLoss` | src/cluster_client.cpp:1370-1402 | the whole new state: nothing while suppressed or already notified, else state, callback and schedule |
| `ClusterClients.ClusterClient.OnSessionCallback` | src/cluster_client.cpp:1319-1368 | both callbacks from the session manager |
| `ClusterClients.ClusterClient.RunCallbacks` | src/session_manager.cpp:659-673 | callbacks replayed in the order the session manager made them |
| `ClusterClients.ClusterClient.IsConnected` | src/cluster_client.cpp:238-258 | state, session and egress image checks |
| `ClusterClients.ClusterClient.Publish` | src/cluster_client.cpp:271-276 | throws on a driver error, when unconnected and when the publish fails |
| `ClusterClients.ClusterClient.SendCommitOffset` | src/cluster_client.cpp:661-697 | throws on a driver error, refuses when unconnected, else sends the built frame |
| `ClusterClients.ClusterClient.SendCommitRequest` | src/cluster_client.cpp:643-659 | like SendCommitOffset, with the COMMIT frame sent without a session header |
| `ClusterClients.ClusterClient.Commit` | src/cluster_client.cpp:626-633 | stored first, sent second |
| `ClusterClients.ClusterClient.SendSubscriptionRequest` | src/cluster_client.cpp:434-493 | the three tables change only after a successful send |
| `ClusterClients.ClusterClient.SendUnsubscriptionRequest` | src/cluster_client.cpp:581-624 | likewise |
| `ClusterClients.ClusterClient.UntrackSubscription` | src/cluster_client.cpp:1008-1018 | the erase loop removes exactly the matching records |
| `ClusterClients.ClusterClient.ResumeFromLastCommit` | src/cluster_client.cpp:699-714 | commit offset if there is one, else a LATEST subscription |
| `ClusterClients.ClusterClient.CollectSubscriptions` | src/cluster_client.cpp:913-940 | the tracked records, or the fallback records when nothing is tracked |
| `ClusterClients.ClusterClient.ResumeSubscribedTopics` | src/cluster_client.cpp:942-974 | the resume loop: a commit exception leaves it, a subscription exception does not |
| `ClusterClients.ClusterClient.Connect` | src/cluster_client.cpp:142-190 | connect with the order of its last lines as in the source |
| `ClusterClients.ClusterClient.FinishConnect` | src/cluster_client.cpp:170-183 | its last lines: flags, resume, driver error, CONNECTED |
| `ClusterClients.ClusterClient.Disconnect` | src/cluster_client.cpp:197-236 | suppressed close, then teardown only if CONNECTED |
| `ClusterClients.ClusterClient.HandleAeronError` | src/cluster_client.cpp:1096-1125 | latch, session disconnect, notification, in this order |
| `ClusterClients.ClusterClient.AutoReconnect` | src/cluster_client.cpp:1423-1465 | the reconnect thread computes Episode |
| `ClusterClients.ClusterClient.MarkMessageProcessed` | src/cluster_client.cpp:740-753 | over 1000 ids exactly 100 of them go, in an order the set decides |
| `ClusterClients.ClusterClient.HandleIncomingMessage` | src/cluster_client.cpp:1180-1317 | the handler computes Incoming, with a choice of topic and evictions the source can make |
| `ClientInvariant.ClientRunInv` | src/cluster_client.cpp:142-236 | in every reachable client state the session invariant holds, and CONNECTED implies that no loss is notified, no reconnect under way and no driver error pending |
| `ClientInvariant.ResumeBeforeConnected` | src/cluster_client.cpp:942-974 | resuming before CONNECTED changes nothing and offers nothing; it throws if and only if a driver error is pending and some record has a stored commit |
| `ClientInvariant.ConnectOutcome` | src/cluster_client.cpp:142-190 | connect with the resume loop resolved: every outcome and its whole state |
| `ClientInvariant.StepData` | src/cluster_client.cpp:1180-1317 | which steps touch dedup set, commit store and tables, and how |
| `ClientInvariant.QuietDisconnect` | src/cluster_client.cpp:197-236 | a suppressed disconnect reports nothing and schedules nothing, whatever the close offers answer |
| `ClientTheorems.ConnectReachesConnected` | src/cluster_client.cpp:142-190 | CONNECTED if and only if Aeron, egress and session come up and there is no pending driver error with a commit to resume; resume adds no offer |
| `ClientTheorems.LatchKept` | src/cluster_client.cpp:1096-1150 | every step keeps: driver error pending, not CONNECTED, some tracked subscription with a stored commit |
| `ClientTheorems.DriverErrorIsForever` | src/cluster_client.cpp:661-675 | once a driver error is pending while a tracked subscription has a stored commit, no later sequence of calls reaches CONNECTED |
| `ClientTheorems.LossNotifiedOnce` | src/cluster_client.cpp:1319-1413 | from the bytes of a CLOSED, ERROR or AUTHENTICATION_REJECTED event on a CONNECTED client: DISCONNECTED, exactly one error callback, and a reconnect scheduled if and only if auto-reconnect is on, for all three codes |
| `ClientTheorems.DriverErrorOutcome` | src/cluster_client.cpp:1102-1132 | one error callback and the latch; a reconnect is scheduled exactly when auto-reconnect is on and an offer of the close request is itself answered with a connection loss |
| `ClientTheorems.DisconnectCallsBack` | src/session_manager.cpp:659-696 | a session disconnect makes one state callback if an offer of its close request means connection loss, else none |
| `ClientTheorems.EpisodeBound` | src/cluster_client.cpp:1423-1465 | a reconnect episode makes at most 10 * (max_retries + n) member tries, and ends CONNECTED, switched off, or with its failure reported, always with the in-progress flag down |
| `ClientTheorems.ResumesTracked` | src/cluster_client.cpp:913-922 | resume goes through exactly the tracked records |
| `ClientTheorems.ResumesTopics` | src/cluster_client.cpp:923-940 | with nothing tracked it makes up exactly one LATEST record for each subscribed topic, under its identifier or the client id |
| `ClientSends.ConnectedExactly` | src/cluster_client.cpp:238-258 | when the client counts as connected, and that asking changes nothing but what was asked |
| `ClientSends.RequestExactly` | src/cluster_client.cpp:271-276 | when a request offers at all, the whole log of its offers, and what it ends with |
| `ClientSends.RequestOutcome` | src/cluster_client.cpp:336-400 | a request ends Done if and only if its last new offer was accepted, and that offer carries the very message it was given under the live ids; otherwise it throws |
| `ClientSends.SubscribeOutcome` | src/cluster_client.cpp:434-493 | the same for a subscription, and the tables change exactly then |
| `ClientSends.UnsubscribeOutcome` | src/cluster_client.cpp:581-624 | the same for its withdrawal |
| `ClientSends.OffsetExactly` | src/cluster_client.cpp:661-697 | when sending an offset offers, throws or is refused |
| `ClientSends.OffsetOutcome` | src/cluster_client.cpp:661-697 | it ends Done if and only if its last new offer was accepted, and that offer decodes to the offset it was given, under the live ids |
| `ClientSends.ResumeOutcome` | src/cluster_client.cpp:699-714 | resuming sends the commit stored for that topic and identifier, or subscribes from the latest message |
| `ClientSends.CommitRequestOutcome` | src/cluster_client.cpp:643-659 | a COMMIT request goes out without a session header and parses to a COMMIT for its topic and client |
| `ClientRuns.DisconnectOutcome` | src/cluster_client.cpp:197-236 | a disconnect takes a CONNECTED client to DISCONNECTED without egress and the session down, reports and schedules nothing and keeps all data |
| `ClientRuns.DisconnectCloses` | src/cluster_client.cpp:197-236 | and its close request goes out exactly when the session can send one |
| `ClientRuns.ConnectWhenConnected` | src/cluster_client.cpp:142-145 | a connect on a CONNECTED client does nothing and says yes |
| `ClientRuns.ConnectOpens` | src/cluster_client.cpp:142-190 | from an unconnected session, success means a session that was opened during the connect; failure leaves FAILED |
| `ClientRuns.ConnectAfterDisconnect` | src/cluster_client.cpp:142-236 | after a disconnect a connect really runs a session connect |
| `ClientRuns.ReconnectOpens` | src/cluster_client.cpp:1440-1457 | a successful turn of the reconnect thread opened a session in that turn |
| `ClientRuns.ReconnectDropsALiveSession` | src/cluster_client.cpp:1440-1457 | a turn on a client that is CONNECTED again closes its session and still reports success |
| `ClientRuns.EpisodeExactly` | src/cluster_client.cpp:1423-1465 | the thread makes its turns until the first that connects, and gives up only after all ten or when switched off |
| `ClientRuns.RequestLoses` | src/session_manager.cpp:659-696 | a request makes a CONNECTED client lose its connection, with one error and a reconnect as configured, if and only if an answer to its offers means so |
| `ClientRuns.PollingLossOutcome` | src/cluster_client.cpp:1370-1402 | the same for a loss found by the polling thread |
| `ClientRuns.LossIsReportedOnce` | src/cluster_client.cpp:1378-1382 | further losses change only the session |
| `ClientRuns.OkRearms` | src/cluster_client.cpp:1359-1364 | until an OK event makes the next one reportable |
| `ClientRuns.EventAlone` | src/cluster_client.cpp:1319-1357 | of the three events on their own only a rejection schedules no reconnect |
| `ClientRuns.EndedSession` | src/session_manager.cpp:1260-1286 | CLOSED forgets the session id, ERROR and AUTHENTICATION_REJECTED keep it |
| `ClientDelivery.DedupConserves` | src/cluster_client.cpp:735-753 | over every run and every eviction choice: first-time handlings of each id = its evictions + 1 if the set holds it now; never more than 1000 ids |
| `ClientDelivery.StepConserves` | src/cluster_client.cpp:740-753 | one step: evictions only from a full set, exactly 100 ids |
| `ClientDelivery.HandledAtMostOnce` | src/cluster_client.cpp:1204-1255 | in a run that evicts nothing no id is handled for the first time twice |
| `ClientDelivery.CommitsAreSafe` | src/cluster_client.cpp:1250-1290 | in every auto-commit run each stored offset is, in topic, identifier, id, timestamp and sequence, that of a message that arrived in the run, and the callback had returned normally for its id by then; so for each remembered id |
| `ClientDelivery.ThrowingCallback` | src/cluster_client.cpp:1223-1239 | a throwing callback leaves dedup set, commit store and tables as they were |
| `ClientDelivery.DuplicateIsRecommitted` | src/cluster_client.cpp:1204-1290 | a duplicate runs no callback; it is committed again if and only if auto-commit is on and it is not skipped |
| `ClientDelivery.SkippedIsNeverRemembered` | src/cluster_client.cpp:1250-1256 | over every run, an id whose messages auto-commit skips is never remembered, and the callback is called once for each of them |
| `ClientDelivery.WireToCallback` | src/cluster_client.cpp:1180-1317 | fragments to callback: a full frame, cut in any way, calls back if and only if it is no duplicate, and is committed exactly when it should be, under its topic and that topic's identifier with its own uuid, timestamp and sequence |
| `SkipRules.ThreeKinds` | src/cluster_client.cpp:844-886 | every message is exactly one of ordinary, the end of a replay, and internal |
| `SkipRules.SkipMeansInternal` | src/cluster_client.cpp:844-886 | auto-commit skips exactly the internal ones; the topic is the one the message names, else a subscribed one, else default |
| `SkipRules.OrdinaryIsCommitted` | src/cluster_client.cpp:1250-1290 | an ordinary message, or the end of a replay, whose callback returns: its id is remembered and, with auto-commit on, its offset stored under its topic |
| `SkipRules.OrdinaryFromTheWire` | src/cluster_client.cpp:1180-1317 | the same from the fragments on the wire |
| `SkipRules.InternalIsNotCommitted` | src/cluster_client.cpp:844-886 | each of the six types, ids with ack_, the internal topics except the end of a replay, and the empty payload: callback only, neither remembered nor committed |
| `SkipRules.ThrowingCommitIsReported` | src/cluster_client.cpp:1308-1315 | with a driver error pending the commit is stored, throws, and is reported once |
| `SkipRules.UnsentCommitIsKept` | src/cluster_client.cpp:626-633 | on a client that is not CONNECTED it is stored and nothing is offered or reported |
| `Subscriptions.RunConsistent` | src/cluster_client.cpp:977-1018 | over every run with '|'-free topics every subscribed topic has a tracked record, under the key made from it |
| `Subscriptions.IdentifiersMatchTopics` | src/cluster_client.cpp:476-489 | over every run, whatever the topics, subscribed_topics_ is the key set of subscription_message_identifiers_ |
| `Subscriptions.FallbackUnreachable` | src/cluster_client.cpp:923-940 | with '|'-free topics the fallback branch of resume never yields a record |
| `Subscriptions.TrackCovers` | src/cluster_client.cpp:988-1006 | a subscription leaves every topic covered if and only if it does not displace the only record of another subscribed topic |
| `Subscriptions.UntrackCovers` | src/cluster_client.cpp:1008-1018 | an unsubscribe uncovers no other topic, whatever the topics look like |
| `Subscriptions.SubscriptionIsKept` | src/cluster_client.cpp:471-490 | what a subscription leaves in each of the three tables |
| `Subscriptions.WithdrawnExactly` | src/cluster_client.cpp:1008-1018 | which records an unsubscribe drops, with and without an identifier |
| `Subscriptions.WithdrawalUndoes` | src/cluster_client.cpp:581-624 | subscribing to a new topic and withdrawing restores the tables if and only if the withdrawal names no identifier or the tracked one |
| `Subscriptions.SharedKeyTables` | src/cluster_client.cpp:977-1018 | two subscriptions under one key, the second withdrawn: nothing tracked, the first topic still subscribed |
| `Subscriptions.PipesShareKeys` | src/cluster_client.cpp:988-992 | such subscriptions exist, with a '|' in a topic |
| `Subscriptions.CommitFoundByResume` | src/cluster_client.cpp:994-1000 | resume finds the auto-committed offset of a subscription if an identifier was given; with an empty one its lookup is blind to it |
| `Liveness.PipeReachesFallback` | src/cluster_client.cpp:923-940 | with a '|' in a topic the fallback branch is reached on a run: connect, subscribe twice under one key, withdraw the second |
| `Liveness.ConnectMeetsMember` | src/session_manager.cpp:793-902 | a new session manager connects to a first member that answers OK, with the ids of that event |
| `Liveness.ClientConnects` | src/cluster_client.cpp:142-190 | and the client reaches CONNECTED with a session it can send on |
| `Liveness.SubscribeSucceeds` | src/cluster_client.cpp:434-493 | while offers are accepted, a subscription that can be encoded succeeds and is tracked, and the client stays CONNECTED |
| `Liveness.OneDriverErrorIsEnough` | src/cluster_client.cpp:1096-1150 | connect, subscribe, commit, one driver error: no further sequence of calls reaches CONNECTED, even with a cluster that accepts everything |
| `Polling.PollOnce` | src/cluster_client.cpp:1527-1624 | one iteration of the loop computes Iterate |
| `Polling.PollingWorker` | src/cluster_client.cpp:1515-1630 | the loop's log is the turns of the trace up to the first that ends it |
| `Polling.RememberedTimes` | src/cluster_client.cpp:1515-1545 | all four remembered times are what the trace says: last full check, last activity, last renewal, last warning |
| `Polling.StallExactly` | src/cluster_client.cpp:1572-1621 | a stall is declared if and only if the loop is out of grace, all checks pass and nothing was received for the configured (or 60 s) idle time, in terms of the trace |
| `Polling.EndsExactly` | src/cluster_client.cpp:1541-1570 | when the loop ends in any of the other ways, in terms of the trace |
| `Polling.WarnsExactly` | src/cluster_client.cpp:1579-1604 | when it warns of a stall, in terms of the trace |
| `Polling.StallMeansSilence` | src/cluster_client.cpp:1572-1621 | no reading within the idle span before a stall had messages |
| `Polling.LossOnlyOutOfGrace` | src/cluster_client.cpp:1541-1565 | no loss is notified within the grace period |
| `Polling.GraceIsRenewed` | src/cluster_client.cpp:1528-1540 | while CONNECTED with a live session and iterations under 15 s apart, grace is renewed every time: no stall, loss or warning, however long nothing arrives |
| `Polling.GraceNeverReturns` | src/cluster_client.cpp:1528-1540 | leaving the grace period is for good |
| `Polling.LossAfterGrace` | src/cluster_client.cpp:1541-1556 | once the session check keeps failing, the first iteration at least 15 s after the last renewal notifies the loss, and none before it ends the loop |
| `Polling.WarningsApart` | src/cluster_client.cpp:1579-1604 | two stall warnings are at least the warning timeout apart |

## Left out

- Aeron itself (publications, subscriptions, images, media driver): oracles, as above.
- JSON parsing and writing: functions of the text; the commit JSON is a parameter.
- Endpoint resolution, its regular expression and ports: an oracle that says whether a member resolves.
- Thread interleavings, memory order, locks and thread joins: handlers are atomic steps; `connect_async`, timeouts on futures and the destructor are not part of this model.
- Business messages that the polling thread handles while a connect is still waiting: only session events are handled inside a connect.
- The keepalive thread started by a successful connect: keepalives are steps of their own, at any time.
- A zero timestamp that encode_topic_message replaces by the clock: the timestamp is a parameter.
- polling_active_: the polling loop reads it from its trace; the client state does not hold it.
- Exceptions inside one iteration of the polling loop, and the wall-clock rate limit before an offer (src/session_manager.cpp:725-746).
- Flyweights.Flyweight.GetVar: reads of the source past the end of the buffer before its bounds check are not modelled; the result, an exception, is.
- Parser.ReadString: where extract_variable_string would read past the end of the buffer (its length check ignores the offset) the model fails; only the unreachable acknowledgment branch gets there.
- Connection statistics other than the message, keepalive, event and redirect counters.
- Order types, configuration, signal handling, logging, BufferPool and MessageBatchProcessor: input and output, or nothing hard to prove.
- include/model/Acknowledgment.h, OrderRequestLite.h and OrderNotificationLite.h: the same generated cursor pattern. src/ack_decoder.cpp is not in the build list and src/cluster_client_offer.cpp is a stub.
