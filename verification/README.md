# agentmsg: a verified model

This project models `agentmsg`, a daemon that lets agents exchange signed, optionally encrypted messages over an MQTT
broker, and proves what its protocol, its store and its codecs keep.

- **The agents.** `Steps` is the daemon as a step system: the broker's event loop and any number of request, pump and
  subscriber threads over one store, one atomic store statement, publish or map update at a time, a crash possible
  between any two. `Runs`, `Pairing`, `Ingest` and `Outbox` prove what every run of one agent keeps, whatever payloads
  arrive. `Network` lets any number of such agents run over a broker that loses, delays, reorders and duplicates (QoS 1,
  section 4.3.2 of MQTT 3.1.1); `Quiescence` bounds its receipts, `Receipts` follows a message to its reader and the
  receipt back, `Delivery` proves that it can always get there, and `Liveness` that no thread is ever stuck. `Daemon` is
  the same code in its own imperative form, a class over a store object; each handler is proved to be an uninterrupted
  run of the step system (`Paths`). `Sending` is what a send request is turned into.
- **The store.** `Store` is a class with the message table, cursors, outbox, seen grants and delivery states; `Bounds`
  is about eviction, `Migration` about the schema upgrade, `Drain` about readers and cursors, `Fanout` about live
  subscribers.
- **The codecs.** `Message`, `Grant`, `Trust` and `Wire` build and verify envelopes; `Token` and `Crc32` are identity
  tokens, `Ipc` is framing, `Base64` (section 5 of RFC 4648), `Utf8` and `Text` are what they stand on.

ML-DSA (FIPS 204), ML-KEM (FIPS 203), AES-GCM, SHA-256 digests, JSON and RFC 3339 time are a record of functions,
`Env.Env`; the proofs assume only `Env.Laws` of it: a fresh signature verifies, encapsulation and sealing can be undone,
sealing adds 16 bytes, and what was printed parses back. `Ideal` gives an instance for which the laws are proved. Clock
readings, random draws and unused row numbers are arguments; the clock is taken not to run backwards and message ids
(ULIDs) to be globally fresh.

Where the obvious statement is false, the exact one is proved and a witness given:

- a name may contain `|`, and then associated data need not separate envelopes: two senders have different envelopes
  with equal associated data exactly when the one name followed by `|` starts the other (`ConfusableIff`), and then
  every message of the longer-named one has such a double (`AadCollision`);
- the daemon re-verifies a grant with a second clock reading and skips its replay guard when that fails, so a spent
  grant is refused exactly if it has not expired at that reading (`SpentGrantRefusedIff`, `GrantsAreSpentOnce`,
  `SharedGrantHasExpired`, `SpentGrantIsStoredAgain`);
- following with ack can jump over messages: over every trace, all cursors stay covered exactly when no streamed row
  is acked while a stored row between cursor and it is unreturned (`FollowingCoversIff`, `FollowSkips`);
- a receive between the two halves of a push can misplace a message: over every interleaving, replay is exact exactly
  when no message is enqueued while drops are unannounced (`ExactIffNoneOutstanding`, `ReceiveBetweenHalvesSlips`);
- caps are met exactly when the rows awaiting a receipt alone meet them (`CountCapIff`, `ByteCapIff`);
- the receiver's size limit is tighter than the sender's for encrypted bodies (`SizeGate`).

The comment at `src/cli.rs:1517-1520` says that a frame truncated by a crashed daemon is told apart from a clean close;
`read_exact` reports both as the same end-of-file error, and `Ipc` follows the code. The comment at
`src/message.rs:395` speaks of the freshness window in seconds; truncation widens it by almost one second each way,
which `FreshIff` and `ReplayWindow` state.

## Model

| member | source | states |
|---|---|---|
| `Network.DeliveryStateIsTrue` | src/daemon.rs:180-312 | over every run of any number of agents, the message of a row shown as delivered has been stored by its addressee, with the envelope it was built with, and one shown as read lies at or below some cursor there |
| `Network.JustifiedRow` | src/store.rs:537-558 | what justifies a delivery state is about that very row, since no other agent built a message under its id |
| `Network.ReceiptsAreAboutMessages` | src/daemon.rs:1028-1054 | every receipt ever built refers to a built message that is no receipt |
| `Network.ReceiptRowsStaySent` | src/daemon.rs:250-262 | the log row of a receipt never passes `sent` |
| `Network.StepKeeps` | src/daemon.rs:180-312 | every step of any agent keeps the network invariant and loses no stored message, built message or cursor position |
| `Network.AckedIsStored` | src/daemon.rs:796-813 | a read receipt is only made for a row this agent stored, was addressed by, and has a cursor at or past |
| `Network.ArrivalOk` | src/message.rs:255-340 | what arrives over the broker is a message some agent built, and a receipt among them is justified |
| `Quiescence.ReceiptsDieOut` | src/daemon.rs:282-298 | once users stop and nothing is evicted, receipts built, direct messages unstored and receipts owed never exceed the direct messages unstored and receipts owed at the start |
| `Quiescence.MeasureFalls` | src/daemon.rs:282-298 | no step of any agent then raises that sum |
| `Quiescence.StoredIsUsedUp` | src/store.rs:220-249 | a message addressed here is awaited before it is stored and not after |
| `Quiescence.IdsStay` | src/store.rs:220-249 | without eviction no step takes a message id out of the table |
| `Receipts.MessageIsAccepted` | src/daemon.rs:180-282 | an ordinary message of a recognised sender is taken in by the reader it was built for, with its sender's text, kind and correlation, exactly if size, clock and grant allow it, and refused otherwise |
| `Receipts.AcceptedIsStored` | src/store.rs:220-249 | storing an accepted new message adds one inbound row that records it, and changes no other row |
| `Receipts.ReceiptGoesToSender` | src/daemon.rs:282-298 | a receipt is owed to the sender of a stored message, about that message, delivered by the loop and read by an ack |
| `Receipts.ReceiptArrives` | src/daemon.rs:1028-1054 | the receipt the daemon builds is judged by whoever recognises this daemon, clock allowing, to report exactly that status of exactly that message |
| `Receipts.ReceiptTakesEffect` | src/store.rs:537-558 | its arrival changes exactly the outbound rows it names: delivered, or read, and neither back from read nor out of failed |
| `Receipts.DirectMessageIsAcknowledged` | src/daemon.rs:282-298 | the whole way back: the sender's pending or sent row becomes delivered once the receipt the reader's loop builds reaches it |
| `Delivery.MessageGetsThrough` | src/daemon.rs:180-312 | from any state of the network in which two daemons are idle, a deliverable direct message can be sent, stored by its reader as it was meant, and reported back, so that the sender's row of it is delivered |
| `Delivery.PathsMakeANetRun` | src/daemon.rs:105-163 | such a path from the start of a network is one of the runs the network's safety theorems are about |
| `Delivery.Lift` | src/daemon.rs:105-163 | what one agent goes through by itself, taking in what others handed over, the network can go through |
| `Liveness.ThreadEnds` | src/daemon.rs:355-372 | from any state whatever, any thread left to itself comes to its end within the steps counted, touching no other |
| `Liveness.CanRest` | src/daemon.rs:105-163 | so from any state the daemon can come to rest without a crash |
| `Liveness.CrashAnytime` | src/daemon.rs:105-163 | a crash may strike in any state; it loses the pending pairings and the payload in flight and keeps database, trust file and what was handed over |
| `Liveness.TrustAnytime` | src/daemon.rs:180-200 | an edit of the trust file takes effect with the next payload, and changes nothing else |
| `Runs.RowsAreAuthentic` | src/message.rs:255-340 | every inbound row came from a delivered payload that, under the trust of that moment, was signed over its exact inner bytes by the sender's trusted key with a matching key id, or was unsigned with unsigned mode on and no usable key for the sender |
| `Runs.OneEndingEach` | src/daemon.rs:180-312 | the payloads delivered, in order, are those that ended, each in one way, and the one in the event loop; those that ended stored are the messages stored |
| `Runs.RejectionsAreRecorded` | src/daemon.rs:204-211 | each payload that ends rejected leaves one rejection record, and nothing else does |
| `Runs.EndingIff` | src/daemon.rs:180-262 | each way a delivered payload ends at once, with its exact cause in terms of the payload's sender, content type and verification; otherwise it goes on to the grant guard |
| `Runs.GrantsAreSpentOnce` | src/daemon.rs:264-282 | no two stored messages carry the same grant id verified at the daemon's check, and the sender is the grant's subject |
| `Runs.StoredGrant` | src/message.rs:383-391 | a stored message's grant verified for its sender, and the guard was skipped exactly if it expired before the second reading |
| `Runs.SharedGrantHasExpired` | src/daemon.rs:264-282 | of two stored messages accepted with one grant id, one's grant had expired at the second reading |
| `Runs.ReplayWindow` | src/message.rs:396-408 | the same payload is stored twice only if the first row was evicted within the two widened freshness windows |
| `Runs.NothingQueuedIsLost` | src/daemon.rs:355-372 | a queued id is in the outbox or was handed to the client with its own message; once out of the outbox its log row is at `sent` or later, or evicted |
| `Runs.Provenance` | src/daemon.rs:220-232 | every message held or stored was judged from a payload delivered in the run, with the trust and configuration of that step |
| `Ingest.StepKeeps` | src/daemon.rs:180-312 | every step keeps the ingest invariant: vouched candidates, table and history agree, replays follow evictions, grants are distinct |
| `Ingest.InsertInKeeps` | src/store.rs:220-249 | storing a current, guarded candidate keeps it: whatever shared its id was evicted before it was judged |
| `Ingest.DropKeeps` | src/store.rs:712-774 | eviction keeps it, recording each row it removes |
| `Ingest.SpendKeeps` | src/store.rs:696-705 | so does spending a grant id |
| `Outbox.StepKeeps` | src/daemon.rs:886-904 | every step of every thread keeps the hand-off invariant |
| `Outbox.UnqueueKeeps` | src/store.rs:523-534 | an id may leave the outbox once it was handed over and its log row advanced |
| `Outbox.EventAdvances` | src/store.rs:523-570 | delivery events never take a log row back below `sent` nor lose it |
| `Pairing.ConfirmTrustsWhatWasShown` | src/daemon.rs:763-793 | a confirm trusts the key whose code and fingerprint every list showed up to its lookup, and the key's holder signed the hello |
| `Pairing.PendingIsImmutable` | src/daemon.rs:191-216 | a pending entry changes only by a confirm that reaches its end or a restart |
| `Pairing.ConfirmStarted` | src/daemon.rs:763-771 | what a confirm is about to trust is the entry its lookup found |
| `Pairing.StepKeeps` | src/daemon.rs:191-216 | every pending entry stems from a received hello that verified, with the code computed from both keys |
| `Pairing.HelloBecomesPending` | src/daemon.rs:191-216 | a hello its sender built becomes pending under the sender's name with the sender's own keys and code, unless that name already waits, and no other entry changes |
| `Expiry.SpentGrantRefusedIff` | src/daemon.rs:264-282 | a new message under a spent grant is refused exactly if the grant has not expired at the second reading, and stored otherwise |
| `Expiry.SpentGrantIsStoredAgain` | src/daemon.rs:264-282 | for every configuration under which both letters are fresh, a run in which two messages are stored under one grant because it expires between the two checks |
| `Expiry.ExampleRun` | src/daemon.rs:264-282 | the same over the ideal instance with every value given, freshness and receipts on |
| `Expiry.LetterAccepted` | src/grant.rs:54-92 | a message judged at its grant's last moment is accepted, with the guard skipped exactly if the clock then moves on |
| `Daemon.Daemon.OnMessage` | src/daemon.rs:180-312 | the handler is one uninterrupted run of the event loop, from the delivery to an idle loop, and offers subscribers exactly the new inbound row that eviction spared |
| `Daemon.Daemon.OnPairHello` | src/daemon.rs:191-216 | a verified hello becomes pending unless its name already is; a bad one is recorded |
| `Daemon.Daemon.StoreMessage` | src/daemon.rs:264-304 | guard, insert, bounds and delivery receipt, in that order; the row offered is the new one if it survived |
| `Daemon.Daemon.GuardGrant` | src/daemon.rs:264-280 | a grant that verifies is spent or its message refused and recorded |
| `Daemon.Daemon.EnqueueReceipt` | src/daemon.rs:1028-1054 | one payload under a fresh id is queued last, for the addressee given, which whoever recognises this daemon judges to report exactly that status of that message; build, log and queue are a run that moves no cursor |
| `Daemon.Daemon.Send` | src/daemon.rs:815-910 | each refusal with its exact cause and nothing changed; on success the message under the reply's id honours the request (recipient, kind, correlation, grant, sealing), its payload is handed over or queued under the chosen topic, and log, queue, publish, mark is a run |
| `Daemon.Daemon.PairStart` | src/daemon.rs:696-742 | refused exactly for an unknown or missing topic; otherwise a hello is queued, and handed over if the client takes it, from which anyone learns this agent's name and keys |
| `Daemon.Daemon.EnqueuePresence` | src/daemon.rs:1057-1075 | queues one broadcast that carries exactly this beacon |
| `Sending.PreparedIff` | src/daemon.rs:815-870 | a send is refused for the first of topic, size, grant token and recipient key that is at fault, and only then |
| `Sending.PreparedHonours` | src/daemon.rs:849-885 | what gets built has the recipient, kind, correlation and grant asked for; with encryption, whoever holds the key trusted under the recipient's name opens it to the text and type given, and without it they are in clear |
| `Sending.PreparedSeals` | src/message.rs:84-138 | building fails exactly when a sealed message is for everyone or the key does not encapsulate |
| `Sending.PayloadCarries` | src/message.rs:140-166 | the payload unwraps to the message and authenticates under any trust that recognises the sender, or is marked unsigned if asked for |
| `Daemon.Daemon.PumpOnce` | src/daemon.rs:355-372 | exactly the accepted payloads of the snapshot are handed over, in order, as a run |
| `Daemon.Daemon.PublishOne` | src/daemon.rs:366-369 | a payload the client takes is marked and leaves the outbox, any other stays |
| `Daemon.Daemon.Ack` | src/daemon.rs:516-522 | the cursor moves, then the acknowledged row alone may be answered, as a run |
| `Daemon.Daemon.MaybeReadReceipt` | src/daemon.rs:796-813 | the row with the acknowledged number is answered if it is a direct inbound message, and no cursor moves |
| `Daemon.Daemon.PairConfirm` | src/daemon.rs:763-793 | confirms exactly a pending name, trusting its key before forgetting it |
| `Paths.HandlersMakeARun` | src/daemon.rs:105-163 | what a daemon goes through from its start is a run |
| `Paths.ReachesJoin` | src/daemon.rs:105-163 | the runs of handlers called one after the other join up |
| `Drain.NothingSkipped` | src/cli.rs:1463-1498 | with read-then-ack, every inbound row at or below a cursor was returned to that consumer or evicted first, even with several readers of one name |
| `Drain.CatchesUp` | src/cli.rs:1463-1498 | from any history, a reader with any limit but zero can read and ack until its cursor has passed every inbound row |
| `Drain.ReadAndAck` | src/store.rs:303-351 | with such a limit an empty batch means nothing is unread, and any other can be read and acked, moving only that cursor, forward to its last row |
| `Drain.ActIsEvent` | src/daemon.rs:105-163 | every act of the daemon does to table and cursors what its event of the readers' traces does, so the traces cover the daemon |
| `Store.BatchIsPrefix` | src/store.rs:321-337 | a batch ascends through the unread inbound rows without a gap, holds at most the limit, and holds all of them if it is shorter than the limit or the limit is negative |
| `Drain.ReadCovers` | src/store.rs:306-337 | a read from a covered cursor covers everything up to its last row |
| `Drain.FollowSkips` | src/daemon.rs:430-462 | a run in which following with ack loses a message |
| `Drain.FollowingCoversIff` | src/daemon.rs:430-462 | over every trace with any number of such acks, no cursor ever passes a row neither returned nor evicted if and only if each ack finds no stored, unreturned row between cursor and its own |
| `Drain.FollowAckIff` | src/daemon.rs:453-458 | one such ack, from covered cursors |
| `Fanout.Registry.PushToSubscribers` | src/daemon.rs:1004-1025 | one pass pushes to each subscriber and keeps those still there |
| `Fanout.PushAllKeeps` | src/daemon.rs:1004-1025 | a pass keeps exactly the subscribers it did not find hung up, each as its own push left it |
| `Fanout.PushAllInOrder` | src/daemon.rs:1004-1025 | while all are connected none is dropped and the order stays |
| `Fanout.PushOutcome` | src/daemon.rs:1009-1022 | a subscriber stays exactly if it is connected; the message is enqueued or counted as dropped |
| `Fanout.HangUpEnds` | src/daemon.rs:1009-1022 | a receiver may hang up at any time; the next push enqueues nothing and ends its feed |
| `Fanout.NothingUnaccounted` | src/daemon.rs:1004-1025 | offered messages are those enqueued plus announced drops plus drops outstanding, in every interleaving |
| `Fanout.ReplayIsExact` | src/daemon.rs:1009-1022 | without a receive between the halves, replaying the frames gives every message's exact position |
| `Fanout.ExactIffNoneOutstanding` | src/daemon.rs:1009-1022 | over every interleaving, every message is located exactly if and only if none was enqueued while drops were unannounced |
| `Fanout.OffByOutstanding` | src/daemon.rs:1009-1022 | a message that finds room is off by exactly the drops unannounced then |
| `Fanout.ReceiveBetweenHalvesSlips` | src/daemon.rs:1009-1016 | a run from a fresh subscription in which a position is off |
| `Fanout.PushIsTwoHalves` | src/daemon.rs:1004-1025 | the registry's pass performs exactly the two halves of the interleaved model |
| `Bounds.EnforcedIsPrefix` | src/store.rs:712-774 | eviction is one deletion of the oldest evictable rows and ends with each cap met or nothing evictable left |
| `Bounds.EvictionIsMinimal` | src/store.rs:712-774 | the count phase takes min(excess, evictable) rows, and with the last round of at most 64 restored the byte budget would be exceeded again |
| `Bounds.EvictionIsExact` | src/store.rs:712-774 | the excess over the message cap and the least number of rounds of 64 after which the byte budget is met or only rows awaiting a receipt are left |
| `Bounds.AwaitingIff` | src/store.rs:713-714 | the rows awaiting a receipt are the outbound ones in state pending or sent |
| `Bounds.EvictionTakesOldest` | src/store.rs:713-714 | pending and sent outbound rows survive, and what goes is older than any evictable row that stays |
| `Bounds.CountCapIff` | src/store.rs:712-774 | the message cap is met exactly when the rows awaiting a receipt alone meet it |
| `Bounds.ByteCapIff` | src/store.rs:721-774 | likewise the byte budget |
| `Store.Store.EnforceBounds` | src/store.rs:712-774 | the loop terminates with the specified rows and their number removed; pending and sent outbound rows survive, and only they are left where a cap is still exceeded |
| `Store.Store.InsertInbound` | src/store.rs:220-249 | a new id gets a row under an unused number that records every field of the message; a known id changes nothing |
| `Store.Store.InsertOutboundLog` | src/store.rs:253-277 | likewise for the outbound log |
| `Store.Store.ReadAfterCursor` | src/store.rs:321-337 | the unread inbound rows past the consumer's cursor, ascending and without a gap: at most the limit, all of them if fewer or if the limit is negative |
| `Store.Store.Ack` | src/store.rs:339-351 | only this consumer's cursor moves, never back below itself or zero |
| `Store.Store.Enqueue` | src/store.rs:490-499 | a queued id is not queued twice |
| `Store.RemoveInPlace` | src/store.rs:500-534 | what stays in the outbox keeps its order |
| `Store.Store.MarkDelivered` | src/store.rs:523-534 | the row advances and the entry goes |
| `Store.Store.ApplyReceipt` | src/store.rs:537-558 | only the state of the referenced outbound row may change |
| `Store.Store.SeenGrant` | src/store.rs:696-705 | reports whether the id was known and makes it known |
| `Store.Store.Beacon` | src/store.rs:642-666 | an older beacon never replaces a newer one |
| `Store.Store.RecordRejection` | src/store.rs:574-589 | appends one record |
| `Store.FinalStateIsMaximum` | src/store.rs:523-570 | the final delivery state is the highest of the start state and the states the events aim at |
| `Store.FinalStateOrderFree` | src/store.rs:523-570 | so it does not depend on the order or repetition of the events |
| `Store.TextLengthIff` | src/store.rs:721-735 | a body counts up to its first NUL character, or whole |
| `Store.BodyBytesAppend` | src/store.rs:721-735 | the byte total is a sum over the rows |
| `Migration.MigrationConverges` | src/store.rs:161-200 | from a fresh or version 1 database, any number of cut runs and one complete run give exactly the version 2 database, rows kept and defaults filled, and more runs change nothing |
| `Migration.StatementsFindTheirColumns` | src/store.rs:16-19 | after it every table has exactly the columns the store's statements name |
| `Migration.AttemptKeepsGoal` | src/store.rs:161-200 | a run cut after any statement leaves the same version 2 database to be reached |
| `Migration.V2IsWellFormed` | src/store.rs:807-881 | the created schema and the altered version 1 schema have the same columns |
| `Migration.Connection.Migrate` | src/store.rs:161-200 | the statement loop performs exactly the modelled attempt |
| `MessageProofs.BuildThenVerify` | src/message.rs:84-170 | for every option set, a recognised sender's message is accepted exactly when size, clock and grant allow it, and arrives as meant |
| `MessageProofs.AuthenticateIff` | src/message.rs:271-338 | authentication succeeds exactly on the two grounds |
| `MessageProofs.RefusedIff` | src/message.rs:271-338 | each reason authentication gives, with its exact cause |
| `MessageProofs.UnauthenticRejected` | src/message.rs:255-340 | such a message is rejected for that reason, and what does not parse names no sender |
| `MessageProofs.RejectedIff` | src/message.rs:344-393 | why an authentic message is rejected: size, age, recipient key, decryption, grant subject or grant, the first that applies, each with its exact cause |
| `MessageProofs.AcceptedIff` | src/message.rs:255-393 | a payload is accepted exactly if it is authentic, within the size limit, fresh, opens for this reader if sealed, and any grant it carries was signed for its sender by a trusted authority and is in force; refusals name the claimed sender |
| `MessageProofs.AcceptedIsAuthentic` | src/message.rs:255-340 | an accepted payload is authentic and fresh, and its grant was signed by a trusted authority, is in force and names its sender |
| `MessageProofs.VerifyKeepsEnvelope` | src/message.rs:344-393 | verification changes nothing but body and content type |
| `MessageProofs.DecryptOfSealed` | src/message.rs:118-138 | opening what was sealed gives back body and content type |
| `MessageProofs.AadInjective` | src/message.rs:168-170 | associated data is equal exactly when id, sender, recipient and time are, if three of them are free of the separator |
| `MessageProofs.ConfusableIff` | src/message.rs:168-170 | two senders have different envelopes with equal associated data if and only if one name followed by the separator starts the other |
| `MessageProofs.AadCollision` | src/message.rs:168-170 | then every message of the longer-named sender has such a double, with a valid recipient if names and recipient are valid |
| `MessageProofs.SizeGate` | src/message.rs:353-355 | an encrypted body of n bytes passes the receiver's limit L exactly when n is at most floor(3L/4) - 16 |
| `MessageProofs.PacketFits` | src/mqtt.rs:47-52 | a sealed message that passed the sender's limit fits the packet cap, given the stated room |
| `MessageProofs.PacketCapIs` | src/mqtt.rs:47-52 | the packet cap in figures |
| `MessageProofs.HelloIsSelfSigned` | src/message.rs:199-245 | a hello is accepted exactly if its bytes are signed by the key it advertises, its key id commits to that key, and both name its sender |
| `MessageProofs.PairRefusedIff` | src/message.rs:199-245 | a hello is refused as not self-signed exactly for its algorithm, its signature or its key id, and as malformed otherwise |
| `MessageProofs.HelloRoundTrip` | src/message.rs:180-192 | a built hello verifies to the builder's name and keys |
| `Message.Build` | src/message.rs:84-166 | the message as transmitted and its wrapper, or the reason there is none |
| `Message.Finalize` | src/message.rs:344-393 | the in-place pipeline computes the specified decision |
| `Message.FreshIff` | src/message.rs:396-408 | accepted exactly when the clock is off by strictly less than the freshness window plus one second |
| `Grant.MintVerifies` | src/grant.rs:40-84 | a minted grant of a trusted authority verifies to its claims exactly until expiry |
| `Grant.VerifyAtOtherTime` | src/grant.rs:54-92 | the clock decides only between acceptance and expiry |
| `Grant.VerifyIff` | src/grant.rs:54-92 | a grant is accepted exactly if its key id names a trusted authority by name and fingerprint, that key has signed the transmitted claim bytes, they parse to these claims, and the expiry is a time not past |
| `Grant.RefusalIff` | src/grant.rs:54-92 | an unknown authority and an expired grant are reported exactly when they are at fault |
| `Grant.DecodeTokenIff` | src/grant.rs:101-108 | a token decodes exactly if, trimmed, it is the prefix and the base64 form of a printed grant |
| `Grant.TokenRoundTrip` | src/grant.rs:95-108 | a grant token decodes through surrounding white space |
| `Trust.AddedKeys` | src/trust.rs:95-131 | after an add exactly that name resolves differently, to the keys given |
| `Trust.TrustStore.AddKeys` | src/trust.rs:95-104 | the map update in place |
| `Trust.TrustStore.Remove` | src/trust.rs:106-109 | removes both keys of that name only and reports whether it was there |
| `Trust.TrustStore.AddAuthority` | src/trust.rs:152-170 | makes that authority resolve, touching no other |
| `Wire.KidRoundTrip` | src/wire.rs:180-187 | a key id splits back exactly when the name is free of `#` |
| `Wire.ValidNamesSplit` | src/wire.rs:196-207 | a valid name is not empty, holds no space or control character, and its key ids split back to it |
| `Wire.PlainNamesAreValid` | src/wire.rs:196-207 | printable ASCII without `#` is a valid name |
| `Base64.DecodeIff` | src/wire.rs:210-220 | decoding accepts exactly the encodings and inverts them |
| `Utf8.DecodeIff` | src/message.rs:376-381 | UTF-8 decoding accepts exactly the encodings and inverts them |
| `Utf8.ShortestForm` | src/message.rs:353-355 | lengths count each character in the one to four bytes of section 3 of RFC 3629 |
| `Token.RoundTrip` | src/token.rs:75-153 | decoding inverts encoding through white space, for exactly the tokens with a name and a key of the right length |
| `Token.RoundTripV1` | src/token.rs:104-118 | a first-version token decodes, through white space, exactly if it has a name and a key of 1952 bytes |
| `Token.DecodeIff` | src/token.rs:91-153 | a text decodes to a token exactly if, trimmed, it is a version 2 token whose checksum holds or a version 1 token, naming that identity, with a key of 1952 bytes |
| `Token.InvalidIff` | src/token.rs:91-153 | a text is reported invalid, not corrupt, exactly for a missing prefix or for what an intact body holds |
| `Token.OneByteIsRejected` | src/token.rs:120-135 | any one byte of the encoded body changed is rejected as corrupt |
| `Token.RelabelledIsRejected` | src/token.rs:91-107 | a version 2 token relabelled as version 1 is rejected |
| `Crc32.OneByteChangesHash` | src/token.rs:83-84 | inputs that differ in exactly one byte have different checksums |
| `Crc32.HashIsRfc1952` | src/token.rs:83-84 | the checksum is the table-driven one of section 8 of RFC 1952 |
| `Crc32.UpdateInjective` | src/token.rs:83-84 | the register before a given input is determined by the register after it |
| `Crc32.BeBytesInjective` | src/token.rs:84-135 | comparing the four bytes compares the checksums |
| `Crc32.BeBytesExample` | src/token.rs:84-135 | the bytes come highest first |
| `Ipc.ReadBackIff` | src/ipc.rs:230-257 | written frames read back the same exactly when all are at most 16 MiB |
| `Ipc.CutYieldsWholeFrames` | src/ipc.rs:244-257 | a stream cut anywhere yields the frames complete before the cut and then an end-of-file error |
| `Ipc.WholeIff` | src/ipc.rs:244-257 | what counts as complete before a cut: exactly the frames that end within it |
| `Ipc.Writer.WriteFrame` | src/ipc.rs:230-236 | appends length and data |
| `Ipc.Reader.ReadFrame` | src/ipc.rs:244-257 | consumes one frame, or fails as the stream ends or the length is too large |
| `Ideal.InstanceIsLawful` | src/kem.rs:103-139 | the laws assumed of the library code can be met |

## Left out

- `src/cli.rs` apart from the read-then-ack order, `src/paths.rs`, `src/config.rs`, service files: argument parsing, printing, files and processes; configuration and trust are inputs of each step.
- The rumqttc event loop, TLS, reconnect and backoff of `src/mqtt.rs`: library I/O. A publish either is taken by the client or is not.
- SQLite errors and power loss: each statement is atomic and durable, and the calls whose errors the daemon ignores succeed.
- The values of `broker_ack_ts`, `delivered_ts`, `read_ts`, `updated_at` and `at`: written from clock readings, read by nothing modelled.
- ML-DSA, ML-KEM, AES-GCM, digests, JSON and time formats inside: functions with laws; unforgeability is not among them, so "signed" means that the signature verifies.
- `browse`, `transcript`, `rejections`, `consumers`, `list_presence`, `status` and `reply`: one-step queries and a special case of send.
- Single-instance binding and request parsing of `src/daemon.rs`: no state of the protocol depends on them.
- Pushes to subscribers inside the step system: `Daemon.Daemon.OnMessage` returns the row it offers, `Fanout` treats what happens to it.
- The heartbeat's timing and the `presence` request around `Daemon.Daemon.EnqueuePresence`; QoS and the retain flag, always 1 and false, are not kept.
- Daemon.Daemon.OnMessage: one handler at a time, so interleaving is the step system's and not the class's.
- Delivery.MessageGetsThrough: that the message can get through, not that it will, since scheduler and broker may stall for ever.
- MessageProofs.PacketFits: takes the room for the other inner fields and the wrapper as a premise, since JSON lengths are abstract.
- Token.OneByteIsRejected: the changed character is ASCII, as any single byte of a valid UTF-8 text must be.
