# Verified model of the Technocore safe agent

The safe agent answers signed commands in a shared chat room. It promises that a
command is answered at most once although the process may crash anywhere and a
server's acknowledgement may be lost; that a principal is served at most so often
an hour; that its audit log cannot be edited unnoticed; and that what it signs is
never more than it observed. This project models the parts that carry those
promises and proves them. `dafny verify dfyconfig.toml` checks everything.

## How it is built

- `DeliveryProtocol` is the whole system as a step machine: the state file, the
  delivery journal and the audit log on disk; one process, either the live
  responder or the recovery command, with its memory and program counter; the
  rooms on the server; the requests under way on the network; the other room
  users. Every durable write is one step, so a crash can fall between any two.
  `Safety`, `Provenance`, `AuditSafety` and `QuotaSafety` hold inductive invariants
  of that machine and the theorems about every reachable state.
- `State`, `Quota`, `Capabilities`, `Policy`, `Delivery`, `Recovery`, `Audit` and
  `Protocol` follow the source files one by one: classes with the mutable objects'
  fields, methods proved against functions, and lemmas about those functions.
- `Deployment`, `Responder` and `RecoveryCommand` are the live responder and the
  recovery command as imperative code over those objects. Each operation carries
  the machine's state along as a ghost and is proved to move it only by steps of
  the machine (`Reaches`), in every outcome, including writes that fail with or
  without having taken effect. `Deployment.StaysReachable` then gives the code
  every theorem proved of reachable states, and `Operation.Operate` puts it all
  together: a deployment from its first day through any number of processes.
- `Numerals`, `Base58`, `DidKey`, `Messages` are the identity codec, the swept text
  and the signed form; `PullRequest`, `Receipt`, `WorkReceipt` the receipts.

## Assumptions

- Ed25519 and SHA-256 are ideal: a signature that verifies was made by its signer
  over its message, a digest has at most one preimage. They are symbolic
  constructors, not injective functions into short texts, which do not exist. The
  audit chain needs no such assumption: its hash is arbitrary and the theorem
  exhibits a collision where records differ.
- The server numbers the records of a room 1, 2, 3, … and drops none. A read
  returns the newest records after a sequence number; an empty read echoes that
  number (tests/interop/checks.py:206). Both of two further assumptions are
  covered: either the server refuses a second record with the same sender and
  nonce (tests/interop/checks.py:105-108), with any number of requests under way
  for any time; or it does not, but no request is still under way when recovery
  reads the room.
- Journal, state file and audit line are each written atomically and durably, and
  a write that reports an error may have happened. The process lock keeps the live
  responder and the recovery command apart, and nobody else signs with the key or
  writes the files.
- At the start the saved nonce marks are at least every nonce the identity has
  used and those nonces are distinct within a room; the history of envelopes begins there.
- The capability file is read anew for every decision and may change between any
  two, and so may the mode from one process to the next. Where a theorem names a
  limit, it is a bound on the limits in force when the principal's reservations were
  made. Times are those of the reservations; the work itself comes later.

## Where the code and its documents or expectations disagree

- docs/capability-policy.md:71-73 says that changing the clock cannot restore
  capacity early. As it stands that is false even of one principal: setting the
  clock forward by an hour empties its window (`Quota.ForwardJumpRestores`).
  `Quota.ClockChangeRestoresIff` says exactly when a change of the clock alone gives
  capacity back: when it moves past the hour of an entry, so never when it is set
  back. What the store can be held to is that its answers are those of a log that
  never forgets, read with the same clock. With one principal they are, under every
  clock; with several they are not: `Quota.CapacityRestoredByClockJump` is a forward
  jump, another principal's reservation and a rollback after which a used-up request
  is granted again and the log would deny it. `Quota.AgreementKeptIff` and
  `Quota.OtherReservationKeepsCountIff` give the exact condition, which can be checked
  before the reservation: it must cut no entry within an hour of the newest one of
  any other principal.
- An inspection can end in a CI state that no receipt can state: a failed combined
  state with no record at all. `Receipt.ReceiptIssuedIff` is the exact condition,
  `Receipt.FailureWithoutRecords` the input.

## Model

| member | source | states |
|---|---|---|
| Numerals.DecimalRoundTrip | src/technocore_safe_agent/crypto.py:112-116 | the decimal text of a nonce reads back as that nonce, so equal texts are equal nonces |
| Base58.AlphabetInOrder | src/technocore_safe_agent/crypto.py:17-17 | the digit symbols are the 58 characters of the alphabet in order, and only those have an index |
| Base58.Encode | src/technocore_safe_agent/crypto.py:33-40 | the encoding loop yields one `1` for each leading zero byte and then the shortest base-58 numeral of the big-endian value |
| Base58.Decode | src/technocore_safe_agent/crypto.py:43-57 | the decoding loop yields the leading zero bytes and then the shortest byte string of the value, and refuses empty text and foreign characters |
| Base58.DecodeEncode | src/technocore_safe_agent/crypto.py:33-57 | decoding an encoded non-empty byte string gives it back, leading zeros included |
| Base58.EncodeDecode | src/technocore_safe_agent/crypto.py:33-57 | encoding a decoded non-empty text over the alphabet gives it back |
| Base58.ByteLength | src/technocore_safe_agent/crypto.py:53-57 | the bit-length formula of the decoder is the length of the shortest byte string of the number |
| DidKey.PatternBounds | src/technocore_safe_agent/crypto.py:17-20 | 18023·58^44 ≤ 0xed01·256^32 and 0xed02·256^32 ≤ 18024·58^44, the bound hidden in the DID pattern |
| DidKey.EveryKeyHasDid | src/technocore_safe_agent/crypto.py:74-92 | every 32-byte key has a DID of the accepted form, so the check on a derived DID never fires, and that DID names the key |
| DidKey.AcceptedDidIsCanonical | src/technocore_safe_agent/crypto.py:85-92 | a DID from which a key is read is the DID of that key |
| DidKey.AcceptedDidsDistinguishKeys | src/technocore_safe_agent/crypto.py:85-103 | different accepted DIDs name different keys |
| Messages.NonceFits | src/technocore_safe_agent/crypto.py:21-21 | the numeric limit of the state file is exactly the 19-digit limit of the nonce pattern |
| Messages.SweepIsIdempotent | src/technocore_safe_agent/crypto.py:119-130 | swept text is a fixed point of the sweep |
| Messages.CanonicalIsInjective | src/technocore_safe_agent/crypto.py:157-167 | the signed bytes determine room, nonce and text |
| Protocol.SortedWithoutDuplicates | src/technocore_safe_agent/protocol.py:208-215 | for a sorted sequence, as many distinct members as positions means strictly increasing |
| Protocol.SnapshotIsWellFormed | src/technocore_safe_agent/protocol.py:168-222 | every accepted response is for the asked room, strictly increasing, inside its advertised range, with positive sequences and protocol nonces |
| State.AgentState.AdvanceCursor | src/technocore_safe_agent/state.py:58-62 | the cursor moves to the sequence exactly if that is not behind it, and nothing else changes |
| State.AgentState.ObserveGeneration | src/technocore_safe_agent/state.py:64-73 | a generation is taken unless it is negative or falls, and reported as changed exactly if a known one rose |
| State.AgentState.NextNonceFor | src/technocore_safe_agent/state.py:75-81 | the nonce is the clock or one above the mark, whichever is larger, becomes the mark, and is refused exactly beyond 19 digits or for a negative clock |
| State.AgentState.ObserveNonce | src/technocore_safe_agent/state.py:83-87 | the mark rises to a recorded nonce and never falls |
| State.AgentState.CapabilityRequestCount | src/technocore_safe_agent/state.py:89-95 | the counting loop is the length of the history within an hour of the later of clock and newest entry |
| State.AgentState.ReserveCapabilityRequest | src/technocore_safe_agent/state.py:97-109 | the reservations become those of the reservation function and nothing else changes |
| State.AgentState.PruneCapabilityRequests | src/technocore_safe_agent/state.py:111-118 | the loop over principals keeps exactly the live entries of each and drops principals without any |
| State.LoadAfterSave | src/technocore_safe_agent/state.py:27-53 | loading what was saved gives the state back exactly if the state is loadable, and an error otherwise |
| Quota.PruningRefinesHistory | src/technocore_safe_agent/state.py:89-118 | every allow or deny of the pruned store is that of a log that never forgets: for one principal under any clock, for many under a clock that does not fall |
| Quota.AttemptKeepsAgreement | src/technocore_safe_agent/state.py:89-118 | one attempt under a clock that has not fallen gets the log's answer and keeps store and log in agreement |
| Quota.AgreementKeptIff | src/technocore_safe_agent/state.py:97-118 | a store that answers like the log under every clock still does after a reservation exactly if that cuts no recent entry of another principal |
| Quota.GuardedRunRefinesHistory | src/technocore_safe_agent/state.py:89-118 | many principals under any clock get the log's answers as long as each reservation passes that check |
| Quota.OtherReservationKeepsCountIff | docs/capability-policy.md:71-73 | another principal's reservation leaves a principal's count unchanged at every clock exactly if it cuts none of its recent entries |
| Quota.CapacityRestoredByClockJump | docs/capability-policy.md:71-73 | for any two different principals, a forward jump, a reservation of the second and a rollback grant the first a used-up request again, which the full log would deny |
| Quota.ForwardJumpRestores | docs/capability-policy.md:71-73 | for any principal, setting the clock forward grants a used-up request again, by the full log too |
| Quota.ClockChangeRestoresIff | docs/capability-policy.md:71-73 | a change of the clock alone lowers a principal's count exactly if it moves past the hour of one of its entries, and setting it back never does |
| Quota.HourlyBound | src/technocore_safe_agent/capabilities.py:106-131 | every half-open hour holds at most the limit of the reservations granted to a principal: for one principal under any clock, for many under a clock that does not fall, and for many under any clock as long as no reservation cuts into another's hour |
| Quota.SpacedBoundsWindow | src/technocore_safe_agent/state.py:89-95 | if every entry is an hour after the one `limit` places before it, no hour holds more than `limit` |
| Quota.AllowedKeepsSpacing | src/technocore_safe_agent/capabilities.py:116-131 | a reservation the limiter allows keeps that spacing |
| Quota.ReservationLoadableIff | src/technocore_safe_agent/state.py:188-208 | an allowed reservation leaves histories the loader accepts exactly if its principal has live entries or one more principal fits, and at most `limit` entries |
| Quota.RunStaysLoadableIff | src/technocore_safe_agent/state.py:188-208 | a run of the limiter from a loadable state passes only through loadable states exactly as long as the principals fit |
| PullRequest.ParsesExactlyPrintedForms | src/technocore_safe_agent/receipt.py:218-255 | split parts are accepted as a reference exactly if the reference is valid and they are its printed form |
| Capabilities.AllowsExactlyOwnScopes | src/technocore_safe_agent/capabilities.py:41-50 | a valid reference is in scope exactly if its own name or its own owner's wildcard is listed, case aside |
| Capabilities.StatePath.Save | src/technocore_safe_agent/state.py:120-162 | a save replaces the whole file with the state, or reports an error |
| Capabilities.CapabilityRateLimiter.Allow | src/technocore_safe_agent/capabilities.py:106-131 | the answer is the count against the limit; an allowed live request is in the state file before the answer is given, a denied one changes nothing, and an error leaves the file old or with that one reservation |
| Policy.CommandPolicy.Decide | src/technocore_safe_agent/policy.py:55-110 | the decision is the verdict on the message resolved by the capacity there is, capacity is asked for only by a verdict that needs it, and a reserved request is on disk when the decision is returned |
| Policy.MeteredExactlyWhenEntitled | src/technocore_safe_agent/policy.py:61-103 | capacity is asked for exactly for a signed third party with an enabled grant for the command and, for /pr, a canonical pull request in its scopes; everything else is ignored |
| Policy.ReasonsTellCauses | docs/capability-policy.md:53-61 | each documented reason is given exactly for its documented cause, the rate limit exactly for an entitled request without capacity |
| Delivery.SignedIsCreatable | src/technocore_safe_agent/delivery.py:58-81 | whatever the signer returns for a positive input is accepted as a delivery record |
| Delivery.RecordRoundTrip | src/technocore_safe_agent/delivery.py:83-161 | a record survives writing and reading exactly if it is well formed |
| Delivery.PayloadRoundTrip | src/technocore_safe_agent/delivery.py:83-161 | an accepted payload is the rendering of the record it is read as |
| Delivery.ReachableRecordsAreWellFormed | src/technocore_safe_agent/delivery.py:58-179 | creating and acknowledging yield well-formed records, and acknowledging again with the same reply changes nothing |
| Delivery.DeliveryJournal.Prepare | src/technocore_safe_agent/delivery.py:217-222 | a journal is prepared only from empty and then holds exactly the record; an error leaves it empty or so prepared |
| Delivery.DeliveryJournal.Acknowledge | src/technocore_safe_agent/delivery.py:224-230 | the stored record becomes its acknowledgement; an error leaves it as it was or so acknowledged |
| Delivery.DeliveryJournal.Clear | src/technocore_safe_agent/delivery.py:232-241 | the journal is gone, or an error leaves it unchanged |
| Recovery.CompleteIffFull | src/technocore_safe_agent/delivery_recovery.py:257-264 | for every well-formed snapshot, complete means starting right after the input with as many records as sequence numbers |
| Recovery.CompleteIffWholeSuffix | src/technocore_safe_agent/delivery_recovery.py:257-264 | against the room, complete means that the read is the whole suffix after the input, that is at most 200 records |
| Recovery.InspectionIsExact | src/technocore_safe_agent/delivery_recovery.py:128-185 | a complete inspection reports the true number of copies in the room, names the one there is, and offers a retry only if there is none |
| Recovery.RecoveryConverges | src/technocore_safe_agent/delivery_recovery.py:204-226 | recovery stopped after any of its writes, any number of times, with a room and an answered retry of its own each time, and then completed leaves the files of the uninterrupted first run: no journal, cursor and nonce mark at least the input and its nonce; the reply settled on never changes |
| Recovery.AcknowledgedIgnoresRoom | src/technocore_safe_agent/delivery_recovery.py:79-113 | from an acknowledged journal, any invocations with any other rooms and answers leave the same files at every point |
| Recovery.GrowingRoomsAgree | src/technocore_safe_agent/delivery_recovery.py:128-185 | the invocations on one delivery settle on one reply whenever they read the growing room, as long as it holds at most one copy, which every reachable room does |
| Recovery.FinalizeRecovery | src/technocore_safe_agent/delivery_recovery.py:204-226 | in every outcome the two files are those after some number of the three writes, all three on success |
| Recovery.PersistRecoveredState | src/technocore_safe_agent/delivery_recovery.py:245-254 | the saved state has nonce mark and cursor raised to the record's and is otherwise unchanged |
| Audit.Verify | src/technocore_safe_agent/audit.py:183-226 | the loop accepts exactly the logs in which every entry is valid, numbered, chained, of one issuer, with matching digest and signature, and returns their length, issuer and head |
| Audit.PrefixesAreVerified | src/technocore_safe_agent/audit.py:183-226 | every prefix of a verified log is verified |
| Audit.ExtendedLogIsVerified | src/technocore_safe_agent/audit.py:101-138 | an entry that verifies against the head extends the log, whose head it becomes |
| Audit.HeadDeterminesLog | src/technocore_safe_agent/audit.py:202-226 | two verified logs with one head are equal record by record, or exhibit a collision or a record hashing to the genesis value, for any hash |
| Audit.SignedAuditLog.Append | src/technocore_safe_agent/audit.py:76-138 | success makes a verified log one entry longer with the given fields and the returned head; an error leaves the log as it was or so extended |
| DeliveryProtocol.EnvelopeIs | src/technocore_safe_agent/agent.py:255-275 | the envelope that is journalled is sound for its room and carries the input, the nonce and the swept text |
| Safety.StepKeeps | src/technocore_safe_agent/agent.py:180-297 | every step of the responder, the recovery command, the network and other users keeps the invariant, crashes included |
| Safety.AtMostOneReply | src/technocore_safe_agent/agent.py:207-297 | in every reachable state a room holds at most one agent-signed reply to an input, after any crashes, lost acknowledgements, recoveries and exact retries |
| Provenance.EveryRecordIsAccounted | src/technocore_safe_agent/agent.py:255-297 | in every run each record of a room the identity signed was there at the start or answers an input with a journalled envelope |
| Provenance.RecordsAnswerDifferentInputs | src/technocore_safe_agent/agent.py:207-297 | any two records the identity signed in a room since the start answer different inputs |
| Safety.EvidenceOnDisk | src/technocore_safe_agent/agent.py:255-297 | an envelope whose input is above the saved cursor is the one in the journal; with an empty journal every envelope lies behind the saved cursor and nonce mark |
| Safety.NoncesBehindMark | src/technocore_safe_agent/state.py:75-87 | with an empty journal every nonce of the identity in a room is at most the saved mark |
| Safety.NoncesStayFresh | src/technocore_safe_agent/agent.py:255-275 | journalled nonces of a room strictly increase over the whole run for arbitrary clock readings, and have at most 19 digits |
| Safety.PreparedNonceIsNew | src/technocore_safe_agent/agent.py:258-275 | a newly journalled nonce is on no agent-signed record of its room |
| Safety.AcknowledgedIsNeverPosted | src/technocore_safe_agent/delivery_recovery.py:79-113 | whenever a request can be sent, live or in recovery, the journal is pending |
| Safety.SeenIsExact | src/technocore_safe_agent/delivery_recovery.py:128-185 | recovery of a pending journal never sees duplicates, what it finds is the reply, and when it finds none there is none |
| AuditSafety.AuditedRepliesAreReal | src/technocore_safe_agent/agent.py:180-246 | over every crashing run an input has at most one audited reply, and each names a record of the room that is a prepared answer to it |
| AuditSafety.StepKeepsAudit | src/technocore_safe_agent/agent.py:180-246 | every step keeps that relation between log, journal, cursor and rooms |
| QuotaSafety.ReplyHasOwnReservation | src/technocore_safe_agent/policy.py:79-103 | whenever a metered process prepares a reply, the sender's latest reservation was made in this run, the state file is what that reservation left, under any clock, and no other reply is on it |
| QuotaSafety.LookUpHasOwnReservation | src/technocore_safe_agent/policy.py:79-103 | whenever a metered process makes a lookup, the sender's latest reservation was made in this run, the state file is what that reservation left, under any clock, and no other lookup is on it |
| QuotaSafety.HourlyWorkBound | src/technocore_safe_agent/capabilities.py:106-131 | over every run, crashes, restarts and edits of the capability file included, while the clock does not fall any hour holds at most the highest limit granted under of the reservations behind a principal's replies, and likewise behind its lookups |
| QuotaSafety.StepKeepsQuota | src/technocore_safe_agent/state.py:89-118 | every step keeps saved store and full log in agreement while the clock does not fall, the log spaced, and each piece of work on a reservation of its own |
| Deployment.StaysReachable | src/technocore_safe_agent/agent.py:207-297 | what an operation of the code reaches from a reachable deployment is reachable, so all theorems hold after it |
| Deployment.Server.Elapse | src/technocore_safe_agent/protocol.py:280-328 | requests under way land or are lost and other users post, as steps of the machine; rooms only grow |
| Responder.EventsAreAuditable | src/technocore_safe_agent/audit.py:241-328 | every event the live responder can produce passes the field validators of the log |
| Responder.SecondPassSendsNothing | src/technocore_safe_agent/agent.py:105-115 | a second pass over a snapshot handles no message and answers none |
| Responder.CursorCovers | src/technocore_safe_agent/agent.py:105-127 | the cursor a snapshot leaves is not behind the old one and has no message of the snapshot above it |
| Responder.SafeResponder.Decide | src/technocore_safe_agent/policy.py:55-110 | a decision is one by the capability file as read for it, comes with its reservation as a step of the machine under the limit that file gives, and none to answer comes without one in capability mode |
| Responder.SafeResponder.PrepareEnvelope | src/technocore_safe_agent/agent.py:255-275 | the journal holds the envelope with the swept text and the input before anything is sent, or the process is down |
| Responder.SafeResponder.PostEnvelope | src/technocore_safe_agent/agent.py:276-286 | one request goes out; success names a record of the room that carries the envelope, anything else ends the process with the files unchanged |
| Responder.SafeResponder.AcknowledgeReply | src/technocore_safe_agent/agent.py:287-297 | the journal becomes the acknowledgement of that record, or the process is down |
| Responder.SafeResponder.SendText | src/technocore_safe_agent/agent.py:255-297 | success has journalled exactly one new envelope, for this input and text, and left it acknowledged |
| Responder.SafeResponder.ReplyEvent | src/technocore_safe_agent/agent.py:149-165 | a reply decision posts its own text when sending and only reports otherwise |
| Responder.SafeResponder.ReceiptEvent | src/technocore_safe_agent/agent.py:167-205 | a receipt decision posts the text of a receipt that verifies as the agent's and is about the requested pull request, reports its digest, reports a refusal without posting, and asks for nothing when not sending |
| Responder.SafeResponder.EventForMessage | src/technocore_safe_agent/agent.py:133-147 | the event reports a decision of the policy with an outcome that follows from it, and exactly the envelope that outcome claims was prepared |
| Responder.SafeResponder.AppendAuditRecord | src/technocore_safe_agent/agent.py:234-253 | the log gains the entry of this event as a step of the machine and stays verified; no check refuses an event, so only a failed write ends the process |
| Responder.SafeResponder.PersistProcessedMessage | src/technocore_safe_agent/agent.py:207-232 | audit entry, saved cursor and cleared journal follow in that order; success leaves the cursor at the message, memory saved and the journal empty |
| Responder.SafeResponder.HandleMessages | src/technocore_safe_agent/agent.py:105-115 | the loop yields one event for each message above the old cursor, in order, with one envelope for each that was answered |
| Responder.SafeResponder.ProcessSnapshot | src/technocore_safe_agent/agent.py:71-131 | one event for each message above the cursor and no other, in order; envelopes exactly for the answered ones with their texts; the cursor at the last or at the end of the read; cursor and generation never back; without sending nothing durable changes; and in every outcome the files are those of a run of the machine |
| Responder.SafeResponder.BootstrapLatest | src/technocore_safe_agent/agent.py:54-69 | the cursor is at the tail that was read and nothing was prepared |
| Responder.SafeResponder.Start | src/technocore_safe_agent/cli.py:931-946 | a sending process starts only with an empty journal and a verified audit log of its own, with memory as saved |
| Responder.SafeResponder.PollOnce | src/technocore_safe_agent/cli.py:978-994 | a read is processed as a run of the machine, a checkpoint behind the cursor ends the process, and the cursor never moves back |
| Responder.SafeResponder.Poll | src/technocore_safe_agent/cli.py:967-1017 | any number of rounds is a run of the machine that never moves the cursor back; reads carry different cache busters, and after a failed one the process sleeps the server's delay, or else the doubling back-off, but at least half a second, in naps of at most half a minute; a dry run changes no file |
| Responder.SafeResponder.Wait | src/technocore_safe_agent/cli.py:1011-1013 | the naps add up to the delay and none is longer than half a minute |
| RecoveryCommand.FinalizationRuns | src/technocore_safe_agent/delivery_recovery.py:204-226 | the files after any number of the three writes are those of a run of the machine that ends at rest |
| RecoveryCommand.PendingInspection | src/technocore_safe_agent/delivery_recovery.py:128-185 | in every reachable deployment the one read of the room shows the reply, its absence, or too long a history, never two copies |
| RecoveryCommand.Finalize | src/technocore_safe_agent/delivery_recovery.py:204-226 | finalization is a run of the machine back to rest; on success the journal is gone and the state file covers the delivery |
| RecoveryCommand.RetryExactEnvelope | src/technocore_safe_agent/delivery_recovery.py:229-242 | the journal's own envelope is sent once, and success settles on a record that carries it |
| RecoveryCommand.RecoverAcknowledged | src/technocore_safe_agent/delivery_recovery.py:79-113 | an acknowledged journal is settled on its own reply without posting, and only with --apply |
| RecoveryCommand.RecoverPending | src/technocore_safe_agent/delivery_recovery.py:116-201 | what is reported of a pending journal is true of the room, nothing changes without --apply, nothing is sent without --confirm-retry |
| RecoveryCommand.RecoverDelivery | src/technocore_safe_agent/delivery_recovery.py:24-76 | from every reachable deployment at rest the command is a run of the machine back to rest; it changes nothing without --apply, sends nothing without --confirm-retry, reports the truth about the room, and on success leaves no journal and a state file that covers the delivery |
| Operation.Operate | src/technocore_safe_agent/cli.py:811-862 | a deployment from its first day through any number of live processes and recovery commands, with any rooms, modes, flags and outside events, ends in a reachable state in which no room holds two replies to one input |
| Operation.RunLive | src/technocore_safe_agent/cli.py:827-862 | a live process from its start-up gate to its end is a run of the machine, whatever ends it |
| Receipt.ParseChecks | src/technocore_safe_agent/receipt.py:531-571 | the loop accepts a list exactly if it is within its counts and every run is of the commit and understood, and reports a failure or a pending run exactly if there is one |
| Receipt.Inspect | src/technocore_safe_agent/receipt.py:353-398 | accepted evidence is about the asked pull request, and its CI state says of the raw responses: success exactly if all is green, failure exactly if a run or the combined state failed, partial exactly if otherwise a count is incomplete, no signals exactly if otherwise there is no record |
| Receipt.SuccessIffAllGreen | src/technocore_safe_agent/receipt.py:353-398 | success is claimed exactly if both counts are complete, there is a record, every check run of this commit completed without failure and the combined state is success |
| Receipt.ReceiptIssuedIff | src/technocore_safe_agent/receipt.py:618-661 | inspected evidence makes a receipt exactly if it is not a failed combined state without any record |
| Receipt.FailureWithoutRecords | src/technocore_safe_agent/receipt.py:789-816 | such a response is inspected as a failure and no receipt can state it |
| Receipt.BuiltReceiptVerifies | src/technocore_safe_agent/receipt.py:618-712 | a built receipt verifies as the payload that was built |
| Receipt.BuiltReceiptStatesPull | src/technocore_safe_agent/receipt.py:618-712 | what is built from the responses to a reference verifies and is about that pull request |
| Receipt.VerifiedReceiptIsConsistent | src/technocore_safe_agent/receipt.py:789-841 | a receipt that verifies was signed by its issuer and does not overstate its own counts, whoever built it |
| Receipt.ContributionReceiptService.Issue | src/technocore_safe_agent/receipt.py:867-887 | GitHub is asked only by an attempt the interval allows, attempts stay that far apart, a refusal names a wait of at most the interval, and an issued text is at most 4096 characters and renders a receipt that verifies and states the asked pull request |
| Receipt.ContributionReceiptService.Render | src/technocore_safe_agent/receipt.py:664-674 | exactly a receipt that verifies and fits a room message is rendered |
| WorkReceipt.ValidateCommand | src/technocore_safe_agent/work_receipt_verifier.py:170-191 | the loop accepts exactly the commands of 1 to 64 NUL-free arguments, the first non-empty, within the byte limits of each and of all together |
| WorkReceipt.ValidateWorkPayload | src/technocore_safe_agent/work_receipt_verifier.py:308-361 | in an accepted payload result and exit code tell the same story three ways, and no command argument is longer than 4096 characters |
| WorkReceipt.FirstBadCounter | src/technocore_safe_agent/work_receipt_verifier.py:251-276 | the loop that grows the set of signers passes exactly lists of individually valid countersignatures by pairwise different signers |
| WorkReceipt.VerifyWorkReceipt | src/technocore_safe_agent/work_receipt_verifier.py:232-285 | an envelope is accepted exactly if the receipt and each countersignature are valid and bound, and the signers differ |
| WorkReceipt.AcceptedCountersAreBound | src/technocore_safe_agent/work_receipt_verifier.py:232-285 | at most 16 countersigners, pairwise different, none the issuer, each having signed a statement of this payload and execution |
| WorkReceipt.SelectionIsAccepted | src/technocore_safe_agent/work_receipt_verifier.py:232-285 | any reordering of any part of the countersignatures keeps the envelope accepted |
| WorkReceipt.AppendedIsAcceptedIff | src/technocore_safe_agent/work_receipt_verifier.py:232-285 | with one more countersignature an envelope is accepted exactly if it was, that one is valid, its signer is new and there were fewer than 16 |

## Left out

- JSON text, duplicate keys, regular-expression engines and URL splitting: records, character predicates and split parts stand for them; an accepted URL is not claimed to equal its printed text.
- HTTP, TLS, keychain, prompts, file modes, symbolic links, ownership and fsync order: the durability of the state file's rename is assumed, since the save does not sync its directory.
- Torn audit lines, the size limit of the log file and the timestamp text of audit entries.
- Expiry of room records and a room that starts again under a new generation: the machine's rooms keep every record.
- Liveness of delivery: an over-long request can be refused after the journal is prepared, so recovery need not succeed.
- The controller, provisioning, health, launch, task, pilot and work-output commands, and other writers of the same files or signers with the same key.
- Capability-file parsing beyond one repository scope: a decision reads arbitrary parsed grants, or fails to read them.
- A responder without a delivery journal or audit log that sends: the command line always configures both when sending.
- Texts that name a reading of the clock, hexadecimal digests and base64 signatures are of their shape by type.
- QuotaSafety.HourlyWorkBound: the hour is that of the reservations, because the model gives the work that follows a reservation no time of its own.
