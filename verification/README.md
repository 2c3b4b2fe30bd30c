# Squad admin panel: verified models

This project models the parts of the Squad admin panel whose correctness does not show from
reading one function, and proves what they are for.  It is written in Dafny 4.11;
`dafny verify dfyconfig.toml` checks all of it.

Protocols and state machines, each over every interleaving of its steps:

- `Outbox`, `OutboxExact`, `OutboxRuns`, `OutboxRecords`, `OutboxRelay`: the Admins.cfg sync outbox, its relay into Redis streams, and the soft-delete of a server that tears its stream down.
- `BridgeClient`, `Frames`: the RPC client over a reconnecting socket, and the length-prefixed frames it reads.
- `Media`: uploads and soft-deletes that share stored files under an advisory lock.
- `DepotLock`: the lease lock that serialises depot updates.
- `Shutdown`: the graceful-shutdown controller and the worker that runs under it.
- `Roles`, `RoleChanges`: permission contexts, the hierarchy between them, and what overlapping guarded role changes can and cannot hand out.

Fast forms against simple meanings:

- `Cron5`, `Cron5Parse`: cron expressions; the backward day scan against the minute-by-minute matcher, and the probe window against all time.
- `CoPresence`: sort, merge and sweep against the set of instants at which both players are online.
- `Banlist`: the published banlist against the separate ban-state fold.
- `Blame`: attribution built forward through edit scripts against following a line back.

Parsers, encodings and chains:

- `BannedNames`: the scanner for banned-name patterns against pattern trees.
- `AuditChain`, `AuditLog`: the hash chain of the audit log, its verifier, and the database trigger that writes it.
- `Segments`, `Rotation`, `AdminsCfg`, `AdminsRead`: the managed segment of LayerRotation.cfg and Admins.cfg, and what a reader gets out of it.

`Wrappers`, `Text`, `Sequences` and `Bytes` hold shared definitions.

Where the code updates fields in place the model is a class whose methods are proved equal to the
steps of a state machine; invariants and theorems over whole runs are about the machine.  Sockets,
Postgres, Redis, the file system, timers and clocks appear as steps and parameters: row locks with
SKIP LOCKED, advisory locks, SET NX with a time to live, compare-and-set scripts, transactions that
commit or fail, and messages that arrive late or never.

Some promises turned out to hold only under a condition.  Each has a run or input that breaks it
without the condition, and most have the exact condition:

- A row enqueued between the two outbox UPDATEs of its server's delete can be stamped relayed without having been published or cancelled (`OutboxRuns.EnqueueBetweenUpdatesDropsRow`); this is the only way, and `Outbox.RelayedMeansPublishedOrCancelled` has the exact commit.
- A row enqueued between the second UPDATE and the commit can lose an applied outcome and bring the deleted stream back (`OutboxRuns.WindowEnqueueLosesOutcome`, `OutboxRuns.WindowEnqueueRevivesStream`), and so can, for the stream, an XADD that lands after its timeout (`OutboxRuns.LateXaddRevivesStream`). `OutboxExact` has the exact states for both promises; what other rows and servers do never matters.
- A bridge call is left in the pending table, though already failed, when its request is too large for a frame or the socket is gone after the wait for the connection (`BridgeClient.UnwritableRequestStaysPending`).
- The cron day scan ignores the star flags that the matcher honours (`Cron5.ScanAgreesExactly`, `Cron5.MixedScanFindsNonOccurrence`), and the minimum interval is only that of December 2024 unless months and days of the month do not matter (`Cron5.ProbeMissesOtherMonths`).
- Two edits of one role that overlap are each checked against the row before the other's write, and together can exceed everybody (`RoleChanges.OverlappingEditsWiden`).
- An upload whose commit is reported as a failure loses the file of a row that was not deduplicated, and no other file (`Media.LostReplyHarmlessIffDeduplicated`, `Media.ActiveFilesAlwaysPresent`); a delete whose commit is, leaves the file it freed (`Media.LostReplyOfDeleteLeavesFile`).
- A cleanup that fails with an error handler that throws never reaches exit (`Shutdown.ExitIffHandlerReturns`).
- The v1 audit text determines the columns it hashes exactly when none of them holds its separator (`AuditChain.V1TextPinsIffNoBar`).

Where the code and its own comments disagree the model follows the code: the day check of the
backward cron scan is described as the day portion of the matcher
(packages/shared-types/src/cron5.ts:165), and the hierarchy check as one no chain of edits can get
around (apps/api/src/lib/rbac.ts:482-486); both are so under the conditions above.

## Model

| member | source | states |
|---|---|---|
| `Frames.EncodeFrame` | packages/bridge-client/src/frame.ts:10-18 | A body is refused exactly when it is over the frame limit; otherwise the frame is a four-byte big-endian length followed by the body. |
| `Frames.HeaderIsExact` | packages/bridge-client/src/frame.ts:10-18 | Every four header bytes are the header of the size they denote in big-endian order, and of no other. |
| `Frames.ReadingIsUnique` | packages/bridge-client/src/frame.ts:25-50 | A byte stream has one reading only: complete frames, unfinished remainder and oversize verdict are determined by the bytes. |
| `Frames.DecodeFrames` | packages/bridge-client/src/frame.ts:25-50 | The loop returns that reading: frames whose encodings make up the stream up to an unfinished remainder, or the size of an oversize header. |
| `Frames.MoreBytes` | packages/bridge-client/src/frame.ts:52-78 | Later bytes never change frames already read nor an error already raised. |
| `Frames.FrameAccumulator.Push` | packages/bridge-client/src/frame.ts:62-78 | A push returns the reading of the old queue plus the chunk and keeps its remainder; the queue stays below four bytes plus the frame limit; a push that throws keeps the bytes. |
| `Frames.FrameAccumulator.NextFrameSize` | packages/bridge-client/src/frame.ts:85-90 | The size peeked across chunk boundaries is the one in the first four queued bytes. |
| `Frames.FrameAccumulator.Reset` | packages/bridge-client/src/frame.ts:80-83 | The queue is empty afterwards. |
| `Frames.Receive` | packages/bridge-client/src/frame.ts:52-90 | For every way of cutting a stream into chunks, the frames of all pushes are the reading of the whole stream, the queue is its remainder, and some push throws exactly when the whole stream has an oversize header. |
| `Frames.RoundTrip` | packages/bridge-client/src/frame.ts:10-90 | Whatever the cutting, the only reading of the encodings of a list of bodies is that list with nothing left over. |
| `BannedNames.QuantifierPrinted` | packages/shared-config/src/banned-names.ts:65-87 | Reading a printed quantifier consumes exactly its text, lazy mark included, and tells whether it allows a second repetition. |
| `BannedNames.PrefixPrinted` | packages/shared-config/src/banned-names.ts:121-127 | The group prefix that is skipped is exactly the printed one, for every kind of group. |
| `BannedNames.ClassPrinted` | packages/shared-config/src/banned-names.ts:138-144 | A character class is skipped exactly, whatever its items, escapes and negation. |
| `BannedNames.ScanTerm` | packages/shared-config/src/banned-names.ts:110-163 | Over a printed term the scanner goes on exactly when the term is safe, having noted in the open group whether the term holds a quantifier or an alternation. |
| `BannedNames.ScanGroup` | packages/shared-config/src/banned-names.ts:121-157 | The same for a group: opened, scanned, closed, judged with its quantifier, and merged into its parent. |
| `BannedNames.ScanAlternative` | packages/shared-config/src/banned-names.ts:110-163 | The same for a sequence of terms. |
| `BannedNames.ScanDisjunction` | packages/shared-config/src/banned-names.ts:110-163 | The same for alternatives: a bar is noted in the innermost open group. |
| `BannedNames.ScannerDecides` | packages/shared-config/src/banned-names.ts:110-163 | For every pattern tree the scanner accepts the printed text exactly when the tree is safe. |
| `BannedNames.Meaning` | packages/shared-config/src/banned-names.ts:89-109 | Safe means: no term, at any depth, is a backreference or a group repeated more than once that contains a quantifier or an alternation at any depth. |
| `BannedNames.ScanPattern` | packages/shared-config/src/banned-names.ts:110-163 | The loop with its index and stack of frames computes the scanner's verdict on any text; it always advances. |
| `BannedNames.IsSafeBannedNameRegex` | packages/shared-config/src/banned-names.ts:110-163 | The function accepts the text of any pattern tree exactly when every term of the tree is harmless. |
| `Outbox.BasicsKept` | packages/db/src/admins-cfg-outbox.ts:173-245 | One step of any relay, enqueue, outcome, delete, crash or stream command keeps what holds in every run: who holds which row lock, what snapshots contain, that only deleted servers are read as deleted, and that an outcome of a pending row came from an entry that was published. |
| `Outbox.InvKept` | packages/db/src/admins-cfg-outbox.ts:173-245 | Every step also keeps a row's own invariant, that a row still pending after its server's delete was never touched, unless it is a commit that leaves the row behind: pending and not held by the delete, though published, about to be, or with an XADD under way. Other rows and servers may do anything. |
| `Outbox.InvAlong` | apps/api/src/lib/server-delete.ts:241-297 | So the invariant of a row holds along every run without such a commit. |
| `Outbox.CommitFindsNoPublisher` | apps/api/src/lib/server-delete.ts:253-269 | When a delete commits, no relay is left that may publish a row the delete holds or that was relayed before. |
| `Outbox.OutcomeKept` | packages/db/src/admins-cfg-outbox.ts:208-220 | No step overwrites an applied outcome, not even the relay's cancel, which does not look whether there is one; only the row's own invariant is needed. |
| `Outbox.OutcomesAreFinal` | packages/db/src/admins-cfg-outbox.ts:27-54 | Over every run in which no commit of its server's delete leaves the row behind, an outcome once applied is never changed. |
| `OutboxExact.OutcomeAtRiskExactlyWhenLeftBehind` | packages/db/src/admins-cfg-outbox.ts:208-220 | That condition is exact: from every reachable commit of the row's server, some continuation overwrites an applied outcome of the row exactly when the commit leaves the row behind. |
| `Outbox.RelayedMeansPublishedOrCancelled` | packages/db/src/admins-cfg-outbox.ts:208-233 | Throughout a run every state has the row published or cancelled for a removed server once it is stamped relayed, exactly when no commit of the delete drops the row: stamps it though the first UPDATE did not complete it and it was never published. |
| `Outbox.OnlyTheWindowMatters` | apps/api/src/lib/server-delete.ts:253-267 | Only the row's own enqueue can lead to either commit: between the two UPDATEs to the one that drops it, between the second UPDATE and the commit to the one that leaves it behind. |
| `Outbox.DeletedStreamStaysEmpty` | apps/api/src/lib/server-delete.ts:241-297 | After a delete's UNLINK the server's stream is empty in every later state and no relay is about to add to it, if none was when the delete unlinked it and no XADD for that server lands after its timeout; other servers may do both, and enqueues may come at any time. |
| `Outbox.QuietUnlessEnqueuedAfter` | apps/api/src/lib/server-delete.ts:253-269 | No relay is left that may publish to a deleted server if none of its rows was enqueued between the second UPDATE and the commit. |
| `OutboxExact.StaysEmptyExactly` | apps/api/src/lib/server-delete.ts:290-297 | These conditions are exact: from every reachable UNLINK, the stream stays empty in every continuation exactly when no relay is left that may publish to it and no XADD for it is under way; without late XADDs, exactly when the first holds. |
| `OutboxRuns.WindowEnqueueRevivesStream` | packages/db/src/admins-cfg-outbox.ts:66-103 | A run in which an enqueue between the second UPDATE and the commit ends with an entry in the removed stream. |
| `OutboxRuns.WindowEnqueueLosesOutcome` | packages/db/src/admins-cfg-outbox.ts:208-220 | A run in which the same enqueue lets the relay's cancel overwrite an applied outcome. |
| `OutboxRuns.EnqueueBetweenUpdatesDropsRow` | apps/api/src/lib/server-delete.ts:253-267 | A run in which an enqueue between the two UPDATEs ends with a row that is relayed, but was never published and has no outcome. |
| `OutboxRuns.LateXaddRevivesStream` | packages/db/src/admins-cfg-outbox.ts:258-286 | A run in which an XADD that lands after its timeout brings the removed stream back. |
| `OutboxRecords.RowWrittenExactly` | packages/db/src/admins-cfg-outbox.ts:26-54 | Column by column, which steps write to a row and what: a stamp, a cancel or the commit of a delete that holds it sets relayed; a cancel, a completing commit or the worker's success sets applied; the outcome is the one reported, a failure leaves the row open, and after success only a cancel writes. |
| `OutboxRecords.RowsAddedExactly` | packages/db/src/admins-cfg-outbox.ts:66-103 | Rows come from enqueues only, for the server asked for, and start pending without an outcome. |
| `OutboxRecords.StreamWrittenExactly` | packages/db/src/admins-cfg-outbox.ts:236-286 | A server's stream grows by exactly its own rows whose XADD lands, in that order, and loses entries only to its consumer and to UNLINK. |
| `OutboxRecords.OutcomesHaveCauses` | packages/db/src/admins-cfg-outbox.ts:26-54 | In every run a stream holds published rows of its own server only, an applied row has a final outcome and any other none or a failure, and every outcome but the removal of the server was reported for that row. |
| `OutboxRecords.FailureIsRetried` | packages/db/src/admins-cfg-outbox.ts:43-54 | A failure can be reported for any published row nobody holds; it leaves the row open, and a later success is recorded. |
| `OutboxRecords.RelayPublishes` | packages/db/src/admins-cfg-outbox.ts:186-234 | From every state of every run, a relay that nobody disturbs publishes a pending row of an active server: one entry at the end of its stream, the row relayed, nothing else changed. |
| `OutboxRecords.RelayCancels` | packages/db/src/admins-cfg-outbox.ts:208-220 | For a deleted server it cancels the row instead and leaves the stream alone. |
| `OutboxRecords.DeleteSettles` | apps/api/src/lib/server-delete.ts:241-297 | A delete that nobody disturbs settles every row of its server: rows with an outcome keep it, all others are cancelled, none is left pending; the stream is gone and nothing else is changed. |
| `OutboxRecords.AbortUndoes` | apps/api/src/lib/server-delete.ts:241-269 | A delete that has not committed can be given up at any time: nothing was written, its locks are gone, and it can be tried again. |
| `OutboxRecords.DrainedLeavesNothing` | packages/db/src/admins-cfg-outbox.ts:206 | A relay that finds nothing to claim ends without a trace. |
| `OutboxRelay.PendingOnce` | packages/db/src/admins-cfg-outbox.ts:187-204 | A row is in the queue at most once. |
| `OutboxRelay.PublishedExactly` | packages/db/src/admins-cfg-outbox.ts:258-290 | A row is published exactly when its payload is an object and Redis returns an id, and the error names which of these failed. |
| `OutboxRelay.SettledExactly` | packages/db/src/admins-cfg-outbox.ts:208-233 | Column by column, what the transaction leaves in a claimed row: published rows get their stream id and are relayed, rows of a removed server are relayed and applied as removed with no error left, failed rows are unchanged. |
| `OutboxRelay.OutboxTable.Claim` | packages/db/src/admins-cfg-outbox.ts:187-206 | The claim is the oldest row that is unrelayed, not locked by another transaction and not among the failed ones; nothing is claimed exactly when there is none. |
| `OutboxRelay.OutboxTable.RelayOne` | packages/db/src/admins-cfg-outbox.ts:186-234 | One transaction settles the first row of the queue and takes it off; a failed row stays unsettled but is skipped from then on; all other rows are unchanged. |
| `OutboxRelay.OutboxTable.Relay` | packages/db/src/admins-cfg-outbox.ts:173-249 | The relay ends; it has tried a prefix of the pending queue, each row once; it stops at the end of the queue or at the first streak of failures of the given length; it throws the first failure or returns the number published; the rows tried are settled and no other row changed. |
| `AuditChain.FieldIsSelfDelimiting` | apps/api/src/lib/audit-chain.ts:121-124 | A length-prefixed or null field can be read off the front of any text in one way only. |
| `AuditChain.FieldsAreDecodable` | apps/api/src/lib/audit-chain.ts:131-150 | A concatenation of a known number of fields determines every field. |
| `AuditChain.CanonicalV2IsInjective` | apps/api/src/lib/audit-chain.ts:131-150 | Two rows have the same v2 text exactly when they agree on each of the fifteen audited columns, by name. |
| `AuditChain.CanonicalV1IsNotInjective` | apps/api/src/lib/audit-chain.ts:111-119 | The v1 text of any row with a bar in a column it hashes is also the text of a row that differs in such a column. |
| `AuditChain.V1TextPinsIffNoBar` | apps/api/src/lib/audit-chain.ts:105-119 | Exactly when the v1 text of a row pins the columns it hashes against every other row: when none of them holds a bar. |
| `AuditChain.V1PinsColumns` | apps/api/src/lib/audit-chain.ts:105-119 | Among rows whose columns other than the free-form context hold no bar, equal v1 texts mean equal hashed columns and the reverse, a missing target counting as empty. |
| `AuditChain.HexRoundTrip` | apps/api/src/lib/audit-chain.ts:170-174 | Decoding the hex form of a digest gives the digest back. |
| `AuditChain.AuditChainVerifier.Feed` | apps/api/src/lib/audit-chain.ts:213-244 | Feeding rows keeps the verifier's fields equal to the verdict on everything fed, and returns whether no break was found. |
| `AuditChain.AuditChainVerifier.FeedOne` | apps/api/src/lib/audit-chain.ts:214-242 | One row extends the verified prefix or becomes the first break, with the reason of the first check that fails. |
| `AuditChain.AuditChainVerifier.Result` | apps/api/src/lib/audit-chain.ts:256-266 | Intact exactly when every row continues the chain and the anchored row is among them; otherwise the first row with a fault and its reason, or the missing anchor. |
| `AuditChain.VerifyInBatches` | scripts/verify-audit-chain.ts:65-84 | The verdict of a walk in batches of any sizes, stopped at the first break, is the verdict on all rows together. |
| `AuditChain.TamperingIsReported` | apps/api/src/lib/audit-chain.ts:227-230 | A row of an accepted chain changed in any audited column is the first break, with a wrong row hash, unless its text collides with the old one. |
| `AuditChain.RemovalIsReported` | apps/api/src/lib/audit-chain.ts:222-226 | A row taken out of an accepted chain is noticed at the row behind it, as a wrong previous hash. |
| `AuditChain.DowngradeIsReported` | apps/api/src/lib/audit-chain.ts:216-220 | A row of an unknown version, or of v1 behind v2, is reported as that, whatever else is wrong with it. |
| `AuditChain.TruncationIsReported` | apps/api/src/lib/audit-chain.ts:256-266 | With an anchor, a chain cut before the anchored row has no break but lacks that row, and so is not intact; the uncut chain is. |
| `AuditChain.RewritingIsReported` | apps/api/src/lib/audit-chain.ts:231-238 | A log rewritten with hashes that fit is reported at the anchored row, whose hash is another one. |
| `AuditChain.OneBack` | apps/api/src/lib/audit-chain.ts:170-174 | Equal row hashes at one position of two accepted chains mean equal hashed text there and equal row hashes one position before. |
| `AuditChain.HeadPinsHistory` | apps/api/src/lib/audit-chain.ts:213-266 | Two chains of equal length that the verifier accepts and that share a row hash agree, at every position up to it, on the hashed text, on each of the fifteen audited columns of v2 rows, and on the five of v1 rows with bars only in their context. |
| `AuditLog.AppendKeepsChain` | packages/db/drizzle/0135_audit_log_chain_v2.sql:54-93 | A row written by the append trigger continues the chain: what the verifier recomputes from the hex columns is what the trigger computed from the stored bytes. |
| `AuditLog.TriggerWritesCanonicalText` | packages/db/drizzle/0135_audit_log_chain_v2.sql:42-91 | The text the trigger puts together, field by field in its own order, is the text the verifier recomputes. |
| `AuditLog.WrittenLogIsAccepted` | packages/db/drizzle/0135_audit_log_chain_v2.sql:54-93 | Whatever is appended to an accepted log, old v1 rows included, is accepted by the verifier. |
| `AuditLog.SameHeadSameLog` | packages/db/drizzle/0135_audit_log_chain_v2.sql:9-25 | Two logs of equal length written by the trigger that end in the same hash agree on each of the fifteen audited columns of every row, unless two hashed texts at one position collide. |
| `BridgeClient.InvKept` | packages/bridge-client/src/client.ts:194-208 | Every event — connect, send, frame, timer, write error, undecodable data, close or error of any socket old or new, retry, close of the client, and a frame handled after a listener did any of these — keeps the invariant. |
| `BridgeClient.InvAlways` | packages/bridge-client/src/client.ts:372-621 | The invariant holds in every run: who is pending, which timers are armed, which socket owns the partial frame, and that connected and disconnected events alternate. |
| `BridgeClient.UnsettledExactlyWhilePending` | packages/bridge-client/src/client.ts:423-462 | In every run a call whose request fits one frame and finds a socket is unsettled exactly while its id is pending; any other call is settled at once; an armed timer belongs to a pending call. |
| `BridgeClient.UnwritableRequestStaysPending` | packages/bridge-client/src/client.ts:435-454 | After any run, a new call is pending with its timer, on the current socket, as soon as it is sent, and it is at the same time already settled exactly when its request does not fit one frame or the socket is gone again. |
| `BridgeClient.SettledExactlyAsCaused` | packages/bridge-client/src/client.ts:423-621 | In every run a call is settled in a given way exactly when some event was a cause of it while the call was open: resolved by a good response to it, rejected with the remote error by a bad one, with internal by a malformed response or a throwing callback, with timeout by its timer, and with transport by a write error, the close of its socket, undecodable data or the close of the client. |
| `BridgeClient.ConnectionChangesExactly` | packages/bridge-client/src/client.ts:467-523 | What every event does to the current socket, to the unfinished frame, to the closed and connected flags, and what it announces: connected exactly on the first good answer to a ping, disconnected exactly when an announced connection is lost and the client was not closed by its owner. |
| `BridgeClient.ClosingFailsOnlyItsOwnCalls` | packages/bridge-client/src/client.ts:498-515 | A socket that closes, current or replaced, fails exactly the pending calls that went out on it. |
| `BridgeClient.CloseSettlesEverything` | packages/bridge-client/src/client.ts:194-208 | After a close nothing is pending, no timer is armed and every call issued so far is settled. |
| `BridgeClient.BridgeClient.OnConnect` | packages/bridge-client/src/client.ts:180-187 | Takes the new socket and drops the partial frame of the old one; the new state is the one the state machine gives for the event. |
| `BridgeClient.BridgeClient.CallImpl` | packages/bridge-client/src/client.ts:428-462 | Registers the call and its timer and writes the request, or fails with the entry left behind; the new state is the one the state machine gives for the event. |
| `BridgeClient.BridgeClient.OnTimer` | packages/bridge-client/src/client.ts:445-452 | Fails the call with a timeout and forgets it; the new state is the one the state machine gives for the event. |
| `BridgeClient.BridgeClient.OnWriteError` | packages/bridge-client/src/client.ts:454-460 | Fails the call and forgets it with its timer; the new state is the one the state machine gives for the event. |
| `BridgeClient.BridgeClient.OnFrame` | packages/bridge-client/src/client.ts:526-621 | A response settles its call and disarms its timer; a good ping announces the connection; a throwing stream callback or a malformed response fails the call; anything else changes nothing; the new state is the one the state machine gives for the event. |
| `BridgeClient.BridgeClient.OnData` | packages/bridge-client/src/client.ts:467-497 | Data of a replaced socket is ignored; frames of the current one are handled in order; the new state is the one the state machine gives for the event. |
| `BridgeClient.BridgeClient.OnUndecodableData` | packages/bridge-client/src/client.ts:472-493 | Fails every pending call, drops the socket and announces the loss; the new state is the one the state machine gives for the event. |
| `BridgeClient.BridgeClient.OnSocketClosed` | packages/bridge-client/src/client.ts:498-515 | Fails the socket's own calls and, if it is the current one, drops it with its partial frame; the new state is the one the state machine gives for the event. |
| `BridgeClient.BridgeClient.OnSocketError` | packages/bridge-client/src/client.ts:516-523 | Only announces the loss of the connection; the new state is the one the state machine gives for the event. |
| `BridgeClient.BridgeClient.DropSocketForRetry` | packages/bridge-client/src/client.ts:413-417 | Lets go of the current socket before the second attempt; the new state is the one the state machine gives for the event. |
| `BridgeClient.BridgeClient.CloseClient` | packages/bridge-client/src/client.ts:194-208 | Fails every pending call and announces the end; the new state is the one the state machine gives for the event. |
| `Cron5Parse.ParseField` | packages/shared-types/src/cron5.ts:35-62 | A field is accepted exactly when it is a star or each of its parts is a number or stepped range within bounds; the values are exactly those some part denotes, listed in increasing order. |
| `Cron5Parse.ParseCron5` | packages/shared-types/src/cron5.ts:65-88 | Accepted exactly when the text splits into five acceptable fields; each field then says what its text denotes, and the star flags are those of the texts. |
| `Text.WordsAreFound` | packages/shared-types/src/cron5.ts:66 | Trimming and splitting finds the words of a text, however they are spaced and padded. |
| `Text.NoWords` | packages/shared-types/src/cron5.ts:66-71 | A text without words is one empty piece, which is not five fields. |
| `Cron5Parse.StepThrough` | packages/shared-types/src/cron5.ts:42-52 | The step loop collects the arithmetic progression from the start up to the maximum. |
| `Cron5Parse.WrittenFieldIsRead` | packages/shared-types/src/cron5.ts:35-62 | Whatever list of numbers and steps is written down, it is accepted exactly when all of them are within the field, and its values are exactly those they mean. |
| `Cron5Parse.AcceptedIsWritten` | packages/shared-types/src/cron5.ts:39-57 | Nothing else is accepted: every accepted part is a number, or a number or a star with a step. |
| `Cron5.DayScanAgainstMatcher` | packages/shared-types/src/cron5.ts:101-124 | The day scan accepts what the matcher accepts and, exactly when both day fields are restricted and one starts with a star, also the days on which only one of them matches. |
| `Cron5.ScanDay` | packages/shared-types/src/cron5.ts:209-224 | Within a day the nested loops return the latest allowed minute of the window, or there is none. |
| `Cron5.FindLastOccurrence` | packages/shared-types/src/cron5.ts:194-228 | The result is the greatest accepted minute of the floored window, and null means none in its last 1830 days; accepted is matched unless the expression is of the mixed kind. |
| `Cron5.MixedScanFindsNonOccurrence` | packages/shared-types/src/cron5.ts:166-178 | The mixed case is real: in any calendar that has December 2024 right, the only answer the scan can give for the first minute of that month is that minute, which the matcher rejects. |
| `Cron5.ScanAgreesExactly` | packages/shared-types/src/cron5.ts:101-124 | Exactly when the scan and the matcher agree on every minute of every calendar: unless both day fields are restricted and one starts with a star, or when both list every day. |
| `Cron5.Expand` | packages/shared-types/src/cron5.ts:134-152 | The occurrences listed are exactly the matching minutes of the window within the cap, in order. |
| `Cron5.SmallestDelta` | packages/shared-types/src/cron5.ts:253-261 | The loop finds the smallest difference of neighbours. |
| `Cron5.MinInterval` | packages/shared-types/src/cron5.ts:247-263 | The result is the smallest gap inside the probe window, or there are fewer than two occurrences in it; when months and days of the month do not matter it is the smallest gap over all time. |
| `Cron5.ProbeIsEnough` | packages/shared-types/src/cron5.ts:230-246 | When months and days of the month do not matter (all are listed, or either day field is enough and every weekday is), the smallest gap found in the probe window is the smallest gap over all time, and there is one. |
| `Cron5.GapOccursInProbe` | packages/shared-types/src/cron5.ts:230-246 | Under the same condition, every gap between consecutive occurrences of all time is also a gap inside the probe window. |
| `Cron5.ProbeMissesOtherMonths` | packages/shared-types/src/cron5.ts:247-263 | Without that, the probe can miss every occurrence of an expression that fires each minute of another month. |
| `Roles.BuildRolePermissionContext` | apps/api/src/lib/rbac.ts:380-436 | The loops over the catalogue and the explicit rows give the context that grants, key by key and flag by flag, what the role's flags and rows allow. |
| `Roles.HoldsKeyExactly` | apps/api/src/lib/rbac.ts:188-212 | Key by key, who holds it: the Owner; whoever has panel access, or an explicit row for it, and the flag or squad right that the key needs; for two keys an explicit row is enough. |
| `Roles.HoldsFlagExactly` | apps/api/src/lib/rbac.ts:416-436 | Flag by flag, who holds it: four flags count only with panel access, and the infrastructure flag is not part of a context. |
| `Roles.ExplicitRowsPassTheGates` | apps/api/src/lib/rbac.ts:404-414 | Whatever rows a role has, its context holds a flag-gated key only together with the flag, except for the two keys documented as grantable and the infrastructure keys, whose flag is not part of a context. |
| `Roles.GrantsBeyond` | apps/api/src/lib/rbac.ts:493-505 | The list names every grant the target has and the actor lacks, each once, and is empty exactly when the target fits inside the actor. |
| `Roles.OwnerHoldsAll` | apps/api/src/lib/rbac.ts:385-397 | Every context fits inside an Owner's. |
| `Roles.Narrow` | apps/api/src/lib/rbac.ts:537-573 | A token's context fits inside its role's, is never an Owner's, and has exactly the delegated keys. |
| `Roles.NarrowKeepsExactly` | apps/api/src/lib/rbac.ts:537-573 | Flag by flag and squad right by squad right, what a token keeps of its role: each only with every catalogue key that stands for it, and nothing that has none. |
| `Roles.NarrowTwice` | apps/api/src/lib/rbac.ts:537-573 | Narrowing by two scope lists is narrowing by what they share; so narrowing is idempotent and never widens. |
| `Roles.AllScopesKeepKeyedFlags` | apps/api/src/lib/rbac.ts:512-518 | With every scope delegated, the flags that have keys of their own are exactly the role's, for a role with panel access. |
| `RoleChanges.CheckRoleAssignment` | apps/api/src/lib/role-hierarchy.ts:56-83 | No refusal exactly when the actor is not among the players and the new role and every player's current role fit inside the actor; an absent actor is refused, an Owner never is; a refusal names the first thing that is wrong and lists exactly the missing grants. |
| `RoleChanges.PassesExactly` | apps/api/src/routes/roles.ts:318-409 | Which edits, creations and deletions pass their check, no more and no fewer: none of the Owner role, no edit of one's own role, and no grant missing from the actor in the role as it is or as proposed. |
| `RoleChanges.AssignmentTakesEffect` | apps/api/src/routes/players.ts:448-470 | A written assignment gives exactly the players it names the role and its rights, and drops their cached ones. |
| `RoleChanges.EditTakesEffect` | apps/api/src/routes/roles.ts:413-438 | A written edit sets exactly the columns it names, of its role only; three flags cannot be set this way. |
| `RoleChanges.CreationAndDeletionTakeEffect` | apps/api/src/routes/roles.ts:526-535 | A created role is there as asked for; a deleted one is gone and its holders have no role and no rights. |
| `RoleChanges.RightsExactly` | apps/api/src/lib/rbac.ts:250-343 | A player has the rights of their role while it exists and the assignment has not expired, and none otherwise. |
| `RoleChanges.OtherStepsExactly` | apps/api/src/lib/rbac.ts:250-343 | Nothing but a write changes roles; expiry takes a player's rights away, and loading reads the rights of that moment into the cache. |
| `RoleChanges.CheckedIsBounded` | apps/api/src/lib/role-hierarchy.ts:94-125 | A request that passes its check, directly or through a token and with a context from the cache, only hands out what fits inside a context some player had at the start. |
| `RoleChanges.NobodyExceedsTheStart` | apps/api/src/routes/roles.ts:318-409 | In every run of overlapping assignments, edits, creations, deletions and expiries by non-Owners in which no edit is written over another edit of its role, every player's context fits inside one that some player had at the start. |
| `RoleChanges.OverlappingEditsWiden` | apps/api/src/routes/roles.ts:413-438 | The condition is needed: two edits of one role, both checked before either is written, leave it with a pair of rights nobody held. |
| `RoleChanges.OwnersNeverChange` | apps/api/src/lib/role-hierarchy.ts:9-28 | In every run, overlapping edits included, the same players hold the Owner role at the end as at the start, and whoever acts as Owner did so at the start. |
| `Media.InvKept` | apps/api/src/lib/media-files.ts:58-129 | Every step of every interleaving of uploads, deletes, failures, crashes, and commits of either kind that are reported as a failure keeps the invariant on rows, own files, decisions and locks, which are given back when their transaction is over. |
| `Media.FileSafeKept` | apps/api/src/lib/media-files.ts:96-100 | Every step but the lost reply of the upload that made a path a row's keeps that path's active file present and out of every discard. |
| `Media.OneHolder` | apps/api/src/lib/media-files.ts:16-18 | At most one transaction acts under a storage path's lock. |
| `Media.DecisionKept` | apps/api/src/lib/media-files.ts:20-38 | What a transaction found out under its lock about other rows stays true until it commits, and a freed path stays free. |
| `Media.ActiveFilesAlwaysPresent` | apps/api/src/lib/media-files.ts:58-129 | In every interleaving the file of an active row is on disk, unless the upload that first made its path a row's had its commit reported as a failure; crashes, lost replies of deletes, and lost replies about other files do not matter. |
| `Media.QuietPathIsExact` | apps/api/src/lib/media-files.ts:41-57 | For each path: if no call that owned or was removing its file crashed, no delete that freed it lost its reply, and none is in flight, the file is there exactly when an active row uses it, so it is gone once all rows sharing it are deleted; other files and calls may crash or be in flight. |
| `Media.LostReplyHarmlessIffDeduplicated` | apps/api/src/lib/media-files.ts:96-100 | A commit that is reported as a failure leaves an active row without its file exactly when it is an upload whose row was not deduplicated; the lost reply of a delete never does. |
| `Media.LostReplyOfDeleteLeavesFile` | apps/api/src/lib/media-files.ts:118-128 | A delete whose commit is reported as a failure leaves a file that no row uses exactly when it found no other row on it. |
| `Media.UploadAlone` | apps/api/src/lib/media-files.ts:58-102 | An upload that nothing disturbs, from any state: with no active row of the same hash its file is kept and the row points at it; otherwise the row shares the other's file and its own is gone; nothing else is changed and no lock is left. |
| `Media.DeleteAlone` | apps/api/src/lib/media-files.ts:113-129 | A delete that nothing disturbs, from any state: the row is inactive, and the file goes exactly when no other active row shares it. |
| `Media.MediaStore.InsertUploadedMedia` | apps/api/src/lib/media-files.ts:58-102 | Uninterrupted: the row reuses a file exactly when an active row has the same hash; the upload's own file is kept exactly when it is the row's; a failing insert leaves nothing. |
| `Media.MediaStore.SoftDeleteMedia` | apps/api/src/lib/media-files.ts:113-129 | Uninterrupted: the file is removed exactly when no other active row shares it. |
| `CoPresence.ClampSessions` | apps/api/src/lib/compare-online.ts:48-64 | The clamped intervals cover exactly the instants of the window at which some session is on, open sessions lasting until now. |
| `CoPresence.SortByStart` | apps/api/src/lib/compare-online.ts:73 | Sorting permutes the intervals into order of their start. |
| `CoPresence.MergeIntervals` | apps/api/src/lib/compare-online.ts:71-89 | Merging covers the same instants by intervals in order with a gap between neighbours. |
| `CoPresence.Sweep` | apps/api/src/lib/compare-online.ts:113-125 | The two-index sweep covers exactly the common instants, in order with a gap between neighbours. |
| `CoPresence.ComputeCoPresence` | apps/api/src/lib/compare-online.ts:102-137 | The result covers exactly the instants of the window at which both players are on, by maximal intervals, and the seconds reported fall short of the number of those milliseconds by less than one second per interval. |
| `CoPresence.SeparatedIsCanonical` | apps/api/src/lib/compare-online.ts:66-70 | Two lists of separated intervals that cover the same instants are equal. |
| `CoPresence.CommonIntervalsAreUnique` | apps/api/src/lib/compare-online.ts:91-101 | So neither the order of the players nor that of their sessions changes the result. |
| `Segments.SpliceKeepsTheRest` | packages/shared-config/src/admins-config.ts:213-224 | What a splice leaves of any file, with the markers written out: the whole file behind the new segment and a blank line when there was no segment; otherwise everything in front of the first begin marker and behind the end marker that follows it, or nothing behind when there is none. |
| `Segments.FindAfterSplice` | packages/shared-config/src/admins-config.ts:190-224 | For every file and every well-formed body, the segment found after a splice is that body, and the text before and after it is what it was. |
| `Segments.LastSpliceWins` | packages/shared-config/src/admins-config.ts:213-224 | A second splice gives what it would have given alone; so splicing is idempotent. |
| `Segments.SegmentIffNoLineHoldsTheEnd` | packages/shared-config/src/admins-config.ts:154-177 | A body joined from lines is well formed exactly when no line between the markers holds the end marker. |
| `Segments.LinesOfJoin` | apps/api/src/lib/rotation-segment.ts:36-55 | Splitting what was joined from lines gives the lines. |
| `Rotation.RotationRoundTrip` | apps/api/src/lib/rotation-segment.ts:36-77 | For every file and every list of accepted layer names, parsing the file after splicing in the built segment returns the list. |
| `Rotation.WriteBackIsNoop` | apps/api/src/lib/rotation-segment.ts:36-55 | Writing back what was read leaves a file as it is, when the file came from splicing in accepted names. |
| `Rotation.RereadIsStable` | apps/api/src/lib/rotation-segment.ts:36-55 | For any file at all, reading it, writing back what was read and reading again gives the same names. |
| `Rotation.AcceptedExactly` | apps/api/src/lib/rotation-segment.ts:70-77 | Which names are accepted: 1 to 128 characters, no control character, no outer white space, no double slash anywhere. |
| `Rotation.ReadLineByLine` | apps/api/src/lib/rotation-segment.ts:36-47 | Line by line, what is read: the trimmed text, unless it is blank or starts with two slashes. |
| `AdminsCfg.CommentIsClean` | packages/shared-config/src/admins-config.ts:85-94 | A flattened comment has no line break, no double slash and no outer whitespace; a text that is fine already is unchanged, and flattening twice is flattening once. |
| `AdminsCfg.FlattensRun` | packages/shared-config/src/admins-config.ts:92-94 | A run of line-breaking characters becomes one space, and nothing else is changed. |
| `AdminsCfg.CollapsesRun` | packages/shared-config/src/admins-config.ts:92-94 | A run of slashes becomes one slash, and nothing else is changed. |
| `AdminsCfg.SafeNamesExactly` | packages/shared-config/src/admins-config.ts:64-70 | Which role names are written: some text, without control characters, line separators, colons, commas and slashes. |
| `AdminsCfg.BuildManagedSegmentBody` | packages/shared-config/src/admins-config.ts:130-177 | The body is made of exactly the specified lines; with plain ids and keys it is a well-formed segment whose number of lines is two, plus one per counted group and admin, plus one when there are both. |
| `AdminsCfg.SegmentKeepsItsShape` | packages/shared-config/src/admins-config.ts:64-177 | Whatever the role names, comments and clan names, with ids and keys free of slashes and line breaks, the end marker occurs only at the end and every line stays one line. |
| `AdminsCfg.SplicedBodyIsFound` | packages/shared-config/src/admins-config.ts:190-224 | So the next sync finds exactly that body in any file it was spliced into. |
| `AdminsRead.ReadBack` | packages/shared-config/src/admins-config.ts:130-177 | What a reader of the file gets out of the segment is what was put in: the Admin lines are exactly the admins whose role is written, each with its role and flattened comment, and every clan member in ClanPriority; the Group lines are exactly the roles with permissions and a safe name, each with its keys, and ClanPriority with its reserve when needed. |
| `AdminsRead.WrittenInOrder` | packages/shared-config/src/admins-config.ts:131-150 | Groups are in order of their names with sorted keys, admins in order of role and then id, clan members in order of id. |
| `AdminsCfg.SameBytesInAnyOrder` | packages/shared-config/src/admins-config.ts:110-118 | The same roles, admins and clan members in any order, and the permission keys of each role in any order, give the same bytes, for any total order of texts that tells the entries apart and any strict one for the keys. |
| `DepotLock.LapsedForGood` | apps/api/src/lib/depot-lock.ts:19-23 | Over every run, nothing a holder whose lease lapsed has sent or sends, however late it arrives, brings the lease back or touches the key. |
| `DepotLock.TimelyHolderOwnsKey` | apps/api/src/lib/depot-lock.ts:67-95 | A running holder whose own renewals landed within one time to live of each other owns the key, and nobody else can take it, whatever became of other holders. |
| `DepotLock.AtMostOneHolder` | apps/api/src/lib/depot-lock.ts:67-95 | So at most one such holder runs at a time. |
| `DepotLock.SecondHolderIffLapsed` | apps/api/src/lib/depot-lock.ts:71-75 | The condition is exact: beside a holder that owns the key, a second one gets in exactly when the holder's last landed renewal is over. |
| `DepotLock.AcquiredExactlyWhenFree` | apps/api/src/lib/depot-lock.ts:71-75 | The key is taken exactly when it is free, for one time to live, and the caller runs exactly if it hears of that. |
| `DepotLock.RenewalExtends` | apps/api/src/lib/depot-lock.ts:19-23 | A renewal that lands while the lease is held gives the holder a whole time to live from then on. |
| `DepotLock.LateRenewalStops` | apps/api/src/lib/depot-lock.ts:77-85 | One that lands too late changes no key, and if its answer arrives the holder sends no more. |
| `DepotLock.FinishedLockIsFree` | apps/api/src/lib/depot-lock.ts:87-95 | A holder that finishes sends a release; when it is delivered the key is free, and the next one to ask holds it. |
| `DepotLock.CrashedLockExpires` | apps/api/src/lib/depot-lock.ts:67-75 | After a crash the key is free once its time to live is over, and the next one to ask holds it. |
| `Banlist.Expiry` | apps/api/src/lib/banlist-publish.ts:40-61 | A temporary ban ends after it was issued and within the range of dates; everything else is permanent. |
| `Banlist.Units` | apps/api/src/lib/banlist-publish.ts:16-27 | The units are exactly second, minute, hour, day, week, month and year: 1000 milliseconds, 60 seconds, 60 minutes, 24 hours, 7, 30 and 365 days. |
| `Banlist.ExpiryOfWritten` | apps/api/src/lib/banlist-publish.ts:15-61 | A written length lasts the number times the unit, days without one, whatever white space is around it; zero and ends beyond the dates mean permanent. |
| `Banlist.UnwrittenIsPermanent` | apps/api/src/lib/banlist-publish.ts:47-50 | A ban ends only when its trimmed length is a number or a number with a known unit. |
| `Banlist.Best` | apps/api/src/lib/banlist-publish.ts:144-149 | Among candidates ordered by recency, the chosen one is permanent if any is, else ends last; ties go to the most recent. |
| `Banlist.Choose` | apps/api/src/lib/banlist-publish.ts:135-149 | A player's choice is that one among the unreverted, unexpired rows the scope admits, and there is none exactly when there is no such row. |
| `Banlist.CandidateExactly` | apps/api/src/lib/banlist-publish.ts:128-143 | A row can be published exactly when it is not reverted and never ends, or ends later and temporary bans are asked for. |
| `Banlist.ChosenExactly` | apps/api/src/lib/banlist-publish.ts:144-149 | The chosen row never ends if any candidate does not; otherwise none ends later; and of those that end with it none is more recent. |
| `Banlist.BuildBanlistEntries` | apps/api/src/lib/banlist-publish.ts:117-156 | One entry per player with a candidate row, in the order of the players, each with the details, the time of issue and the computed end of the row chosen among all the player's rows. |
| `Banlist.OrderDoesNotMatter` | apps/api/src/lib/banlist-publish.ts:112-115 | When no player has two rows that could be published issued at the same time, any order of the input rows gives the same list. |
| `Banlist.LoadModerationBanStates` | apps/api/src/lib/moderation-ban-state.ts:52-59 | The fold has a state exactly for the players with an active ban, permanent exactly when one of those never ends. |
| `Banlist.ListAgreesWithStates` | apps/api/src/lib/moderation-ban-state.ts:6-12 | At the same instant the list's players under each scope are exactly the active and the permanent players of the fold, and an entry is permanent exactly when its player is. |
| `Shutdown.InvKept` | packages/shared-config/src/graceful-shutdown.ts:29-91 | Every signal, request, readiness, disposal, cleanup step and worker continuation keeps the invariant. |
| `Shutdown.ShutdownIsOrderly` | packages/shared-config/src/graceful-shutdown.ts:29-91 | In every run the cleanup is called at most once, only after both a signal and readiness and for the first signal; exit is called at most once; every request resolves to that exit code and to nothing else; and once the cleanup has begun no interval is armed. |
| `Shutdown.NothingIsTakenBack` | packages/shared-config/src/graceful-shutdown.ts:65-68 | The first signal, every promise handed out and the exit stay as they are. |
| `Shutdown.ExitIffHandlerReturns` | packages/shared-config/src/graceful-shutdown.ts:47-62 | A cleanup that ends leads to exit, exactly unless it failed and the error handler threw; then exit never comes. |
| `Shutdown.FirstRequestCounts` | packages/shared-config/src/graceful-shutdown.ts:65-74 | In every run the signal the cleanup is for is the first one asked for: a request, or a process signal while the listeners are installed. |
| `Shutdown.EveryRequestIsAnswered` | packages/shared-config/src/graceful-shutdown.ts:42-74 | A request gets the cleanup's promise when the process is ready and the shared one before; a signal that arrives while listening is a request, and any other changes nothing. |
| `Shutdown.CleanupLeadsToExit` | packages/shared-config/src/graceful-shutdown.ts:47-62 | A cleanup that is due can be called and end, and then exit is called with its code and every request resolves to it. |
| `Shutdown.WorkerArmsExactly` | packages/worker-kit/src/run-worker.ts:300-315 | The worker waits until it is ready, and then arms one interval per job exactly unless a shutdown was requested. |
| `Shutdown.Controller.Run` | packages/shared-config/src/graceful-shutdown.ts:42-63 | Joins the running cleanup, waits, or schedules the cleanup once both are there. |
| `Shutdown.Controller.HandleRequest` | packages/shared-config/src/graceful-shutdown.ts:65-68 | Remembers the first signal and hands out the promise; the new state is the machine's. |
| `Shutdown.Controller.OnSignal` | packages/shared-config/src/graceful-shutdown.ts:69-74 | A signal is a request while the listeners are installed and nothing after they are removed; the new state is the machine's. |
| `Shutdown.Controller.BecomeReady` | packages/shared-config/src/graceful-shutdown.ts:81-84 | Readiness schedules a cleanup that was asked for earlier, or resolves at once; the new state is the machine's. |
| `Shutdown.Controller.CallCleanup` | packages/worker-kit/src/run-worker.ts:253-257 | The cleanup clears every interval first; the new state is the machine's. |
| `Shutdown.Controller.SettleCleanup` | packages/shared-config/src/graceful-shutdown.ts:49-61 | The exit code resolves every waiting request, or the failed handler leaves them waiting; the new state is the machine's. |
| `Shutdown.Controller.ArmIntervals` | packages/worker-kit/src/run-worker.ts:306-315 | Intervals are armed, one per job, unless a shutdown was requested; the new state is the machine's. |
| `Blame.ApplyScript` | apps/api/src/lib/blame.ts:75-98 | Applying an edit script carries over the entries of kept lines, in place, and attributes added lines to the version. |
| `Blame.ComputeBlame` | apps/api/src/lib/blame.ts:48-107 | One entry per line of the newest version's content, with its text and the id, author and time of the version found by following the line back through the versions that kept it; nothing exactly when a diff's time is up. |
| `Blame.OriginHasTheLine` | apps/api/src/lib/blame.ts:25-36 | The version a line is attributed to, and every version since, contains the line. |

## Left out

- Real Postgres, Redis, sockets and files; JSON, schema validation and the execution of regular expressions; logging, metrics, HTTP plumbing and route permissions. Fewer refusals are modelled than the routes make, so the role theorems cover more runs than the panel allows.
- SHA-256: a parameter with 32-byte results. `AuditChain.HeadPinsHistory` asks for no collision among the texts the two chains hash, since no function to 32 bytes is injective on all texts.
- The Gregorian calendar: month, day of month and day of week are any functions of the day number; only the minimum interval fixes the day of week of each day.
- Text is a sequence of Unicode characters; limits that the code counts in UTF-16 units (128 for a layer name) are counted in characters.
- BannedNames.ScannerDecides: covers pattern trees with the constructs the scanner knows, as a pattern without the unicode flag reads them; group names are ASCII.
- Outbox.DeletedStreamStaysEmpty: one delete per server; a repeated delete of an already deleted server, the removal of old rows and the consumer group are not modelled.
- The result record, host clean-up phases and status key of the soft-delete; its transaction and the UNLINK are steps of `Outbox`, in the code's order, rather than one imperative routine.
- OutboxRelay.OutboxTable.Relay: one relay without concurrent inserts; concurrent relays are in `Outbox`.
- BridgeClient.UnsettledExactlyWhilePending: the retry wrapper appears as its two attempts and the dropped socket; back-pressure and typed call wrappers are not modelled; within one frame, the listeners it notifies come after it.
- RoleChanges.NobodyExceedsTheStart: one-way; a run that writes an edit over another edit may still stay within bounds. Each check reads the database in one step. The bulk routes, which look up a role's members again when they write, and the separate ceiling check, which only refuses more, are not modelled.
- Media.ActiveFilesAlwaysPresent: one lock per path, although the code locks a hash of the path; the publisher worker that releases files is not modelled.
- AdminsRead.ReadBack: ids hold no colon, slash or line break and permission keys no comma, as the database has them; the reader is the plain reading of the file's syntax, not the game server's own code.
- AdminsCfg.SameBytesInAnyOrder: `localeCompare` is any total order of texts; the SHA-256 of the body is not modelled.
- Banlist.BuildBanlistEntries: when two rows of one player have the same time, which of them is published is left open. Rounding of amounts too large for the date range is not modelled; they are permanent either way.
- CoPresence.ComputeCoPresence: times are whole milliseconds.
- Shutdown.ShutdownIsOrderly: an exit function that throws is not modelled.
- Blame.ComputeBlame: the diff library is any valid edit script; the time budget is whether a script comes back.
- DepotLock.AtMostOneHolder: time is that of Redis; the renewal interval itself is a step that may come at any time.
- The scanner for chat flag rules, a second one of the same kind; Discord, Steam and OAuth clients; sessions; RCON workers: they would add members of the same kinds or depend on wall-clock timing.
