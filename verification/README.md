# Verified model of the file transfer, its signaling server and its wire formats

This project models in Dafny the state machines and the exact arithmetic of the peer-to-peer file
transfer, and proves what they promise over every run and every input:

- the transfer between a sender and a receiver over two channels (`Frames`, `SenderMachine`,
  `ReceiverMachine`, `TransferSessions`, and the theorems in `AllOrNothing`, `Acknowledgements`,
  `AcceptedFiles`, `Integrity`, `Replies`, `Agreement`, `Settling`, `Stages`, `Delivery`,
  `DeliveryTheorems`, `ControlWaiter`, `ChunkLoops`, and for a browser that sends `BrowserSender`,
  `BrowserTheorems`, `BrowserSessions`);
- the signaling server's rendezvous of waiting receivers and senders (`RelayPolicy`, `Rendezvous`,
  `SignalingServer`, and the theorems in `RendezvousInvariants`, `RendezvousTheorems`,
  `RendezvousEffects`, `RendezvousService`);
- the rate limiter (`RateLimit`);
- the accounting, printing, padding and base64 of encrypted JSON, chunk frames and nonces (`Utf16`,
  `Utf8Decoder`, `JsonPreflight`, `JsonReader`, `JsonRoundTrip`, `Base64`, `Padding`, `ChunkFrames`);
- the queue of early ICE candidates (`SignalWire`);
- safe and collision-free file names (`FileNames`).

How to read it. A component that changes state step by step appears twice: as a pure step function
over a record of its fields, on which runs are defined and theorems proved, and as a class whose
methods update fields in place, each with the contract that its new state is what the step
function says, and the main ones with what that means for the caller. `dafny verify dfyconfig.toml` checks everything.

The transfer is modelled with one step per await point. A sender and a receiver exchange messages
through three queues (control in both directions, bulk one way); any step may interleave with any
other, and failures, closed channels, timeouts, lost queues, forged words, changed files and the
cleanup loop may strike between any two steps. SHA-256 is an unknown function. Two theorems assume
anything about it: `AgreementOnBytes` that the digests of the sent files do not collide, and the
delivery theorems that a trusted resume prefix does not.

What the code does where its surroundings might expect otherwise:

- The branch of `restoreWaitingReceiver` that merges with an existing waiting entry cannot run in any
  reachable state (`PairedReceiverIsNotWaiting`).
- `safeFileName` never yields a hidden name at its default limit; no name becomes a hidden one exactly
  at the permitted limits from 36 bytes on (`NeverHidden`, `HiddenBelow36`, `VisibleExactlyFrom36`).
- A safe name that had to be cut can be that of a Windows device, at every permitted limit: the cut
  removes what told it from one (`DeviceAfterCut`). One that fits never is (`UncutIsNoDevice`).
- The browser trusts a resume prefix by what the file holds now; the command line's sender also
  checks it against the chunk digests of its plan (`HashBrowserPrefix`, `HashSendPrefix`). So a step of
  the browser that reads a prefix in full is one of the sender machine exactly if that prefix earns the
  verdict the plan's would (`VerifyMirrorsExactly`). Agreement and the single use of every chunk hold
  of the browser whatever it reads (`BrowserAgreement`).
- Pruning the rate limiter's logs changes no decision of any run exactly if the pruning window is
  not shorter than the one that counts, or not positive (pruning then does nothing), or no hit is
  ever allowed (`PruningHarmlessExactly`, with a run for every other case in
  `ShortPruningForgets`); the server always prunes with the same window.

## Model

| member | source | states |
|---|---|---|
| DeliveryTheorems.DeliveryTheorem | src/cli/transfer.ts:134-187 | in every interleaving of the two ends and the queues, with unchanged files, no closure and any partial files, no check of either side fails, each file is restarted at most once, and a returned sender means every file published with exactly the sender's bytes |
| DeliveryTheorems.ProgressTheorem | src/cli/transfer.ts:134-187 | such a run never deadlocks before the sender returned, and runs without idle steps have a bound fixed at the start: the transfer always completes |
| DeliveryTheorems.StageStep | src/cli/transfer.ts:498-611 | refinement: each step of the two machines and their queues, the receiver's sub-steps included, is one step of the small stage machine or none |
| DeliveryTheorems.RestartedOnce | src/cli/transfer.ts:201-222 | restarts go up strictly by file, so no file is restarted twice |
| DeliveryTheorems.StepFalls | src/cli/transfer.ts:134-187 | every step that changes anything leaves strictly less work |
| Delivery.CheckingProceeds | src/cli/transfer.ts:201-222 | a resume offset is trusted exactly if the prefix digests agree, and then the receiver's state is that of whole chunks of this file; otherwise the file is restarted |
| Delivery.TakesFileEnd | src/cli/transfer.ts:557-563 | the digest may overtake the last chunks: the file is finished at once or when the last of them arrives |
| Delivery.ChunkTaken | src/cli/transfer.ts:582-606 | the next chunk extends the partial by exactly that chunk, and finishes the file if it is the last and the digest is known |
| Delivery.FinalizeAt | src/cli/transfer.ts:679-729 | finalizing a complete file publishes the sender's bytes, verifies and acknowledges them |
| Stages.TrustedIsPartial | src/cli/transfer.ts:539 | a trusted partial is a run of whole chunks and the expected sequence number is that of the next one |
| Settling.SettleFinalize | src/cli/transfer.ts:679-729 | undisturbed, the sub-steps of maybeFinalize end in the acknowledged state |
| Settling.WorkLowersRank | src/cli/transfer.ts:498-611 | every handler ends after a bounded number of sub-steps |
| Agreement.AgreementTheorem | src/cli/transfer.ts:184-187 | whatever fails: a sender that returned left a receiver that completed and keeps every file, and each file the sender went past was published and verified against the sender's digest |
| Agreement.AgreementOnBytes | src/cli/transfer.ts:679-729 | with untampered final files and no digest collision these files hold exactly the sender's bytes |
| Agreement.NetStepKeeps | src/cli/transfer.ts:87-110 | the pair's invariant: words on the way back were sent, digests and manifest known to the receiver are the sender's |
| AllOrNothing.StepKeeps | src/cli/transfer.ts:679-729 | every sub-step, failure, tampering and cleanup step keeps the all-or-nothing invariant |
| AllOrNothing.PublishReturnsKeeps | src/cli/transfer.ts:697-705 | what was just published is remembered, and if the transfer failed meanwhile the handler goes on to remove that final file |
| AllOrNothing.RemovalKeeps | src/cli/transfer.ts:746-750 | a removal by the cleanup loop leaves no final file of the visited file |
| Acknowledgements.AllOrNothingTheorem | src/cli/transfer.ts:615-643 | never failed and completed both; when handler and cleanup are over, either every manifest file is published or no final file is left |
| Acknowledgements.AcknowledgementTheorem | src/cli/transfer.ts:394-403 | `file-ok` and `all-done-ok` are sent only for published files whose bytes had the announced digest when read back |
| Acknowledgements.StepKind | src/cli/transfer.ts:498-611 | every step is silent, a word, an expected digest, one acknowledgement, or the completion |
| Acknowledgements.CompletedForEver | src/cli/transfer.ts:438-450 | nothing that happens after completion undoes it or removes a file |
| AcceptedFiles.OnlyAcceptedFiles | src/cli/transfer.ts:504-513 | over every run: once a file is begun, a final file exists or the transfer has completed, the manifest is the one the user accepted and within the limits, and every file is one of its entries, of the announced size |
| AcceptedFiles.OtherManifestRefused | src/shared/transfer.ts:108 | once the first manifest to arrive is not the accepted one, no later event ever begins, publishes or completes anything |
| AcceptedFiles.OutOfTurnRefused | src/cli/transfer.ts:498-611 | a sound message is refused exactly if it is out of turn, by what the receiver was told before; name and size of a begun file are those of the manifest |
| AcceptedFiles.ErrorThrows | src/cli/transfer.ts:498-611 | any await of a handler that comes back with an error makes the handler throw, having changed nothing but what the failed step itself undoes |
| AcceptedFiles.ErrorFails | src/cli/transfer.ts:438-450 | and what a handler throws fails a transfer that has not completed |
| AcceptedFiles.FailureIsTold | src/cli/transfer.ts:438-450 | the sender is told by a last `abort`, if the channel is open, and the channel is closed |
| Replies.ReserveOutcome | src/cli/files.ts:283-286 | a reserved file begins with the greatest prefix of the partial file found that is a valid offset, if resuming was asked for, and empty otherwise; its length and digest are what the sender is told |
| Replies.OffersAreAsked | src/cli/transfer.ts:517-547 | over every run: only a receiver that was asked to resume offers an offset, and never without a digest |
| Replies.SilentOnceClosed | src/cli/transfer.ts:646-650 | over every run: once the channel closes nothing more is said, acknowledged or completed, whatever comes |
| Replies.PublishOutcome | src/cli/transfer.ts:679-705 | whatever happened to the partial file, it is published as it is, exactly if the operation succeeds and it still has the announced size |
| Integrity.PublishedAsAnnounced | src/cli/transfer.ts:679-705 | over every run: every final file was received in full, and the bytes received have the announced digest |
| Integrity.FinalsAsAnnounced | src/cli/transfer.ts:679-705 | if nobody else changes the receiver's files: at every moment, failed transfers included, every final file has the announced size and digest |
| TransferSessions.ReceiveSession.OnChunk | src/cli/transfer.ts:582-606 | a chunk is taken only for an unfinished file and with the expected number, extends that file alone and never beyond its size; any other is refused without a trace |
| TransferSessions.ReceiveSession.MaybeResolveDone | src/cli/transfer.ts:394-403 | the loop over all states decides completion |
| TransferSessions.ReceiveSession.FinalDigested | src/cli/transfer.ts:705-729 | the acknowledgement is sent only for a file now done whose final bytes have the announced size and digest, while nothing failed and the channel is open |
| TransferSessions.ReceiveSession.SafeWork | src/cli/transfer.ts:498-611 | each handler step keeps all-or-nothing, honest acknowledgements, only accepted files, and only files received with the announced digest |
| TransferSessions.ReceiveSession.CleanUp | src/cli/transfer.ts:615-643 | run beside any handler in flight: after a failure it leaves no final file but the one that handler is just making, after completion it removes nothing and every manifest file is there |
| TransferSessions.ReceiveSession.FinishHandler | src/cli/transfer.ts:697-705 | after that the handler ends, whatever its steps meet, and no final file is left |
| TransferSessions.SendSession.OnControl | src/cli/transfer.ts:87-110 | whatever word comes, the waiter's armed waits and failure stay those of the loop, and sealed chunks stay unrepeated chunks of the plan |
| TransferSessions.SendSession.Proceed | src/cli/transfer.ts:114-189 | so does every step of the loop over files and chunks |
| TransferSessions.SendSession.OnTimeout | src/shared/control-waiter.ts:32-50 | and so does a wait that times out; the loop leaves with an error and seals nothing more |
| TransferSessions.SendSession.VerifyReadyState | src/cli/transfer.ts:201-222 | throws exactly on an invalid offset; streams from the resumed chunk exactly if the prefix digests agree or nothing was resumed; else waits for a restart |
| ControlWaiter.ControlAckWaiter.Mark | src/shared/control-waiter.ts:22-30 | resolves exactly the armed wait, tells whether there was one, and settles no promise twice |
| ControlWaiter.ControlAckWaiter.Wait | src/shared/control-waiter.ts:32-50 | an armed wait is shared; after a failure the promise is rejected at once |
| ControlWaiter.ControlAckWaiter.Fail | src/shared/control-waiter.ts:52-60 | the first failure rejects every armed wait and nothing else, later ones change nothing |
| SenderMachine.NoChunkSealedTwice | src/cli/transfer.ts:143-182 | whatever the receiver sends, the chunks sealed in one run are chunks of the plan, strictly increasing: none twice |
| SenderMachine.WordOutcome | src/cli/transfer.ts:87-110 | a word of the receiver fails the sender exactly if it is none that is waited for: an abort, a damaged one, or an acknowledgement out of turn |
| SenderMachine.FailureIsFinal | src/cli/transfer.ts:77-114 | a sender that failed before completion never returns normally and seals nothing more, whatever comes |
| SenderMachine.TroubleDooms | src/cli/transfer.ts:77-114 | an unexpected word, a failing channel, a timeout and a changed file each fail it |
| SenderMachine.LeavingIsTold | src/cli/transfer.ts:184-189 | a sender tells the receiver exactly when a step leaves the loop with an error |
| ChunkFrames.NoNonceTwice | src/shared/security.ts:535-560 | so no two sealed chunks share a nonce under the bulk key |
| ChunkFrames.NonceIsInjective | src/shared/security.ts:973-979 | different file ids or sequence numbers give different nonces |
| ChunkFrames.ChunkNonce | src/shared/security.ts:973-979 | the buffer filled in place is that nonce |
| ChunkFrames.NonceLayout | src/shared/security.ts:973-979 | its twelve bytes are the file id, seven zeros, and the sequence number, most significant byte first |
| ChunkFrames.EncodeChunk | src/shared/chunks.ts:14-26 | writes exactly the frame, and refuses exactly ids, numbers and payloads out of range |
| ChunkFrames.FrameLayout | src/shared/chunks.ts:14-26 | a frame is the file id, number and length with the most significant byte first, and the payload |
| ChunkFrames.FramesRoundTrip | src/shared/chunks.ts:28-39 | a byte string decodes to a frame exactly if the frame is valid and encodes to these bytes |
| Frames.SendFromOffset | src/cli/transfer.ts:138-182 | for every chunk size: the command-line loop sends only chunks of the plan with consecutive numbers, on changed files too; on an unchanged file and a valid offset it sends all frames from the receiver's expected one on |
| Frames.SendWithSkip | src/web/main.ts:556-594 | the browser's loop that skips from byte zero also sends only chunks of the plan with consecutive numbers, and on an unchanged file and a valid offset the same sequence of frames |
| ChunkLoops.MachineSendsFrames | src/cli/transfer.ts:143-182 | the streaming steps of the sender machine send exactly the frames the file still owes |
| ChunkLoops.SendFileFromOffset | src/cli/transfer.ts:143-182 | on a trusted offset the command-line loop sends what the machine sends |
| ChunkLoops.SendFileWithSkip | src/web/main.ts:556-594 | and so does the browser's loop |
| ChunkLoops.LoopsRepeatNoNonce | src/shared/security.ts:973-979 | a sender that runs either loop once for every file repeats no nonce, in one of up to 256 files or across them, whatever they turn into while it sends, as long as chunk numbers fit the frame header |
| BrowserTheorems.EveryBrowserRunMirrors | src/web/main.ts:478-616 | refinement: unless digests mislead it, every run of a browser's sender with a receiver is a run of the two machines, with the same words, chunks and receiver, skipped chunks being no step and a file found changed a change of the source |
| BrowserTheorems.BrowserAgreement | src/web/main.ts:478-616 | whatever fails and whatever its reads return: a browser that returned left a receiver that completed and keeps and verified every file against the plan's digest, and it sealed no chunk twice |
| BrowserTheorems.BrowserAgreementOnBytes | src/web/main.ts:478-616 | with untampered final files and no digest collision these hold exactly the plan's bytes |
| BrowserTheorems.BrowserDelivery | src/web/main.ts:542-604 | undisturbed and with an unchanged file no check on either side fails, no file is restarted twice, and a browser that returned delivered its bytes |
| BrowserTheorems.BrowserProgress | src/web/main.ts:542-604 | such a run never deadlocks before the browser returned, and runs without idle steps are bounded by the command line's bound and one more step for each chunk |
| BrowserSender.AdvanceMirrors | src/web/main.ts:542-604 | each step skips a chunk the receiver has, or is the sender machine's next step with the same output, or notices a changed file |
| BrowserSender.ReadMirrors | src/web/main.ts:556-594 | one turn over a chunk: skipped below the resumed chunk, sealed as the plan has it from there on, and given up exactly on bytes that are not the plan's |
| BrowserSender.VerifyMirrorsExactly | src/web/main.ts:631-652 | a prefix read in full leads where the machine goes if and only if it earns the verdict the plan's prefix would |
| BrowserSender.HashBrowserPrefix | src/web/main.ts:654-665 | the digest of exactly the prefix, failing exactly if the file is too short |
| BrowserSessions.BrowserSession.Proceed | src/web/main.ts:542-604 | a step of the browser's sender on its own variables is such a step, and the loop's counters stay in step with the file |
| Frames.HashSendPrefix | src/cli/transfer.ts:237-260 | on success the prefix was read back and every piece of it has the plan's chunk digest; it succeeds on every unchanged file and valid offset |
| Frames.HashFile | src/cli/files.ts:506-528 | yields the digests of the file and of every chunk, exactly if size and snapshot are unchanged after reading |
| Frames.FramesCoverTheRest | src/cli/transfer.ts:143-182 | frames from a chunk on are consecutive, not empty, at most a chunk long, and joined are the rest of the file |
| Frames.ResumeBytes | src/cli/files.ts:283-286 | the truncation of a partial, step by step, is the closed form of the browser |
| Frames.ResumeIsGreatest | src/web/main.ts:2406-2412 | for every chunk size the resume offset is valid and the greatest valid one within the partial |
| Frames.StartOfValid | src/cli/transfer.ts:539 | for every chunk size a valid offset is the start of the chunk it resumes at, zero-length and complete files included |
| RendezvousTheorems.OnePlace | src/server/index.ts:613-649 | a registration is in one place at a time, and there remaining attempts plus connects served is 3 and the expiry its first one |
| RendezvousTheorems.AtMostThreeClaims | src/server/prepair-attempts.ts:3-16 | at most three senders ever claim one registration, over any run |
| RendezvousTheorems.RegistrationForLife | src/server/index.ts:613-659 | no later event extends its expiry, changes its code, or revives a dead one |
| RendezvousTheorems.PeerInOnePlace | src/server/index.ts:396-507 | whoever waits is an unpaired receiver registered under that code; no peer waits twice, is in two sessions, is both peers of one, or waits while paired; a peer's sid names the live session it is in |
| RendezvousTheorems.RelayedInOrder | src/server/index.ts:509-555 | delivered messages of every session are in protocol order, each non-candidate kind once per peer, at most 1032 in all |
| RendezvousTheorems.DeadlineNeverPast | src/server/session-expiry.ts:4-15 | with timely messages the deadline stays within one exchange and two decisions of the creation |
| RendezvousService.DeadlineMoves | src/server/session-expiry.ts:9-15 | no event moves the deadline of a session but a request or an acceptance of one of its peers, which sets it to one pairing time from then |
| RendezvousTheorems.CapacityNeverExceeded | src/server/capacity.ts:1-7 | both capacities hold in every reachable state although restoring checks none |
| RendezvousTheorems.StepFollows | src/server/index.ts:408-507 | each step makes at most one registration, serves at most one, and revives none |
| RendezvousService.RegisterOutcome | src/server/index.ts:396-435 | in a reachable state a registration is made exactly for an unpaired peer that is no sender, with a free code and room for it; the peer then waits there only, with the full budget, and nobody else changes; otherwise nothing happens, but that the peer's own expired entry goes |
| RendezvousService.ConnectOutcome | src/server/index.ts:437-507 | a connect pairs exactly when the receiver still waits, can be reached and there is room; it takes the entry and one attempt of its budget and pairs these two peers; otherwise nothing happens, but that a stale entry goes |
| RendezvousService.RelayOutcome | src/server/index.ts:509-574 | a peer's message is passed on, once, exactly if the messages delivered before allow it, its manifest is in order and the other peer can be reached; a request and an acceptance then set the deadline anew and no other message does, a rejection lets both peers go; and what becomes of the session if it is not passed on |
| RendezvousService.RestoreOutcome | src/server/index.ts:613-659 | a receiver gets its place back, with the same registration, expiry and budget, exactly if its code is free, its budget is not used up and it is still there; the sender is let go, and nobody else's code changes |
| RendezvousService.SenderLossOutcome | src/server/index.ts:576-588 | a sender that disconnects before pairing is decided leaves the receiver waiting as before |
| RendezvousEffects.LeaveOutcome | src/server/index.ts:576-588 | a peer that leaves waits nowhere and is in no session; an undecided sender's receiver gets its place back, otherwise the other peer is let go; nobody else notices |
| RendezvousEffects.DisconnectOutcome | src/server/index.ts:576-588 | so does one whose socket closes, and it is released |
| RendezvousEffects.ByeOutcome | src/server/index.ts:383-387 | a bye leaves and closes, unless it is the retry of a receiver whose pairing is not decided |
| RendezvousEffects.BadMessageOutcome | src/server/index.ts:843-857 | a bad message costs an undecided sender its session; it is counted against anybody else, and the third closes the socket |
| RendezvousEffects.GateOutcome | src/server/index.ts:205-212 | a closed or released peer is not heard, one that sends too much is closed |
| RendezvousEffects.SocketOutcome | src/server/index.ts:170-199 | a new socket is an unpaired peer of no role, open unless its address has too many; an idle one is closed exactly if it did nothing yet; a closing socket takes no other peer along before its cleanup |
| RendezvousEffects.SweptCode | src/server/index.ts:220-229 | an expired entry goes and its receiver is let go; any other entry stays and nothing changes |
| RendezvousEffects.SweptSession | src/server/index.ts:230-240 | an expired session goes, with both peers unless its receiver can wait on; any other stays and nothing changes |
| RendezvousInvariants.StepKeeps | src/server/index.ts:370-388 | every message, disconnect, timeout and sweep step keeps links, registrations, phases and capacities |
| RendezvousInvariants.PairedReceiverIsNotWaiting | src/server/index.ts:613-649 | a paired receiver is never also waiting, so the merge branch is dead |
| RendezvousInvariants.RestoreKeeps | src/server/index.ts:613-649 | restoring a receiver keeps all of it |
| RendezvousInvariants.ConnectKeeps | src/server/index.ts:437-507 | so does claiming a waiting code |
| RendezvousInvariants.RelayKeeps | src/server/index.ts:509-555 | so does relaying, rejecting and failing to deliver |
| RelayPolicy.AllowedExactlyWhenMayFollow | src/server/policy.ts:43-97 | the flags let a message through exactly if the messages delivered before allow it |
| RelayPolicy.ApplyKeepsMatches | src/server/policy.ts:99-115 | delivered messages and flags stay in step |
| RelayPolicy.OrderedLogBounds | src/server/policy.ts:67-97 | an ordered log has at most 1032 messages, one decision, and each kind within its bound |
| SignalingServer.Server.OnMessage | src/server/index.ts:370-388 | every handler, on the server's maps, keeps links, registrations, phases and capacities |
| SignalingServer.Server.OnRegister | src/server/index.ts:396-435 | on the server's maps, the peer waits under the code exactly if it was unpaired, no sender, and the code and room were free; nobody else's entry changes |
| SignalingServer.Server.OnConnect | src/server/index.ts:437-507 | on the server's maps, a session appears exactly if the receiver still waits, can be reached and there is room; the entry and one attempt are taken |
| SignalingServer.Server.OnRelay | src/server/index.ts:509-574 | on the server's maps, the message is passed on, once, exactly if the messages before it allow it and the other peer can be reached, with the same effect on the session and its deadline |
| SignalingServer.Server.OnDisconnect | src/server/index.ts:576-588 | a closed socket keeps the invariant |
| SignalingServer.Server.Sweep | src/server/index.ts:220-240 | one tick of the expiry timer leaves no expired code and no expired session, lets go the receivers of the expired codes, and leaves every unexpired entry and session as it was, peers included |
| SignalingServer.RestoreEffect | src/server/index.ts:613-649 | restoring removes that session only and brings back that code only, with its old expiry |
| SignalingServer.SweepSessionEffect | src/server/index.ts:230-240 | sweeping a session expires it and brings back no expired code |
| RateLimit.RecordHit | src/server/rate-limit.ts:11-25 | the backward scan, reversal and splice compute the bounded tail of the window, corrupt entries and bad inputs included |
| RateLimit.RetainRecent | src/server/rate-limit.ts:43-58 | keeps the longest sound recent tail |
| RateLimit.BadLogRefused | src/server/rate-limit.ts:11-25 | bad inputs are refused and forgotten, and a log with a corrupt entry among the hits that count is refused and starts again |
| RateLimit.Limiter.Hit | src/server/rate-limit.ts:5-9 | records the hit in the key's log and nothing else |
| RateLimit.Limiter.Prune | src/server/rate-limit.ts:35-58 | cuts every log to its longest sound recent tail and leaves no empty log |
| RateLimit.LogDecidesLikeHistory | src/server/rate-limit.ts:11-25 | after any hits and prunings the truncated log decides as the full history would, and holds at most maxHits + 1 entries |
| RateLimit.NeverTooManyAllowed | src/server/rate-limit.ts:11-25 | no interval of one window holds more than maxHits allowed hits of a key |
| RateLimit.PruneKeeps | src/server/rate-limit.ts:35-58 | pruning with a window not shorter than the limiter's changes no later decision |
| RateLimit.PruningHarmlessExactly | src/server/rate-limit.ts:35-58 | pruning with w leaves every decision of every run as the full history has it if and only if w >= window, w <= 0 or the limit is zero |
| RateLimit.ShortPruningForgets | src/server/rate-limit.ts:35-58 | for every shorter positive window and every positive limit, a run after which one hit too many is allowed |
| JsonPreflight.Budget.Visit | src/shared/security.ts:693-710 | passes exactly the values within bytes, nodes, depth and array length, and charges exactly their cost |
| JsonPreflight.Budget.VisitArray | src/shared/security.ts:725-739 | the same for arrays, holes and unset items included |
| JsonPreflight.Budget.VisitRecord | src/shared/security.ts:741-755 | the same for objects, omitted and hidden properties included |
| JsonPreflight.Budget.AccountText | src/shared/security.ts:808-826 | charges a string literal exactly, escapes and lone surrogates included |
| JsonPreflight.CostIsPrinted | src/shared/security.ts:765-806 | the charge is the UTF-8 length of what the printer prints |
| JsonPreflight.NodesAreParts | src/shared/security.ts:693-755 | the nodes charged are the parts of the value, one each |
| JsonPreflight.HeightIsDeepest | src/shared/security.ts:693-755 | the height charged is that of its deepest part |
| JsonRoundTrip.StringifyJsonValue | src/shared/security.ts:681-686 | prints exactly the encryptable values, the check of the size after printing never fails, and whoever decodes and reads the text gets what JSON can hold of the value |
| JsonRoundTrip.PrintReadsBack | src/shared/security.ts:765-806 | a reader of RFC 8259 gets back from the printed text exactly the value's part that JSON can hold: unset slots null, omitted properties absent |
| JsonRoundTrip.PrintDecodes | src/shared/security.ts:653-662 | and a strict decoder of RFC 3629 gets back that text from its bytes, lone surrogates in the value notwithstanding |
| Utf16.CountUtf8 | src/shared/limits.ts:208-229 | counts the bytes of the UTF-8 encoding, lone surrogates included |
| Padding.PadWrapper | src/shared/security.ts:510-517 | whenever the unpadded wrapper prints within the limits, the padded one prints to exactly the target, and reads as the tag, the payload and padding |
| Padding.TargetIsLeast | src/shared/security.ts:519-523 | the target is the least positive multiple of 4096, or the maximum, not below the length |
| Padding.SealedLengthIsOneOf36 | src/shared/security.ts:341-354 | the sealed length of a padded value is that of its bucket, one of 36, and within the text limit |
| Padding.SameBucketSameLength | src/shared/security.ts:341-354 | two sealed values have the same length exactly if their buckets are the same |
| Padding.LimitsAgree | src/shared/security.ts:74 | a plaintext is within the byte limit exactly if its sealed text is within the text limit |
| Padding.SealJson | src/shared/security.ts:653-679 | seals exactly the encryptable values, its size checks never fail, the text opens to nonce and ciphertext, and the plaintext decodes and reads as the value |
| Base64.CanonicalExactlyEncodings | src/shared/security.ts:1045-1064 | the predicate accepts exactly the encodings of non-empty byte strings |
| Base64.DecodeThenEncode | src/shared/security.ts:1035-1043 | decoding and encoding again is the identity |
| Base64.EncodeIsCanonical | src/shared/security.ts:833-835 | encodings are canonical, decode to the bytes, and have the computed lengths |
| Base64.EncodesBytesExactly | src/shared/messages.ts:461-488 | the message check accepts exactly the encodings of that many bytes |
| Base64.BytesRoundTrip | src/shared/security.ts:1027-1043 | decoding undoes encoding for every byte string that is not empty and fits |
| Base64.SymbolsInOrder | src/shared/security.ts:1056-1064 | the symbols are those of table 1 of RFC 4648 in its order |
| Base64.Rfc4648Examples | src/shared/security.ts:1027-1043 | the encodings of `foo`, `fo` and `f` in section 10 of RFC 4648 |
| SignalWire.EachCandidateOnce | src/cli/index.ts:943-983 | over every interleaving an accepted candidate is applied at most once, only after the remote description, and is applied or queued exactly once while the wiring is in use |
| SignalWire.NoneLeftBehind | src/cli/index.ts:977-979 | once the handler that set the description is through its drain loop, whatever other handlers are still doing, the queue is empty and all accepted candidates were applied, unless the wiring failed or was disposed of |
| SignalWire.OneDescription | src/cli/index.ts:964-976 | at most one description of the expected kind and at most one answer |
| SignalWire.NothingSwallowed | src/cli/index.ts:943-983 | over every interleaving an accepted description is set or its handler still waits for that; once all handlers are through it is set, every accepted candidate was applied, and an offer was answered exactly once by the side that answers, unless the wiring is over |
| SignalWire.MessageOutcome | src/cli/index.ts:943-963 | a message for this session gets a handler; when it has opened, it is taken if it is authentic and, by what was accepted before, welcome, and otherwise the connection fails |
| SignalWire.HandlersEnd | src/cli/index.ts:943-983 | every handler comes to its end |
| SignalWire.ErrorsEnd | src/cli/index.ts:943-997 | a failing socket and a failing step of a handler dispose of the wiring |
| SignalWire.OverForGood | src/cli/index.ts:917-931 | nothing is accepted, applied or answered after that |
| SignalWire.QueueIsFifo | src/cli/index.ts:977-979 | the queue grows at its end, and only its head moves on to the connection |
| SignalWire.StepKeeps | src/cli/index.ts:908-997 | every step between awaits keeps the invariant |
| SignalWire.Wiring.SafeResume | src/cli/index.ts:943-983 | a handler that goes on from its await, on the wiring's own fields, keeps every candidate applied or queued exactly once, and every accepted description set or on its way, and answered or to be answered |
| SignalWire.ReplayGuard.Accept | src/shared/signal-replay.ts:14-34 | accepts each expected description and each candidate once |
| FileNames.TrimToUtf8Bytes | src/shared/limits.ts:196-206 | the loop computes the trimmed prefix |
| FileNames.TrimIsLongest | src/shared/limits.ts:196-206 | which is the longest prefix of whole code points within the budget |
| FileNames.LeafName | src/shared/limits.ts:94-107 | the part after the last separator, not empty and without separators |
| FileNames.SafeFileName | src/shared/limits.ts:83-92 | for every string the safe form of its leaf, within the byte limit and without separators, or an error exactly for a bad limit |
| FileNames.LeafIsUnique | src/shared/limits.ts:94-107 | which leaf that is, is settled: a name has one at most, also beyond the input limit |
| FileNames.NeverHidden | src/shared/limits.ts:183-190 | from 36 bytes on the name is not empty and does not begin with a dot |
| FileNames.HiddenBelow36 | src/shared/limits.ts:183-190 | below that, a leaf that starts with a wide character and has a long ASCII extension becomes a hidden name, whatever characters and names are unsafe elsewhere, as long as cleaning leaves that leaf alone |
| FileNames.VisibleExactlyFrom36 | src/shared/limits.ts:83-92 | so no name becomes a hidden one if and only if the limit is at least 36 |
| FileNames.UncutIsNoDevice | src/shared/limits.ts:131-149 | a safe name that did not have to be cut is never that of a Windows device |
| FileNames.DeviceAfterCut | src/shared/limits.ts:183-190 | at every permitted limit one that was cut can be |
| FileNames.IsWindowsReservedName | src/shared/limits.ts:131-149 | the two loops find the name before the first dot, less its trailing spaces |
| FileNames.NoUnsafeUnit | src/shared/limits.ts:83-92 | for every input no character of one unit that is to be removed survives |
| FileNames.GoodNameKept | src/shared/limits.ts:83-92 | a clean, visible name within the limit that is no device's is kept as it is |
| FileNames.NothingLeftIsFile | src/shared/limits.ts:83-92 | a leaf of which nothing or one or two dots are left is called `file` |
| FileNames.UncutIsTrimmed | src/shared/limits.ts:83-92 | a name that did not have to be cut has no white space around it |
| FileNames.CollisionFits | src/shared/limits.ts:113-129 | every collision candidate is within the limit |
| FileNames.CollisionsDiffer | src/shared/limits.ts:113-129 | candidates 1 to 255 of one name are pairwise different, at every permitted limit |
| FileNames.CollisionShape | src/shared/limits.ts:113-129 | a candidate is the beginning of the name, the index in parentheses, and the beginning of its extension |

## Left out

- Server peers are named by ids instead of being shared objects; two fields that refer to the same peer are equal ids. Aliasing between distinct objects is not captured.
- Re-entrant cleanup inside the server's `send`: sending to an open socket succeeds, to any other it does nothing.
- Server counters of active connections, heartbeats (a missed one is a disconnect), shutdown, HTTP, static files and TURN credentials. Rate limits, TURN limits, and the checks of manifests are booleans given with each message.
- SignalingServer.Server.Sweep: one entry per step with a snapshot of the keys; entries restored during the sweep itself are not visited again, as they are not expired.
- Session and registration ids are fresh by assumption; registration ids exist in the model only.
- Delivery theorems: the queue limits of the receiver are not exceeded, and a read stream yields whole chunks.
- Agreement.AgreementOnBytes: assumes that nobody changes published files after their verification and that digests of the plan do not collide; without that, what is known is the digest.
- Frames.HashFile: the snapshots taken after reading are one boolean.
- Partial files in the all-or-nothing property, races of the file system, the fallback from link to copy, quarantine removal, ownership and mode checks. Removals succeed. Deletion of a final file by others is not modelled, changing its content is.
- TransferSessions: handlers run as tasks whose steps the surroundings call; the promise queue itself, timers and progress output are not modelled.
- The `mime` field of manifest entries, and the total-size and name checks of manifests.
- The browser's receiver; a browser that sends is paired with the command line's receiver. How its plan is built from `File` objects.
- BrowserTheorems.EveryBrowserRunMirrors: assumes that a read with the digest of a chunk is that chunk, and that a resume prefix read in full earns the verdict of the plan's; without the latter it is false, as BrowserSender.VerifyMirrorsExactly shows.
- JSON values are finite trees, so the set of objects being visited has nothing to detect; which of several errors is reported first is not stated.
- JSON.parse, AES-GCM, HKDF, HMAC, CPace and SHA-256: unknown functions with the lengths they guarantee.
- FileNames.SafeFileName: which code points are control, format or white space is left to unknown predicates. Repeating it is not claimed to change nothing. Lone surrogates on both sides of a removed character may join into a character that would have been removed (FileNames.NoUnsafeUnit).
- WebRtcSignalReplayGuard compares candidates by their replay key; how the key is built from the fields is not modelled.
- Option handling, output redaction, configuration and header parsing.
