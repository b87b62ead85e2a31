# Nyabase kernels in Dafny

Nyabase runs containers for its users behind an SSH jump proxy, an HTTP proxy and
an agent on every host. This project models the stateful kernels of those three
programs and proves what they keep over every sequence of their steps.

| kernel | files |
|---|---|
| SSH proxy: routing, revocation of sessions and bridges | `SshRouting`, `SshProtocol`, `SshRevocation`, `SshWitness`, `SshConnectionState` |
| SSH proxy: history outbox and its sending loop | `OutboxModel`, `OutboxSending`, `HistoryLog` |
| HTTP proxy: leased routing snapshots and authorizations | `HttpSnapshot`, `HttpHistory`, `HttpLease`, `HttpSnapshotStore` |
| HTTP proxy: re-framing chunked bodies | `ChunkedGrammar`, `ChunkedStream`, `ChunkedCanonical`, `ChunkedLanguage` |
| HTTP proxy: rewriting request heads | `HttpRequest`, `HttpRewrite`, `HttpFixedPoint`, `HttpHead` |
| Both proxies: connection limits and fair eviction | `ConnLimit`, `ConnInvariant`, `ConnFairness`, `ConnectionLimiter`, `MapSums` |
| Agent: egress-firewall keeper | `FirewallKeeper`, `FirewallConfirmed`, `FirewallWitness`, `FirewallSharing`, `GuestFirewall` |
| Agent: firewall rules, address sets, IPv4 arithmetic | `FirewallRules`, `Intervals`, `Ipv4`, `Powers` |
| Agent: change debouncer, operation ledger | `Recheck`, `OperationLedger` |

`Common`, `AsciiText` and `HttpText` hold shared types and text functions.
`dafny verify dfyconfig.toml` checks everything.

How the models are built:

- Concurrent code is a state machine with one step for each lock-protected region,
  atomic operation, or load together with the decision taken on the value loaded.
  Asynchronous code is cut at every `await`. Theorems quantify over every finite
  sequence of enabled steps.
- Code that changes objects in place is also written as a class whose methods are
  proved equal to the machine's step functions, and keep the machine's invariant
  where an answer owes its meaning to it.
- Clocks, sockets, nft, the file system and the order in which hash maps are
  visited are step parameters or inputs, so every outcome they can have is covered.
- `Arc::ptr_eq` is equality of ids that are never used twice.

What the proofs found about the code:

- SSH revocation. A finished revalidation pass leaves no unauthorized session or
  bridge un-aborted, with one exception: `abort` returns at once when another task
  has already set the revoked flag, so until that task reaches the session or the
  bridge the pass is over and the abort still to come.
  `SessionsAfterPass` and `BridgesAfterPass` say exactly when that is so, and
  `PassEndsBeforeOtherAbort` and `PassEndsBeforeBridgeAbort` build such runs from
  every snapshot with someone to open a session or a bridge. That a connection was
  unregistered is no exception: the list stays locked at least until its abort has
  set the flag. A session accepted while admission was paused has no identity to
  revoke it by (`AcceptedWithoutIdentity`), and never gets a bridge
  (`NoIdentityNoBridge`).
- HTTP snapshots. Lazy and eager expiry agree if no call reads a time at which a
  snapshot that a load or expiry dropped before it could still have been used, as
  with a clock read in lock order. `store` reads the clock before it takes the lock,
  so this can fail, and then one `load` can decide whether an exchange survives
  (`OutOfOrderReadingsDiffer`). The condition is exact: it holds of a run exactly
  when none of its loads and expiries can be noticed (`NoticedExactly`,
  `HarmlessExactly`).
- Firewall keeper. What `present` says about the table holds in every run. That the
  document also arrived on this connection fails exactly when a restore reads, into
  a keeper already confirmed, a file holding for its owner a digest that did not
  arrive on this connection (`BackedExactly`); never if each restore is called
  before the connection's first document. The file can hold such a digest because a
  failing write may already have replaced it (`LateRestoreShowsOldDocument`). The
  agent calls restore once, at its start (`packages/agent/src/guest-guards.ts:45`),
  so that run is a use of the class and not a run of the agent.
- Two agents on one host. The table a passive check is about to overwrite is the
  other agent's exactly when that agent wrote it after the check had listed it
  (`OverwritesOnlyUnlisted`), which can happen (`BothWriteMissingTable`); each writes
  at most once between foreign changes, plus once for every write whose result nft
  kept from it (`WritesAtMostOnce`), which does happen (`LostWriteIsRepeated`).
- History outbox. A resend ends no earlier than the position before it exactly when
  that position has been given out by then and is less than one window past the
  oldest record held (`ResendNeverBehind`), as it is on a link that only ever got
  acknowledgements of numbers given out. Such acknowledgements are also exactly what keeps a link from
  counting as sent what was not given out (`LinkStaysOk`).
- Operation ledger. Its answers are exact while the clock does not step back; whatever
  the clock does, an id with enough room is known if it was young at every pruning
  (`KnowsExactly`).

## Model

| member | source | states |
|---|---|---|
| SshRouting.ResolveOwnedRouteForUserIp | tools/ssh-proxy/src/snapshot.rs:361-425 | the candidate loop gives the resolution the candidate list defines: none, one, or ambiguous |
| SshRouting.ResolvesExactlyOne | tools/ssh-proxy/src/snapshot.rs:361-425 | an address resolves to a route exactly when one container is eligible for it, and to that container's route |
| SshRouting.ResolvedIsOwned | tools/ssh-proxy/src/snapshot.rs:361-425 | a resolved route carries the asking user and address and is still authorized by the same snapshot |
| SshRouting.RecheckByAddressAgrees | tools/ssh-proxy/src/snapshot.rs:312-342 | whatever name or address a target resolved by, asking again by the route's address gives a route of the same authority |
| SshRouting.AddUserKeys | tools/ssh-proxy/src/snapshot.rs:163-176 | a user joins the index once under each of their keys and under no other |
| SshRouting.BuildKeyIndex | tools/ssh-proxy/src/snapshot.rs:161-177 | the index lists for every key exactly its active holders, once each, in user order |
| SshRouting.KeyNamesExactlyOne | tools/ssh-proxy/src/snapshot.rs:294-310 | a key names a user exactly when that user is its only active holder |
| SshRevocation.StepKeepsInv | tools/ssh-proxy/src/runtime.rs:385-422 | every step of sessions, channels, aborts, installs and revocations keeps the protocol's invariant |
| SshRevocation.RunKeepsInv | tools/ssh-proxy/src/runtime.rs:385-422 | the invariant holds after every interleaving |
| SshRevocation.SessionsAfterPass | tools/ssh-proxy/src/runtime.rs:385-409 | once the pass for a stored version is over, every session that passed `auth_succeeded` earlier is authorized by it, or is aborted exactly unless another task has set the revoked flag and not come to it yet |
| SshRevocation.BridgesAfterPass | tools/ssh-proxy/src/runtime.rs:409-422 | once the pass for a stored version is over, every bridge past its re-check against an earlier one is authorized by it (user, pinned route, own route), or is aborted exactly unless a task that has set the revoked flag still has it ahead, in the registry or among the handles it took |
| SshRevocation.QuietMeansAuthorized | tools/ssh-proxy/src/control.rs:514-548 | with no revalidation under way, sessions and bridges are authorized by what the store holds now, or aborted exactly unless an abort outside any revalidation pass has begun and not come to them |
| SshRevocation.RefusedOrDrained | tools/ssh-proxy/src/runtime.rs:569-605 | after an abort every child that ever registered is aborted or gone, and further registrations are refused |
| SshRevocation.NoIdentityNoBridge | tools/ssh-proxy/src/session.rs:137-164 | a session without an identity never has a bridge, not even a reserved one |
| SshWitness.PassEndsBeforeOtherAbort | tools/ssh-proxy/src/runtime.rs:561-579 | from every snapshot with a key holder there is a run in which a pass finishes before another task's abort has aborted the unauthorized session |
| SshWitness.PassEndsBeforeBridgeAbort | tools/ssh-proxy/src/runtime.rs:561-579 | from every snapshot that authorizes a user's key and route there is a run in which a pass finishes while an older, unauthorized bridge is live, not aborted, and its abort still to come |
| SshWitness.AcceptedWithoutIdentity | tools/ssh-proxy/src/session.rs:268-270 | from every snapshot there is a run with a session past `auth_succeeded` that every snapshot counts as authorized |
| SshConnectionState.ConnectionState.Abort | tools/ssh-proxy/src/runtime.rs:569-579 | only the first caller aborts; its steps are the protocol's, and afterwards every child registered at the drain is aborted |
| SshConnectionState.ConnectionState.DrainChildren | tools/ssh-proxy/src/runtime.rs:574-577 | the registry is taken whole and every handle it held is aborted |
| SshConnectionState.ConnectionState.RegisterChildAbort | tools/ssh-proxy/src/runtime.rs:581-605 | a child is refused exactly when revoked, at 64 children, or out of ids |
| SshConnectionState.ConnectionState.UnregisterChildAbort | tools/ssh-proxy/src/runtime.rs:617-621 | the child is gone for good, and of the bridges any snapshot revokes exactly it leaves |
| SshConnectionState.ConnectionState.Bind | tools/ssh-proxy/src/runtime.rs:112-116 | from here on every snapshot judges the bridge by this route and no other bridge differently |
| SshConnectionState.ConnectionState.AbortBridge | tools/ssh-proxy/src/runtime.rs:637-645 | one revoked bridge loses its route entry, then its handle is aborted if it is still registered |
| SshConnectionState.ConnectionState.AbortRevokedBridges | tools/ssh-proxy/src/runtime.rs:630-646 | exactly the bridges whose bound route is not authorized lose their entry and are aborted, and are counted |
| SshConnectionState.ConnectionState.SetAuthenticated | tools/ssh-proxy/src/runtime.rs:648-666 | four field writes in order store the whole identity |
| SshConnectionState.ConnectionState.Matches | tools/ssh-proxy/src/runtime.rs:674-700 | the early exits decide as the protocol's authorization predicate |
| OutboxModel.CoveredExactly | tools/ssh-proxy/src/history.rs:245-253 | with contiguous numbers the records an acknowledgement or a position covers are counted by subtraction |
| OutboxModel.RecordsAreConserved | tools/ssh-proxy/src/history.rs:173-185 | in every run the outbox is the contiguous run of numbers up to the next, holds exactly the records that have not departed, and every departure is a covering acknowledgement or a counted drop by a record 8192 newer |
| OutboxSending.FrameIsFull | tools/ssh-proxy/src/history.rs:259-284 | a frame keeps to its byte limit unless one record alone exceeds it, never passes the window, and stops only at a limit or the end |
| OutboxSending.StopsExactly | tools/ssh-proxy/src/history.rs:259-284 | nothing is offered exactly when everything was sent or 2048 records are in flight |
| OutboxSending.ResendNeverBehind | tools/ssh-proxy/src/control.rs:389-400 | a resend from zero, with records arriving meanwhile, ends no earlier than the previous position exactly when that was given out by then and is less than one window past the oldest record held; always when the link kept to the window and to numbers given out |
| OutboxSending.LinkStaysOk | tools/ssh-proxy/src/control.rs:470-475 | at every moment of a run a link has at most 2048 records in flight and counts as sent only numbers given out, exactly when only numbers given out are acknowledged |
| HistoryLog.HistoryLog.Push | tools/ssh-proxy/src/history.rs:173-185 | the overflow loop drops exactly the excess and counts it |
| HistoryLog.HistoryLog.Acknowledge | tools/ssh-proxy/src/history.rs:245-254 | the loop removes exactly the covered prefix |
| HistoryLog.HistoryLog.CountInFlight | tools/ssh-proxy/src/history.rs:261-265 | the records up to the position are counted |
| HistoryLog.HistoryLog.FillFrame | tools/ssh-proxy/src/history.rs:269-282 | the loop takes exactly the records that fit |
| HistoryLog.HistoryLog.Batch | tools/ssh-proxy/src/history.rs:259-284 | the loop builds the frame the specification defines |
| HistoryLog.HistoryLog.SendHistory | tools/ssh-proxy/src/control.rs:75-94 | while records keep arriving the loop ends, sends in increasing order, skips no record still held, stops only when all is sent or the window is full, and keeps the link within its window; with nothing arriving it sends one stretch of the outbox |
| HttpHistory.AuthorizationIsHistory | tools/http-proxy/src/snapshot.rs:227-281 | a granted authorization is answered later exactly as the history of accepted snapshots says: current while the lease runs and every snapshot since carried the hostname with the same authority, with no lapse or clear between |
| HttpHistory.AcceptedKeepsInForce | tools/http-proxy/src/snapshot.rs:346-354 | an accepted snapshot keeps a grant exactly when it carries that hostname with that authority, whatever else it changes |
| HttpHistory.NeverRevived | tools/http-proxy/src/snapshot.rs:257-281 | an exchange once told its authorization is over is never told otherwise again |
| HttpHistory.GrantedExactly | tools/http-proxy/src/snapshot.rs:227-251 | in every run a route is granted exactly when the last accepted snapshot lists its hostname and its lease has not ended, and it is that snapshot's route |
| HttpHistory.InstalledExactly | tools/http-proxy/src/snapshot.rs:83-126 | in every run, in whatever order the clock is read, a snapshot is installed exactly when its lease and pools are valid and its generation passes the fence |
| HttpHistory.RunKeepsRelation | tools/http-proxy/src/snapshot.rs:83-126 | after every run pointer identity of incarnations coincides with an unbroken chain in the history |
| HttpLease.HousekeepingIsInvisible | tools/http-proxy/src/snapshot.rs:128-167 | loads and expiries change no other answer, from any two states that differ only in a snapshot no later reading can use, as long as no later call reads a time at which what they dropped could still have been used |
| HttpLease.LazyAndEagerExpiryAgree | tools/http-proxy/src/control.rs:121-152 | so runs that differ only in their loads and expiries answer everything else alike |
| HttpLease.OrderedExpiryAgrees | tools/http-proxy/src/control.rs:121-152 | in particular while calls take the lock in clock order |
| HttpLease.NoticedExactly | tools/http-proxy/src/snapshot.rs:128-167 | some continuation with readings from a given time on tells whether a load or an expiry happened exactly when that dropped a snapshot with routes whose lease had not ended at that time |
| HttpLease.HarmlessExactly | tools/http-proxy/src/snapshot.rs:128-167 | the condition of the two lemmas above holds exactly of the runs none of whose loads and expiries can be noticed at a later reading of the run |
| HttpLease.OutOfOrderReadingsDiffer | tools/http-proxy/src/snapshot.rs:83-111 | with readings out of lock order one load decides whether an exchange survives |
| HttpLease.HoldBoundsAuthorization | tools/http-proxy/src/snapshot.rs:183-206 | after a hold nothing is granted from the earlier of its end and the lease held then, until the next accepted snapshot |
| HttpLease.LeaseBoundsAuthorization | tools/http-proxy/src/snapshot.rs:305-317 | an accepted snapshot grants nothing from receipt plus staleAfter plus 30 s on, until another is accepted |
| HttpLease.AcceptedGenerationsIncrease | tools/http-proxy/src/snapshot.rs:100-121 | accepted generations strictly increase within a control epoch, across expiry too |
| SnapshotClock.AbsoluteSnapshotRemaining | tools/proxy-common/src/clock.rs:11-29 | the remaining lease is positive and at most staleAfter plus the allowed skew, and the error cases are exactly overflow, too far, and expired |
| HttpSnapshotStore.InheritIncarnations | tools/http-proxy/src/snapshot.rs:346-354 | the loop keeps the incarnation exactly of the routes whose authority did not change |
| HttpSnapshotStore.SnapshotStore.Store | tools/http-proxy/src/snapshot.rs:83-126 | state and answer are those of the machine's store step |
| HttpSnapshotStore.SnapshotStore.DropIfExpired | tools/http-proxy/src/snapshot.rs:128-144 | what is left is fresh, and no call reading that time or later answers differently for it |
| HttpSnapshotStore.SnapshotStore.Load | tools/http-proxy/src/snapshot.rs:128-144 | an expired snapshot is dropped, a fresh one returned |
| HttpSnapshotStore.SnapshotStore.Expire | tools/http-proxy/src/snapshot.rs:146-167 | only the snapshot of the same lease and epoch, past its deadline, is removed |
| HttpSnapshotStore.SnapshotStore.BeginControlEpoch | tools/http-proxy/src/snapshot.rs:172-181 | a new epoch lifts the generation fence and keeps the snapshot |
| HttpSnapshotStore.SnapshotStore.HoldAfterDisconnect | tools/http-proxy/src/snapshot.rs:183-206 | the lease is shortened, never extended; no hold clears |
| HttpSnapshotStore.SnapshotStore.ClearEpoch | tools/http-proxy/src/snapshot.rs:208-215 | snapshot and fence are gone |
| HttpSnapshotStore.SnapshotStore.AuthorizeRoute | tools/http-proxy/src/snapshot.rs:227-251 | the answer is the machine's lookup after dropping an expired snapshot |
| HttpSnapshotStore.SnapshotStore.AuthorizationDeadline | tools/http-proxy/src/snapshot.rs:257-281 | the deadline is given exactly while the same incarnation is current |
| ChunkedGrammar.FirstLine | tools/http-proxy/src/chunked.rs:48-69 | a line is what precedes the first LF, ends in CR, holds no other CR and fits its limit |
| ChunkedStream.Source.Fill | tools/http-proxy/src/chunked.rs:32-45 | a read appends to what is pending and loses nothing |
| ChunkedStream.CutLine | tools/http-proxy/src/chunked.rs:51-62 | the checks on a buffered line accept exactly the lines of the grammar |
| ChunkedStream.Source.TakeLine | tools/http-proxy/src/chunked.rs:51-64 | a line complete in the buffer is the line of the whole wire |
| ChunkedStream.Source.ReadLine | tools/http-proxy/src/chunked.rs:48-69 | however the wire is split, the line and both too-long checks agree with the whole remaining wire |
| ChunkedStream.Source.CopyExact | tools/http-proxy/src/chunked.rs:72-90 | exactly the next bytes are copied, or all there were when the connection ends |
| ChunkedStream.ReadTrailers | tools/http-proxy/src/chunked.rs:170-181 | trailers are read as the whole-string parse reads them |
| ChunkedStream.ForwardChunk | tools/http-proxy/src/chunked.rs:152-168 | one chunk is forwarded as the next item of the whole-string parse |
| ChunkedStream.ForwardChunkedBody | tools/http-proxy/src/chunked.rs:136-190 | for every split of the wire the outcome and the bytes written are those of the one-shot parse; bytes after a complete body are refused exactly when its last read brought some along |
| ChunkedCanonical.DecodeEncode | tools/http-proxy/src/chunked.rs:151-188 | decoding inverts the canonical encoding for every list of non-empty chunks within the limit |
| ChunkedCanonical.AcceptedIsCanonical | tools/http-proxy/src/chunked.rs:151-188 | what an accepted body becomes upstream is the canonical encoding of its chunks, within the limit, and re-frames to itself |
| ChunkedCanonical.RejectedIsIncomplete | tools/http-proxy/src/chunked.rs:95-120 | no prefix of what a rejected body left upstream parses as a complete body, under any limit |
| ChunkedCanonical.RefusedFollowUpIsIncomplete | tools/http-proxy/src/chunked.rs:151-188 | nor when a complete body is refused for what followed it |
| ChunkedLanguage.AcceptsExactlyTheGrammar | tools/http-proxy/src/chunked.rs:95-134 | the parser accepts exactly the spellings of well-formed messages of section 7.1 of RFC 9112, as restricted, and decodes their chunks |
| HttpRewrite.LinesOfUnlines | tools/http-proxy/src/request.rs:117-123 | writing lines and splitting them at CRLF again gives the same lines |
| HttpRewrite.KeptEchoes | tools/http-proxy/src/request.rs:140-240 | reading only the forwarded lines again keeps them all and finds what they said |
| HttpFixedPoint.ReadForwarding | tools/http-proxy/src/request.rs:72-115 | the proxy's own forwarding headers are dropped when read again and change nothing |
| HttpFixedPoint.ModeAgain | tools/http-proxy/src/request.rs:241-325 | the rewritten framing and connection headers name the same mode |
| HttpFixedPoint.PlanIsFixedPoint | tools/http-proxy/src/request.rs:117-339 | planning a rewritten head for the same client succeeds with the same header text, host and mode |
| HttpFixedPoint.RequestLineParses | tools/http-proxy/src/request.rs:357-371 | every token method, origin-form target and supported version, joined by single spaces, parses back |
| HttpFixedPoint.PlainRequestIsPlanned | tools/http-proxy/src/request.rs:117-339 | every such request line but CONNECT, with a one-label Host header, is planned for that host with an empty body |
| HttpHead.ReadField | tools/http-proxy/src/request.rs:153-236 | the chain of name checks, most of which go on to the next, treats each header as its kind says |
| HttpHead.ReadUpgradeField | tools/http-proxy/src/request.rs:203-240 | so does its second half, for headers that went on to it and for its own |
| HttpHead.ReadHeaderLine | tools/http-proxy/src/request.rs:142-152 | a line that is not a token, a colon and a clean value is refused, any other is read as its kind says |
| HttpHead.ReadHeaders | tools/http-proxy/src/request.rs:140-240 | the loop reads exactly the lines before the first empty one and stops at the first error |
| HttpHead.PlanRequest | tools/http-proxy/src/request.rs:117-339 | the whole function succeeds exactly when the plan exists and then gives it |
| HttpHead.FramingIsUnambiguous | tools/http-proxy/src/request.rs:241-325 | a rewritten head has one Host, one Connection, no Expect, the proxy's own four client-hop headers and no others, and only the body-framing header its mode names |
| ConnInvariant.StepKeepsInv | tools/proxy-common/src/conn_limit.rs:236-292 | every acquire and every stage of a drop keeps the invariant below |
| ConnInvariant.RunKeepsInv | tools/proxy-common/src/conn_limit.rs:236-395 | in every run the pending counter is the sum of the queue lengths, the counts are those of the live permits, all four caps hold, and every slot is in exactly one place |
| ConnInvariant.SlotsLeaveOnce | tools/proxy-common/src/conn_limit.rs:336-350 | a released slot is never evicted or queued later, and dropping an evicted one's permit releases nothing |
| ConnFairness.EvictionIsFair | tools/proxy-common/src/conn_limit.rs:359-378 | an eviction takes the oldest slot of another source, leaves it no fewer than the newcomer's, touches no third, and lowers the sum of squares by at least two |
| ConnFairness.FullPoolRun | tools/proxy-common/src/conn_limit.rs:258-266 | with a full pool and nothing released, each admission uses up two of the sum of squares |
| ConnFairness.BoundedAdmissions | tools/proxy-common/src/conn_limit.rs:258-266 | so the number of admissions is bounded by the pool's state at the start |
| ConnFairness.FreshSourceRefused | tools/proxy-common/src/conn_limit.rs:258-262 | a source without slots that passes the other limits is refused exactly when as many sources as there are slots hold one each |
| ConnectionLimiter.ConnectionLimiter.HeaviestSource | tools/proxy-common/src/conn_limit.rs:363-371 | in any visiting order a source with the most slots is found, none only when there is none |
| ConnectionLimiter.ConnectionLimiter.EvictFor | tools/proxy-common/src/conn_limit.rs:363-378 | a slot is given up exactly when some source is two ahead of the newcomer's |
| ConnectionLimiter.ConnectionLimiter.Enter | tools/proxy-common/src/conn_limit.rs:267-283 | the new slot joins the end of its source's queue and every count goes up by one |
| ConnectionLimiter.ConnectionLimiter.TryAcquire | tools/proxy-common/src/conn_limit.rs:236-292 | refused attempts change nothing and give the first limit in order; admitted ones are the machine's |
| ConnectionLimiter.ConnectionLimiter.ReleasePending | tools/proxy-common/src/conn_limit.rs:336-350 | the slot with that id leaves, or nothing does |
| ConnectionLimiter.ConnectionLimiter.Release | tools/proxy-common/src/conn_limit.rs:327-333 | client and site counts go down by one and forget zero |
| FirewallConfirmed.StepKeepsInv | packages/agent/src/firewall.ts:158-285 | every task step, call, reset and foreign change keeps the keeper's invariant, with the arrival of the confirmed document in it as long as every restore was called in an epoch without an `apply` |
| FirewallConfirmed.PresentMeansConfirmedAndInstalled | packages/agent/src/firewall.ts:93-95 | in every run `present` implies that the last table write was the current digest for this owner and that the first and the last listing since equal the retained one; and that the digest arrived in an `apply` of this epoch, if every restore was called before the first `apply` of its epoch |
| FirewallConfirmed.StepKeepsBacked | packages/agent/src/firewall.ts:125-137 | a step takes away that the confirmed document arrived in this epoch exactly when it reads, into a confirmed keeper, a file holding for its owner a digest that did not |
| FirewallConfirmed.BackedExactly | packages/agent/src/firewall.ts:125-176 | so in every run it holds throughout exactly when no restore reads such a file |
| FirewallConfirmed.RefusedDocumentChangesNothing | packages/agent/src/firewall.ts:158-172 | from the start of an `apply` to its refusal in the dry run, in every interleaving, document, listing and verification stay and the confirmation is lost only to a reset |
| FirewallWitness.LateRestoreShowsOldDocument | packages/agent/src/firewall.ts:125-137 | for any two documents there is a run in which a late restore shows one as present that no `apply` of this epoch carried |
| FirewallSharing.WritesAtMostOnce | packages/agent/src/firewall.ts:229-263 | in every interleaving of two agents' passive checks each replaces the table at most once plus once per write whose result it lost |
| FirewallSharing.OverwritesOnlyUnlisted | packages/agent/src/firewall.ts:238-244 | the table a passive check is about to overwrite is foreign exactly when the other agent replaced it since the check listed it, and is then not the one it listed |
| FirewallSharing.BothWriteMissingTable | packages/agent/src/firewall.ts:229-263 | both agents can list a missing table and then both write it |
| FirewallSharing.LostWriteIsRepeated | packages/agent/src/firewall.ts:229-263 | an agent whose write took effect but was reported as failed can write twice with one result lost |
| GuestFirewall.GuestFirewall.IsPresent | packages/agent/src/firewall.ts:93-95 | the getter answers true only when the last table write and the first and last listing since are of the current document for this owner, and, with timely restores, only for a digest that arrived in this epoch |
| GuestFirewall.GuestFirewall.CallRestore | packages/agent/src/firewall.ts:125-126 | the call changes no answer and keeps the invariant; it is recorded as late exactly when an `apply` was called before in its epoch |
| GuestFirewall.GuestFirewall.CallApply | packages/agent/src/firewall.ts:158-160 | the queued document carries the epoch of the call; the answer stays until its turn comes |
| GuestFirewall.GuestFirewall.CallSetServerId | packages/agent/src/firewall.ts:188-190 | the call changes no answer and keeps the invariant, whatever waits in the queue |
| GuestFirewall.GuestFirewall.CallCheck | packages/agent/src/firewall.ts:218-227 | a call while a check waits joins it; the invariant is kept |
| GuestFirewall.GuestFirewall.Reset | packages/agent/src/firewall.ts:181-185 | nothing is present afterwards, and no `apply` called before, waiting or under way, carries the new epoch |
| GuestFirewall.GuestFirewall.BeginTask | packages/agent/src/firewall.ts:158-202 | the first queued task runs to its first await and keeps the invariant |
| GuestFirewall.GuestFirewall.BeginApply | packages/agent/src/firewall.ts:161-174 | for an unknown owner nothing changes; only the digest in use is confirmed at once, and only by a call of this epoch; any other goes to its dry run |
| GuestFirewall.GuestFirewall.BeginSetServerId | packages/agent/src/firewall.ts:188-197 | the same owner changes nothing; a new one is verified next and keeps only a document that is theirs |
| GuestFirewall.GuestFirewall.Confirm | packages/agent/src/firewall.ts:173-175 | only a call of the current epoch confirms, and none unconfirms |
| GuestFirewall.GuestFirewall.AfterRead | packages/agent/src/firewall.ts:125-137 | only a document stored for this owner is used; it costs a backed confirmation exactly when it is a stale read |
| GuestFirewall.GuestFirewall.AfterDryRun | packages/agent/src/firewall.ts:164-170 | a refusal leaves document, listing, verification, file and confirmation as they were, an acceptance leaves the same document still to be done |
| GuestFirewall.GuestFirewall.AfterStore | packages/agent/src/firewall.ts:170-174 | the document is used and confirmed only after a write that succeeded; otherwise the answer is unchanged; the invariant is kept |
| GuestFirewall.GuestFirewall.AfterList | packages/agent/src/firewall.ts:229-247 | an intact table verifies, a foreign one stops a passive check, anything else is installed; the invariant is kept |
| GuestFirewall.GuestFirewall.AfterWrite | packages/agent/src/firewall.ts:256-257 | nothing is present between the write and its listing, and the invariant is kept |
| GuestFirewall.GuestFirewall.AfterRelist | packages/agent/src/firewall.ts:253-263 | the listing is retained only if it shows what was written; the invariant is kept |
| GuestFirewall.GuestFirewall.AfterError | packages/agent/src/firewall.ts:247-249 | after any failing listing or write nothing is present, and the invariant is kept, also when the write took effect |
| GuestFirewall.GuestFirewall.Settle | packages/agent/src/firewall.ts:138-149 | only a table that verified counts, and with it the task is over; a restored document that failed gives way to the table without one, with nothing retained |
| FirewallRules.AddressSetExact | packages/agent/src/firewall-render.ts:117-121 | the set nft gets contains exactly the addresses of the listed CIDRs |
| FirewallRules.RenderOne | packages/agent/src/firewall-render.ts:124-153 | one rule's translation decides exactly the packets the rule matches, with its verdict |
| FirewallRules.RenderDecides | packages/agent/src/firewall-render.ts:124-170 | the rendered rules decide every unfragmented packet and first fragment as the first matching rule, reject on all protocols split correctly |
| FirewallRules.RenderDecidesLater | packages/agent/src/firewall-render.ts:144-152 | later fragments are decided by the first rule that has no ports or accepts |
| FirewallRules.FragmentsFollow | packages/agent/src/firewall-render.ts:144-152 | for every rule list, when a first fragment is accepted all later ones are |
| Intervals.MergedExact | packages/common/src/protocol/firewall.ts:92-101 | merged ranges are ordered, apart by at least one number, and contain exactly the numbers of the given ones |
| Intervals.MergedIsCanonical | packages/common/src/protocol/firewall.ts:80-101 | two range lists merge to the same list exactly when they contain the same numbers |
| Intervals.MergeRanges | packages/common/src/protocol/firewall.ts:80-101 | the merging loop over the sorted ranges gives them |
| Ipv4.ParseIp | packages/common/src/utils.ts:4-14 | with JavaScript's signed 32-bit shifts the loop computes the exact base-256 value of an accepted text and refuses all others |
| Ipv4.ParsePrinted | packages/common/src/utils.ts:16-26 | parsing inverts printing for all 2^32 addresses |
| Ipv4.CanonicalAddress | packages/common/src/utils.ts:39-41 | the canonical text stands for the same address and is its own canonical text |
| Ipv4.BoundsAreExact | packages/common/src/utils.ts:145-160 | network and broadcast address enclose exactly the addresses sharing the prefix |
| Ipv4.OverlapExactly | packages/common/src/utils.ts:49-56 | overlap holds exactly when some address is in both blocks |
| Ipv4.ContainsExactly | packages/common/src/utils.ts:59-67 | containment holds exactly when one address set includes the other |
| Ipv4.OverlapNests | packages/common/src/utils.ts:49-67 | overlapping blocks are nested (section 3.1 of RFC 4632) |
| Recheck.NoChangeIsLost | packages/agent/src/nft.ts:204-250 | at every moment a reported change is covered by the timer or the running check's flag, the two never coexist, the delay after k failures is min(200 * 2^k, 60000), and no timer survives the stop |
| Recheck.CountIsEnough | packages/agent/src/nft.ts:226-228 | counting failures only up to sixteen changes no delay |
| Recheck.Watcher.OnChange | packages/agent/src/nft.ts:214-234 | a change arms the timer, is flagged, or is already covered |
| Recheck.Watcher.OnReport | packages/agent/src/nft.ts:243-243 | the change is covered by the timer or the running check's flag, an armed timer keeps its delay, and the invariant is kept |
| Recheck.Watcher.OnTimer | packages/agent/src/nft.ts:221-223 | the check that starts was not running, no timer is left, and no reported change is owed another check |
| Recheck.Watcher.OnCheckDone | packages/agent/src/nft.ts:224-231 | a change flagged during the check, and only that, arms the timer again, with the delay of the failures so far |
| Recheck.Watcher.OnVerified | packages/agent/src/nft.ts:234-242 | the back-off ends: what was covered stays covered, a waiting check at the shortest delay |
| Recheck.Watcher.OnStop | packages/agent/src/nft.ts:244-249 | nothing but the end of a running check can follow, and it arms nothing |
| OperationLedger.PruneIsFilter | packages/agent/src/operation-ledger.ts:66-72 | stopping at the first young entry equals filtering all |
| OperationLedger.KnowsExactly | packages/agent/src/operation-ledger.ts:34-37 | after every sequence of calls, whatever the clock does, only recorded ids are known that fewer distinct others than the ledger holds followed, and all of those that were young at every pruning; with a clock that does not step back exactly those whose last record is younger than the time to live |
| OperationLedger.Ledger.PruneAt | packages/agent/src/operation-ledger.ts:66-72 | the early-exit loop removes the old prefix |
| OperationLedger.Ledger.RecordAt | packages/agent/src/operation-ledger.ts:55-64 | the id moves to the end and the oldest make room |
| OperationLedger.Ledger.KnowsAt | packages/agent/src/operation-ledger.ts:34-37 | the answer is membership after pruning |

## Left out

- `request_plan` is modelled over decoded text: that the head must be UTF-8 and how the peer address prints are outside the model; the printed address is assumed free of control characters.
- The WebSocket accept hash: the mode carries the key it is derived from.
- Wording of errors: two failures of one function are not told apart, except for the limiter's four refusals.
- SshRevocation.SessionsAfterPass: excepts the time between another task's setting the revoked flag and its coming to the session, because `abort` returns at once then; the witness runs show the exception is needed.
- SshRevocation.BridgesAfterPass: the same exception.
- `ControlPlane` (mode, epoch, hold deadline, admission): whether a session is refused for a pause is a free choice of the steps.
- The 16-channel limit, bridge byte counters, close reasons, status reports and history records: no influence on authorization.
- Refusal windows of the history log: the same counting as the outbox, only easier.
- 64-bit overflow of sequence numbers, pending-slot ids and generations; child ids do run out in the model.
- FirewallConfirmed.PresentMeansConfirmedAndInstalled: the arrival in this epoch is stated for restores called before the first `apply` of their epoch, as the agent's one restore is; the exact condition is `BackedExactly`.
- HttpLease.HousekeepingIsInvisible: requires `Harmless`, because the code does differ otherwise; `HarmlessExactly` shows the condition is no stronger than needed.
- HttpLease.LazyAndEagerExpiryAgree: the same condition.
- The keeper's error texts, listeners and metrics.
- The fixed guard rules and learning chains of the nft table, and nft's text form: rules are structured values with nft's matching semantics.
- DNS, TLS, certificates and wildcard domains of the HTTP proxy; the SSH host key.
- `policy.ts`, the collectors, the Backend and the frontend.
