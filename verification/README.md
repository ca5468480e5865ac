# Verification of the binboi-go tunnel engine

This project models the stateful core of binboi-go in Dafny and proves what it keeps over
every run. The engine multiplexes many HTTP and WebSocket streams over one control
connection, under per-user quotas, with resumable sessions that are found by public host.

`dafny verify dfyconfig.toml` checks the whole project.

## How the model is built

Code that updates shared state is modelled twice. A *specification* says what each critical
section does to a value; a state machine (`World`, `Step`, `Enabled`, `Apply`, `Run`)
interleaves those sections in every order, and the theorems are about all its runs. Beside it
stands a *class* with the code's own fields, whose methods carry the code's branches and loops
and are proved to do exactly what the specification says.

| part of the engine | specification and theorems | class or loop |
|---|---|---|
| fair message dispatcher | `Dispatcher`, `DispatcherRuns`, `DispatcherSafety`, `DispatcherDiscipline`, `DispatcherFairness`, `DispatcherDrain`, `DispatcherNext`, `DispatcherLoss` | `MessageDispatchers` |
| one pending request on the server | `PendingRequests`, `PendingOutcomes` | `PendingRequestObjects` |
| stream slots of one peer | `StreamSlots` | |
| response from upstream reader to body pipe | `EndToEnd` | `ResponseStreaming` |
| usage counters and quotas | `UsageModel`, `UsageQuota`, `TunnelSlots`, `UsageFlush`, `TunnelCounts` | `UsageTrackers`, `UsageStore` |
| labels and hosts | `Labels` | `Labels.Sanitize` |
| sessions and routing | `RoutingIndexes`, `Sessions`, `SessionRouting` | `SessionManagers` |
| authentication cache | `Auth`, `AuthStaleness` | `Validators` |

`Protocol`, `Text`, `Options` and `Counting` hold wire messages, string helpers, optional values
and sums.

## What the code guarantees only under a rule

Some properties one might expect are false of the code. Each is proved exactly when it holds,
and a run shows it fail otherwise.

* **Delivery on a stream.** A caller of `EnqueueStream` keeps a pointer to its stream after
  the lookup, and the runner may delete the stream meanwhile; the message then lands in a
  queue nobody reads and the call still succeeds. `DispatcherLoss.LossExactly` says when
  nothing is lost, `OverlapLosesMessage` gives a losing run, and `DispatcherDiscipline`
  proves exactly-once delivery for every stream whose own callers start no enqueue beside
  or after a final one. The client's one goroutine per request keeps that rule; the
  server's cancel may run beside its body sender and need not.
* **Body chunks after the context ends.** `writeResponseBody` may drop a chunk when its
  select sees the context done, and a later chunk may still be accepted. Everything offered
  is accepted, however the selects choose, exactly when no body frame finds the request open
  with its context ended (`PendingRequests.AcceptsAllExactly`); `DroppedChunkLeavesGap` is a
  run with a gap. `EndToEnd` is about requests whose context is live.
* **Settling a reservation.** A request's idle timer is armed before its first send. If that
  send fails, the reservation is given back, and the timer, or a finish that came while the
  send was blocked, reports it as well. A reservation is settled at most once, whatever
  happens next, exactly from the moment the first send has succeeded
  (`StreamSlots.SettledOnceExactly`); `FailedSendSettlesTwice` is a run from a new peer. The
  request cap holds over all runs exactly when no settlement is repeated: one repetition
  breaks every cap (`UsageQuota.CapNeedsSingleSettlement`).
* **Resuming with the registered protocol.** Registering stores the protocol in normal form,
  and `resumeTunnel` compares it as received. Sending a registration's own request again,
  with the returned id and token, resumes the session exactly when the request had its
  protocol in normal form (`SessionRouting.RegistrationResumesExactly`). A tunnel registered
  as "HTTP" is served but can never be resumed that way (`UpperCaseNeverResumes`), and the
  client reconnects with its request as it was (pkg/client/tunnel.go:195-202).
* **Revocation.** `touchIfNeeded` moves an entry's expiry without asking the store again. A
  revoked token stops being accepted within the cache lifetime exactly when the touch
  interval is longer than that lifetime; otherwise steady use keeps it accepted for ever
  (`AuthStaleness.RevocationTakesExactly`). The defaults, 30 and 60 seconds, are on the
  safe side.
* **Subdomain round trip.** It needs the configured public host to start with a visible
  character (`Labels.SubdomainRoundTrip`).

Further modelling choices: the connection is a first-in first-out list of messages; clock
readings, context ends, timer expiry, broken writes and the outcome of a store write are free
choices of the environment; generated session ids, resume tokens and auth token ids are fresh;
a token's hash is the trimmed token, so free of collisions; strings are ASCII; counters are
unbounded integers. The check and the channel send of `writeResponseBody` are one step, and so
are creating a pending request and putting it in the map. In `EndToEnd` the server goes by the
id inside a frame, and every goroutine of the client puts the id of the stream it sends on into
its frames, as the client's code does.

## Model

| member | source | states |
|---|---|---|
| `Protocol.FlowControl.BufferedFrameCapacity` | pkg/api/protocol.go:226-236 | the capacity is the least number of chunk-sized frames, at least one, that holds the configured bytes |
| `Protocol.ValidatesExactly` | pkg/api/protocol.go:191-223 | validation fails exactly for a positive stream buffer below one chunk; normalising is idempotent, keeps positive settings and gives the others 100 streams, 128 KiB, 60 and 15 seconds |
| `DispatcherSafety.NothingStranded` | pkg/api/dispatcher.go:75-253 | in every reachable state: while open, a mapped stream with queued messages or a drain mark is scheduled, held by the runner, or has a caller that has pushed and not yet scheduled; a sleeping runner with work has its wake token; no queue exceeds the configured capacity |
| `DispatcherSafety.InvRun` | pkg/api/dispatcher.go:61-253 | without any rule on callers, per stream object what left plus what is queued is what was pushed, in order, and control messages leave once and in order |
| `DispatcherDiscipline.OrderlyStep` | pkg/api/dispatcher.go:83-114 | each critical section keeps one live object per disciplined stream, its final message last, and its place in `ready` exact |
| `DispatcherDiscipline.DisciplinedDelivery` | pkg/api/dispatcher.go:75-232 | over every run in which the callers of x keep the final-message rule: sent, in hand and queued make up what was pushed, nothing is lost, x is in `ready` at most once and exactly while scheduled |
| `DispatcherFairness.PopsInOrder` | pkg/api/dispatcher.go:162-169 | the ids popped in a run are the ready list read from the front, and the rest stays ahead of all newcomers |
| `DispatcherFairness.RoundRobin` | pkg/api/dispatcher.go:109-213 | while the stream at place k waits, at most k messages of streams leave (plus one already being fetched), and a stream listed once contributes at most one |
| `DispatcherFairness.StillWaiting` | pkg/api/dispatcher.go:162-169 | a stream at place k is not overtaken out of the list by fewer than k + 1 pops |
| `DispatcherFairness.ControlFirst` | pkg/api/dispatcher.go:155-160 | while control messages wait, each look for work takes the first of them, and no stream gets a message out beyond one already being fetched |
| `DispatcherDrain.MoveDescends` | pkg/api/dispatcher.go:151-232 | with no further enqueues every move of the runner is possible and strictly lowers the rank of queued work |
| `DispatcherDrain.NextUsesUpWork` | pkg/api/dispatcher.go:151-198 | the loop of `next` uses up work with each message and each empty stream it meets |
| `DispatcherDrain.RestIsClean` | pkg/api/dispatcher.go:200-232 | a resting runner leaves no queued message, no ready id, no draining stream in the map, and everything accepted is on the wire or was lost |
| `DispatcherDrain.DrainDelivers` | pkg/api/dispatcher.go:106-232 | from any reachable state without callers the runner comes to rest with all control messages sent and every disciplined stream delivered whole and in order |
| `DispatcherDrain.FinalLeavesNothing` | pkg/api/dispatcher.go:100-232 | once a final enqueue has succeeded, its stream object is out of the map whenever the runner rests with nobody enqueueing, whatever came between |
| `DispatcherDrain.OnlyFinalsLeaveMap` | pkg/api/dispatcher.go:200-232 | over every run a stream object is out of the map only if a final enqueue began for its stream |
| `DispatcherDrain.ClosedWindsDown` | pkg/api/dispatcher.go:60-130 | a closed dispatcher takes in no control message and no stream, and its work only dwindles save for pushes already under way |
| `DispatcherNext.NextIsRun` | pkg/api/dispatcher.go:151-232 | from any reachable state with the runner at the top of its loop, an undisturbed `next` is a run of the four runner sections: it ends with the same core, about to send the message it returns, or asleep or returned when it finds nothing |
| `DispatcherNext.RepeatedCallsSendAll` | pkg/api/dispatcher.go:132-219 | calling `next` again and again with no caller in the way returns all control messages and, of every stream in the map, its whole queue, in order |
| `DispatcherLoss.LossExactly` | pkg/api/dispatcher.go:83-98 | everything pushed to x is sent or queued exactly when each channel send found its stream still in the map |
| `DispatcherLoss.LostForever` | pkg/api/dispatcher.go:212-218 | a message in a stream object that left the map is never sent |
| `DispatcherLoss.OverlapLosesMessage` | pkg/api/dispatcher.go:75-115 | a body enqueue overlapping a final one can succeed and lose its message |
| `MessageDispatchers.MessageDispatcher.FindStream` | pkg/api/dispatcher.go:76-90 | the first locked section refuses when closed, and else finds or creates the stream object as specified |
| `MessageDispatchers.MessageDispatcher.Schedule` | pkg/api/dispatcher.go:100-114 | the last locked section marks draining and schedules as specified, and refuses when closed |
| `MessageDispatchers.MessageDispatcher.PopWork` | pkg/api/dispatcher.go:151-176 | the top of the loop takes control first, then the front ready stream, and unmarks it |
| `MessageDispatchers.MessageDispatcher.AfterMessage` | pkg/api/dispatcher.go:200-219 | a stream with more messages goes to the back of `ready`; an empty draining one is deleted |
| `MessageDispatchers.MessageDispatcher.AfterEmpty` | pkg/api/dispatcher.go:221-232 | an empty draining stream is deleted |
| `MessageDispatchers.MessageDispatcher.Close` | pkg/api/dispatcher.go:118-130 | the first close marks, signals and wakes; later ones change nothing |
| `MessageDispatchers.MessageDispatcher.Next` | pkg/api/dispatcher.go:151-198 | the loop computes `NextAlone`, which `DispatcherNext.NextIsRun` ties to the runs of the dispatcher: the next message by the fair order, the stream put back in line, or nothing when nothing waits |
| `PendingRequests.CompletesOnce` | internal/control/protocol_peer.go:132-256 | for every interleaving of frames, finishers, cancel, timeouts and pump: at most one value on `startCh` and `doneCh` and one usage report, so no send of finish waits; the value on `doneCh` is the winner's verdict |
| `PendingRequests.CleanEndIsComplete` | internal/control/protocol_peer.go:175-321 | the body reader always has a prefix of the accepted bytes, and sees a clean end only after finish(nil), with all of them |
| `PendingRequests.OutcomeIsFinalRun` | internal/control/protocol_peer.go:175-230 | once completed, state, verdict and accepted bytes never change again |
| `PendingRequests.FinishCompletes` | internal/control/protocol_peer.go:198-218 | a finish with an error reaches its end by finisher and pump alone, whatever the body reader does; a clean one needs a reader that reads |
| `PendingRequests.AcceptsAllExactly` | internal/control/protocol_peer.go:150-173 | in a run all bytes offered are accepted in order, whichever branches the selects take, exactly when no body frame finds the request open with its context ended |
| `PendingRequests.DroppedChunkLeavesGap` | internal/control/protocol_peer.go:167-172 | after the context ends a chunk can be dropped and a later one delivered |
| `PendingOutcomes.OutcomeIsTold` | internal/control/protocol_peer.go:132-228 | over every interleaving, from the steps alone: the value on `startCh` is the status of the first start frame handled while open, or else the winner's verdict without a start; `doneCh` has the winner's verdict; the state tells its kind, or before it whether start or cancel came last; the usage report has the bytes received and sent before the winner |
| `PendingOutcomes.OneCancelFrame` | internal/control/protocol_peer.go:230-256 | however many goroutines cancel, one cancel frame is sent if one of them came before the first finish, and none otherwise |
| `PendingOutcomes.BufferIsBounded` | internal/control/protocol_peer.go:79-107 | an open started request takes another body frame exactly while the frames it buffers, at a full chunk each, do not hold its configured bytes |
| `PendingRequestObjects.PendingRequest.HandleResponseStart` | internal/control/protocol_peer.go:132-148 | a first start activates the request and its status is sent on `startCh`; late and duplicate ones are errors |
| `PendingRequestObjects.PendingRequest.WriteResponseBody` | internal/control/protocol_peer.go:150-173 | counts and queues a chunk, or reports completion, a missing start or the ended context |
| `PendingRequestObjects.PendingRequest.MarkCancelLocked` | internal/control/protocol_peer.go:230-239 | only the first cancel of an uncompleted request goes on |
| `PendingRequestObjects.PendingRequest.PumpResponseBody` | internal/control/protocol_peer.go:310-321 | on a closed chunk channel the pump ends with every chunk delivered, or aborts on a broken writer |
| `PendingRequestObjects.PendingRequest.Finish` | internal/control/protocol_peer.go:175-228 | the first call sends one outcome and one start result, frees the slot, reports the byte counts and, when clean, has delivered every accepted byte; later calls change nothing |
| `StreamSlots.SlotsConserved` | internal/control/protocol_peer.go:371-396 | in every reachable state occupied slots are admissions in progress plus unreleased requests, never above the configured limit (100 if none is), another request is admitted exactly below it, and all slots are free at rest |
| `StreamSlots.ReleaseFindsToken` | internal/control/protocol_peer.go:273-277 | the release that goes through always finds a token, so the empty-channel default is never taken |
| `StreamSlots.SettledOnceExactly` | internal/control/protocol_server.go:128-145 | for every reachable request: every continuation settles its reservation at most once exactly when its first send has succeeded |
| `StreamSlots.FailedSendSettlesTwice` | internal/control/protocol_peer.go:393-396 | from a new peer: admit, fail the first send, remove, give back, and the armed idle timer settles the reservation again |
| `EndToEnd.KeepsStep` | internal/control/protocol_server.go:336-505 | every step of client, dispatcher, connection and server, which goes by the ids in the frames, keeps the frames of one response in step with its status and upstream bytes |
| `EndToEnd.ResponseFidelity` | pkg/client/upgrade.go:151-213 | for any other traffic and schedule, the bytes the server's reader got are a prefix of what the client read and so of the local service's whole body, and are that whole body when the reader sees the clean end; the waiter gets the local service's own status or an error |
| `EndToEnd.EndMeansComplete` | internal/control/protocol_peer.go:523-530 | a clean verdict means that the local service's status has reached the waiter and its whole body has been accepted |
| `ResponseStreaming.ReadAndSend` | pkg/client/upgrade.go:155-185 | one read into the reused buffer becomes one frame, with the request's id, that holds what was read |
| `ResponseStreaming.StreamResponseReader` | pkg/client/upgrade.go:151-213 | the frames all carry the request's id and hold the bytes read, in order and in bounded non-empty chunks; the final end frame is sent exactly when the body ended cleanly and every send succeeded |
| `ResponseStreaming.LoopFitsClient` | pkg/client/upgrade.go:151-213 | between turns the loop's frames are, for the stream of that id, those of the client of the end-to-end theorem |
| `ResponseStreaming.EndFitsClient` | pkg/client/upgrade.go:151-213 | however the loop ends, so are its frames then |
| `UsageModel.BucketKeyInjective` | internal/usage/tracker.go:416-418 | bucket keys are injective, also for user ids that contain the separator |
| `UsageModel.BucketIsPeriod` | internal/usage/tracker.go:406-418 | two instants give a user the same bucket key exactly when they lie on the same day (daily) or in the same month of the same year (monthly) |
| `UsageQuota.QuotasHold` | internal/usage/tracker.go:180-312 | over every run with single settlement, across all periods: what a bucket holds and counts are the sums over its reservations; counted plus held requests stay within the cap, and input bytes exceed theirs by at most the overruns |
| `UsageQuota.PeriodCapsHold` | internal/usage/tracker.go:180-312 | of the requests a user was granted in one billing period, those completed and those outstanding never exceed the request cap, and likewise the input bytes up to overruns |
| `UsageQuota.AdmissionExactly` | internal/usage/tracker.go:180-253 | after any run a request is admitted exactly when what the user was granted in the current period leaves room under every cap; else the first broken cap is reported with the exact numbers |
| `UsageQuota.ClampsNeverFire` | internal/usage/tracker.go:256-305 | settling an outstanding reservation finds its bucket with enough held, so no clamp applies |
| `UsageQuota.DoubleSettlementBreaksCap` | internal/usage/tracker.go:256-312 | for every positive cap, a run with one repeated settlement counts one request too many |
| `UsageQuota.CapNeedsSingleSettlement` | internal/usage/tracker.go:180-312 | the request cap holds over all runs exactly when no settlement is repeated |
| `TunnelSlots.SlotsConserved` | internal/control/protocol_server.go:147-505 | over every run of handshakes, resumes and disconnects: reserved slots are those of handshakes holding one, active tunnels have a live handler, the cap holds save for resumed tunnels, and nothing is left when all handlers are gone |
| `TunnelSlots.SlotGrantedExactly` | internal/usage/tracker.go:87-115 | after any run a handshake gets its slot exactly when active tunnels and handshakes holding one leave room under the cap; else the refusal names the cap and what would be used |
| `TunnelSlots.ConfirmEffect` | internal/usage/tracker.go:131-145 | confirming turns one reserved slot of the user into one active tunnel |
| `TunnelSlots.CloseEffect` | internal/usage/tracker.go:162-177 | closing a tunnel removes it and nothing else |
| `UsageStore.UpsertAllOverrides` | internal/usage/store.go:57-70 | keys stay unique, each key ends with its last supplied record or its old one, unmentioned records keep value and place |
| `UsageStore.Store.UpsertMany` | internal/usage/store.go:45-73 | the nested loops compute that override |
| `UsageFlush.InvStep` | internal/usage/tracker.go:315-363 | every critical section of traffic and flusher keeps memory, snapshot and store coherent |
| `UsageFlush.FlushCoherent` | internal/usage/tracker.go:315-363 | from an empty store, over every run with one flusher and failing writes: a clean bucket equals the snapshot in flight, else the stored record, else zero; stored records have distinct keys, each with a bucket in memory |
| `UsageFlush.StoreNeverExceedsMemory` | internal/usage/tracker.go:315-363 | after any such run every stored record has a bucket that counts at least as much |
| `UsageFlush.DurableOnlyGrows` | internal/usage/store.go:45-73 | over every run stored records keep their place and key and their counters never decrease |
| `UsageFlush.StoredWhenFlushed` | internal/usage/tracker.go:315-340 | every stored record carries the clock reading of a flush of the run |
| `TunnelCounts.CountReachesStore` | internal/usage/tracker.go:131-177 | after any change of a user's tunnels, and whatever follows but another change: once the bucket of the change is clean, the record last handed to the store for it shows how many tunnels the user has |
| `UsageTrackers.UsageTracker.ReserveTunnel` | internal/usage/tracker.go:87-115 | a slot is granted below the cap, counting active and reserved ones |
| `UsageTrackers.UsageTracker.ConfirmTunnel` | internal/usage/tracker.go:131-145 | the reservation becomes an active tunnel and the bucket is marked |
| `UsageTrackers.UsageTracker.TrackTunnelClosed` | internal/usage/tracker.go:162-177 | the tunnel leaves the active set, which goes when empty |
| `UsageTrackers.UsageTracker.ReserveRequest` | internal/usage/tracker.go:180-253 | the limits are checked in order against counted plus held usage, and a grant holds one request and its estimate |
| `UsageTrackers.UsageTracker.ReleaseRequest` | internal/usage/tracker.go:256-276 | the bucket holds one request and its estimate less |
| `UsageTrackers.UsageTracker.CompleteRequest` | internal/usage/tracker.go:279-312 | the reservation is given back and the actual usage counted, in the reserved period |
| `UsageTrackers.UsageTracker.SnapshotDirty` | internal/usage/tracker.go:327-340 | the loop over buckets snapshots and cleans exactly the dirty ones |
| `UsageTrackers.TakenLists` | internal/usage/tracker.go:346-349 | the records taken by the loop are a batch that names each snapshot by its own key |
| `UsageTrackers.UsageTracker.Flush` | internal/usage/tracker.go:315-363 | the store gets a batch listing exactly the snapshots by their keys, or they are dirty again; buckets stay under their keys |
| `Labels.SanitizeJoinsWords` | internal/tunnel/tunnel.go:115-133 | the label of a name is its words of letters and digits joined by single dashes |
| `Labels.SeparatorsSplit` | internal/tunnel/tunnel.go:115-133 | a dash, an underscore or white space separates the words before it from those behind it |
| `Labels.LabelsAreFixed` | internal/tunnel/tunnel.go:115-133 | labels are exactly the fixed points, so sanitizing is idempotent |
| `Labels.Sanitize` | internal/tunnel/tunnel.go:115-133 | the loop over the builder computes the label |
| `Labels.SubdomainRoundTrip` | internal/tunnel/tunnel.go:42-113 | extracting the subdomain from its host returns the label exactly when there is none or the public host begins with a visible character |
| `Labels.ExtractExactly` | internal/tunnel/tunnel.go:97-113 | a host has a label exactly when its normal form is a dotless name, a dot and the normal form of the public host, and the label is the name's joined words |
| `Labels.HostDeterminesLabel` | internal/tunnel/tunnel.go:42-51 | distinct labels have distinct hosts |
| `Labels.LookupHostDeterminesLabel` | internal/tunnel/tunnel.go:97-101 | also after the trimming and lower-casing of lookups |
| `RoutingIndexes.InsertIndexed` | internal/session/session.go:421-431 | storing a session keeps all five indexes the inverse of the sessions' keys |
| `RoutingIndexes.RemoveIndexed` | internal/session/session.go:440-446 | so does removing one |
| `RoutingIndexes.ConnectIndexed` | internal/session/session.go:535-543 | activating a session makes exactly it active |
| `RoutingIndexes.DisconnectIndexed` | internal/session/session.go:545-557 | deactivating touches no other session's routing |
| `SessionRouting.StoreGood` | internal/session/session.go:390-438 | storing with a conflict, an eviction or a failed write keeps indexes and records in agreement |
| `SessionRouting.StoreExactly` | internal/session/session.go:390-438 | storing is refused exactly when a connected session has the host, and changes nothing; else the new session replaces the host's owner, or none does if the write fails |
| `SessionRouting.FailedWriteLeavesNothing` | internal/session/session.go:432-435 | a failed write leaves no session behind, and its host leads nowhere |
| `SessionRouting.RegisterExactly` | internal/session/session.go:116-158 | a new tunnel is registered exactly when its protocol is one of three names up to case and outer spaces, its port is a port, no connected session has its host and the write succeeds, and fails for the first of these that does not hold; its session says what was asked for |
| `SessionRouting.LookupIsScan` | internal/session/session.go:259-287 | after any run and for any host the four stages find the only session whose host it is, or whose subdomain is the label of a dotless name before the public host; or nothing when there is none |
| `SessionRouting.ActiveIsConnected` | internal/session/session.go:535-557 | a host or subdomain is actively routed to an id exactly when that session has it and is connected |
| `SessionRouting.HostsNeverStolen` | internal/session/session.go:390-446 | no run without its own detach removes or rebinds a connected session; its host still finds it |
| `SessionRouting.RecordsMirrored` | internal/session/session.go:160-244 | after any run a session's status, connection, last-seen time and stored tunnel record agree |
| `SessionRouting.InFlightIsLast` | internal/session/session.go:202-256 | over every run a session shows the last in-flight count set since it was last detached |
| `SessionRouting.TimesAreRecorded` | internal/session/session.go:160-244 | heartbeats and resumes set both times, a detach the last-seen time only |
| `SessionRouting.IdentityIsForever` | internal/session/session.go:160-256 | a session's id, owner, subdomain, URL, protocol, port and resume token never change, and a removed session never returns |
| `SessionRouting.ResumeAttaches` | internal/session/session.go:160-199 | the credentials a session records resume it exactly as long as it exists, keep its identity, and make its host find it |
| `SessionRouting.RegistrationResumesExactly` | internal/session/session.go:116-173 | a registration's own request, sent again with the returned id and token, resumes the session exactly when that exists and the request's protocol was in normal form |
| `SessionRouting.UpperCaseNeverResumes` | internal/session/session.go:171-173 | a tunnel registered as "HTTP" is connected, and its own resume is refused |
| `SessionRouting.ResumeNeedsCredentials` | internal/session/session.go:164-179 | a resume succeeds only with the session's token, protocol, port, user and auth token |
| `SessionManagers.SessionManager.RegisterTunnel` | internal/session/session.go:116-158 | resumes, or stores with the normalised protocol, or fails as specified, and keeps all indexes the scan of the sessions |
| `SessionManagers.SessionManager.StoreSession` | internal/session/session.go:342-438 | builds the record of the allocated subdomain and stores it, keeping the indexes the scan of the sessions |
| `SessionManagers.SessionManager.StoreRecordLocked` | internal/session/session.go:387-438 | the locked part of storeSession: conflict check, eviction, insertion, roll-back |
| `SessionManagers.SessionManager.RemoveSessionLocked` | internal/session/session.go:440-446 | the session leaves all six maps |
| `SessionManagers.SessionManager.ResumeTunnel` | internal/session/session.go:160-199 | the checks in order, then the record is attached and activated; the indexes stay the scan of the sessions |
| `SessionManagers.SessionManager.DetachConnection` | internal/session/session.go:202-222 | the record is disconnected and deactivated, and stays |
| `SessionManagers.SessionManager.TouchHeartbeat` | internal/session/session.go:225-244 | a known session is connected and activated |
| `SessionManagers.SessionManager.LookupByHost` | internal/session/session.go:259-287 | the four stages give what that scan of all sessions gives |
| `Auth.FindByPrefixExactly` | internal/auth/store.go:125-143 | nothing is found exactly when no token has the prefix, and else the first that has it |
| `Auth.PrefixExactly` | internal/auth/token.go:137-153 | a raw token has a prefix exactly when, trimmed, it is that prefix, which begins as the engine's tokens do, an underscore and a non-empty secret without one |
| `Auth.ConfirmExactly` | internal/auth/validator.go:79-91 | the store accepts a raw token exactly when the first token with its prefix has its hash and is not revoked |
| `Auth.Configured` | internal/auth/validator.go:36-54 | both intervals are positive after defaulting, and positive ones are kept |
| `AuthStaleness.ExpiryIsOnTime` | internal/auth/validator.go:95-149 | for every pair of intervals and over every run, an entry expires one lifetime after its last recorded use |
| `AuthStaleness.HitsAreRecent` | internal/auth/validator.go:111-126 | the cache accepts a token exactly while it holds an entry whose last recorded use is at most one lifetime ago |
| `AuthStaleness.UsageIsPersisted` | internal/auth/validator.go:95-160 | for every pair of intervals and however validations interleave, while touches are saved the stored last use of a cached token is the one its entry was last renewed with |
| `AuthStaleness.InvStep` | internal/auth/validator.go:57-160 | when touching is sparser than expiry, every critical section of interleaved validations keeps each entry's confirmation before any revocation and within the lag of its last recorded use |
| `AuthStaleness.RevocationTakesExactly` | internal/auth/validator.go:128-160 | a revoked token is refused within the lifetime (plus the lag of one validation) exactly when the touch interval is longer than that, and else no bound holds |
| `AuthStaleness.DefaultsTakeInThirtySeconds` | internal/auth/validator.go:36-42 | with default intervals a revoked token is refused after thirty seconds and the lag of one validation |
| `AuthStaleness.DenseNeverTakes` | internal/auth/validator.go:149-151 | with a short touch interval a revoked token can be accepted arbitrarily long |
| `Validators.TokenStore.RevokeToken` | internal/auth/store.go:105-122 | the first token with the id is revoked, or none |
| `Validators.Validator.TouchIfNeeded` | internal/auth/validator.go:128-160 | the loop finds an entry of the token, if any, and, when the interval is over, renews it and records the use in the store |
| `Validators.Validator.Validate` | internal/auth/validator.go:57-109 | a hit answers from the cache; a miss answers what the store says and caches an acceptance |

## Left out

- MessageDispatchers.MessageDispatcher.Next: does not model the select between `wakeCh` and `closeCh` or other goroutines between its sections; it reports that it would sleep. The interleavings are those of `DispatcherRuns`.
- PendingRequestObjects.PendingRequest.WriteResponseBody: does not model a finish between its check and its channel send, which the code allows.
- PendingRequestObjects.PendingRequest.PumpResponseBody: does not run before the chunk channel closes; the pump beside live frames is in `PendingRequests`.
- PendingRequestObjects.PendingRequest.Finish: has only the pump and a reading body reader beside it; its sections under every interleaving are in `PendingRequests`.
- Validators.Validator.Validate: has one clock reading and no other validation between its sections; the interleavings are those of `AuthStaleness`.
- AuthStaleness.InvStep: does not cover touching as often as expiry, where its statement is false; `DenseNeverTakes` says what happens then.
- Sockets, TLS, deadlines, JSON framing and files: the connection is a list of messages, a store write happens whole or not at all.
- Delivery after `Close`: a sleeping runner may take `closeCh` before `wakeCh`, so delivery is claimed while the dispatcher is open.
- Liveness of `finish(nil)`: it waits for the pump, which waits for the body reader; safety is proved, and termination for `finish` with an error.
- A frame arriving between the check and the channel send of `writeResponseBody`: the two are one step of the model.
- The request direction (`pkg/client/tunnel_request.go`, `streamRequestReader`): the same dispatcher theorems and the same pump shape apply; its post-cancel frames and its end on failure are not fixed by the code.
- `protocolPeer`'s pending map and slot channel as fields of an object: they are modelled on values in `StreamSlots`, so sharing of request pointers between the map and its users appears as list positions.
- `handleConnection` as one method: its reservation, registration and teardown order is the state machine of `TunnelSlots`.
- Whether `Connection` tells the truth about a socket: a stale connection's `DetachConnection` may run after a resume.
- Records and buckets as shared pointers: `UsageTracker` and `SessionManager` keep them as values in their maps and write them back, so aliasing is not captured.
- Counters loaded from an earlier process: the tracker never loads them; coherence starts from an empty store and has one flusher.
- A tracker or session manager without a store, and the stored tunnel records themselves.
- `int64` overflow of counters and estimates.
- Parsing of public URLs: a URL is its scheme and host, so a public host with a port, user, escapes, or spaces or other characters that `url.Parse` refuses, for which the code finds no host, is outside the routing theorems' reading of the code.
- Letters outside ASCII in labels, hosts and tokens.
- Subdomain generation and its availability check: `storeSession` is modelled for any allocated subdomain.
- The wall clock: two readings of one validation differ by at most a lag that does not exceed the cache lifetime.
- The sorted listing of sessions and tokens, parsing of targets, logging, the remote validator, the proxy, the transports, the plain HTTP client, reconnection, configuration and the daemon.
