# Music Room: verified models

This project models five parts of the Music Room server, and the part of the Flutter
app that talks to one of them, and proves properties of whole runs of the models.

| files | what they model |
|---|---|
| `Wire.dfy`, `Sequences.dfy` | identifiers, room frames, and facts about lists |
| `HubModel.dfy`, `HubInvariant.dfy`, `HubProperties.dfy`, `HubRooms.dfy`, `HubProgress.dfy`, `HubAttempts.dfy`, `HubSends.dfy` | the WebSocket rooms as a state machine of goroutines, channels and the manager's mutex |
| `HubRounds.dfy`, `HubObjects.dfy` | the cases of `Hub.run` and the manager as objects, next to the state machine |
| `PlaylistModel.dfy`, `PlaylistProofs.dfy`, `PlaylistRuns.dfy`, `PlaylistOutcomes.dfy`, `PlaylistObjects.dfy` | the position column of playlists, its statements, histories, and the frames pushed to watchers |
| `PlaylistRoom.dfy`, `FrameOrder.dfy` | rooms and playlists together: what a watcher ends up with, and which frames may overtake each other |
| `TokenModel.dfy`, `TokenProofs.dfy`, `TokenOutcomes.dfy`, `TokenObjects.dfy` | refresh-token rotation on the server (section 10.4 of RFC 6749) |
| `RotationModel.dfy`, `RotationProofs.dfy`, `RotationExact.dfy`, `RotationRequests.dfy`, `RotationTokens.dfy`, `AppRuns.dfy`, `AppObjects.dfy` | the app's interceptor, its logins and logout, the network and the server together: runs without reuse, exactly when they end, what becomes of each request, and the token it is retried with |
| `VoteModel.dfy`, `VoteProofs.dfy`, `QueueModel.dfy`, `VoteOutcomes.dfy` | vote transactions with their locks, the cached counters, and the queue order |
| `LicenseModel.dfy`, `EventOutcomes.dfy`, `EventObjects.dfy` | events, their license configuration and their invitations, and the services on them |
| `SocialModel.dfy`, `DelegationModel.dfy`, `SocialProofs.dfy`, `DelegationTimes.dfy`, `Provenance.dfy`, `SocialOutcomes.dfy`, `SocialObjects.dfy` | friendships and devices, and delegations as interleaved transactions with their locks and their index |

The `Outcomes` modules say of each operation what it answers and what is stored afterwards,
without the step functions, and of whole histories which calls a stored value goes back to.

Each part has pure step functions, an invariant with its preservation proofs, the main
theorems about all runs, and classes whose methods follow the code statement by statement.
The methods of the stores and services are proved equal to the step functions. The cases of
`Hub.run`, the two `Broadcast`s, the manager's `GetOrCreate` and `onEmpty`, and the interceptor
take a state of the state machine as a ghost parameter and are proved to be runs of it. A history field (a log, a lineage, a list of start times) is said
to be one where it is declared; no code reads it.

## Assumptions

- PostgreSQL: MoveTrack's transaction is serializable. Votes, grants and revocations are
  transactions at the read-committed level: a statement sees the rows that were committed when
  it began, an UPDATE locks its rows until its transaction ends, whoever meets a locked row
  waits and then looks at the row again, inserting an index entry that another transaction
  has pending waits for it, `NOW()` is the time at which the transaction began, and an insert
  that refers to a row keeps that row from being deleted. ON DELETE CASCADE removes dependent
  rows. Every other request is one atomic step unless a lemma says that it interleaves.
- Go: an unbuffered channel operation is a rendezvous, a select with several ready arms may
  take any, sending on or closing a closed channel panics (`World.panicked`).
- Dart: another action may run at each await and nowhere else; storage reads return the last write.
- Generated identifiers and token strings are new; time does not run backwards; distances are
  any function of the coordinates; a pump may stop at any moment; the network may lose a request
  or an answer, and may deliver a request after the client has given up on it.

## Where the code and its comments differ

The models follow the code.

- `server/internal/hub/manager.go:58-60` says that a hub exists only while a client is
  connected. A room in the map can be empty; `HubRooms.HasHubMeans` says exactly when.
- `server/internal/hub/manager.go:34-35` expects that the hub may have been replaced
  before its cleanup. It cannot be: `HubRooms.ManagerExact`.
- `server/internal/hub/handler.go:33` presents the retry as covering a hub that was cleaned up.
  Both attempts can meet one and the same hub, whose cleanup is still to come
  (`HubRooms.BothAttemptsMayFail`), two hubs that have both stopped
  (`HubRooms.AttemptsMayFailOnTwoHubs`), or a hub that stops after the second lookup has made it
  (`HubAttempts.SecondAttemptOnNewHubMayFail`). `HubRooms.SecondLookup` says exactly what the
  lookup hands out. Whatever it hands out, the attempt can still fail
  (`HubAttempts.CanAlwaysFail`), and it can still succeed iff the hub has not stopped and its
  loop is not certain to stop next (`HubAttempts.CanJoinIff`).
- `server/internal/repository/device.go:47-48` allows for several active delegations of one
  device. The index of `server/migrations/000006_delegations_unique_active.up.sql:1` keeps them
  from it in every interleaving: `SocialProofs.OneOpenDelegation`.
- `server/internal/repository/delegation.go:28` says that a grant revokes any active delegation. It
  does not see one that was committed after its UPDATE began, and is then refused:
  `DelegationTimes.InsertAbortsIff`, `DelegationTimes.SecondGrantMayFail`. And one that began later
  and committed first it closes at a time before that one was created: `DelegationTimes.RacingGrants`.
- `server/internal/service/delegation.go:43-51` grants to friends only, but tests the friendship
  before the transaction begins. A friendship that ends in between does not stop the grant:
  `Provenance.GrantAfterUnfriend`, with the exact condition in `Provenance.FriendAtCommitIff`.
- `lib/core/api/api_client.dart:92-98` completes the waiters a second time when the retry after a
  good refresh fails; that call throws, and the request's own handler is never completed:
  `RotationRequests.GoodRefreshHangs`, with the exact condition in `RotationRequests.HungIff`.

## Model

| member | source | states |
|---|---|---|
| HubInvariant.InvApply | server/internal/hub/hub.go:52-170 | Every action of every goroutine keeps the whole-state invariant: no panic, each client against its hub, each hub against its members, senders, the manager's map and the mutex. |
| HubProperties.GapFreeDelivery | server/internal/hub/hub.go:73-114 | From registration on, in every run, what was put on a client's channel is one contiguous segment of its hub's log, beginning at the log's length at registration; what its pump has read is a prefix of it. |
| HubProperties.HowMembershipEnds | server/internal/hub/hub.go:81-103 | A membership ends exactly by the client's own unregister, having been served the whole log, or by eviction, and then its 256-slot queue was full and the evicting message is the one it misses. |
| HubProperties.AcceptedInOrder | server/internal/hub/hub.go:52-57 | The messages that a hub has accepted never change and only grow at their end; they are dequeued in that order without loss or repeat, and a stopped hub dequeues nothing more. Which messages are accepted is the next row. |
| HubSends.AcceptedIsWhatWasSent | server/internal/hub/hub.go:52-168 | In every run, the messages that a hub has accepted are, in order, exactly those of the completed forwards and calls aimed at it: of a client what its pump read last, under the client's room; of HubManager.Broadcast what it was called with. No other action adds one. |
| HubSends.WaitingCallsEnd | server/internal/hub/hub.go:52-57 | A pump or a caller that waits for a hub goes on only by handing its message over, or because that hub has stopped. |
| HubProperties.RoomsAreIsolated | server/internal/hub/manager.go:45-56 | Every message on a client's channel was meant for the room the client joined. |
| HubProperties.ChannelSafety | server/internal/hub/hub.go:77-103 | No run sends on or closes a closed channel; a joined client is in its hub's set iff its channel is open; a stopped hub has closed every client it admitted; a member's hub field is the hub that holds it. |
| HubProperties.RegistersOnce | server/internal/hub/handler.go:28-42 | A client that has joined never registers or looks up again, keeps its hub, and a closed channel stays closed and gets nothing more. |
| HubRooms.ManagerExact | server/internal/hub/manager.go:21-43 | One live hub per room, the map holds exactly the live hubs, its size is their number, and the identity test in the cleanup always succeeds. |
| HubRooms.NoIdleRoom | server/internal/hub/hub.go:86-92 | A hub on which no ServeWS call is about to register has a client, or its loop's next action stops it, or it has stopped. |
| HubRooms.OnlyServeWSCreates | server/internal/hub/manager.go:48-56 | Only the lookup of a connecting client creates a hub or a map entry; Broadcast never does. |
| HubRooms.HasHubMeans | server/internal/hub/manager.go:58-66 | A room in the map is empty iff nobody has registered yet, or its stopped channel is closed, or its loop's next action closes it. |
| HubRooms.HasHubBeforeFirstClient | server/internal/hub/manager.go:58-66 | A run in which HasHub is true and nobody has connected. |
| HubRooms.SecondLookup | server/internal/hub/handler.go:34-42 | After a failed attempt the lookup hands out the same stopped hub iff that hub's cleanup has not run, and a stopped hub, the same or another, iff some hub of the room has closed stopped and waits for the mutex. |
| HubRooms.FailsOnlyOnStopped | server/internal/hub/hub.go:62-69 | Registration fails only on a hub that had clients and lost them all. |
| HubRooms.GivesUpIff | server/internal/hub/handler.go:34-45 | In every run a ServeWS call fails at most twice, and has given up iff two of its attempts have failed. |
| HubRooms.BothAttemptsMayFail | server/internal/hub/handler.go:33-45 | A run in which one ServeWS call fails twice on the same hub. |
| HubRooms.AttemptsMayFailOnTwoHubs | server/internal/hub/handler.go:33-45 | A run in which one ServeWS call fails on one hub, whose cleanup then runs, and again on a second hub that has stopped as well. |
| HubAttempts.CanJoinIff | server/internal/hub/hub.go:62-69 | An attempt to register can still succeed, in some run, iff its hub has not stopped, does not stand before the test with an empty room, and is not in a sweep that is certain to evict everybody. |
| HubAttempts.CanAlwaysFail | server/internal/hub/hub.go:62-69 | From every reachable state an attempt to register can still fail, in some run. |
| HubAttempts.SecondAttemptOnNewHubMayFail | server/internal/hub/handler.go:33-45 | A run in which the second lookup finds the map empty, is given a new hub, and the call fails on it. |
| HubProgress.Unblocks | server/internal/hub/hub.go:52-69 | From every reachable state, any call blocked on a hub channel is made ready by a finite run of that hub's loop alone, no longer than its current sweep plus two. |
| HubProgress.MutexHolderNeverWaits | server/internal/hub/manager.go:21-43 | Whoever holds the manager's mutex can go on at once, releases it, and touches no channel while holding it. |
| HubProgress.StoppedHubIsCollected | server/internal/hub/manager.go:32-40 | A stopped hub can always leave the map within three actions. |
| HubObjects.HubObject.OnRegister | server/internal/hub/hub.go:77-79 | The register case adds exactly the client, and is the action Register of the state machine. |
| HubObjects.HubObject.OnUnregister | server/internal/hub/hub.go:81-92 | The unregister case removes and closes exactly a member, stops the hub iff it is then empty after having had clients, and is the actions Unregister and Check. |
| HubObjects.HubObject.OnBroadcast | server/internal/hub/hub.go:94-112 | Whatever the iteration order, each member with room gets the message, each without is closed and removed, and the hub stops iff none is left. |
| HubObjects.HubObject.OnBroadcastMirrored | server/internal/hub/hub.go:94-112 | The broadcast case is a run of the state machine: Dequeue, one Deliver for each member, and Check; the set, the channels, the queue and the stop agree afterwards. |
| HubRounds.Round | server/internal/hub/hub.go:94-112 | From every reachable state a round for a message can be completed; members with room get it, the others are closed and removed, nobody else changes. |
| HubObjects.HubObject.Broadcast | server/internal/hub/hub.go:50-57 | The message is queued at the end, dropped only if stopped, and blocks iff the queue is full and the hub runs. |
| HubObjects.HubObject.BroadcastMirrored | server/internal/hub/hub.go:50-57 | Queueing and dropping are the actions SenderEnqueue and SenderAbort of the state machine; blocking means that neither is enabled. |
| HubObjects.HubManager.GetOrCreate | server/internal/hub/manager.go:21-43 | An existing hub is returned unchanged, otherwise a fresh one is put under exactly this key; map and result are those of the action ClientGet. |
| HubObjects.HubManager.OnEmpty | server/internal/hub/manager.go:32-40 | Afterwards the map is that of the action Cleanup; h is not under this key, every other entry is kept, and when the loop of h has come here in a reachable state, its entry was there and is gone. |
| HubObjects.HubManager.Broadcast | server/internal/hub/manager.go:45-56 | The map is never changed; without a hub nothing happens; with one the message is queued at its end, dropped only if it has stopped, and blocks iff its queue is full and it runs. |
| HubObjects.HubManager.BroadcastMirrored | server/internal/hub/manager.go:45-56 | The call is a run of the state machine, a lookup and then one arm of the select, with the same outcome, or it blocks there as well. |
| HubRounds.SweepOutcome | server/internal/hub/hub.go:94-103 | A complete sweep of the state machine, in any order of its turns, serves each member with room and evicts each one without, once. |
| PlaylistProofs.MoveRefinesReinsert | server/internal/repository/playlist.go:258-286 | On dense positions the shifts and the final update are "take the track out and insert it at newPos" on the ordered list. |
| PlaylistProofs.MoveChangesOnlyBetween | server/internal/repository/playlist.go:262-278 | Only rows between the old and the new position change, each by exactly one. |
| PlaylistProofs.MoveBackRestores | server/internal/repository/playlist.go:232-287 | Moving the track back to its old position restores the table. |
| PlaylistProofs.RenumberRepairs | server/internal/repository/playlist.go:212-221 | The recompaction makes positions exactly 1..n from any positions, keeping the order of rows whose positions differed. |
| PlaylistProofs.RemoveDeletes | server/internal/repository/playlist.go:194-227 | Removing a track deletes it from the list and keeps the rest in order. |
| PlaylistProofs.AddAppends | server/internal/repository/playlist.go:182-191 | Adding a track appends it to the list. |
| PlaylistProofs.InsertKeepsDenseIff | server/internal/repository/playlist.go:184-187 | An insert keeps positions exactly 1..n iff the maximum its subquery saw is still the maximum. |
| PlaylistProofs.RacingAddsCollide | server/internal/repository/playlist.go:182-191 | Two adds that both read the maximum first leave a repeated position. |
| PlaylistProofs.DenseMeansList | server/internal/repository/playlist.go:138-143 | Positions are exactly 1..n iff the table stands for a list. |
| PlaylistRuns.DenseForever | server/internal/repository/playlist.go:182-287 | Along every history of successful and failing requests on any playlists, a dense playlist stays dense. |
| PlaylistRuns.NewPlaylistIsDense | server/internal/repository/playlist.go:182-287 | A playlist that is empty at first has positions exactly 1..n at every commit. |
| PlaylistRuns.RemoveRepairs | server/internal/repository/playlist.go:194-227 | After a successful removal positions are exactly 1..n whatever they were before. |
| PlaylistRuns.ReplicaConverges | server/internal/handler/playlist.go:184-270 | A copy taken at any commit that applies the later events in commit order equals the server's list at every later commit, the only answer ListTracks can then give. |
| PlaylistRuns.StepIsEvent | server/internal/handler/playlist.go:202-270 | One request does to the list what the frame it pushes does to a copy. |
| PlaylistRuns.StepOther | server/internal/repository/playlist.go:182-287 | A request on one playlist leaves the others as they are. |
| PlaylistOutcomes.TracksAreThoseAdded | server/internal/repository/playlist.go:182-227 | Along every history a playlist has exactly the tracks that were added to it and not removed since, under the external ids with which they were added. |
| PlaylistOutcomes.NoTrackTwice | server/internal/repository/playlist.go:182-191 | Along every history no playlist has two tracks with one external id. |
| PlaylistOutcomes.OutcomeIff | server/internal/repository/playlist.go:182-256 | Which answer a request gets, for each answer exactly when; every answer but Ok leaves the table as it was. |
| PlaylistOutcomes.RowsStep | server/internal/repository/playlist.go:182-287 | Which rows are there after a request; a row keeps its playlist and its external id for good. |
| PlaylistObjects.PlaylistRepository.ListTracks | server/internal/repository/playlist.go:138-162 | The answer has every track of the playlist once, by position. |
| PlaylistObjects.PlaylistRepository.AddTrack | server/internal/repository/playlist.go:182-191 | The insert takes the step of the model, or answers Duplicate and changes nothing. |
| PlaylistObjects.PlaylistRepository.RemoveTrack | server/internal/repository/playlist.go:194-227 | Delete and recompaction take the step of the model, or answer NotFound and change nothing. |
| PlaylistObjects.PlaylistRepository.MoveTrack | server/internal/repository/playlist.go:232-287 | Range shift and final update, statement by statement, are the one-formula move, with the code's order of errors. |
| PlaylistObjects.PlaylistHandler.AddTrack | server/internal/handler/playlist.go:184-210 | The handler refuses iff the caller may not edit; it takes one step and pushes exactly the frame of its outcome, to that playlist's room only. |
| PlaylistObjects.PlaylistHandler.RemoveTrack | server/internal/handler/playlist.go:212-237 | The same for removal. |
| PlaylistObjects.PlaylistHandler.MoveTrack | server/internal/handler/playlist.go:239-270 | The same for moves; a position below 1, and nothing else, is a bad request, before access is looked at. |
| PlaylistRoom.WatcherConverges | server/internal/handler/playlist.go:294-306 | A watcher that registers when the room's log stands at the commit of its list has on its channel, in between any other messages, exactly what turns its list into the server's, up to what it was offered. |
| FrameOrder.OvertakingDiverges | server/internal/handler/playlist.go:294-306 | Two frames whose order decides what a copy ends up with: an addition, and a move of the new track. |
| FrameOrder.AddsCommuteIff | server/internal/handler/playlist.go:208 | Two additions may overtake each other iff they are the same. |
| FrameOrder.RemovesCommute | server/internal/handler/playlist.go:235 | Two removals may always overtake each other. |
| FrameOrder.AddRemoveCommuteIff | server/internal/handler/playlist.go:208-235 | An addition and a removal may overtake each other iff they are of different tracks. |
| FrameOrder.MovesCommuteIff | server/internal/handler/playlist.go:268 | Two moves of different tracks may overtake each other iff in either order the second leaves the first track where it was put. |
| FrameOrder.AddMoveCommuteIff | server/internal/handler/playlist.go:208-268 | An addition and a move may overtake each other iff the move is not of the new track into the old range, nor of an old track to the new end. |
| FrameOrder.RemoveMoveCommuteIff | server/internal/handler/playlist.go:235-268 | A removal and a move, not to the very end, of another track may overtake each other iff after the move the removed track is behind the moved one. |
| FrameOrder.RemoveMoveLastCommuteIff | server/internal/handler/playlist.go:235-268 | The same for a move to the very end: iff the moved track already stands last but for the removed one. |
| TokenProofs.RotationLineage | server/internal/auth/handler.go:103-193 | In every history of atomic handlers revocation is never undone, each token is exchanged at most once, and each login lineage has at most one active token. |
| TokenProofs.ReuseEndsEverything | server/internal/auth/handler.go:121-126 | After a reuse detection whose revocation did not fail, no token the user had by then is ever exchanged. |
| TokenProofs.ReuseRevokesAllIff | server/internal/auth/handler.go:121-126 | The detection leaves the user without active tokens iff the ignored RevokeAllForUser succeeded or there were none. |
| TokenProofs.RefreshSucceedsIff | server/internal/auth/handler.go:103-160 | A refresh succeeds iff the token is active, unexpired and of a known user and no statement it reaches fails; then exactly the successor appears and the token is revoked. |
| TokenOutcomes.ExchangeableIff | server/internal/auth/handler.go:103-224 | Over every history: a token that was issued at some time can be exchanged later iff no call in between has revoked it, at most the ttl has passed since, and no statement fails. |
| TokenOutcomes.ActiveWhileLeftAlone | server/internal/auth/handler.go:121-193 | Over every history a token is active iff no call has revoked it: no logout with it, no exchange of it that got as far as the revocation, no detected reuse of a token of its user. Its expiry and its user never change. |
| TokenOutcomes.LoginSucceedsIff | server/internal/auth/handler.go:49-87 | A sign-in gives tokens iff the user is known, the credentials are good, the address is verified and no statement fails; each other answer exactly when; the new token lives from now for the ttl, and without tokens nothing is written. |
| TokenOutcomes.RefreshAnswers | server/internal/auth/handler.go:103-160 | Which answer a refresh gets, for each answer exactly when. |
| TokenOutcomes.RefreshWrites | server/internal/auth/handler.go:121-140 | What a refresh writes to every row that was there: the time of the revocation to the rows it revokes, on the failure paths as well, and nothing else. |
| TokenOutcomes.RefreshCreates | server/internal/auth/handler.go:195-224 | There is a new row iff the answer has its token; it is the same user's and lives from now for the ttl. |
| TokenOutcomes.LogoutRevokes | server/internal/auth/handler.go:175-193 | A logout succeeds iff the token could be looked up, and writes the time to its row and to no other, unless the ignored revocation failed. |
| TokenProofs.LateRotationIff | server/internal/auth/handler.go:121-154 | A handler that rotates after an earlier check leaves each lineage with at most one active token iff the token is still active or no other of its lineage is. |
| TokenProofs.DeferredRotation | server/internal/auth/handler.go:121-154 | In every history with one handler that rotates late, the token is exchanged twice iff a call between its check and its rotation exchanged it. |
| TokenProofs.RacingRefreshes | server/internal/auth/handler.go:110-154 | Two handlers that both check before either revokes exchange one token twice and leave two active tokens in its lineage. |
| TokenObjects.TokenRepository.RevokeAllForUser | server/internal/repository/token.go:61-65 | Exactly the user's unrevoked rows are revoked. |
| TokenObjects.TokenRepository.Revoke | server/internal/repository/token.go:55-59 | Exactly this row gets the new revocation time. |
| TokenObjects.AuthHandler.SignIn | server/internal/auth/handler.go:49-87 | The login handler, statement by statement, is the login step; it stores exactly a row that expires at now + ttl, iff everything is in order. |
| TokenObjects.AuthHandler.RefreshTokens | server/internal/auth/handler.go:103-160 | The refresh handler, statement by statement, is the refresh step, with every failure path; with an answer of tokens the old row is revoked now and the new one expires at now + ttl. |
| TokenObjects.AuthHandler.SignOut | server/internal/auth/handler.go:175-193 | The logout handler is the logout step: it revokes exactly the token it was given. |
| RotationProofs.InvApply | lib/core/api/api_client.dart:40-100 | Every disciplined action of the app, the network and the server keeps the joint invariant. |
| RotationProofs.NeverPostsRevoked | lib/core/api/api_client.dart:66-99 | In every disciplined run the interceptor posts only an active token, every refresh still to be served carries an active token, and reuse detection never fires for the user. |
| RotationProofs.SingleFlight | lib/core/api/api_client.dart:49-67 | In every run, disciplined or not, at most one refresh runs, and each waiter's refresh is running or has completed. |
| RotationProofs.PostedInTurn | lib/core/api/api_client.dart:66-80 | In every disciplined run a token is posted for a refresh only after all earlier posts of it were answered without an exchange. |
| RotationExact.ReuseCanFollowIff | lib/core/api/api_client.dart:66-99 | After any disciplined run, and for any action possible there, a disciplined continuation can make reuse detection fire iff the action violates its guard: a death of the app or a failing delete while the stored token is revoked or under way and nobody will replace it, or a logout and a refresh that may read one token. |
| RotationExact.CrashIsHarmfulIff | lib/core/api/api_client.dart:73-85 | Killing the app can be followed by reuse detection iff the stored token is revoked or on its way to the server. |
| RotationRequests.RetriedAndCompletedOnce | lib/core/api/api_client.dart:39-100 | In every run of one life of the app a request enters its retry at most once, its handler is completed at most once, and no retry follows the completion. |
| RotationRequests.HungIff | lib/core/api/api_client.dart:87-98 | A handler is left uncompleted for good iff in the run its retry failed after a good refresh, or a delete in the catch block failed. |
| RotationRequests.GoodRefreshHangs | lib/core/api/api_client.dart:85-93 | A run: the refresh succeeds and is stored, the retry fails, and the handler is never completed. |
| RotationTokens.RetriedWithTheNewToken | lib/core/api/api_client.dart:49-91 | In every run of one life of the app: what the waiters are told, and what the refreshing request is retried with, is the token that the server issued to this request in exchange for the one it had read; a request that waited is retried with the token so issued to the request it waited for. |
| RotationTokens.TookWhatWasIssued | lib/core/api/api_client.dart:72-87 | Whatever a request holds as the outcome of its refresh, the server issued it in exchange for what this request had read and posted, and this request took the answer. |
| RotationTokens.LoginStores | lib/features/auth/auth_provider.dart:24-37 | A login that nothing disturbs leaves both tokens of its answer in the storage. |
| RotationTokens.LogoutForgets | lib/features/auth/auth_provider.dart:41-57 | A logout that nothing disturbs revokes exactly the stored token and leaves nothing in the storage. |
| RotationExact.LeftoverIsReused | server/internal/auth/handler.go:121-126 | A revoked token left in the storage makes reuse detection fire at the next 401. |
| RotationExact.CrashBreaksIt | lib/core/api/api_client.dart:73-85 | A run: killing the app while the answer is on its way leads to reuse detection. |
| RotationExact.FailingDeleteBreaksIt | lib/core/api/api_client.dart:92-98 | A run: a lost answer and a failing delete lead to reuse detection. |
| RotationExact.LogoutRaceBreaksIt | lib/features/auth/auth_provider.dart:41-57 | A run: a 401 during a logout leads to reuse detection. |
| RotationExact.OverlappingLogoutBreaksIt | lib/features/auth/auth_provider.dart:41-57 | A run: a logout that starts while a refresh is on its way leads to reuse detection. |
| AppObjects.AuthInterceptor.OnError | lib/core/api/api_client.dart:40-100 | onError is a run of the state machine and ends as the request does there, for every status; it waits iff a refresh is in flight, and leaves in the storage only a token that can be exchanged. |
| AppObjects.AuthInterceptor.OnUnauthorized | lib/core/api/api_client.dart:48-99 | The part after the test for a 401: what is stored, what the waiters are told, how it ends and what the server holds, by the server's answer, whether it arrives, and the retry. |
| AppObjects.AuthInterceptor.Resume | lib/core/api/api_client.dart:49-64 | The rest of onError for a request that waited is a run of the state machine: through a retry that carries the token it was told, or, told null, straight to its error. |
| VoteProofs.TallyAgreement | server/internal/repository/track.go:76-97 | In every interleaving of vote transactions, rollbacks, suggestions and deletions, each counter is the number of its votes, nobody has two votes for a track, and all counters add up to all votes. |
| VoteProofs.InvCommit | server/internal/repository/track.go:83-91 | The counter written under the row lock is still right when it is published together with its vote. |
| VoteProofs.OnlyCommitCounts | server/internal/repository/track.go:87-91 | A committed vote raises its own track's counter by one, and nothing else changes a counter. |
| VoteOutcomes.VotedIffCast | server/internal/repository/track.go:76-92 | In every interleaving a user has a vote for a track only if a call of this user for this track has committed, and, if the track was never removed, exactly then. |
| VoteOutcomes.VotedStep | server/internal/repository/track.go:76-97 | Which votes there are after an action: a commit adds the vote of its own user for its own track, a removal takes those of its tracks, nothing else changes them. |
| VoteOutcomes.NoTrackTwice | server/migrations/000002_full_schema.up.sql:74-84 | In every interleaving no event has two tracks with one external id. |
| VoteOutcomes.SuggestMeans | server/internal/repository/track.go:40-47 | A suggestion is stored as it came, with no votes, iff the event does not have the external id yet. |
| VoteOutcomes.RemovalMeans | server/internal/repository/track.go:94-97 | A track and its votes stay unless an action removes the track, and then exactly they go; a track keeps its event, its external id and its time. |
| QueueModel.VoteMovesOneTrack | server/internal/repository/track.go:49-67 | With distinct times, one vote takes the track out of the queue and reinserts it no further back, at the place its new count gives it; all else keeps its order, and everything behind it its place. |
| QueueModel.CommitMovesOneTrack | server/internal/repository/track.go:76-92 | A committed vote transaction is such a step for its event's queue and none for the others. |
| QueueModel.QueueUnique | server/internal/repository/track.go:50 | With distinct times GetQueue has one possible answer. |
| VoteOutcomes.QueueOrder | server/internal/repository/track.go:50 | A list is the queue of an event iff it has exactly the event's tracks, each once, more votes first, and the earlier suggestion first among equally many. |
| LicenseModel.CompleteForever | server/internal/service/event.go:41-77 | Along every history, each stored event with license 2 has all five values. |
| LicenseModel.EnforceNeverNil | server/internal/service/track.go:119-130 | No request against a stored event dereferences nil. |
| LicenseModel.SafeIffComplete | server/internal/service/track.go:106-132 | An event is safe for every caller iff it is complete. |
| LicenseModel.AllowedIff | server/internal/service/track.go:106-132 | Exactly who may suggest and vote. |
| LicenseModel.UpdateSucceedsIff | server/internal/repository/event.go:128-147 | An update succeeds iff the caller owns the event and, when it sets license 2, the request itself has all five values; it never clears a value. |
| EventOutcomes.LatestValue | server/internal/repository/event.go:49-147 | Over every history each column of a stored event holds the value that was given to it last, by its creation or by an update. |
| EventOutcomes.AccessibleIff | server/internal/repository/event.go:108-119 | Over every history an event can be seen by exactly its creator, those its owner has invited, and everybody while it is public, as long as it is not deleted. |
| EventOutcomes.InvitedIff | server/internal/service/event.go:90-108 | Over every history a user counts as invited iff the owner has invited him and the event has not been deleted since. |
| EventOutcomes.UpdateMeans | server/internal/repository/event.go:128-147 | After an update each column that the request gives has the given value, each other its old one; owner, other events and invitations are as before; each answer exactly when. |
| EventOutcomes.CreateMeans | server/internal/repository/event.go:49-59 | A creation stores each column of the request in its own column, under the caller's name, and touches nothing else. |
| EventOutcomes.DeleteMeans | server/internal/service/event.go:79-88 | The owner alone deletes an event; exactly its invitations go with it. |
| EventOutcomes.InviteMeans | server/internal/service/event.go:90-108 | Each answer to an invitation exactly when; it adds exactly the invitation. |
| EventOutcomes.VerdictIff | server/internal/service/track.go:106-132 | For a complete event, exactly when each refusal is given. |
| EventObjects.EventService.Create | server/internal/service/event.go:41-46 | The service stores each column of the request and nothing else, is the create step, and keeps completeness. |
| EventObjects.EventService.Update | server/internal/service/event.go:63-77 | Each given column is overwritten and each other kept; the service is the update step, and keeps completeness. |
| EventObjects.EventService.Delete | server/internal/service/event.go:79-88 | The event and exactly its invitations are gone iff the caller owns it. |
| EventObjects.EventService.Invite | server/internal/service/event.go:90-108 | Exactly one invitation is added iff the caller owns the event and the guest is a user without one. |
| EventObjects.EventService.EnforceLicense | server/internal/service/track.go:106-132 | On a complete event the checks give the model's verdict without dereferencing nil. |
| EventObjects.TrackService.Vote | server/internal/service/track.go:77-104 | Each answer is given iff the guards before it pass and its own fails, in the code's order; the vote is cast iff all pass, and then adds exactly one vote row and one to its counter. |
| EventObjects.TrackService.Suggest | server/internal/service/track.go:43-64 | Each answer is given iff the guards before it pass and its own fails; if all pass exactly the suggested row is added, and external ids stay unique. |
| EventObjects.TrackService.DeleteTrack | server/internal/service/track.go:134-150 | The track and exactly its votes are gone iff the caller owns the event and the track is in it; each refusal exactly when. |
| EventObjects.TrackService.GetQueue | server/internal/service/track.go:66-75 | An answer is given iff the caller can see the event; it has every track of the event once, by votes and then by time. |
| EventObjects.TrackService.ByVotes | server/internal/repository/track.go:49-67 | The query's rows: every track of the event once, more votes first, and the earlier suggestion first among equals. |
| SocialProofs.FriendshipPartition | server/internal/service/friend.go:42-94 | In every history an unordered pair has at most one row, and a row becomes accepted only by its addressee's accept while pending. |
| SocialProofs.ListsMirror | server/internal/repository/friend.go:91-169 | The friends, incoming and outgoing lists of two users mirror each other, agree with the symmetric IsFriend, and name a pair in one way only. |
| SocialOutcomes.FriendsHaveAgreed | server/internal/service/friend.go:42-75 | In every run each row was asked for by its requester and, if it is accepted, agreed to by its addressee after that. |
| SocialOutcomes.RequestProtocol | server/internal/service/friend.go:42-119 | A stored request can be accepted and rejected by nobody but the user it was sent to and withdrawn by nobody but its sender; accepted, it makes these two friends and nobody else; rejected or withdrawn, it leaves everything as before. |
| SocialOutcomes.ListsMean | server/internal/repository/friend.go:91-169 | A user's incoming requests are exactly those that he may accept, his outgoing ones the pending ones that he may remove, his friends those that either of the two may remove. |
| SocialOutcomes.SendMeans | server/internal/service/friend.go:42-56 | Each answer to a request exactly when; it is stored with the sender as requester, pending. |
| SocialOutcomes.AcceptMeans | server/internal/service/friend.go:58-75 | Each answer to an acceptance exactly when; it makes the pair of the row friends, and nobody else. |
| SocialOutcomes.RejectMeans | server/internal/service/friend.go:77-94 | A rejection has the answers of an acceptance, removes the row, and changes nobody's friendship. |
| SocialOutcomes.UnfriendMeans | server/internal/service/friend.go:96-119 | Exactly who may remove a row; afterwards its pair, and only its pair, has no row. |
| SocialProofs.InsertKeepsPairsIff | server/internal/repository/friend.go:48-62 | An insert keeps one row per pair iff the pair has none when it commits. |
| SocialProofs.CrossingRequests | server/internal/service/friend.go:47-55 | Two users who ask each other before either insert end up with two rows. |
| SocialProofs.OneOpenDelegation | server/internal/repository/delegation.go:29-62 | In every interleaving of grants, revocations and other requests a device has at most one open delegation, the last that was committed, and none when the device is gone. |
| SocialOutcomes.RevokeMeans | server/internal/repository/delegation.go:56-62 | After a revocation nobody but the owner is authorized for the device: each row that was open carries the given time, and closed rows, other devices, friendships and the devices are as before. |
| SocialOutcomes.GrantMeans | server/internal/repository/delegation.go:29-53 | After a grant the owner and the friend, and nobody else, are authorized: one row is new, each row that was open is closed, nothing else has changed; each refusal exactly when. |
| SocialOutcomes.CommitMeans | server/internal/repository/delegation.go:29-62 | In every interleaving, once a grant or a revocation commits every row that it saw is closed, and after a grant its friend is the one delegate of the device. |
| SocialOutcomes.RegisterMeans | server/internal/repository/device.go:38-44 | A device is registered iff the user has none of this model, and is then his alone. |
| SocialOutcomes.DeleteMeans | server/internal/repository/device.go:92-98 | A device is deleted iff the caller owns it; then nobody is authorized for it, and the others are as before. |
| DelegationTimes.IntervalsIffInOrder | server/internal/repository/delegation.go:36-50 | The rows of a device are consecutive intervals iff the transactions that made them committed in the order in which they began. |
| DelegationTimes.SerialIsConsecutive | server/internal/repository/delegation.go:29-62 | Without overlapping transactions on a device its rows are consecutive intervals. |
| DelegationTimes.InsertAbortsIff | server/migrations/000006_delegations_unique_active.up.sql:1 | A grant is refused by the index iff another grant of the device has committed since its UPDATE began and is still open. |
| DelegationTimes.RacingGrants | server/internal/repository/delegation.go:36-50 | Whenever an owner may grant, two grants can race so that one row is closed before it was created. |
| DelegationTimes.ClosedBeforeCreated | server/internal/repository/delegation.go:36-50 | A run from an empty database to such a row. |
| DelegationTimes.SecondGrantMayFail | server/internal/repository/delegation.go:44-50 | Whenever an owner may grant, two grants can race so that one of them is refused by the index. |
| DelegationTimes.GrantAlone | server/internal/repository/delegation.go:29-53 | A grant that nobody interrupts commits, as the only new transaction, and its effect is the one-step grant, of which SocialOutcomes.GrantMeans says what it is. |
| DelegationTimes.RevokeAlone | server/internal/repository/delegation.go:55-62 | A revocation that nobody interrupts commits, as the only new transaction, and its effect is the one-step revocation, of which SocialOutcomes.RevokeMeans says what it is. |
| SocialProofs.DelegationViewsAgree | server/internal/repository/delegation.go:65-104 | In every interleaving, for everyone but the owner, being authorized, having the device listed, and being shown in the owner's list are the same, and hold for at most one user. |
| SocialProofs.RowsOnlyClose | server/internal/repository/delegation.go:36-61 | A row only ever changes by being closed once, by a commit and with the start of its transaction, while its device exists. |
| Provenance.EveryRowWasGranted | server/internal/service/delegation.go:35-52 | Every row of every state was committed by a grant of this device, by its owner, to this delegate, which before its commit had found the delegate a friend of the owner. |
| Provenance.StillFriendsIff | server/internal/service/friend.go:58-119 | In every run two friends are still friends later iff every removal of their row in between is followed by an acceptance. |
| Provenance.FriendAtCommitIff | server/internal/service/delegation.go:43-51 | The delegate of a row was a friend when the row was committed iff every removal of their row since the test was made good by then. |
| Provenance.GrantAfterUnfriend | server/internal/service/delegation.go:43-51 | Whenever an owner may grant, the friendship can end between the test and the transaction, and the grant is committed all the same. |
| Provenance.DelegateIsNoFriend | server/internal/service/delegation.go:43-51 | A run from an empty database to an authorized delegate without any friendship. |
| SocialProofs.UnfriendKeepsDelegation | server/internal/service/friend.go:96-119 | Ending a friendship leaves its delegate authorized. |
| SocialObjects.SocialStore.Grant | server/internal/service/delegation.go:35-52 | Guards, closing update and insert, run alone, are the grant step; both statements carry the start of the transaction, the index admits the insert, and afterwards the owner and the friend alone are authorized. |
| SocialObjects.SocialStore.Revoke | server/internal/service/delegation.go:54-63 | Guard and update are the revoke step: iff the caller owns the device, every open row gets the time, nothing else changes, and the owner alone is authorized. |
| SocialObjects.SocialStore.ListDelegated | server/internal/repository/delegation.go:77-104 | Exactly the devices whose active delegate is the user, no device twice, the oldest device first. |
| SocialObjects.SocialStore.DelegateOf | server/internal/repository/device.go:46-60 | The delegate of the newest active row, or none if there is none. |
| SocialObjects.SocialStore.SendRequest | server/internal/service/friend.go:42-56 | The service is the send step: it stores exactly the pending row of this requester and this addressee, iff they differ and have none. |
| SocialObjects.SocialStore.AcceptRequest | server/internal/service/friend.go:58-75 | The service is the accept step: exactly this row becomes accepted, iff it is pending and the caller is its addressee. |
| SocialObjects.SocialStore.RejectRequest | server/internal/service/friend.go:77-94 | The service is the reject step. |
| SocialObjects.SocialStore.Unfriend | server/internal/service/friend.go:96-119 | The service is the unfriend step. |
| SocialObjects.SocialStore.RegisterDevice | server/internal/repository/device.go:38-44 | The insert is the register step, refused for a repeated model. |
| SocialObjects.SocialStore.DeleteDevice | server/internal/repository/device.go:92-98 | The delete is the delete step, with the cascade to delegations. |

## Left out

- `ServeWS`, `tryRegister`, `readPump` and `writePump` are actions of the state machine and not methods: each of them blocks, and what matters is what others do meanwhile. The same holds for the awaits of the interceptor; `AppObjects` has its undisturbed run.
- EventObjects.EventService.Delete: the cascade to the event's tracks and their votes is the action DeleteEvent of `VoteModel`, not part of the object.
- EventOutcomes.InviteMeans: whether the guest is a user is a parameter.
- HubObjects.HubManager.Broadcast: one call of the select; a caller that would block is told so instead of waiting, and the waiting is in `HubProgress`.
- AppObjects.AuthInterceptor.OnError: interference at its awaits, other than the wait for a refresh in flight, is only in `RotationModel`.
- RotationProofs.NeverPostsRevoked: for disciplined runs of one app instance whose logins are all of one user; `RotationExact.ReuseCanFollowIff` says that each restriction of the discipline is exact. A second instance with sessions of the user, a second user who signs in on the same instance, and two logouts at the same time are not modelled.
- PlaylistRuns.ReplicaConverges: the rule of the copy is a specification; the playlist screen's own code is not part of this model.
- PlaylistRoom.WatcherConverges: assumes that the handlers' frames reach the hub in commit order and that no client of the room sends one that looks like theirs; handlers push after the commit without a common lock, and `readPump` forwards whatever a client sends. `FrameOrder` says for each pair of adjacent frames whether their order matters.
- Interleavings of RemoveTrack and AddTrack inside their transactions, and of friendship requests inside theirs, beyond the racing adds and the crossing requests that are shown.
- Ping and pong timers, deadlines, close frames, and the reasons why a pump stops.
- Gin handlers, JSON binding other than the bounds cited, status codes, CORS, rate limits, logging, Swagger, mail, Deezer and Google calls.
- bcrypt, JWT signing, hashing and random generation: credentials are a parameter, tokens are new values.
- `HaversineKm` and the location filter of the event list: floating point; the distance is any function.
- Deleting users and its cascades: no endpoint does it.
- Profiles, search, e-mail verification, password reset, invitations to playlists, and the edit access of playlists (a parameter of the handler).
- `WebSocketService` reconnection and all widgets of the app.
