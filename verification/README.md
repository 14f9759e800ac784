# Room placement, subscriptions and presence: a verified model

This project models the parts of the chat system where several machines or goroutines must agree,
and proves what they agree on. Every file is one module.

| file | what it models |
|---|---|
| `Names.dfy` | Go strings as byte sequences, optional values |
| `Leases.dfy` | the room lease in Redis and its five atomic commands, as a class |
| `Hrw.dfy`, `Ranking.dfy`, `Weights.dfy` | the FNV-1a score, the ranking by score, load weights and the weighted ranking |
| `Apps.dfy`, `Directory.dfy` | the directory's table of apps; its heartbeat and join handlers, one request at a time, as a class |
| `Placement.dfy` | joins, heartbeats, WebSocket accepts, crashes and the clock as interleaved steps over one world |
| `SingleHost.dfy`, `Cadence.dfy`, `Counterexamples.dfy` | exactly which steps break one host per room; when leases are renewed in time; runs that break each assumption |
| `Ownership.dfy`, `Routing.dfy` | how a lease changes hands, who keeps it, what a successful join proves; what the app a join is sent to had reported |
| `SoloJoin.dfy` | the step-by-step join and the handler of `Directory.dfy` are one algorithm, also when Redis commands fail |
| `Subscriptions.dfy` | a room's Redis subscription on one node, with generations, under concurrent joins and leaves |
| `Presence.dfy` | the mirror of who is online, and its convergence |
| `Counters.dfy`, `History.dfy`, `DirectMessages.dfy`, `AuthLimiter.dfy` | room counters, the history window, DM room names, the evicting rate limiter |

## How to read it

Code that changes state is a class whose methods are proved against functions of the old state
(`Leases.LeaseStore`, `Directory.State`, `Subscriptions.Hub`, `Presence.Mirror`, ...). Contracts
also say the result in plain terms, on the fields and with the numbers of the source. Where goroutines
or machines interleave, the same functions are the effect of one step of a state machine: a `Step`
names who moves, `Enabled` and `Apply` say when and what, and a run is a sequence of worlds joined by
steps. Theorems about runs hold for every run, of any length, with any number of joins, nodes, clients
and rooms. Time is a real number of seconds and only a `Tick` step moves it. A lost reply (Redis acted
but the caller never heard) and a failed command are steps of their own.

Assumptions are predicates on steps, and only the theorems that name them use them:

- `SingleHost.CrashStop`: a node that a join finds gone (unknown to the directory, or silent for more
  than ten seconds) has stopped for good, and never comes back under the same app id.
- `SingleHost.LeasesOutlive`: a lease does not run out while its holder has a connection.
- `SingleHost.PositiveCounts`: nodes report only rooms with users, which is what
  `Counters.RoomCounters.SnapshotActive` is proved to do.

`Cadence.RenewedInTime` needs none of the three: for one node and one room it is enough that the node's
own heartbeats list the room in time and do not give it up, and that no join for the room finds the node
gone.

## Findings

- One host per room is not unconditional. A run keeps every host on a live lease exactly when no step
  lets a lease run out under a connection, gives up in a node's own heartbeat a room the node still
  serves, or takes a room over from a node that still serves it (`SingleHost.HostsHoldExactly`). After
  such a step one accept puts the room on two nodes (`SingleHost.OneAcceptAway`). Each can happen:
  - a heartbeat that arrives after the lease ran out does not win the room back
    (`Counterexamples.LateHeartbeatSplitsRoom`);
  - a node the directory does not know is taken for gone. After a restart of the directory every node is
    unknown until its next heartbeat, and a join in that window moves a room away from a live node with
    clients (`Counterexamples.UnknownNodeSplitsRoom`), although the comment at
    apps/directory/handlers.go:383-387 calls such a node dead;
  - a heartbeat with a count of zero gives up a room with clients (`Counterexamples.ZeroCountSplitsRoom`);
    the nodes' own code does not send one.
- The comment above `stopSubscriptionIfEmpty` promises that idle rooms hold no subscription. That is so
  exactly as long as every subscription, when it is started, finds somebody in the room or about to check
  it (`Subscriptions.IdleRoomsUnsubscribe`). A client that drops between the start of its readPump and its
  subscription step, alone in an unflagged room, leaves one behind
  (`Subscriptions.DroppedClientLeavesSubscription`).
- Presence keys converge (`Presence.PresenceConverges`). The index lists the rooms with a key exactly as
  long as no `readPresence` drops a room that has one at that moment (`Presence.IndexRun`); a slow reader
  can (`Presence.SlowReaderHidesRoom`).
- A DM room admits both its participants exactly when the smaller name has no colon
  (`DirectMessages.PartnersRoundTrip`). It is shared with another conversation exactly when its name can
  also be split at another colon into a smaller and a larger name (`DirectMessages.SharedExactly`), so
  "a" with "b:c" shares a room with "a:b" with "c" although "a" has no colon.
- The comment on `Takeover` says its stale owner is "draining/unhealthy"; the handler passes only an
  owner that is unknown or silent. The model follows the handler.

## Model

| member | source | states |
|---|---|---|
| `Leases.LeaseStore.Owner` | apps/directory/redis.go:62-68 | the value of an unexpired key, else nothing |
| `Leases.LeaseStore.TryClaim` | apps/directory/redis.go:70-81 | succeeds exactly on a free key, which it then owns for 60 s; otherwise nothing changes |
| `Leases.LeaseStore.RefreshLease` | apps/directory/redis.go:34-40 | only the owner's unexpired lease is extended; an expired one is not reclaimed |
| `Leases.LeaseStore.Release` | apps/directory/redis.go:42-48 | only the owner's own lease is deleted |
| `Leases.LeaseStore.Takeover` | apps/directory/redis.go:50-60 | succeeds exactly when the key is free or still holds the stale owner |
| `Leases.LeaseStore.ClaimOrGet` | apps/app/server/roomlease.go:21-33 | afterwards the answer owns the room; an existing lease is neither moved nor extended |
| `Hrw.ComputeScore` | internal/shared/hrw.go:8-14 | the three writes hash the concatenation room, "\|", app; below 2^64 |
| `Hrw.KnownAnswer` | internal/shared/hrw.go:8-14 | the hash agrees with FNV-1a 64 on a published value, which pins offset, prime and order of the two operations |
| `Hrw.KnownScore` | internal/shared/hrw.go:8-14 | the score of app "b" for room "a" is the FNV-1a 64 hash of "a\|b" |
| `Hrw.FnvInjective` | internal/shared/hrw.go:8-14 | two different hash states stay different under every common suffix |
| `Hrw.NearNamesNeverTie` | internal/shared/hrw.go:8-14 | ids of one length that differ in one byte have different scores for every room |
| `Ranking.RankApps` | internal/shared/hrw.go:16-31 | a permutation of the input ids, scores never rising from one to the next |
| `Ranking.RankingUnique` | internal/shared/hrw.go:16-31 | without ties the ranking is unique, so input order does not matter |
| `Ranking.RemovalOnlyDeletes` | internal/shared/hrw.go:16-31 | removing an app deletes it from the ranking and moves nothing else |
| `Ranking.OnlyItsRoomsMove` | internal/shared/hrw.go:16-31 | only rooms led by the removed app change leader |
| `Weights.WeightRange` | apps/directory/weights.go:29-57 | an eligible weight is 1/penalty, within [1/2.8, 1]; the 0.0001 floor never applies |
| `Weights.WeightFormula` | apps/directory/weights.go:34-56 | while nothing is saturated the weight is 1/(1 + 0.7 cpu/100 + 0.7 MB/2048 + 0.4 users/800), missing stats counting as zero |
| `Weights.WeightSaturates` | apps/directory/weights.go:19-27 | load beyond 100 percent, 2048 MB or 800 users, or below no users, changes nothing |
| `Weights.KnownWeights` | apps/directory/weights.go:29-57 | 1 for an idle node, 1/1.2 and 1/1.4 at 400 and 800 users, 1/1.7 at full CPU or memory, 1/2.8 at full everything |
| `Weights.ZeroWeight` | apps/directory/weights.go:29-33 | the weight is zero exactly for unhealthy, draining or addressless apps |
| `Weights.WeightedRankApps` | apps/directory/weights.go:60-86 | exactly the healthy, not draining, addressed apps of the input, each as often, in descending score times weight |
| `Weights.BigScoreWins` | apps/directory/weights.go:60-86 | a score more than 2.8 times another is ranked first whatever the loads |
| `Weights.MoreLoadWeighsStrictlyLess` | apps/directory/weights.go:34-56 | more users, CPU or memory, short of saturation, weighs strictly less |
| `Weights.MoreLoadNeverHelps` | apps/directory/weights.go:29-86 | raising what one app reports never moves it ahead of an app before it and keeps the order of the others |
| `Directory.State.HeartbeatHandler` | apps/directory/handlers.go:175-229 | 400 and no change without id or address; else address, users, draining flag and time come from the heartbeat, the room list too unless omitted, stats and other records stay, and exactly the app's own leases are refreshed (count > 0) or released |
| `Directory.State.MarkStale` | apps/directory/handlers.go:441-454 | every record becomes healthy exactly when not draining and heard within 10 s, and keeps its other fields |
| `Directory.State.GetHealthyAppIDs` | apps/directory/handlers.go:429-439 | lists exactly the healthy, not draining, addressed apps, each once |
| `Directory.State.JoinHandler` | apps/directory/handlers.go:267-360 | 400; or the owner, if heard within 10 s, not draining and under 300 users in the room; or 503 if nobody is in service; or 429 with the lease untouched while it is held by an owner not read as gone; or the app in service with room of greatest weighted score, which gets the lease for 60 s; or 429. A failed owner lookup counts as no owner, a failed claim passes that app over |
| `Directory.State.ClaimLoop` | apps/directory/handlers.go:316-356 | the first ranked app with room and an address whose claim command works wins if the lease can be claimed; a claim for an app without an address is given back; else nothing changes |
| `SoloJoin.SoloJoinIsPlaced` | apps/directory/handlers.go:286-360 | a join of the step model that runs alone, whichever of its commands fail, ends as the handler's contract says |
| `Placement.SoundRun` | apps/directory/handlers.go:339-353 | in every run each candidate is known with an address, so the branch that gives a claimed lease back is never taken |
| `Placement.WhereConnsGo` | apps/app/server/main.go:372-400 | a connection ends exactly by closing or with its node, and becomes a client by its upgrade |
| `SingleHost.LeavesExactly` | apps/directory/redis.go:34-60 | a step takes the lease from its owner exactly when it expires, the owner's own heartbeat releases it, or a join that found the owner gone claims it for another app |
| `SingleHost.HostsHoldExactly` | apps/app/server/main.go:358-370 | in every run, each connection's node has held its room's live lease so far exactly when no such step hit a room of a node that kept a connection |
| `SingleHost.HoldingIsOneHost` | apps/app/server/roomlease.go:9-11 | while every connection's node holds its room's lease no room is on two nodes |
| `SingleHost.OneAcceptAway` | apps/app/server/main.go:358-370 | another live node is let in beside a connection exactly when the connection's node lost the lease to it or to nobody, and then the room is on two nodes |
| `SingleHost.SafeStep` | apps/app/server/main.go:358-405 | under the three assumptions every step keeps: connections only on live nodes that hold the room's live lease, stale owners dead |
| `SingleHost.OneHostPerRoom` | apps/app/server/roomlease.go:9-11 | under the three assumptions, at every moment each connection's node holds the room's live lease, and two connections to a room are on one node |
| `Cadence.HeldLeaseUntouched` | apps/directory/handlers.go:213-223 | the lease of an owner that no join for the room suspects is changed only by its own heartbeats, to 60 s more |
| `Cadence.RenewedInTime` | apps/directory/handlers.go:213-217 | for one node and one room: with g seconds left at the first accept, a listing at least every g <= 60 s and no join for the room finding the node gone, the lease neither runs out nor changes owner while the node has a connection, whatever other nodes and rooms do |
| `Cadence.HeartbeatsKeepTheRoom` | apps/directory/handlers.go:388-393 | the same from heartbeats alone: heard within every 10 s, listing within every g <= 60 s |
| `Cadence.PacedRunHasOneHost` | apps/app/server/heartbeat.go:85-101 | if all nodes list their rooms in time, one host per room needs only the crash-stop assumption |
| `Counterexamples.LateHeartbeatSplitsRoom` | apps/directory/redis.go:34-40 | a run with a room on two nodes where only the expiry assumption fails |
| `Counterexamples.UnknownNodeSplitsRoom` | apps/directory/handlers.go:388-393 | a run with a room on two nodes where only the crash-stop assumption fails |
| `Counterexamples.ZeroCountSplitsRoom` | apps/directory/handlers.go:218-222 | a run with a room on two nodes where only the assumption on reported counts fails |
| `Ownership.HowALeaseLeaves` | apps/directory/handlers.go:286-352 | a lease leaves its owner only by expiry, by the owner's own heartbeat, or by a join that read this owner and then found it gone |
| `Ownership.GoneMeansSilent` | apps/directory/handlers.go:388-393 | gone is exactly: no heartbeat received yet, or none for more than 10 s |
| `Ownership.LiveOwnerKeepsItsRoom` | apps/directory/handlers.go:383-387 | an owner that no join for the room finds gone, that is renewed and does not release keeps its room against any number of joins, however full or draining |
| `Ownership.RoutedHeldTheLease` | apps/directory/handlers.go:289-346 | every 200 names an app that held the lease while the join was in progress |
| `Ownership.JoinsAgree` | apps/directory/handlers.go:289-346 | while one app holds the lease every join within that time that succeeds is sent to it |
| `Routing.RecordIsLastBeat` | apps/directory/handlers.go:195-211 | after any run each record is the app's last heartbeat and last room list, healthy exactly if no join begun since found it draining or over 10 s old |
| `Routing.RoutedWasInService` | apps/directory/handlers.go:286-346 | every 200 names an app whose last heartbeat, when the join looked, was not draining and at most 10 s before the join's marking, and that last reported under 300 users in the room |
| `Routing.DrainingGetsNoJoins` | apps/directory/handlers.go:371-382 | an app that reports draining gets no join begun after that |
| `Ownership.AcceptsAgree` | apps/app/server/main.go:359-370 | while one app holds the lease every connection let in within that time, by any node, is on it |
| `Subscriptions.Hub.EnsureSubscription` | apps/app/server/main.go:423-434 | flags an unflagged room under the next generation and hands it out; a flagged room is left alone |
| `Subscriptions.Hub.StopSubscriptionIfEmpty` | apps/app/server/main.go:465-484 | an empty flagged room is forgotten and its registered pubsub handed out for closing; else nothing changes |
| `Subscriptions.Hub.Register` | apps/app/server/main.go:501-510 | registers exactly when the room is flagged under this generation |
| `Subscriptions.Hub.Cleanup` | apps/app/server/main.go:514-524 | clears the room's entries only when they are this pubsub's own |
| `Subscriptions.InvStep` | apps/app/server/main.go:460-464 | every step keeps the agreement of rooms, flags, generations, registrations, lock and pending closes |
| `Subscriptions.EveryClientIsServed` | apps/app/server/main.go:423-434 | a client past its subscription step and still in rooms has its room flagged and exactly one subscriber of the current generation, starting or registered, neither closed nor about to be |
| `Subscriptions.NoOrphanSubscriber` | apps/app/server/main.go:494-510 | a registered pubsub is of the current generation; every other listening subscriber is closed or about to be; one that returned left nothing open |
| `Subscriptions.SubscriptionComesAndGoes` | apps/app/server/main.go:465-528 | a run in which a room is served and afterwards nothing of its subscription is left |
| `Subscriptions.CleanupTouchesNothing` | apps/app/server/main.go:512-524 | a dying subscriber's cleanup never removes its replacement's entries |
| `Subscriptions.OutdatedNeverRegisters` | apps/app/server/main.go:501-506 | a goroutine whose generation was replaced can only return |
| `Subscriptions.FreshGeneration` | apps/app/server/main.go:424-428 | a generation handed out is above every one ever used |
| `Subscriptions.IdleRoomsUnsubscribe` | apps/app/server/main.go:460-464 | in every run, each flagged room has had somebody in it or about to check it exactly when each started subscription found somebody so |
| `Subscriptions.TimelyClientsUnsubscribe` | apps/app/server/main.go:420-434 | in particular if clients subscribe before their connections drop |
| `Subscriptions.DroppedClientLeavesSubscription` | apps/app/server/main.go:420-434 | otherwise a subscription can stay behind when everybody has left |
| `Presence.Mirror.WritePresence` | apps/app/server/presence.go:38-58 | the room's key and index entry are rewritten from the local users, with 30 s to live; an empty room is deleted |
| `Presence.Mirror.SyncAllPresence` | apps/app/server/presence.go:62-77 | from any Redis state: every local room with users is right afterwards, every other key and index entry unchanged |
| `Presence.Mirror.ReadPresence` | apps/app/server/presence.go:80-109 | exactly the indexed rooms with a live key, with their users; the index keeps just those |
| `Presence.InvStep` | apps/app/server/presence.go:32-77 | every step keeps: a settled room is mirrored, and a stale copy about to be written has a newer sync waiting behind it |
| `Presence.OnlineRun` | apps/app/server/main.go:210-218 | after any run a user is online in a room exactly if the last arrival, departure or rename that concerned them there left them in; a rename counts only where somebody is |
| `Presence.PresenceConverges` | apps/app/server/presence.go:16-36 | when no thread is between changing a room and finishing its sync, Redis lists exactly the users whose last such event left them in |
| `Presence.IndexRun` | apps/app/server/presence.go:38-58 | in every run, the index has listed exactly the rooms with a key exactly when no reader dropped a room that had one at that moment |
| `Presence.IndexConverges` | apps/app/server/presence.go:94-108 | then the index lists exactly the settled rooms where somebody's last event left them in |
| `Presence.SweepRepairs` | apps/app/server/presence.go:62-77 | a sweep of the step model alone, from any Redis state, makes every local room with users right and changes nothing else |
| `Presence.SlowReaderHidesRoom` | apps/app/server/presence.go:94-108 | otherwise a settled room with a user can be missing from the index |
| `Counters.RoomCounters.Inc` | apps/app/server/heartbeat.go:44-52 | one more in the room and in the total |
| `Counters.RoomCounters.Dec` | apps/app/server/heartbeat.go:54-66 | one less, and the key goes with the last user |
| `Counters.RoomCounters.SnapshotActive` | apps/app/server/heartbeat.go:68-78 | exactly the rooms with a positive count |
| `Counters.CountersConserve` | apps/app/server/heartbeat.go:44-66 | in every interleaving a key exists exactly when somebody is counted, with their number, and no decrement meets an absent room |
| `Counters.TotalMatchesSum` | apps/app/server/heartbeat.go:44-78 | total and sum differ exactly by the connections between the two updates |
| `History.HistoryKinds` | apps/app/server/main.go:449-458 | the code keeps exactly untyped, "chat" and "system" events; "typing" and "status_update" are never kept, "system" is no chat message |
| `History.RoomHistory.Handle` | apps/app/server/main.go:550-555 | the stored list stays the last hundred untyped, "chat" or "system" events handled, newest first |
| `History.RoomHistory.GetChatHistory` | apps/app/server/handlers.go:223-241 | the last hundred untyped, "chat" and "system" events in handling order, also between push and trim |
| `History.OldestFirst` | apps/app/server/handlers.go:229-240 | the reversed list without events of other kinds |
| `History.FrontOfPush` | apps/app/server/main.go:550-555 | pushing in front and cutting at a hundred is the window of the longer run |
| `DirectMessages.SameNameBothWays` | apps/directory/handlers.go:258-262 | the room name does not depend on who asks |
| `DirectMessages.FirstDifferenceDecides` | apps/directory/handlers.go:258-261 | names are ordered by their first differing byte |
| `DirectMessages.AnnAndBob` | apps/directory/handlers.go:233-265 | "ann" and "bob" get "dm:ann:bob" |
| `DirectMessages.PartnersRoundTrip` | apps/app/server/dmunread.go:23-38 | each participant maps to the other, and both are participants, exactly when the smaller name has no colon |
| `DirectMessages.DerivedRoomAdmitsBoth` | apps/directory/handlers.go:233-265 | the directory derives one room for two users whoever asks, and the node's check admits both exactly when the smaller name has no colon |
| `DirectMessages.NobodyElse` | apps/app/server/handlers.go:27-30 | nobody else is a participant or has a partner |
| `DirectMessages.SharedExactly` | apps/app/server/handlers.go:848-852 | a conversation's room is also another one's exactly when its name splits at a second colon into a smaller and a larger name |
| `DirectMessages.ColonFreeNamesAreSafe` | apps/directory/handlers.go:258-262 | two names without colons have their room to themselves |
| `DirectMessages.RoomsAreDistinct` | apps/app/server/handlers.go:848-852 | two conversations whose smaller names have no colon never share a room |
| `DirectMessages.ColonNamesCollide` | apps/app/server/handlers.go:848-852 | two conversations whose names contain colons do |
| `AuthLimiter.AuthLimiters.RateLimitAuth` | apps/app/server/ratelimit.go:38-71 | answers by the address's bucket, a full one if unknown, and records the visit |
| `AuthLimiter.AuthLimiters.Sweep` | apps/app/server/ratelimit.go:25-37 | keeps exactly the addresses seen in the last ten minutes |
| `AuthLimiter.EvictionIsInvisible` | apps/app/server/ratelimit.go:25-56 | every request is answered as if no address were ever forgotten |
| `AuthLimiter.AtMostBurstPlusElapsed` | apps/app/server/ratelimit.go:48-52 | at most 10 + d requests of an address pass in any d seconds |
| `AuthLimiter.FirstTenPass` | apps/app/server/ratelimit.go:48-52 | the first ten requests of an address pass, however fast |
| `AuthLimiter.QuietSecondPasses` | apps/app/server/ratelimit.go:48-52 | a request after a second without any from its address passes |

## Left out

- HTTP, JSON, tokens, CORS, cookies and WebSocket framing: requests are already decoded; JSON round trips are the identity.
- Metrics, logging, configuration and the client application.
- The directory's mutex: `Placement` lets heartbeats and joins interleave more finely than the mutex allows; the theorems hold for all of it.
- `Directory.State.JoinHandler`: a Redis command that acts but whose reply is lost, and other requests at the same time, are steps of `Placement` only; the handler's contract covers commands that fail without effect.
- Records of apps and limiters are values in a map that the methods reassign, not shared pointers; aliasing of `*App` is not captured.
- Rounding of float64 in weights and scores; `Weights` uses exact reals, and theorems about order assume no two candidates tie.
- The order in which Go iterates over maps: results are stated so that it does not matter.
- `sort.Slice` itself: a sort with its contract stands in for it.
- Wrap-around of the 64-bit generation counter, after 2^64 subscriptions.
- A node that restarts under its old app id after it was judged gone: excluded by `SingleHost.CrashStop`.
- `gracefulShutdown` and cancellation of contexts: runs are before shutdown.
- `AuthLimiter.EvictionIsInvisible`: looking a limiter up and asking it are one step, so a sweep between the two is not modelled; the token bucket library is taken at its documented behaviour.
- `Presence.PresenceConverges`: one hosting node, no expiry and successful writes, as the mirror itself assumes between two sweeps.
- Unread DM counts, friends, favourites, statuses, room lists and accounts: single commands or queries that would add only easy members.
- Errors of LPUSH and LTRIM: a failed push loses that event from the history.
