# Verification model

This project models the protocols, schedulers, codecs and walks of Wirebench that carry the most state, and proves what
they promise. `dafny verify dfyconfig.toml` checks all of it.

A protocol is a state machine: what a process or handler does between two `await`s is one step, and a theorem about runs
speaks of every sequence of steps of any number of processes. Beside each machine whose source updates fields in place
stands a class with those fields, whose methods are proved to take exactly the machine's steps.

- **The agent's lock file** (`LockProtocol`, `LockSafety`, `LockProgress`, `LockWitnesses`): exclusive creation, stale
  takeover by rename-aside, put-back by `link`, release by rename-aside, crashes anywhere, any clock. Removal of a lock
  and the one way exclusion can break are settled with no hypothesis; mutual exclusion holds under two hypotheses on the
  run, and a concrete run without either one breaks it. A release takes its own lock away in every run, unless another
  process had moved it aside.
- **The agent's pairing store** (`Pairings`, `PairingChanges`, `PairingStore`, `StoreTheorems`, `StoreCalls`,
  `StoreAcks`, `StoreProgress`, `StoreCache`): stamp-keyed caches of many processes over one file that is read, changed
  and renamed under the lock; in each process any number of calls at once, a queue of work, and one shared making of an
  identity. `LockedStore` runs it under the lock file itself, and shows that the lock's two hypotheses are all it needs
  of the lock.
- **Socket admission** (`Admission`, `AdmissionEntry`, `AgentServer`, `ServedServers`): who the agent's loopback server
  lets in and serves, while other processes edit the store.
- **The agent's sends** (`Sends`): which run beside each other, what a cancel reaches, what a finished send takes away.
- **The shard scheduler** (`Lpt`, `Sorting`, `Shards`, `ShardTheorems`): greedy longest-first with a spread phase, and
  Graham's bound for it.
- **Live presence, shared terminals and sync** (`Presence`, `PresenceTheorems`, `PresenceAccess`, `LiveHub`; `Relay`,
  `RelayTheorems`, `RelayControl`, `RelayEvents`, `ShareRelay`; `Sync`, `SyncHistory`): the in-memory server's three
  protocols.
- **Binary codecs** (`Encodings`, `Loops`, `Tar`, `TarTheorems`, `TarMembers`, `TarText`, `TarTermination`; `Crc`,
  `Png`): a ustar writer and reader that undo each other for plain names, what that reader makes of any archive of whole
  members and when it ends, and a table-driven CRC-32 with the PNG chunks it guards.
- **Cascade and walks** (`CssBlocks`, `Cascade`; `Reachability`, `ChangedJobs`, `AsarCheck`): how a style sheet is cut
  and which rule decides a token, and two worklists over dependency graphs.

Where the code and its comments disagree, or the code does something unlikely to be meant, the model follows the code
(`Disagreements` holds runs and inputs):

- `scripts/ci/changed-jobs.ts:12-13` says that a change to a package no job's graph knows calls for everything. The code
  does so only for a file that lies in no workspace package's folder (`ChangedJobs.WhenFolderChangeCalls`,
  `ChangedJobs.DeletedPackageCallsAll`, `Disagreements.NewPackageCallsNoJob`).
- `e2e/helpers/fake-server.ts:649` says that a socket that closed on its own leaves presence at the next change. It leaves
  the computed list when it closes, and what was sent is corrected only when that list changes again
  (`PresenceTheorems.WhenListsGoStale`, `Disagreements.LostSocketStaysListed`).
- The shared terminal tells a newcomer that nobody holds control even while a viewer does
  (`RelayTheorems.WhenControlIsKnown`, `Disagreements.NewcomerIsMisled`).
- The agent checks again by id alone whether a bound socket's pairing is still held. An id that another server reused
  between two looks keeps the first server's socket (`ServedServers.ServersKeptNeeded`,
  `ServedServers.AnsweredBeforeBackNeeded`; `ServedServers.ServedForOwnServer` says when it cannot happen).
- A tar entry's name is written as UTF-8 and read one character a byte, so a name that fits its field and is not ASCII
  comes back as another (`TarText.WhatRoundTrips`, `TarText.AccentIsGarbled`).
- A tar header whose size parses to between -1023 and -512 makes the reader read it for ever; one of -1024 or less sends it
  back, and it may still end (`TarTermination.WhenReaderEnds`, `TarTermination.NegativeSizeSticks`,
  `TarTermination.GoingBackCanEnd`).

## Model

| member | source | states |
|---|---|---|
| LockSafety.WhereFilesMove | packages/agent/src/pairings.ts:310-323 | a lock file comes aside only from the path, and onto the path only when it is made or put back by its mover |
| LockSafety.StepKeepsSound | packages/agent/src/pairings.ts:282-376 | every step of any process keeps each file in one place, each token with its own call, and each mover holding what it moved |
| LockSafety.RunsKeepSound | packages/agent/src/pairings.ts:282-376 | so does every run from no lock at all |
| LockSafety.GoneInEveryLaterState | packages/agent/src/pairings.ts:310-323 | a lock that is gone never comes back, whatever happens later |
| LockSafety.RemovalIsMeant | packages/agent/src/pairings.ts:310-334 | a lock that is removed is its remover's own, or showed it the stat and content judged stale: with a token written it is the very lock judged, and otherwise it is itself past the stale age |
| LockSafety.RemovedAtMostOnce | packages/agent/src/pairings.ts:325-334 | of all takers and holders in a run at most one removes a given lock, and once |
| LockSafety.HowLocksVanish | packages/agent/src/pairings.ts:305-323 | a lock disappears only by being removed as the one meant, or because another was there when it was to be put back |
| LockSafety.CreatorIsAlone | packages/agent/src/pairings.ts:337-363 | outside put-back windows a lock is made only while no live process has one |
| LockSafety.RunsStayExclusive | packages/agent/src/pairings.ts:282-376 | under both run hypotheses every state keeps the invariant that mutual exclusion needs |
| LockSafety.LockExcludes | packages/agent/src/pairings.ts:282-376 | if no live holder outlives the stale age and no lock is made inside a put-back window, at most one live process is between `lock()` returning and its release |
| LockSafety.OnlyCreationBreaksExclusion | packages/agent/src/pairings.ts:344-360 | with no hypothesis: a step breaks mutual exclusion if and only if it makes a lock while a live process has one |
| LockWitnesses.StaleLockIsTakenOver | packages/agent/src/pairings.ts:364-369 | a stale lock never blocks for good: a process left alone takes it over and makes its own |
| LockProgress.FreeLockIsTaken | packages/agent/src/pairings.ts:339-360 | a process left alone where there is no lock makes its own, writes its token and holds it, and nothing else changes |
| LockProgress.OwnLockIsReleased | packages/agent/src/pairings.ts:352-359 | a holder left alone whose lock is on the path is done with the path free and its lock gone for good, and nothing else changes |
| LockProgress.ReleaseTakesOwnLock | packages/agent/src/pairings.ts:352-359 | in every run a call that held a lock and is over leaves it gone, unless another process had moved it aside before |
| LockProgress.YoungLockIsLeft | packages/agent/src/pairings.ts:364-375 | one that finds a lock not past the stale age leaves it: it is back at `open` before its deadline, and out without a lock after it |
| LockProgress.GivesUpAfterTimeout | packages/agent/src/pairings.ts:370-372 | in every run a call that waits ends without a lock only by giving up, no sooner than its timeout after it began |
| LockProgress.ReplacedLockIsLeft | packages/agent/src/pairings.ts:329-331 | a lock that is gone, or another, by the time it was judged is not taken over |
| LockProgress.MistakenMoveIsUndone | packages/agent/src/pairings.ts:318-322 | a mover of the wrong lock left alone puts it back where no other was made, and goes back to where it came from |
| LockProgress.AgeCountsFromToken | packages/agent/src/pairings.ts:344-346 | a lock's age counts from when its token was written, and until then it is empty |
| LockWitnesses.FreshHoldersNeeded | packages/agent/src/pairings.ts:365-367 | a run with orderly creations in which a live holder outlives the stale age breaks exclusion |
| LockWitnesses.OrderlyCreationsNeeded | packages/agent/src/pairings.ts:318-321 | a run with fresh holders in which a lock is made inside a put-back window breaks exclusion |
| StoreTheorems.RunsStaySound | packages/agent/src/pairings.ts:258-275 | every run keeps every process's cache sound, reads that race a rename included |
| StoreTheorems.CachesAgreeWithDisk | packages/agent/src/pairings.ts:262-275 | a cache is never older than its stamp, and is the disk's file whenever its stamp is the disk's |
| StoreTheorems.OnlyRenameWrites | packages/agent/src/pairings.ts:399-408 | the only step that writes is the lock holder's rename, of its change made to the file on disk |
| StoreTheorems.NoLostUpdates | packages/agent/src/pairings.ts:388-415 | after any run the file is the committed changes folded over the starting file in the order the lock was granted |
| StoreCalls.WorkIsInTurn | packages/agent/src/pairings.ts:380-387 | over any run each process's work ends in the order asked, none of it lost or done twice, and all its calls that wait for an identity wait for one piece of work |
| StoreCalls.CommitsInOrderAsked | packages/agent/src/pairings.ts:380-387 | what one process changes reaches the disk in the order it was asked, each change once, and no change that reached it is told as failed |
| StoreAcks.NoDoneChangeIsLost | packages/agent/src/pairings.ts:399-415 | a change told as done reached the disk under its ticket, or left the file on disk as it was while its process held the lock for it |
| StoreCalls.MadeOnceHoweverManyAsk | packages/agent/src/pairings.ts:417-449 | however many `identity()` calls a process has, at most one piece of its work makes an identity, and every call that waits for one waits for that |
| StoreCalls.NoCallIsStranded | packages/agent/src/pairings.ts:417-449 | a process with nothing left to do keeps no `identity()` call waiting |
| StoreCalls.WhatIsReturned | packages/agent/src/pairings.ts:418-429 | an `identity()` call returns what the process knows once its reload ended, or what the work it waited for made |
| StoreCalls.OneIdentity | packages/agent/src/pairings.ts:127 | over any run of any processes and calls at most one agent id is written, once, and every `identity()` that returns, returns it |
| StoreProgress.ChangeTakesEffect | packages/agent/src/pairings.ts:389-415 | a change asked of a process at rest, with the lock free and nobody else moving, ends: the disk has the file the change makes of the one there, and so has the cache |
| StoreProgress.RefreshSees | packages/agent/src/pairings.ts:458-461 | a `refresh` asked so ends with the cache the disk's, except at a stamp whose read has failed before |
| StoreProgress.ReadIsTaken | packages/agent/src/pairings.ts:266-274 | a read that succeeds takes the file, its agent's id and the stamp seen before it, and forgets the last failure |
| StoreProgress.FailedLookKeepsCache | packages/agent/src/pairings.ts:262-265 | a `stat` that fails keeps the whole cache, and the work is told as failed |
| StoreProgress.FailureKeepsCache | packages/agent/src/pairings.ts:266-271 | a read that fails keeps the cache, and that stamp is remembered |
| StoreProgress.FailureGivesLockBack | packages/agent/src/pairings.ts:389-408 | work that fails under the lock gives the lock back, is told as failed, and leaves the file and the cache as they were |
| StoreProgress.GivingUpFails | packages/agent/src/pairings.ts:370-372 | so is one that cannot get the lock, and nothing else changes |
| StoreProgress.WhatMayBeAsked | packages/agent/src/pairings.ts:489-494 | a list of allowed names is taken exactly when each is a letter or line and then letters, digits and lines, at most 256 in all; any other change and a reload always are |
| StoreProgress.IdentityIsReturned | packages/agent/src/pairings.ts:418-449 | an `identity()` call asked so returns the agent id on the disk, which is made where there was no file |
| Pairings.ChangesKeepIds | packages/agent/src/pairings.ts:462-487 | any change keeps pairing ids unique, and an id that stays keeps its server |
| PairingChanges.AddTakesEffect | packages/agent/src/pairings.ts:462-472 | `add` is refused exactly without a file or where the id is another server's; otherwise its pairing is found under its id and every other id finds what it found |
| PairingChanges.RemoveTakesEffect | packages/agent/src/pairings.ts:473-481 | `remove` writes exactly where the id is found; it then finds nothing, and every other id what it found |
| PairingChanges.SetPortTakesEffect | packages/agent/src/pairings.ts:482-487 | `setPort` writes exactly where the id is found, and changes that pairing's port and nothing else |
| PairingChanges.SetAllowedTakesEffect | packages/agent/src/pairings.ts:489-494 | the allowed names become exactly those asked for, each once; the agent and its pairings stay |
| PairingChanges.MakeIdentityTakesEffect | packages/agent/src/pairings.ts:430-445 | an identity is made exactly where there is no file, with no pairings and no names |
| StoreTheorems.PairingIdsStayPinned | packages/agent/src/pairings.ts:462-487 | in every version of the file ids are unique, and from one version to the next an id keeps its server |
| LockedStore.LockedStoreIsStore | packages/agent/src/pairings.ts:388-398 | in every run in which the lock file meets its two hypotheses, the store under it does what the store whose lock excludes does |
| LockedStore.LockedStoreLosesNothing | packages/agent/src/pairings.ts:388-449 | so under those two hypotheses no update is lost, each process's changes are in the order asked, pairing ids stay pinned, and there is one identity |
| StoreCache.Store.AdoptFile | packages/agent/src/pairings.ts:248-256 | the file read becomes the cache and its agent this process's identity |
| StoreCache.Store.Reload | packages/agent/src/pairings.ts:262-275 | a reload reads when the stamp moved, a quiet one not twice for a stamp that failed; it leaves what it read, or only the failed stamp |
| StoreCache.Store.Refresh | packages/agent/src/pairings.ts:458-461 | a whole reload without the lock is the machine's steps, and settles as they do |
| StoreCache.Store.WriteFile | packages/agent/src/pairings.ts:400-408 | a file that was renamed into place is the cache with its new stamp; one that was not changes nothing |
| StoreCache.Store.Modify | packages/agent/src/pairings.ts:389-415 | a whole change under the lock, whatever is read and written, is the machine's steps and ends with their answer |
| StoreCache.Store.MakeIdentity | packages/agent/src/pairings.ts:430-445 | so is a whole making of an identity under the lock |
| StoreCache.SomeBadName | packages/agent/src/pairings.ts:489-491 | a list of allowed names is refused before it is queued exactly when one of them is not plain |
| StoreCache.Store.Make | packages/agent/src/pairings.ts:409-415 | the loops of add, remove, port and names make of the file exactly what the machine's change makes |
| StoreCache.Lookup | packages/agent/src/pairings.ts:454-457 | the first pairing with the id |
| StoreCache.Filter | packages/agent/src/pairings.ts:470 | the pairings without the id, in order |
| StoreCache.SetPorts | packages/agent/src/pairings.ts:482-487 | the same pairings with the id's port set |
| StoreCache.Unique | packages/agent/src/pairings.ts:489-494 | the names in order without repeats |
| Admission.OnlyRefreshAdmits | packages/agent/src/server.ts:321-350 | a socket is added exactly when an upgrade that waited was refreshed, the agent is not stopping, holds fewer than 16 and knows the origin; it gets the next caller id and no other socket appears |
| AdmissionEntry.WhenUpgradeOpens | packages/agent/src/server.ts:321-350 | an upgrade and its refresh open a socket if and only if the path is `/host`, the host is the port on 127.0.0.1 or localhost, the origin is a pairing's, the agent is not stopping and fewer than 16 sockets are open |
| AdmissionEntry.UpgradeOpensOnce | packages/agent/src/server.ts:333-350 | and a refreshed upgrade waits no longer, so it opens no second socket |
| AdmissionEntry.UpgradeIsTold | packages/agent/src/server.ts:324-347 | and otherwise which of 404, 403, 503, 4403 and 4429 it is told |
| AdmissionEntry.SocketsCameForHere | packages/agent/src/server.ts:321-350 | in every run each waiting upgrade and each socket came by an upgrade for that path and one of those hosts, the socket from that upgrade's origin |
| AdmissionEntry.CallersAreNumbered | packages/agent/src/server.ts:266-319 | over any run callers are numbered from 1000000 on, no two alike |
| AdmissionEntry.WhenSocketEnds | packages/agent/src/server.ts:204-212 | a socket goes only when its peer does, and is told to end exactly by `close()` or by news that no pairing has its id any more |
| AdmissionEntry.DecimalSpells | packages/agent/src/server.ts:329 | a port is written in the decimal digits that spell it |
| Admission.WhenBound | packages/agent/src/server.ts:287-303 | a socket that names a pairing is bound exactly when the store holds it for the socket's origin then, its nonce is accepted, and the store still holds it |
| Admission.SocketsKeepIdentity | packages/agent/src/server.ts:266-319 | no event changes a socket's caller id, host or origin, or takes back its end |
| Admission.StepKeepsSafe | packages/agent/src/server.ts:186-352 | every event keeps the admission invariant |
| Admission.AdmissionIsSafe | packages/agent/src/server.ts:186-352 | in every reachable state each socket came through a loopback host, a bound one has its pairing's origin and is still in the store, ended or about to be; at most 16 sockets; distinct caller ids; all ended once stopping |
| Admission.NoneAfterClose | packages/agent/src/server.ts:333-337 | once `close()` starts no run adds a socket |
| Admission.FileKeepsOwnServers | packages/agent/src/pair.ts:196-217 | adding what `pair` keeps, like any other change, leaves every pairing of the file at its own server's origin |
| Admission.RedeemedAtOrigin | packages/agent/src/pair.ts:279-309 | with only such pairings in the file, every bound socket's nonce was redeemed at the origin it came from |
| ServedServers.HeardBeforeBack | packages/agent/src/pairings.ts:380-408 | since the store's work goes one piece after the other and tells of each change, no id is back in the list before the listeners heard that it left |
| ServedServers.ServedForOwnServer | packages/agent/src/server.ts:205-211 | in every such run whose lists keep the servers of the ids they keep, and where no id is back while a socket redeems for it, no socket is served for another server than its own |
| ServedServers.ServersKeptNeeded | packages/agent/src/server.ts:205-211 | such a run that meets the other condition, whose cache takes over the id at another server at once, leaves the first server's socket served |
| ServedServers.AnsweredBeforeBackNeeded | packages/agent/src/server.ts:294-303 | and so does one where the id leaves, which is heard, and is back at another server while the socket redeems |
| AgentServer.Agent.constructor | packages/agent/src/server.ts:182-193 | an agent starts with no socket and the first caller id |
| AgentServer.Agent.IsPairedOrigin | packages/agent/src/server.ts:195-196 | whether some pairing of the list is of the origin |
| AgentServer.Agent.OnUpgrade | packages/agent/src/server.ts:321-332 | an upgrade gets 404, 403 or waits, and the state moves by the machine's step |
| AgentServer.Agent.AfterRefresh | packages/agent/src/server.ts:333-350 | after the refresh it gets 503, 4403, 4429 or a socket with the next caller id |
| AgentServer.Agent.AcceptSocket | packages/agent/src/server.ts:266-268 | the new socket has the next caller id, and every other stays |
| AgentServer.Agent.OnAuthFrame | packages/agent/src/server.ts:287-289 | the first frame names a pairing or turns the socket away |
| AgentServer.Agent.AfterAuthRefresh | packages/agent/src/server.ts:290-293 | only a pairing of the socket's own origin is redeemed for |
| AgentServer.Agent.OnNonceAnswer | packages/agent/src/server.ts:294-303 | the socket is bound exactly when the nonce was accepted and the pairing is still held |
| AgentServer.Agent.OnPeerClosed | packages/agent/src/server.ts:282-286 | the socket is dropped and no other |
| AgentServer.Agent.OnStoreChanged | packages/agent/src/pairings.ts:204-212 | the list changes and its notification becomes pending |
| AgentServer.Agent.Prune | packages/agent/src/server.ts:205-212 | the loop ends exactly the bound sockets whose pairing is gone |
| AgentServer.Agent.Stop | packages/agent/src/server.ts:387-394 | the loop ends every socket, and none is admitted from then on |
| Sends.RunsStaySound | packages/agent/src/send.ts:359-427 | over any run the registry holds exactly the running sends, each under its own key, at most four keys per origin, and each directory belongs to one send |
| Sends.AtMostFourRun | packages/agent/src/send.ts:367-371 | at most four sends run per origin however many pairings share it |
| Sends.KeysTellApart | packages/agent/src/send.ts:329 | keys are injective over all pairing ids and all send ids that a request may have |
| Sends.OneRunsPerId | packages/agent/src/send.ts:364-366 | at most one send runs per pairing and send id |
| Sends.WhenIdIsTaken | packages/agent/src/send.ts:364-366 | a start is refused as existing exactly when the same pairing runs one of that id |
| Sends.WhenSendRuns | packages/agent/src/send.ts:357-373 | a new send runs if and only if its id is plain, its pairing runs none of that id and fewer than four run for its origin; otherwise nothing changes |
| Sends.WhyRefused | packages/agent/src/send.ts:348-371 | and which of the reasons a refused one is given |
| Sends.CancelReachesOwn | packages/agent/src/send.ts:429-437 | a cancel aborts a send exactly when the caller's own pairing runs one of that id not yet aborted, and touches nothing else |
| Sends.EndTakesOwn | packages/agent/src/send.ts:423-427 | a finished send takes its own entry and no other |
| Sends.RemovalTakesOwn | packages/agent/src/send.ts:423-427 | and then the directory it made and no other; one it did not make stays |
| Sends.WhenDirIsMade | packages/agent/src/send.ts:377-380 | a directory that is not there is made the send's; at one that is there the send ends and leaves it |
| Sends.Registry.CountFor | packages/agent/src/send.ts:330 | the loop counts the running sends of the origin |
| Sends.Registry.Begin | packages/agent/src/send.ts:345-373 | a start is refused as malformed, existing or busy, or registered, as the machine says |
| Sends.Registry.MakeDirectory | packages/agent/src/send.ts:377-380 | a new directory becomes the send's; one that exists fails the send and is left alone |
| Sends.Registry.Finish | packages/agent/src/send.ts:423-427 | a send that ends takes its entry and then its directory, as the machine's two steps |
| Sends.Registry.Stop | packages/agent/src/send.ts:429-437 | a cancel aborts as the machine says and reports whether it did |
| Lpt.LoadsConserve | scripts/vitest-shards.ts:92-101 | the loads add up to the weights placed |
| Lpt.ListBound | scripts/vitest-shards.ts:95-110 | placing on the least loaded shard keeps its new load within one weight of the average |
| Lpt.HeavyItemsFit | scripts/vitest-shards.ts:110 | while every key weighs over a third of what another assignment needs per shard, longest-first is within that too |
| Lpt.LongestFirstBound | scripts/vitest-shards.ts:110 | Graham's bound for greedy placement of descending weights against any other assignment |
| Sorting.SortDependsOnElements | scripts/vitest-shards.ts:91 | sorting without repeats depends on the set of keys only |
| Sorting.FirstDifferenceDecides | scripts/vitest-shards.ts:91 | one key is before another exactly if their first difference says so, the end of a key before any character |
| ShardTheorems.BestIsToTake | scripts/vitest-shards.ts:95-109 | the scan finds, while spreading, a shard with the fewest spread keys and among those the least load, and otherwise one with the least load; of equals the first |
| Shards.PlaceOne | scripts/vitest-shards.ts:95-101 | the weight is added to the best shard in place, and nothing else changes |
| Shards.PlaceKeys | scripts/vitest-shards.ts:102-110 | each placing loop leaves the board of the run so far |
| Shards.AssignShards | scripts/vitest-shards.ts:84-112 | the arrays and loops compute the scheduler's assignment |
| ShardTheorems.PlacingLists | scripts/vitest-shards.ts:91-110 | every key is placed exactly once, the spread keys first |
| ShardTheorems.AssignedIsPicks | scripts/vitest-shards.ts:94-111 | the answer covers exactly the keys, each on the shard picked for it |
| ShardTheorems.AssignedByRule | scripts/vitest-shards.ts:85-112 | the whole answer by rule: each key in turn goes to the shard that, of what is placed before it, has the fewest spread keys if it is one, then the least load, then the least number |
| ShardTheorems.OrderIsHeaviestFirst | scripts/vitest-shards.ts:90-91 | the order has each key once, the heavier first and equals by key |
| ShardTheorems.JobsAgree | scripts/vitest-shards.ts:90-111 | the answer depends on the set of keys only, not on their order or repeats |
| ShardTheorems.ShardsPartition | vitest.config.ts:17-26 | every file is selected by exactly one of the shard jobs |
| ShardTheorems.SpreadStaysEven | scripts/vitest-shards.ts:102-109 | after every step the spread counts of any two shards differ by at most one |
| ShardTheorems.AssignedSpreadsEvenly | scripts/vitest-shards.ts:102-109 | and so do the numbers of spread keys that the answer puts on them |
| ShardTheorems.LoadBound | scripts/vitest-shards.ts:95-110 | with any spread set, a shard holding a non-spread key carries at most the average plus (1 - 1/count) of the weight of the last key placed on it |
| ShardTheorems.WithinFourThirds | scripts/vitest-shards.ts:84-112 | with nothing to spread, 3·count·load ≤ (4·count − 1)·(largest load of any other assignment of the same keys) |
| PresenceTheorems.PresenceIsExact | e2e/helpers/fake-server.ts:663-673 | a workspace's list is strictly sorted and names exactly the users with an open subscribed socket |
| PresenceTheorems.StepKeepsSound | e2e/helpers/fake-server.ts:674-772 | every step other than a socket closing by itself leaves each open subscriber's last list the list now |
| PresenceTheorems.ListsStayCurrent | e2e/helpers/fake-server.ts:649-772 | so does every run of such steps, role changes that announce nothing included |
| PresenceTheorems.WhenListsGoStale | e2e/helpers/fake-server.ts:649-650 | a socket that closes by itself leaves every list current exactly when it was no user's only one in a workspace where somebody else is |
| Disagreements.LostSocketStaysListed | e2e/helpers/fake-server.ts:649-673 | of two users who see one workspace one loses the only socket, and the other's last list still names both |
| PresenceTheorems.NobodyIsMissing | e2e/helpers/fake-server.ts:649-772 | over every run, such sockets included, nobody who is there is missing from anybody's last list |
| PresenceTheorems.OnlyEntitledStay | e2e/helpers/fake-server.ts:577-585 | over every run of the hub's own steps whoever is subscribed to a workspace has a role there |
| PresenceAccess.WhoMaySee | e2e/helpers/fake-server.ts:577-585 | a workspace is seen by exactly the server's admins, its team's admins, and its team's members with a grant or a default role |
| PresenceAccess.SeesAs | e2e/helpers/fake-server.ts:577-585 | and as what: admins as admin, members by the grant or else by the default |
| PresenceAccess.RemovedMaySeeNone | e2e/helpers/fake-server.ts:2233-2239 | a removed member sees none of the team's workspaces, unless it is an admin of the server |
| PresenceAccess.AddedMaySee | e2e/helpers/fake-server.ts:2233-2239 | an added one sees all as an admin, and otherwise those with a grant or a default role |
| PresenceAccess.OthersSeeTheSame | e2e/helpers/fake-server.ts:2233-2239 | and nobody else's access changes, nor anybody's in another team |
| PresenceAccess.RoleIsGiven | e2e/helpers/fake-server.ts:2229-2232 | a role that is set is the member's there, and no other access changes |
| PresenceAccess.WhoComesIn | e2e/helpers/fake-server.ts:725-740 | a session's token comes in as its user; anything else first closes the socket |
| PresenceAccess.WhenSubscribed | e2e/helpers/fake-server.ts:749-766 | a subscription is taken exactly from those who may see the workspace, and refused to the others |
| PresenceAccess.WhenUnsubscribed | e2e/helpers/fake-server.ts:768-770 | one that is given up is gone, and no other |
| PresenceAccess.OtherFrames | e2e/helpers/fake-server.ts:741-748 | a ping is answered; a second `auth`, or what is no message, closes the socket |
| PresenceAccess.WhoHearsOfAccess | e2e/helpers/fake-server.ts:692-703 | a change of access is told to exactly the user's open sockets, for exactly their subscriptions it concerns |
| PresenceAccess.WhoHearsOfRole | e2e/helpers/fake-server.ts:2229-2232 | a role that is set is told of for its workspace, to the same sockets |
| PresenceAccess.WhoHearsOfTeam | e2e/helpers/fake-server.ts:2233-2239 | and a change in a team for the team's workspaces |
| PresenceAccess.SessionIsOver | e2e/helpers/fake-server.ts:704-715 | every open socket of the session is told, taken out and closed, and every other connection stays |
| PresenceTheorems.AnnounceKeepsEntitled | e2e/helpers/fake-server.ts:692-703 | an announcement drops every subscription that a role change left without a role |
| LiveHub.Hub.SubscribersOf | e2e/helpers/fake-server.ts:661-662 | the open connections subscribed, in order |
| LiveHub.Hub.UsersOf | e2e/helpers/fake-server.ts:664-673 | the loop over subscribers gives the list of users |
| LiveHub.Hub.SendTo | e2e/helpers/fake-server.ts:652-660 | each open recipient is sent the message once |
| LiveHub.Hub.Unsubscribe | e2e/helpers/fake-server.ts:675-681 | a dropped subscription is announced exactly when the list of users changed |
| LiveHub.Hub.Subscribe | e2e/helpers/fake-server.ts:749-767 | a new subscriber is always told, the others exactly when the list changed |
| LiveHub.Hub.AnnounceAccess | e2e/helpers/fake-server.ts:692-703 | the nested loops take the machine's step |
| LiveHub.Hub.EndSession | e2e/helpers/fake-server.ts:705-715 | every open socket of the session is told, dropped and closed; how many |
| LiveHub.Hub.Receive | e2e/helpers/fake-server.ts:717-772 | each text frame takes the machine's step |
| LiveHub.Hub.ChangeRole | e2e/helpers/fake-server.ts:2229-2232 | a grant is set and announced |
| LiveHub.Hub.ChangeTeamRole | e2e/helpers/fake-server.ts:2233-2239 | a membership is set or removed and announced to the team's workspaces |
| RelayTheorems.ReactKeepsControlHeld | e2e/helpers/fake-server.ts:1565-1596 | after every event control is nobody's, or a current viewer's with no open request |
| RelayTheorems.GrantGoesToFirst | e2e/helpers/fake-server.ts:1565-1573 | a grant gives control to the first of the user's viewers that asks, closing that request and no other |
| RelayControl.AskedAndGranted | e2e/helpers/fake-server.ts:1565-1592 | a viewer that asks is given control by the next grant to its user, unless an earlier viewer of that user asks too |
| RelayControl.WhenControlIsLost | e2e/helpers/fake-server.ts:1556-1619 | a holder loses control exactly by a take-back, another grant, its own release or close, or the end of the share |
| RelayControl.ControlLastsUntilTaken | e2e/helpers/fake-server.ts:1556-1619 | over any run a viewer holds control throughout if and only if none of these came |
| RelayTheorems.JoinShows | e2e/helpers/fake-server.ts:1538-1550 | a viewer that joins is shown the replay and told that nobody holds control; nobody else is shown anything |
| RelayTheorems.StepKeepsFollowing | e2e/helpers/fake-server.ts:1602-1607 | after every event the replay is the last 262144 bytes of the owner's stream or all of it, and each viewer was shown one stretch of the stream that reaches its end while the viewer is open |
| RelayEvents.StreamIsSent | e2e/helpers/fake-server.ts:1602-1605 | over any run the replay is the last 262144 bytes of what the joined owner of each moment sent, in the order of the run |
| RelayEvents.ShownIsSent | e2e/helpers/fake-server.ts:1602-1606 | over any run each peer was shown exactly what was sent while it was an open viewer, and the replay when it came in |
| RelayEvents.ViewersFollowOwners | e2e/helpers/fake-server.ts:1602-1607 | so every viewer has seen one stretch of what was sent, up to its end while it is open |
| RelayEvents.SizesAreKnown | e2e/helpers/fake-server.ts:1560-1564 | over any run the size is the one last asked for, and every open viewer was last told that one |
| RelayEvents.WhoIsLetIn | e2e/helpers/fake-server.ts:1530-1555 | a session's user comes into a live share as its owner or a viewer; anybody else is closed and nobody hears of it |
| RelayEvents.OwnerIsWelcomed | e2e/helpers/fake-server.ts:1536-1538 | an owner that comes in is told so once, and nobody else ever is |
| RelayEvents.WhenShareEnds | e2e/helpers/fake-server.ts:1585-1586 | a live share ends exactly when a participant ends it or its owner leaves, and each participant still open is told which, once, and closed |
| RelayEvents.WhoIsClosed | e2e/helpers/fake-server.ts:1530-1555 | nothing more is sent to exactly the peers that close, are not let in, or whose share ends |
| RelayEvents.WhoIsJoined | e2e/helpers/fake-server.ts:1608-1618 | the frames that reach the share are exactly those of peers it let in, until they leave or it ends |
| RelayEvents.DeclineClosesRequests | e2e/helpers/fake-server.ts:1574-1581 | a decline closes every request of its user and no other, and tells each open viewer that asked, once |
| RelayEvents.AskingMarksOwn | e2e/helpers/fake-server.ts:1587-1589 | asking marks the asking viewer, unless it holds control, and nothing else |
| RelayEvents.ViewersAreSeen | e2e/helpers/fake-server.ts:1499-1512 | the list of viewers has each one's user, whether it holds control and whether it asks for it, in order |
| RelayEvents.PingIsAnswered | e2e/helpers/fake-server.ts:1558-1559 | a ping is answered, to its sender only |
| RelayTheorems.StepKeepsViewersKnown | e2e/helpers/fake-server.ts:1499-1512 | after every event each open participant's last list of viewers is the list now |
| RelayTheorems.OnlyHolderIsHeard | e2e/helpers/fake-server.ts:1593-1596 | a peer is handed input exactly when it is the open owner and the viewer holding control typed it, under that viewer's name |
| RelayTheorems.WhenControlIsKnown | e2e/helpers/fake-server.ts:1513-1551 | what participants were last told of control stays right exactly when nobody open joins while a viewer holds it |
| Disagreements.NewcomerIsMisled | e2e/helpers/fake-server.ts:1538-1551 | a viewer joins while another holds control, and is told that nobody does |
| RelayTheorems.StepEndsOnce | e2e/helpers/fake-server.ts:1519-1526 | nobody is told twice that a share ended, nor before it does |
| RelayTheorems.SharesStaySound | e2e/helpers/fake-server.ts:1527-1619 | all of these hold over every run of a share |
| RelayTheorems.InputComesFromHolders | e2e/helpers/fake-server.ts:1593-1596 | over any run a peer was handed exactly what the holders typed while it was the open owner, in order |
| ShareRelay.Terminal.constructor | e2e/helpers/fake-server.ts:1634-1647 | a share starts with nobody in it, and sound |
| ShareRelay.Terminal.TellEveryone | e2e/helpers/fake-server.ts:1495-1498 | owner and viewers are each sent the message once |
| ShareRelay.Terminal.SendPresence | e2e/helpers/fake-server.ts:1499-1512 | everybody is sent the list of viewers |
| ShareRelay.Terminal.SendControl | e2e/helpers/fake-server.ts:1513-1518 | everybody is sent who holds control, then the list |
| ShareRelay.Terminal.Finish | e2e/helpers/fake-server.ts:1519-1526 | the share ends once, and everybody is told and closed |
| ShareRelay.Terminal.Join | e2e/helpers/fake-server.ts:1530-1555 | an `auth` frame takes the machine's step |
| ShareRelay.Terminal.FirstAsking | e2e/helpers/fake-server.ts:1565-1569 | the loop finds the first viewer of the user with an open request |
| ShareRelay.Terminal.GrantTo | e2e/helpers/fake-server.ts:1565-1573 | that viewer gets control and its request is closed |
| ShareRelay.Terminal.DeclineFor | e2e/helpers/fake-server.ts:1574-1581 | every open request of the user is closed and told |
| ShareRelay.Terminal.Receive | e2e/helpers/fake-server.ts:1556-1600 | each text frame of a participant takes the machine's step |
| ShareRelay.Terminal.ReceiveBytes | e2e/helpers/fake-server.ts:1602-1607 | the owner's bytes go to every viewer and into the replay, anybody else's nowhere |
| ShareRelay.Terminal.OnPeerClosed | e2e/helpers/fake-server.ts:1608-1618 | the owner's leaving ends the share, a viewer's frees its control |
| Sync.ApplyChanges | e2e/helpers/fake-server.ts:396-406 | the loop applies the changes in order |
| Sync.DiffTrees | e2e/helpers/fake-server.ts:409-420 | the loops and the sort give each differing path once, in order, with its file or its deletion, and no other |
| Sync.AppliedAt | e2e/helpers/fake-server.ts:396-406 | changes with distinct paths set exactly those paths |
| Sync.DiffReaches | e2e/helpers/fake-server.ts:395-420 | applying the differences from one tree to another gives the other |
| Sync.DiffIsUnique | e2e/helpers/fake-server.ts:408-420 | there is one such list only |
| SyncHistory.HistoryStaysLinear | e2e/helpers/fake-server.ts:619-635 | over any run each commit is the child of the one before it, under ids never given twice |
| SyncHistory.HistoryOnlyGrows | e2e/helpers/fake-server.ts:619-635 | over any run nothing leaves the history or changes in it |
| SyncHistory.IdsAreDistinct | e2e/helpers/fake-server.ts:542-545 | two commits of a history with one id are one commit |
| SyncHistory.PushAddsCommits | e2e/helpers/fake-server.ts:835-847 | a push adds its commits in order, each with the tree its changes make of the one before |
| SyncHistory.WhenPushCounts | e2e/helpers/fake-server.ts:831-834 | a push counts exactly when one who may edit sends commits for the head, and which of the refusals it gets otherwise |
| SyncHistory.CreatedNamesCommits | e2e/helpers/fake-server.ts:835-849 | the answer names the commits put after the old head, in order, and the new head |
| SyncHistory.EditIsAdded | e2e/helpers/fake-server.ts:619-635 | an edit of the head adds one commit with those parts under an id of its own |
| SyncHistory.SecondPushIsRejected | e2e/helpers/fake-server.ts:831-850 | of two pushes for one head only the first counts, whatever happens in between: the second changes nothing and an editor's is answered as rejected |
| SyncHistory.ReplicaCatchesUp | e2e/helpers/fake-server.ts:815-830 | a replica at any earlier commit, or none, that applies the answer for a later commit has that commit's snapshot |
| SyncHistory.UnknownIsRefused | e2e/helpers/fake-server.ts:815-821 | an answer is refused as unknown exactly for a target, or a start, that no commit has as its id |
| SyncHistory.LaterIsNoAncestor | e2e/helpers/fake-server.ts:822-823 | asking for the changes from a later commit to an earlier one is refused |
| SyncHistory.BehindCounts | e2e/helpers/fake-server.ts:791-803 | `behind` is how many commits came after a known one, none exactly at the head |
| SyncHistory.UnknownIsBehindAll | e2e/helpers/fake-server.ts:791-803 | for no commit, or one that is not known, it is the whole history |
| SyncHistory.Server.PushCommits | e2e/helpers/fake-server.ts:831-850 | the route answers 403, 400, 409 or the new ids, and the history moves by the machine's step |
| SyncHistory.Server.Changes | e2e/helpers/fake-server.ts:815-830 | the route answers 404, 400 or the differences between the two commits |
| Tar.TarEntry | scripts/vendor-kerberos.ts:105-120 | the writes into one header buffer and the summing loop give the specified header, with the name in UTF-8, data and padding |
| Tar.ReadTar | scripts/lib/tar.ts:36-61 | the loop gives the files, their names one character a byte, or the error, that passes over the offsets give |
| TarTheorems.EntriesReadBack | scripts/lib/tar.ts:36-61 | reading the written blocks of any entries whose name bytes fit and hold no NUL, with or without a zero trailer, gives those entries in order |
| TarMembers.MembersRead | scripts/lib/tar.ts:36-61 | any archive of whole members gives exactly its regular files in order, each under its name behind its prefix and a slash, and passes over the rest with their data; a block of zeros or too few bytes end it, and a size that is base-256 or no number makes it an error |
| TarMembers.NegativeCountsBack | scripts/lib/tar.ts:39-57 | an offset below 0 counts from the end and stops at the start |
| TarMembers.HeaderSpelt | scripts/vendor-kerberos.ts:105-119 | every byte of a written header whose name fits its field |
| TarText.RoundTrip | scripts/lib/tar.ts:36-61 | so any files with plain names of at most 100 characters come back, names as text, in order |
| TarText.WhatRoundTrips | scripts/lib/tar.ts:28-33 | a file's bytes always come back; a name whose encoding fits 100 bytes does if and only if every character is ASCII other than NUL; a longer plain name never does |
| TarText.AccentIsGarbled | scripts/lib/tar.ts:28-33 | a name of one accented letter comes back as two others |
| TarText.EuroIsGarbled | scripts/lib/tar.ts:28-33 | and one of the euro sign as three |
| Encodings.Utf8Spells | scripts/vendor-kerberos.ts:107 | a character's UTF-8 bytes are its bits, six to a byte behind the first, in the shortest form |
| Encodings.SurrogateIsReplaced | scripts/vendor-kerberos.ts:107 | a lone surrogate is written as U+FFFD is |
| TarTheorems.ChecksumFits | scripts/vendor-kerberos.ts:116-118 | the checksum always fits its six octal digits |
| TarTheorems.ChecksumReads | scripts/vendor-kerberos.ts:112-118 | the stored checksum is the sum of the header with that field blank |
| TarTheorems.WrittenAligned | scripts/vendor-kerberos.ts:119 | a written entry is whole blocks long |
| TarTheorems.PaddedNumber | scripts/vendor-kerberos.ts:111 | a number below 8^width is written in exactly that many octal digits that spell it |
| TarTheorems.NumberReads | scripts/lib/tar.ts:46-50 | and reads back from its field |
| TarTermination.WhenReaderEnds | scripts/lib/tar.ts:39-59 | for every archive, the loop ends if and only if no offset comes up twice |
| TarTermination.WhenPassMoves | scripts/lib/tar.ts:58 | past a size over -512 the offset moves on, down to -1023 it stays, and from -1024 on it goes back |
| TarTermination.WhenNothingGoesBack | scripts/lib/tar.ts:39-59 | where no size it comes to is under -1023, the loop ends if and only if each is over -512 |
| TarTermination.NegativeIsFile | scripts/lib/tar.ts:46-50 | a size field of a minus sign and octal digits parses to that negative size, in the header of a regular file |
| TarTermination.NegativeSizeSticks | scripts/lib/tar.ts:46-58 | an archive whose first header has a size of -512 to -1023 is never read to its end |
| TarTermination.GoingBackCanEnd | scripts/lib/tar.ts:39-59 | one of -1024 to -1535 sends the reader before the start, where it ends with the one file |
| Crc.MakeRow | scripts/make-icon.ts:125-129 | a table row is eight turns of the register |
| Crc.MakeTable | scripts/make-icon.ts:124-130 | every row of the table is |
| Crc.TableStep | scripts/make-icon.ts:135-137 | one step with the table is the bitwise definition's eight shifts |
| Crc.Crc32 | scripts/make-icon.ts:133-139 | the table-driven loop equals the bit-at-a-time definition on every byte sequence |
| Crc.CrcIsAffine | scripts/make-icon.ts:133-139 | over three messages of one length the sums add up bit by bit |
| Crc.DetectsOneByte | scripts/make-icon.ts:133-139 | messages that differ in one byte have different sums |
| Crc.PolynomialIsStandard | scripts/make-icon.ts:124-130 | the polynomial has the powers that section 3.4 of RFC 2083 lists |
| Crc.SumsOfOnes | scripts/make-icon.ts:133-139 | the sums of nothing and of 1 to 4 bytes of ones |
| Png.WriteChunk | scripts/make-icon.ts:115-122 | a chunk is its length, type, data and check, as sections 3.2 and 3.4 of RFC 2083 lay it out |
| Png.ChunkLaidOut | scripts/make-icon.ts:115-122 | what stands where: the length and the check are numbers with their greatest byte first, around the type and the data |
| Png.ChunksRoundTrip | scripts/make-icon.ts:115-122 | chunks one after the other read back to their types and data with matching checks |
| Png.ChangedByteIsRefused | scripts/make-icon.ts:115-122 | a chunk with one byte of its type or data changed no longer matches its check |
| CssBlocks.BlockBody | scripts/contrast-check.ts:245-263 | brace counting finds the one balanced body of the first brace, and fails exactly when there is none |
| CssBlocks.TopLevelRules | scripts/contrast-check.ts:378-392 | the cut rules are the sheet's text, and it fails exactly when no cut exists |
| CssBlocks.BlockIsUnique | scripts/contrast-check.ts:237-244 | a brace opens at most one balanced block |
| CssBlocks.SheetIsUnique | scripts/contrast-check.ts:378-392 | no text is two sheets: rules, rendered and cut again, are the same rules |
| Cascade.RootSpecificity | scripts/contrast-check.ts:409-425 | a selector's specificity is its number of parts if all match, and none otherwise |
| Cascade.HighestSpecificity | scripts/contrast-check.ts:437-441 | the highest among a rule's matching selectors |
| Cascade.WhenSelectorMatches | scripts/contrast-check.ts:409-425 | a selector matches exactly if it asks for something and only for what the root carries, which the default palette is not |
| Cascade.WhenRuleMatches | scripts/contrast-check.ts:437-442 | a rule is as specific as its most specific selector that matches |
| Cascade.ResolvePalette | scripts/contrast-check.ts:436-451 | each token gets the declaration of the matching rule with the greatest specificity, the later of equals, and there are no others |
| Cascade.LastSetterDecides | scripts/contrast-check.ts:443-450 | applied in that order the last rule that sets a token is the one that decides it |
| Cascade.MergeDeclarations | scripts/contrast-check.ts:460-470 | the loop merges the declarations of the rules that list the selector |
| Cascade.FindLeaks | scripts/contrast-check.ts:478-488 | a leak is reported exactly for a token the palette's dark block sets and its light block does not |
| Cascade.NoLeakNoDarkValue | scripts/contrast-check.ts:472-488 | with no leak, in light mode each token of the dark block is decided by a rule of specificity 2 or more |
| Cascade.WhenLeakShows | scripts/contrast-check.ts:472-488 | in a sheet of token selectors, a token reported as a leak is decided by the palette's dark block in light mode if and only if no `:root` or light rule after that block sets it |
| Cascade.ShownValue | scripts/contrast-check.ts:460-488 | and the value it has there is the one the report reads from the dark block |
| Cascade.ResolvesRightly | scripts/contrast-check.ts:316-327 | following a token gives the value the chain of `var(…)` ends at, or the error of a chain that leaves the sheet or never ends |
| Cascade.WhenTokenResolves | scripts/contrast-check.ts:316-327 | and each of these answers exactly in its case |
| Cascade.WhichRefersToItself | scripts/contrast-check.ts:316-327 | the token that an error says refers to itself is the first the chain comes back to |
| Reachability.ClosedHoldsAll | scripts/ci/changed-jobs.ts:101-111 | a set that holds the roots and what follows from its members holds everything reachable |
| ChangedJobs.IndexByName | scripts/ci/changed-jobs.ts:103 | of two packages with one name the later counts |
| ChangedJobs.ReachedNames | scripts/ci/changed-jobs.ts:102-110 | the worklist sees exactly the reachable names, cycles included |
| ChangedJobs.ClosureDirs | scripts/ci/changed-jobs.ts:102-115 | the folders are exactly those of the reachable packages |
| ChangedJobs.JobIsCalled | scripts/ci/changed-jobs.ts:130-137 | whether a job is called for by everything or by a file it concerns |
| ChangedJobs.Called | scripts/ci/changed-jobs.ts:121-140 | every job's answer, and `code`, are exactly what the files call for |
| ChangedJobs.ReachedFolderCalls | scripts/ci/changed-jobs.ts:4-7 | a changed file, not documentation and not excepted, in the folder of a package on any path from a root calls the job |
| ChangedJobs.TogetherIsEither | scripts/ci/changed-jobs.ts:121-140 | the answer for two lists together is the "or" of the answers for each |
| ChangedJobs.AddingDepsTurnsNothingOff | scripts/ci/changed-jobs.ts:121-140 | declaring more dependencies never turns a job off |
| ChangedJobs.DocumentationAltersNothing | scripts/ci/changed-jobs.ts:9 | documentation beside other changes alters no answer |
| ChangedJobs.WhenFolderChangeCalls | scripts/ci/changed-jobs.ts:121-140 | where no package's folder lies in another's, a file of a workspace package calls a job if and only if the job reaches that package or names the file by path, and does not except it |
| ChangedJobs.TextCallsNone | scripts/ci/changed-jobs.ts:62-65 | files under `docs/`, `docs-site/` and `site/`, Markdown and MDX call for nothing |
| ChangedJobs.OutsideCallsAll | scripts/ci/changed-jobs.ts:10-12 | any other file outside `packages/`, `apps/`, `e2e/`, `scripts/` and `action/` calls for every job |
| ChangedJobs.LooseFileCallsAll | scripts/ci/changed-jobs.ts:124-128 | so does a file of `packages/` or `apps/` that lies in no workspace package's folder |
| ChangedJobs.ScriptCallsNamed | scripts/ci/changed-jobs.ts:130-137 | a file under `scripts/` or `action/` calls exactly the jobs that name it or its folder, and do not except it |
| ChangedJobs.ExceptedIsAnothers | scripts/ci/changed-jobs.ts:35-60 | in the table of CI's jobs a file one job excepts calls another job, whatever the workspace |
| ChangedJobs.DeletedPackageCallsAll | scripts/ci/changed-jobs.ts:124-128 | a change in the folder of a package that left the workspace calls for every job |
| Disagreements.NewPackageCallsNoJob | scripts/ci/changed-jobs.ts:121-140 | a new package that no other depends on yet calls for none of CI's jobs |
| AsarCheck.Walk | scripts/check-desktop-asar.ts:88-112 | the queue reaches exactly the needed packages, and reports exactly the required names that nothing is there for |
| AsarCheck.Unreached | scripts/check-desktop-asar.ts:113-115 | exactly the top-level packages not reached are reported |
| AsarCheck.Check | scripts/check-desktop-asar.ts:78-118 | it reports exactly what is missing and what ships for nothing, so nothing exactly when the tree is exact |
| AsarCheck.NeededFollows | scripts/check-desktop-asar.ts:88-111 | what the app or a needed package requires, or finds as an optional or peer dependency, is needed |
| AsarCheck.NeededIsLeast | scripts/check-desktop-asar.ts:88-112 | and nothing more: any closed set of folders holds all that is needed |
| AsarCheck.NeededExactly | scripts/check-desktop-asar.ts:84-112 | the needed packages are the least set of folders that holds what the app requires and what each of them names and is there: nested where it is asked for, else at the top, and never `kerberos` |
| AsarCheck.MissingExactly | scripts/check-desktop-asar.ts:92-97 | what is missing is what the app or a needed package requires and neither folder is there for |
| AsarCheck.KerberosIsNotFollowed | scripts/check-desktop-asar.ts:18-19 | the app depending on `kerberos` makes nothing needed |

## Left out

- LockSafety.LockExcludes: holds under the two run hypotheses it names; `LockWitnesses` gives a run that breaks it without each one. A crashed mover's put-back window counts only while the moved lock's holder is live.
- Tar.ReadTar: for the archives on which the source's loop ends, which `TarTermination.WhenReaderEnds` tells by the offsets it comes to.
- Shards.AssignShards: requires `count` to be at least 1, as Vitest gives it, and natural weights.
- PresenceTheorems.ListsStayCurrent: over runs in which no socket closes by itself and the user table stays as it is; `PresenceTheorems.WhenListsGoStale` says exactly when such a socket matters.
- PresenceTheorems.OnlyEntitledStay: not for roles changed through routes that announce nothing.
- StoreTheorems.NoLostUpdates: takes the lock as exclusive, each version's stamp as its own, and the file as never deleted; so do the other theorems about the store. `LockedStore` replaces the first by the lock's two hypotheses.
- ServedServers.ServedForOwnServer: under the two run conditions it names; `ServedServers` gives a run that breaks it without each one.
- TarText.WhatRoundTrips: a name that is not plain and whose encoding is over 100 bytes comes back exactly when what is left of it spells it; which those are is not said.
- Cascade.WhenLeakShows: for sheets whose selectors are the ones a token sheet uses (`:root`, a theme, a palette, a palette in a theme); any selector that matches no root element may stand beside them.
- LiveHub.Hub.UsersOf: sorted by code units where the source uses `localeCompare`.
- Sync.DiffTrees: sorted by code units where the source uses `localeCompare`.
- Sync.DiffIsUnique: for that order, under which distinct paths differ; under `localeCompare` two can tie and keep the order of the map.
- SyncHistory.IdsAreDistinct: takes a commit's digest as injective in its parts and its running number.
- ShardTheorems.JobsAgree: jobs read the same timings and the same spread set.
- The lock and the store across their `await`s are state machines over every interleaving, not classes; only one process's stretches between them are (`StoreCache`). The pauses and the growing wait between two attempts for the lock are arbitrary time.
- Recovery from failing I/O inside the lock's own steps (a failed token write), and a failing `stat` after the pairing file's rename.
- Sockets, HTTP, WebSocket framing, sealing and the wire schemas: a socket is a record, a server's answer any answer. `runHostSocket` is not part of this model; neither is what the agent serves on a bound socket.
- The parts of a send between its registration and its end: the bundle, the jar, the sweep of temporary folders.
- Lower-casing is ASCII's.
- Gzip and the download loop around the tar reader. Its `latin1` decoder is windows-1252, as the Encoding Standard has it.
- Live messages other than presence, access and session ends (`head`, `capture`), and sync's `snapshot` and `log` routes.
- How a terminal share's id is made, and frames that are not JSON; a user's id is the one their session's email has.
- CSS text below the block level: comments, selector lists and declarations are given as read. `@media` blocks and contrast itself are left out.
- The asar header's bytes: the packed tree is given as its manifests and the names at its top. `excludedButNeeded` and the import checks are left out.
- The regular expressions of `scripts/ci/changed-jobs.ts` are written out as prefix and suffix conditions, and reading the `package.json` files is left out.
- `platformTimings`, the icon's pixels, and the command-line tools.
