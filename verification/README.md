# The tweet server, modelled and proved

The server keeps four parallel lists (user names, followers, received tweets, pending tweets), a
connection table, and lets any number of session threads work on them behind hand-made
reader/writer locks. This project models `src/main_server.cpp` and proves what the server is for:
with operations that do not overlap, every tweet reaches every follower of its author once and in
order; in interleaved runs it does so exactly once where none of three races happens; the reference
counts of the stored tweets are conserved in every interleaving, the locks exclude and do not deadlock,
and the files give back what was saved. Where the code does not do what it is meant to do, the project
says exactly when it does.

`dafny verify dfyconfig.toml` verifies everything.

## How the modules fit together

| module | what it is |
|---|---|
| `BinarySemaphore` | `customBinarySemaphore` down to its mutex, flag and condition variable; refines an atomic semaphore |
| `RwLocks` | the three lock protocols (LOU/LOF/LORT, LOPT, the query gate), one step per P, V, lock or unlock, over any number of threads |
| `GateRuns` | whole runs of the gate: exclusion, exact counts, no overtaking, the effect of an early return |
| `Scripts` | each operation as a script of nested lock sections, the order they follow, and which requests leave the gate behind |
| `LockOrder` | all locks of the server composed, the queue mutexes of every session included: exclusion in every run, no deadlock |
| `LockRuns` | whole runs of the composed locks: when exactly the server stops, who leaves the gate behind and how often, and that operations complete |
| `Mailbox` | stored tweets with remaining recipients, and references to them |
| `Interleaving` | the delivery engine as a step system: number, count, store, count again, each forward, copy, clear, each lookup, each release |
| `InterleavedDelivery` | what the readers get in an interleaved run |
| `ForwardedOnce` | to whom a post goes in an interleaved run, and how often |
| `Connections`, `Delivery` | the operations as atomic steps, their invariant, and what they add up to over runs |
| `Solo` | the two models of the engine agree: an atomic operation is a run of the step system by one thread |
| `ConnectionManagers`, `DatabaseManagers` | the two classes as they are written, loops included, proved against `Connections` and `Delivery` |
| `StaleIndex` | the index that the connection table's methods use after they have freed the semaphore |
| `SessionRuns` | what a session leaves behind in the connection table: one that is refused, one that signs in again |
| `LiveSessions` | all sessions at once: when exactly the table counts those that are there |
| `Renumbering` | what restarting the numbering does to the deliveries of every run afterwards |
| `Reloading` | the same for the databases that one load after the other really gives, with names that no list knows |
| `Pipeline`, `Sessions` | one client's session: packets in, requests to the database, replies and notices out |
| `Codec`, `Persistence`, `Restart` | formatted printing and extraction, the record codecs, the four files, save and load as a whole |

Concurrent code is modelled as transition systems over a sequence of thread states, because what is
proved about it concerns the steps between two accesses; sequential code is modelled as classes and
methods with the source's loops. The step system takes these effects of the locks for granted:
`listenerProceedMUT` makes posting exclusive, LOPT keeps a forward from falling between the copy and the
clear of a retrieval, and each scan or update of one follower list under LOF or of one author's tweets
under LORT is one step. `LockOrder.SectionsExclude` proves, for these four locks as for all others, that
the sections of `Scripts` exclude each other so, and `LockRuns.ForwardingIsAlone` that forwarding is such a
section; that the steps of `Interleaving` lie inside those sections
is read off the source, and no theorem joins the two models.
Two more effects are assumptions, as no lock gives them: forwarding reads the follower list in one step
per reference, although line 814 reads it without LOF against the `push_back` at line 773; and a copy and
a clear are one step each, although two listeners of one user do them under the same shared lock
(lines 898-899). Every other interleaving is allowed. The lock protocols use an atomic semaphore;
`BinarySemaphore.StepRefines` and `BinarySemaphore.NoLostWakeUp` justify that, and
`LockOrder.SemaphoresAreBinary` shows that the semaphores are used in pairs of P and V, which
`BinarySemaphore.BinaryIffPaired` asks for. A session's methods each keep one part of what the session
conserves and leave the other parts out of their frame.

## Where the code departs from its intent

- `postFollow` returns at lines 766 and 769 without leaving the gate. `Scripts.FollowLeavesGateIff` gives
  the guard, `LockRuns.LostIsFailedFollows` counts these returns in every run, and
  `LockRuns.EarlyReturnsAreFailedFollows` shows that only speakers with such a follow do so.
  `LockRuns.StopsIff`: the server deadlocks if and only if such a return has happened and a saver waits
  behind it with everybody else idle, at `query_try`, or blocked at a session's incoming queue.
  `LockRuns.JamIsReachable` gets there from the start with a follow by one thread and a save by another.
- Two listeners of one user may claim the same references (lines 898-899), and a follow may fall
  between the two counts of followers (lines 788 and 804). `Interleaving.ExactIffUndisturbed`: exact
  conservation holds in a run if and only if neither happens. `Interleaving.WeakConservation` holds in
  all runs. Both happen: `DoubleClaimLosesTheTweet` and `LateFollowHappens` are concrete runs.
- The check of a follow and its entry are two sections (lines 768-774), so two sessions of one user may
  both pass the check. `ForwardedOnce.FollowersDistinctIff`: the follower lists stay free of repetitions in
  a run if and only if no follow is entered for somebody already listed.
  `ForwardedOnce.FollowersDistinctIffNoOverlap`: that is, if and only if no two threads that have both
  passed the check for one follow both go on. `ForwardedOnce.ForwardedAtUnlock`: a post goes to each user as
  often as it is listed. `ForwardedOnce.DoubleFollowDeliversTwice` is a run, undisturbed otherwise, in which
  a reader gets one tweet twice.
- A load adds a blank user that only the names have (lines 590-596, `Restart.BlankUserIsOutOfRange`). The
  server loads when it starts and saves what it has (lines 1653 and 1668), and the next load reads the blank
  record as the start of a longer one that the end of the file cuts short. `Restart.RestartsAddUsers`: over
  any number of restarts, each load ends if and only if it does not meet a blank record with the leftover
  id 0, and there is one more name without lists for every two restarts begun. `Restart.ShippedFile`: the
  `listOfUsers.txt` of the repository is that of four users after four restarts.
- `numTweets` is not saved (lines 334 and 617-636). `Reloading.LoadedIsSafeIff`: all runs of the loaded
  server, with any names behind its lists, in which nobody acts as one of those users, follows one, or adds
  a user deliver exactly once and in order if and only if nothing was pending at the save;
  `Reloading.NextLifeIsSafeIff` says so for each restart of a whole series. As soon as one of those users
  follows somebody, a tweet is lost, whatever was pending (`Reloading.ExtraFollowerGetsNothing`).
  `Reloading.SurvivingTweetIsDeliveredAgain`: a pending tweet that survives the files and makes a run
  fail. `Renumbering.OldTweetIsDeliveredAgain` is how: the follower gets the old tweet in place of a new
  one. The theorems of `Renumbering` are about the numbering alone, as if a load added no user.
- `closeConnection` also runs for a session that was refused (lines 1170-1172 and 1245), and runs once
  for a session that has signed in more than once (line 1161). `LiveSessions.CountsLiveSessionsIff`: the
  table counts the sessions that are there if and only if every session that ended took from it exactly what
  it had put there; for one that signs in once this means that it was accepted, or that no accepted session
  of the user is there any more (`LiveSessions.RefusedIsFairIff`). `SessionRuns.SessionAccountsIff` says when
  a single session accounts for itself, whatever others do, and `SessionRuns.SessionAccount` what is left
  over otherwise. `SessionRuns.EntryIsLost`: two refused sessions end, and two accepted ones go on without an
  entry, so that a retrieval has no index to use. In `LiveSessions.LastCloseIsUndefined` an accepted session
  comes to close on an empty table, which the code does not provide for. `SessionRuns.TweetIsLost` is a run
  from an empty server in which a session that goes on loses its tweet, `SessionRuns.SecondSignInIsLeftOver`
  one that leaves a connection with nobody there.
- `registerDuplicateTweet` and `retrieveDuplicateTweet` use an index after freeing the semaphore
  (lines 289-310). `StaleIndex.CloseKeepsIndexIff`: a close in between spoils it if and only if it takes
  away an entry at or before it; then a tweet is kept for the user behind
  (`StaleIndex.StaleIndexMisdelivers`, and `StaleIndex.TweetIsKeptForAnother` with three users), or what was
  kept for that user is handed over and gone (`StaleIndex.StaleIndexHandsOver`).
- The loaders of pending and received tweets read the line break with a skipping `>> char`
  (lines 460 and 510), which takes the first digit of what follows:
  `Persistence.RowsFileRoundTripIff` gives the exact files that survive.
- A user name that is empty or starts with a digit does not survive (`Codec.UserRoundTripIff`).
- The speaker answers a failed request with an ACK too (lines 1503 and 1535); `Sessions` follows the
  code.

## Model

| member | source | states |
|---|---|---|
| BinarySemaphore.StepRefines | src/main_server.cpp:122-140 | every step of the mutex and condition variable code is a P, a V or nothing on an atomic semaphore, and P takes effect only when `n > 0` |
| BinarySemaphore.NoLostWakeUp | src/main_server.cpp:115-141 | in every state of every run `n` is 1 plus completed V minus completed P and never negative, and a free semaphore with a sleeper has a notification or an awake thread on the way, barging included |
| BinarySemaphore.SleepersMayWake | src/main_server.cpp:122-140 | spurious wake-ups and barging are among the steps: any sleeper may wake and goes back to sleep if the flag is not set, and a new caller may come first |
| BinarySemaphore.BinaryIffPaired | src/main_server.cpp:117-138 | in every state of every run `n` is 0 or 1 if and only if no more V than P have completed so far |
| BinarySemaphore.FreeSemaphoreAdmits | src/main_server.cpp:122-140 | a free semaphore with callers of P always lets one in or wakes one |
| RwLocks.InvFresh | src/main_server.cpp:338-400 | all locks free and all threads outside satisfy the invariant, for any number of threads |
| RwLocks.WriterMayComeFirst | src/main_server.cpp:714-731 | between the count and the semaphore of a reader a writer may come first, and the other way round |
| RwLocks.InvStep | src/main_server.cpp:603-823 | every step of every thread keeps counters, mutexes, semaphores and turnstiles accounted for by the threads' positions, for all three protocols |
| RwLocks.Exclusion | src/main_server.cpp:772-774 | a writer inside excludes all readers inside and all other writers |
| RwLocks.SemaphoreOwnership | src/main_server.cpp:714-731 | the semaphore is taken exactly when a writer or the reader group has it; a positive reader count with no reader acquiring means the group has it |
| RwLocks.ReaderNeverBlocksOnRw | src/main_server.cpp:891-904 | under LOPT a reader about to take `LOPT_rw_sem` can always take it, and no writer is at or past it |
| RwLocks.WritersShutReadersOut | src/main_server.cpp:807-823 | while the writer group owns `LOPT_readTry` no reader is on its way in and no step lets one in |
| RwLocks.LocalProgress | src/main_server.cpp:691-706 | if a thread is in the protocol of a lock, some thread there can step or is inside, for all three protocols |
| GateRuns.GateSafety | src/main_server.cpp:603-633 | in every state of every run no query overlaps a save or load, `DB_access_sem` is taken exactly when the saver or the query group has it, and `query_cnt` is the counted queries in flight plus the earlier early returns |
| GateRuns.LostCountsEarlyReturns | src/main_server.cpp:764-770 | the queries that never left the gate are exactly those that went away from their body without leaving; `LockRuns.EarlyReturnsAreFailedFollows` says which calls those are |
| GateRuns.SaverNotOvertaken | src/main_server.cpp:603-604 | while a saver waits with `query_try`, the set of counted queries never gains a member |
| GateRuns.SaverWaitsFinitely | src/main_server.cpp:776-779 | while a saver waits, queries take at most as many steps as the work left when it got `query_try` |
| GateRuns.DrainedAdmitsSaver | src/main_server.cpp:603-604 | with no early return so far, the saver is admitted once the work left is zero, and before that some query is in its body or can take a step of its exit |
| GateRuns.EarlyReturnShutsSavers | src/main_server.cpp:764-770 | once a follow has returned early, `query_cnt` stays at least 1, `DB_access_sem` stays taken and no saver is inside, in every continuation |
| GateRuns.EarlyReturnThenSaveShutsQueries | src/main_server.cpp:603-604 | after that, a saver that takes `query_try` keeps it for ever and no query becomes counted again |
| Scripts.OperationsFollowTheOrder | src/main_server.cpp:754-1015 | every operation, in every branch, with any number of requests in a speaker's queue and of timed waits, enters sections in rising lock order and the writers' ones nested in the gate, leaves them innermost first and ends outside all of them, except that it leaves the gate behind exactly once for each of its failed follows |
| Scripts.SpeakerEnters | src/main_server.cpp:754-884 | how often a speaker enters each section, in each role, by the kinds of its requests: a post to followers takes `listenerProceedMUT`, LORT and LOPT once each as a writer, a new follow LOF as a writer, every request the gate and the outgoing queue, and nothing else |
| Scripts.RetrievalEnters | src/main_server.cpp:937-1015 | the same for both ways of a retrieval, by waits, copies and references |
| Scripts.ListenerEnters | src/main_server.cpp:1320-1402 | the same for a waiting listener, by its checks and sleeps, and for one that puts out tweets |
| Scripts.PostTrace | src/main_server.cpp:849-884 | the sections of a post in their order and nesting |
| Scripts.FollowTrace | src/main_server.cpp:754-784 | the same for a new follow and for one that returns early |
| Scripts.RequestTraces | src/main_server.cpp:1473-1554 | the same for a follow of an unknown name, for a post to nobody, and for the speaker's queue around them |
| Scripts.DuplicatesTrace | src/main_server.cpp:955-961 | the same for the other way of a retrieval and its waits |
| Scripts.ChecksTrace | src/main_server.cpp:1337-1360 | the same for the checks of a waiting listener |
| Scripts.SingleSections | src/main_server.cpp:601-636 | the operations that are one section, `saveDatabase`, `addUser`, `getUserName` and the two queues among them |
| Scripts.RetrievalTrace | src/main_server.cpp:937-1015 | the same for a retrieval |
| Scripts.FailuresByKind | src/main_server.cpp:764-770 | the requests that leave the gate behind are the follows of unknown names and of somebody already followed |
| Scripts.FollowLeavesGateIff | src/main_server.cpp:763-770 | a follow leaves the gate if and only if the first user of that name is not yet followed, that is, if and only if it changes the database |
| LockOrder.GoodMove | src/main_server.cpp:849-884 | every move of every thread keeps the invariants of all locks and the order of all threads, together |
| LockOrder.MovesIgnoreOthers | src/main_server.cpp:754-1015 | whether a thread can move depends on the others only through the lock it is crossing, and an idle thread can be called for any operation |
| LockOrder.NoDeadlock | src/main_server.cpp:851-881 | in every good state with no early return, if a thread is in the middle of an operation some thread can take its next step |
| LockOrder.RunsDoNotDeadlock | src/main_server.cpp:939-1011 | the same for every reachable state of every run |
| LockOrder.SectionsExclude | src/main_server.cpp:807-823 | in every reachable state, a thread in a writer's section of any lock is alone in that lock |
| LockOrder.SemaphoresAreBinary | src/main_server.cpp:338-400 | in every state of every run each semaphore and mutex of each lock is 0 or 1, that is, no V goes ahead of its P |
| LockRuns.GroupOwnsSemaphore | src/main_server.cpp:714-731 | in every reachable state and for every lock, the semaphore is taken exactly when a writer or the reader group has it, never by both |
| LockRuns.LoptReaderIsNotBlocked | src/main_server.cpp:891-904 | in every reachable state a reader about to take `LOPT_rw_sem` can take it |
| LockRuns.WritersKeepReadersOut | src/main_server.cpp:807-823 | at every step of every run, while the writer group owns `LOPT_readTry` no reader is on its way in and nobody becomes a reader inside |
| LockRuns.OtherLocksHaveNoTurnstile | src/main_server.cpp:711-735 | only the gate and LOPT have turnstiles |
| LockRuns.WritersAreInTheGate | src/main_server.cpp:754-935 | in every reachable state, whoever writes follower lists, tweets, pending lists or the number is inside the gate, and whoever writes the pending lists has `listenerProceedMUT` |
| LockRuns.SavesSeeNoWriter | src/main_server.cpp:601-615 | so while a save or load is inside the gate, no thread writes those lists |
| LockRuns.ForwardingIsAlone | src/main_server.cpp:807-823 | while a post is forwarded, no other thread is inside LOPT or has `listenerProceedMUT` |
| LockRuns.CalledSectionIsEntered | src/main_server.cpp:754-1015 | a thread that was called for an operation whose script enters a section, and is idle again, was in that section in between |
| LockRuns.PostsAreForwarded | src/main_server.cpp:807-823 | so after every post to somebody with followers, its thread has written the pending lists under LOPT, the mutex and the gate |
| LockRuns.StopsIff | src/main_server.cpp:603-779 | no thread can continue if and only if all are idle, or a query has returned early, a saver waits for `DB_access_sem`, and all others are idle, at `query_try`, or blocked at a session's incoming queue |
| LockRuns.JammedStops | src/main_server.cpp:603-604 | in such a jam no thread can take a step of its operation |
| LockRuns.JamIsReachable | src/main_server.cpp:764-767 | from the start, a follow of an unknown name by one thread and then a save by another lead to the jam |
| LockRuns.NextSaveJams | src/main_server.cpp:603-604 | once a query has returned early, the next save jams an idle server |
| LockRuns.LostIsFailedFollows | src/main_server.cpp:764-770 | in every state of every run, the queries that have left the gate behind, plus those that threads in flight will, are exactly the failed follows called so far |
| LockRuns.EarlyReturnsAreFailedFollows | src/main_server.cpp:764-770 | in every run, whoever returns without leaving the gate is a speaker with a failed follow |
| LockRuns.FailedFollowsStayCounted | src/main_server.cpp:758-779 | in every reachable state `query_cnt` is the counted queries in flight plus the failed follows called so far, less those still to fail; with all threads idle it is the failed follows since the start |
| LockRuns.RunsAlone | src/main_server.cpp:764-770 | an operation other than a save that runs alone always comes to its end and leaves the gate taken once more for each of its failed follows |
| LockRuns.OperationsComplete | src/main_server.cpp:754-1015 | without new calls every run ends within the moves left, in whatever order the threads go, and at its end every operation is complete unless the server is jammed |
| LockRuns.SaverWasAdmitted | src/main_server.cpp:603-612 | a waiting saver that has completed was inside in between |
| Mailbox.FindAt | src/main_server.cpp:973-982 | with distinct ids the linear search finds the tweet that is there |
| Mailbox.ReleaseFind | src/main_server.cpp:916-929 | a release takes one recipient from that tweet, erases it exactly when that was the last, and leaves all others alone |
| Mailbox.ReleaseCounts | src/main_server.cpp:919-923 | for the one tweet: gone at its last recipient, else one recipient less; a count of 0 would wrap to 2^32 - 1 |
| Mailbox.ReleaseCount | src/main_server.cpp:909-935 | over all users: one count drops by one if it was positive, all others stay, and ids stay distinct |
| Interleaving.ConservationStep | src/main_server.cpp:786-935 | in every interleaving, outstanding references exceed the counters by exactly what double claims and late follows create and orphan releases absorb |
| Interleaving.ShapeStep | src/main_server.cpp:849-935 | every step keeps ids distinct and below `numTweets`, lists parallel, and every index in range |
| Interleaving.StepsIgnoreOthers | src/main_server.cpp:786-935 | whether a thread can take a step depends on the others only through the lists, the mutex and copies under way, so every other interleaving is allowed |
| Interleaving.WeakConservation | src/main_server.cpp:909-931 | in every run, with concurrent follows and double claims: each stored tweet has 1 <= remaining <= outstanding references, so the decrement never wraps |
| Interleaving.NothingLeftBehind | src/main_server.cpp:919-923 | whenever all threads are idle and nothing is pending, no tweet is stored |
| Interleaving.ExactIffUndisturbed | src/main_server.cpp:786-826 | exact conservation in every state of a run if and only if no step of it is a double claim or a late follow |
| Interleaving.DisturbanceShows | src/main_server.cpp:898-899 | a double claim or a late follow always leaves a reference without a counted recipient |
| Interleaving.ClaimsResolve | src/main_server.cpp:968-983 | while the counters are exact every claimed reference has its tweet |
| Interleaving.LookupsSucceed | src/main_server.cpp:968-983 | in an undisturbed run every iteration of the lookup loop appends the tweet it looks for |
| Interleaving.DoubleClaimLosesTheTweet | src/main_server.cpp:898-905 | a run from a proper start in which the second listener's lookup finds nothing |
| Interleaving.LateFollowHappens | src/main_server.cpp:768-804 | a run from a fresh server that reaches a follow between the two counts |
| Interleaving.FreshIsStart | src/main_server.cpp:404-418 | any server without tweets is a start state of these theorems |
| InterleavedDelivery.ClaimsInOrder | src/main_server.cpp:798-905 | in every run without a double claim, a user's claims in claim order followed by what is pending are exactly what was pending at the start and forwarded since |
| InterleavedDelivery.PostedStep | src/main_server.cpp:858-873 | what is stored under a reference is what was posted, and no posted reference is ever overwritten |
| InterleavedDelivery.InterleavedDelivery | src/main_server.cpp:786-1015 | in every undisturbed run also: everything forwarded was posted, and each retrieval that has finished its lookups returns exactly the tweets posted under the references it claimed, in order |
| ForwardedOnce.FollowersDistinctIff | src/main_server.cpp:768-774 | all follower lists stay free of repetitions in a run if and only if no step of it enters a follower that is already listed |
| ForwardedOnce.DoubleFollowIffOverlap | src/main_server.cpp:768-774 | a follow is entered twice if and only if another thread entered it while both had passed the check |
| ForwardedOnce.FollowersDistinctIffNoOverlap | src/main_server.cpp:768-774 | so all lists stay free of repetitions in a run if and only if no two such follows are both entered |
| ForwardedOnce.ForwardedAtUnlock | src/main_server.cpp:798-826 | in every run, disturbed or not, a finished post's reference has gone to each user exactly as often as the user stands in the counted part of the author's list |
| ForwardedOnce.SettledStays | src/main_server.cpp:798-826 | once a post is finished, how often its reference has gone to a user never changes again in that run |
| ForwardedOnce.ExactlyOnce | src/main_server.cpp:786-1015 | in every run without double claims, late follows and double follows, from the end of a post on its reference stands exactly once among what each follower counted for it has claimed or has pending, and never for anybody else |
| ForwardedOnce.DoubleFollowDeliversTwice | src/main_server.cpp:768-774 | a run from a proper start with neither a double claim nor a late follow in which two follows of one reader overlap and the next tweet becomes pending for it twice |
| Delivery.StepGood | src/main_server.cpp:754-1015 | every operation keeps the four lists parallel, follower lists in range and duplicate free, ids below `numTweets`, stored and pending lists strictly increasing, every counter equal to the references, and the connection table in order |
| Delivery.RunGood | src/main_server.cpp:754-1015 | the same over every run |
| Delivery.FreshStart | src/main_server.cpp:404-418 | a server with users only is in order and matches the empty ideal |
| Delivery.UpdateReaches | src/main_server.cpp:849-884 | a posted tweet is appended to what is pending for exactly the author's followers, with its content, and nobody else's pending tweets change |
| Delivery.RetrieveOthers | src/main_server.cpp:937-1015 | a retrieval changes nothing of what is pending for anybody else |
| Delivery.ExactlyOnceInOrder | src/main_server.cpp:754-1015 | over any run, what a reader's retrievals returned followed by what its pending list resolves to is the log of the tweets of the authors it followed when they were posted |
| Delivery.DuplicatesAreLossless | src/main_server.cpp:955-999 | between closes, what the second connection got followed by the buffer is the buffer before followed by everything retrieved under two connections |
| Delivery.ReplayHandsOverAll | src/main_server.cpp:955-961 | a retrieval that finds nothing pending returns exactly what was kept for the second connection and leaves nothing of it; the count and everything else stay |
| Delivery.PrimaryHandsOverAll | src/main_server.cpp:937-1015 | any other one returns one tweet for each pending reference, with the contents that were pending, and leaves nothing pending |
| Delivery.PrimaryCopies | src/main_server.cpp:990-1000 | and with two connections it adds what it returns to the end of what is kept, with one it keeps nothing |
| Delivery.ReplayCatchesUp | src/main_server.cpp:955-961 | over any run that ends with a replay, the second connection has got everything that was ever copied for it, in order |
| Delivery.FollowEnters | src/main_server.cpp:763-774 | a follow of the first user of that name by somebody new puts the follower at the end of that list, changes nothing else and succeeds |
| Delivery.FollowRefused | src/main_server.cpp:764-770 | a follow of an unknown name, or by somebody who is there already, changes nothing and fails |
| Delivery.ConnectionsAreCounted | src/main_server.cpp:201-264 | over any run the count is accepted registrations less closes that find the user, never above 2, and a single connection has an empty buffer |
| SessionRuns.SessionLeavesTableIff | src/main_server.cpp:1170-1172 | a session's register and close leave the table as it was if and only if the user had fewer than two connections; otherwise one connection and the kept tweets are gone |
| SessionRuns.SessionCountsIff | src/main_server.cpp:1170-1245 | a session that signs in once accounts for itself, whatever others do meanwhile, if and only if it was accepted and its close finds an entry, or neither |
| SessionRuns.SessionAccount | src/main_server.cpp:1161-1245 | for any number of sign-ins under any ids and anything in between: each user's count at the end is that at the start, plus what others did, plus the session's accepted registrations of that user, less one for the id it closes if that has an entry |
| SessionRuns.SessionAccountsIff | src/main_server.cpp:1161-1245 | no user's count is changed by the session if and only if one registration under the closed id, or none if the close finds no entry, came with fewer than two connections there, and none under other ids |
| SessionRuns.EntryIsLost | src/main_server.cpp:1170-1245 | two sessions of a user are accepted, two more are refused and end: the table is as before the first of them, a retrieval of the user is not possible, and the close of the first one takes nothing |
| SessionRuns.AcceptedSessionDoesNotAccount | src/main_server.cpp:1170-1245 | in that run, with anybody else connected, an accepted session does not account for itself |
| SessionRuns.SecondSignInIsLeftOver | src/main_server.cpp:1161-1245 | on an empty server, a session that signs in twice, under the same name or another, and ends leaves a connection of the first user |
| SessionRuns.RefusedSessionDropsCopies | src/main_server.cpp:238-243 | a refused session costs a session that goes on its count, and the user everything copied for the second connection and not yet replayed |
| SessionRuns.TweetIsLost | src/main_server.cpp:1170-1245 | a run from an empty server in which the second session of a user gets nothing in place of the tweet kept for it |
| LiveSessions.CountsLiveSessionsIff | src/main_server.cpp:1161-1245 | in every run from the start, with any number of sessions and sign-ins: the count of each user is the number of accepted registrations of the sessions that are there, in all states, if and only if every session that ends takes exactly what it has put there |
| LiveSessions.CountedHasEntries | src/main_server.cpp:201-264 | then every accepted session has its entry, and a user has at most two |
| LiveSessions.RefusedIsFairIff | src/main_server.cpp:1170-1245 | a session that has signed in once ends so if and only if it was accepted or no accepted session of that user is there |
| LiveSessions.UnknownTouchesNobody | src/main_server.cpp:1165-1245 | a session that does not sign in, or only under unknown names, changes the count of no user below 2^32 - 1 |
| LiveSessions.LastCloseIsUndefined | src/main_server.cpp:230-237 | a run from the start with three sessions of one user in which an accepted one comes to close on an empty table |
| Renumbering.RestartIsSafeIff | src/main_server.cpp:334 | the numbering alone, apart from the users that a load adds: with numbering from 0 all legal runs deliver exactly once and in order, to all readers, if and only if nothing is pending |
| Renumbering.RestartAfterRunIsSafeIff | src/main_server.cpp:334 | the same, for every database that a run from an empty server leaves |
| Renumbering.OldTweetIsDeliveredAgain | src/main_server.cpp:859-873 | with tweet number n of an author still stored, the author's next n + 1 posts, whatever they are, lead to a reference that stands for the old tweet |
| Renumbering.RestartKeepsOrderIff | src/main_server.cpp:334 | the numbering alone, apart from the users that a load adds: the invariant of the database survives exactly when nothing is pending |
| Renumbering.NewTweetIsFoundIff | src/main_server.cpp:859-873 | for any database, followers find the new tweet exactly when the author has no other stored tweet with its id |
| Reloading.LoadGivesLoadedDb | src/main_server.cpp:601-636 | what a server saves after any number of loads loads again, unless the leftover id is 0, as the saved lists with the names of `RestartsAddUsers` behind and numbering from 0, which is what the theorems of this module are about |
| Reloading.LoadedIsSafeIff | src/main_server.cpp:601-636 | for the loaded database, with any names behind the lists: all runs in which nobody acts as one of those users, follows one or adds a user deliver exactly once and in order if and only if nothing was pending at the save |
| Reloading.NextLifeIsSafeIff | src/main_server.cpp:1653-1668 | the same for each restart of a series, if nothing was pending at the saves before |
| Reloading.CoreIsSaved | src/main_server.cpp:1653-1668 | the database that these theorems speak of is what the loaded server has at the end of its life, without the names that the loads added |
| Reloading.ExtraFollowerGetsNothing | src/main_server.cpp:590-596 | for every loaded database with a user: a user without lists follows the first user, who posts, and is entitled to the tweet and never gets it |
| Reloading.SurvivingTweetIsDeliveredAgain | src/main_server.cpp:601-636 | a database with one pending tweet that loads back whole and then has a failing run |
| Solo.SoloUpdate | src/main_server.cpp:849-884 | posting as one step is what the step system does with one thread running |
| Solo.SoloFollow | src/main_server.cpp:754-784 | the same for a follow |
| Solo.SoloRetrieve | src/main_server.cpp:937-1015 | the same for a retrieval, result included |
| Solo.GoodIsStart | src/main_server.cpp:754-1015 | the invariant of the atomic model gives a start state of the step system |
| ConnectionManagers.ConnectionManager.RegisterConnection | src/main_server.cpp:201-228 | the two lists stand for a map before and after; a new user gets one connection, a third one is refused |
| ConnectionManagers.ConnectionManager.CloseConnection | src/main_server.cpp:230-264 | from two connections to one with an empty buffer, from one to none; the lists stay aligned across the erase |
| ConnectionManagers.ConnectionManager.GetConnectionIndex | src/main_server.cpp:266-276 | the index at which both lists hold the user's entry of the map, -1 exactly when there is none |
| ConnectionManagers.ConnectionManager.DoesClientHaveTwoConnections | src/main_server.cpp:278-287 | whether the map's count is 2 |
| ConnectionManagers.ConnectionManager.RegisterDuplicateTweet | src/main_server.cpp:289-297 | appends to that user's buffer and changes nothing else of the map |
| ConnectionManagers.ConnectionManager.RetrieveDuplicateTweet | src/main_server.cpp:299-310 | returns the whole buffer in order and leaves it empty, nothing else changed |
| ConnectionManagers.ConnectionManager.DoesClientHaveDuplicateTweets | src/main_server.cpp:312-323 | whether the buffer is non-empty, false for id -1 |
| ConnectionManagers.TableWithout | src/main_server.cpp:246-248 | erasing one index of both lists removes exactly that user from the map |
| StaleIndex.CloseIsClose | src/main_server.cpp:230-264 | the close on the two parallel lists is the close on the map they stand for |
| StaleIndex.RegisterIsRegister | src/main_server.cpp:201-228 | and so is the registration |
| StaleIndex.CloseKeepsIndexIff | src/main_server.cpp:289-310 | an index looked up before a close is still that of the same user if and only if the close takes away no entry at or before it |
| StaleIndex.HarmlessKeepsIndex | src/main_server.cpp:289-310 | the same across any sequence of registrations and closes without such a close |
| StaleIndex.StaleIndexMisdelivers | src/main_server.cpp:289-297 | otherwise the tweet ends up in the buffer of the user behind, in the table that the close leaves |
| StaleIndex.StaleIndexHandsOver | src/main_server.cpp:299-310 | and a retrieval hands over what was kept for the user behind and leaves that user nothing |
| StaleIndex.StaleIndexIsOutOfRange | src/main_server.cpp:289-310 | at the last entry the index is then out of range |
| StaleIndex.TweetIsKeptForAnother | src/main_server.cpp:289-297 | three users, one close, and a tweet for one user kept for another |
| DatabaseManagers.DatabaseManager.GetUserIndex | src/main_server.cpp:641-668 | the first user of that name, -1 exactly when there is none |
| DatabaseManagers.DatabaseManager.AlreadyFollowed | src/main_server.cpp:711-735 | membership in the follower list |
| DatabaseManagers.DatabaseManager.PostFollow | src/main_server.cpp:754-784 | the new follower at the end of that author's list; nothing changes for an unknown name or a repeated follow |
| DatabaseManagers.DatabaseManager.ForwardUpdateToFollowers | src/main_server.cpp:798-826 | one reference for each follower, in list order |
| DatabaseManagers.DatabaseManager.PostUpdate | src/main_server.cpp:849-884 | the whole new database: next id, and store and forward only if there are followers |
| DatabaseManagers.DatabaseManager.UpdateReceivedTweet | src/main_server.cpp:909-935 | exactly one release of the first tweet with that id |
| DatabaseManagers.DatabaseManager.LookUp | src/main_server.cpp:963-988 | the tweets that the references resolve to, in order, missing ones skipped |
| DatabaseManagers.DatabaseManager.RetrieveTweetsFromFollowed | src/main_server.cpp:937-1015 | result, database and connection table all as the service operation of `Delivery` says, duplicate branch included |
| DatabaseManagers.DatabaseManager.DoesClientHavePendingTweets | src/main_server.cpp:690-709 | pending references or buffered duplicates |
| Delivery.IndexOfFirst | src/main_server.cpp:655-668 | where the search loop stops is the index that the specification means |
| Sessions.Session.SignIn | src/main_server.cpp:1161-1193 | also again: the index of the name or -1, the connection registered under it whatever it is, success exactly if known and accepted, shutdown otherwise |
| Sessions.UnknownRegistersNobody | src/main_server.cpp:1165-1172 | a sign-in under an unknown name registers the id 2^32 - 1 and no user below it |
| Sessions.Session.Receive | src/main_server.cpp:1207-1235 | refused before sign-in; FOLLOW and UPDATE at the end of the queue; executed plus queued stays what arrived |
| Sessions.Session.Handle | src/main_server.cpp:1132-1235 | the branches but the sign-in: shutdown is answered and noted, then the refusal with its text, then the queue |
| Sessions.Session.CarryOut | src/main_server.cpp:1480-1545 | one request's effect on the database and one reply with its payload and timestamp |
| Sessions.Session.Speak | src/main_server.cpp:1473-1554 | empties the queue: everything that arrived is executed once in arrival order for the user signed in and answered once |
| Sessions.Session.Listen | src/main_server.cpp:1377-1402 | the result of one retrieval goes out as one notice per tweet, in order, with its payload, its timestamp and the name of its author; database and table as the service operation says |
| Sessions.Session.Send | src/main_server.cpp:1097-1126 | the queue goes to the socket in order; at the first refused message the rest is dropped and the session ends |
| Pipeline.RepliesMatch | src/main_server.cpp:1491-1498 | the k-th reply is an ACK with the k-th request's payload and timestamp, and there is one for each |
| Pipeline.RequestsNext | src/main_server.cpp:1223-1235 | FOLLOW and UPDATE packets are requests, others are not, and requests stay in order |
| Pipeline.NoticesMatch | src/main_server.cpp:1386-1397 | the k-th notice is an UPDATE with the k-th tweet's payload and timestamp and the name of its author |
| Pipeline.FollowIsCarriedOut | src/main_server.cpp:1481-1484 | a FOLLOW enters the session's user with the first user of that name, once |
| Pipeline.UpdateIsCarriedOut | src/main_server.cpp:1512-1521 | an UPDATE becomes pending for exactly the followers, with the next number and the packet's payload and timestamp |
| Pipeline.UpdatesReachFollower | src/main_server.cpp:1479-1546 | a queue of updates becomes pending for a follower as that many tweets, numbered in order of arrival, each with its packet's payload and timestamp |
| Pipeline.KeepsRequests | src/main_server.cpp:1479-1546 | the follows and updates in a session's history are exactly the executed requests, after every emptying of the queue |
| Pipeline.KeepsAuthors | src/main_server.cpp:1389-1395 | whatever a session has done, the author of each tweet that the next retrieval yields is a user, so that its name can be looked up |
| Pipeline.ExecuteAllGood | src/main_server.cpp:1479-1546 | any sequence of requests keeps the database in order |
| Pipeline.RequestsAreOperations | src/main_server.cpp:1479-1546 | what the speaker does is a legal run of the service, so the theorems about runs apply to it |
| Pipeline.RequestsReachFollowers | src/main_server.cpp:1479-1546 | a client's tweets become pending for exactly the followers it has when each is executed, once and in arrival order |
| Codec.PendingRoundTrip | src/main_server.cpp:157-167 | a printed reference reads back and the rest is untouched |
| Codec.TweetRoundTrip | src/main_server.cpp:91-113 | the same for a tweet with any 256 payload bytes |
| Codec.UserRoundTripIff | src/main_server.cpp:60-77 | the same for a user if and only if the name is non-empty and does not start with a digit |
| Codec.ReadIntOfPrint | src/main_server.cpp:561 | every 32-bit number reads back if no digit follows it |
| Codec.ReadTooLarge | src/main_server.cpp:561 | a number that the variable cannot hold fails, at exactly these bounds |
| Codec.ReadSigned | src/main_server.cpp:150-167 | a sign is read; behind a minus an unsigned number is taken modulo its range |
| Codec.SpaceCharacters | src/main_server.cpp:460 | the white space that an extraction skips |
| Codec.CutShortRecords | src/main_server.cpp:66-77 | what a record cut short by the end of the file leaves, by where it is cut |
| Persistence.FollowersRoundTrip | src/main_server.cpp:520-571 | loading the saved follower lists gives back exactly those lists |
| Persistence.SaveListOfFollowers | src/main_server.cpp:548-571 | the loops write the text that the round trip is about |
| Persistence.LoadListOfFollowers | src/main_server.cpp:520-546 | the loops read what the round trip is about, for any text |
| Persistence.UsersFileIff | src/main_server.cpp:573-599 | loading the saved users gives them back plus one blank record if and only if every name is readable |
| Persistence.SaveListOfUsers | src/main_server.cpp:573-583 | the loop writes the text that `UsersFileIff` is about |
| Persistence.LoadListOfUsers | src/main_server.cpp:585-599 | the `eof` loop reads what `UsersFileIff` is about, for any text, records cut short by its end included, or never ends |
| Persistence.RowsFileRoundTripIff | src/main_server.cpp:420-518 | the pending or received file gives back what was saved if and only if it holds at most one record, of one of the last two users |
| Persistence.NextRecordIsLost | src/main_server.cpp:460 | a record whose first digit was taken as the separator is never read as itself |
| Persistence.MissingCount | src/main_server.cpp:448-458 | where a count is missing it is 0 and the stream has failed |
| Persistence.SaveRows | src/main_server.cpp:470-490 | the loops of both files write the text that `RowsFileRoundTripIff` is about |
| Persistence.LoadRows | src/main_server.cpp:492-518 | the loops of both files read what `RowsFileRoundTripIff` is about, for any text |
| Restart.SaveDatabase | src/main_server.cpp:601-615 | all four files of a database |
| Restart.ListsEntryByEntry | src/main_server.cpp:420-583 | what is saved, entry by entry: each user with its index, each follower list, each reference and each tweet at its place |
| Restart.RecordsAsText | src/main_server.cpp:91-161 | a reference is written as id, then author; a tweet as author, id, timestamp, payload and remaining recipients |
| Restart.LoadDatabase | src/main_server.cpp:617-636 | all four lists of the files |
| Restart.DatabaseRoundTripIff | src/main_server.cpp:601-636 | a saved database loads back, with one blank user more, if and only if names are readable and both row files survive |
| Restart.DatabaseComesBack | src/main_server.cpp:601-636 | then the loaded database is the saved one with a blank name more and numbering from 0 |
| Restart.BlankReadsAs | src/main_server.cpp:66-77 | a blank record with a leftover id is read as a name of that many characters, a dot and NULs, and with id 0 the load never ends |
| Restart.RestartsAddUsers | src/main_server.cpp:1653-1668 | over any number of restarts, every load ends if and only if no second one of two meets the leftover id 0, and then the users are those saved first and one more for every two restarts begun, each of them given outright |
| Restart.ShippedFile | listOfUsers.txt:1 | the users file of the repository is that of its four users after four restarts |
| Restart.ShippedFollowers | listOfFollowers.txt:1 | the follower file of the repository is that of the same users, two of them followed |
| Restart.BlankUserIsOutOfRange | src/main_server.cpp:590-596 | after a load the empty name is found, at an index that the follower lists do not have |

## Left out

- Sockets, `poll`, partial sends, process start and shutdown, console output, and the client programs.
- Wall-clock time: a timed wait may end at any moment; timestamps are opaque values.
- `Sessions` takes what happens under the mutex of a session's queue as one step; the mutexes themselves are locks of `LockOrder`.
- Each `connectionManager` method is one step in its class; `StaleIndex` says what happens when other sessions come between the lookup of an index and its use, and in `Scripts` these are two sections.
- Machine integers other than `numRecipientsRemaining` (which wraps) and the sizes in the codecs are unbounded: fewer than 2^31 tweets, user ids below 2^32 - 1.
- Calls with client index -1, `closeConnection` on an empty table, acting as a user without lists or following one, and payloads longer than the packet's buffer are excluded by preconditions, as the code has no defined behaviour for them.
- `_handleLateFollow` has no body, `_clearUsersPendingTweets` is never called.
- Sessions.Session.Speak: other sessions do not change the database or the connection table in between; `Pipeline` and `Delivery` state the same for any mix of operations.
- Sessions.Session.Handle: the end of a session, whose close is an operation of `Delivery`, `SessionRuns` and `LiveSessions`.
- Interleaving.ConservationStep: the duplicate branch of a retrieval and `addUser` are not steps of the interleaved model; neither touches a counter or a reference.
- Persistence.LoadListOfUsers: a text on which the loop never ends is None; that there is memory for a name of the length read is taken for granted.
- Persistence.LoadRows: reading a field after the stream has failed leaves the variable unset in the source; the model then gives None.
- The real text files on disk: a file is its text, and opening it does not fail.
- Fairness: `LockRuns.OperationsComplete` needs none, because waiting takes no moves and an operation is called with the number of its timed waits; with new calls coming in for ever a reader of LOPT may wait for ever, as the protocol intends.
