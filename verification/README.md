# A verified model of the ticket cluster

The repository is a small distributed ticket system: one node per branch, a lock arbiter with a FIFO
queue, majority-vote commits, a reverse Bully election, a heartbeat failure detector, and a database of
which every node keeps the rows of its own branch.  This project models these parts in Dafny and proves
what they promise, each by itself and together: that no two tickets get the same engineer at once.

Check everything with `dafny verify dfyconfig.toml`.

## How it is modelled

Every engine is a class whose methods are the critical sections of the source, each proved against a
function on the engine's state.  The cluster is a transition system that uses the same functions, or, in
Consensus and Query, is shown by lemmas to agree with them: one step is one critical section, one delivery,
one timer, one waking goroutine or one crash, and messages are a multiset.  A theorem about "every run" is
about every sequence of enabled steps, hence about every interleaving, delay, loss and reordering.  What each
step does is also stated apart from the functions that define it, field by field (InsertStoresRequest,
BeginStartsIff, RequestIsAnswered and the like), or as a law of all runs (CommitIsAppliedOrComing,
ReadIsWhatNodesRead).

| module | part of the system |
|---|---|
| LockEngine, LockCluster, LockGrants | `internal/mutex/mutex.go`: holder, queue, channels; FIFO order; mutual exclusion; who is told |
| LockSteps | what single steps of the lock do and leave alone; late grants |
| LockPaths, LockLoss | how a lock is got and given up, step by step; when it is lost |
| Booking, BookingRelease | raising and closing tickets over lock, reads and commits; when that never books an engineer twice |
| BookingTickets | what is in a ticket's row, from the request to the end of any run |
| BookingRuns, BookingLimits, BookingCloses, BookingRequests, BookingMoves | where it does: what a state can lead to, and the exact conditions for releases, closes and reassignments |
| BookingMarks, BookingExamples | whether a freed engineer stays available; runs from the first state to every failure |
| Election, ElectionCluster, ElectionSteps, ElectionSafety, ElectionConvergence, ElectionAgreement | `internal/election/election.go`: quiescence, who wins, failover |
| Consensus | `internal/consensus/consensus.go`: quorums, wake-ups, retries |
| ConsensusRuns, ConsensusProgress | where votes and commits come from and get to; when a round can still be committed |
| Database, Sharding | `internal/db/db.go` and the commit handler in `cmd/main.go`: shards against one database |
| Query, QueryRuns, QueryProgress | `ListAll` and its collector; whose rows a read shows; when it can still be complete |
| Heartbeat | `internal/heartbeat/heartbeat.go` |
| NodeState | `internal/nodestate/state.go` |
| IdAllocation, IdCounter, Seed | row IDs, the counter behind them, `internal/db/seed.go` |
| Devices, Redistribution | `distributeDevice`, `RedistributeTickets` |
| History | `pkg/msgstore/store.go` |
| Common, Paths | an Option type, facts about finite sets; paths of a transition system |

Assumptions, made where they are used: node IDs and names are distinct; request, round and query IDs are
fresh; a message is delivered at most once, in any order (`pkg/hub/hub.go:105` dispatches each in a
goroutine of its own); no node restarts.  A failed send delivers nothing, and a message that is lost is one
that is never delivered.

## Findings

What the source's comments promise and its code does not keep is stated as a theorem of its own.

- **Double booking** (`internal/dispatcher/dispatcher.go:26-27`).  `raiseTicket` releases the lock when the
  COMMIT that marks the engineer unavailable has been sent, not when it has arrived, and also when that
  proposal failed.  Two branches that each raise a ticket, with no failure at all, can book one engineer twice
  (`BookingExamples.DoubleBookingHappens`).  Whether a release is safe depends on two things only, whichever
  branch releases and whoever waits: the engineer is unavailable at his own branch by then, or the next in the
  queue has given up, so that nobody gets the lock again (`BookingLimits.ReleaseGuardIsExact`).  When every
  release waits for the former, closes name a booked ticket once and under its engineer, nothing is reassigned
  and the master stays, nobody is booked twice: `Booking.OrderlyRunsNeverDoubleBook`.  Such runs are called
  orderly.  A raise meets the condition when it waits until its mark has been applied at the engineer's branch:
  `BookingRelease.PunctualRunsNeverDoubleBook`.
- **A close in flight.**  A close is applied at each node in its own time.  If it reaches the engineer's branch
  before the ticket's, he can be booked again while the old ticket is still open
  (`BookingExamples.CloseInFlight`, an orderly run); if it reaches the ticket's first, he cannot, and that is
  the exact condition (`BookingCloses.CloseAtEngineerIsExact`).  This is why the theorem leaves out tickets
  whose close has freed their engineer.
- **Closing twice** frees an engineer who may be busy with another ticket by then.  What the caller sees is not
  enough to avoid it: a ticket may be open and its row name the engineer, and yet its close be unsafe, because
  an earlier one is still on its way.  That happens within one call, when `Propose` repeats a CLOSE_TICKET
  whose COMMIT has gone out and whose own handler has failed (`internal/consensus/consensus.go:66-86`,
  `BookingExamples.RetriedCloseIsUnsafe`).  And a second close from another branch is unsafe even when nobody
  has the engineer, for it may arrive after he has been booked (`BookingExamples.LateSecondCloseIsUnsafe`).
  `BookingRequests.CloseIsExact` says for every request when it is safe: it does not get to the engineer's
  branch; or the ticket keeps him busy and no other close of it is under way to his branch; or it is applied
  there at once and he has no ticket that is open or could still free him, other than one whose raise is at
  work; or it has to travel and he cannot be booked before it arrives.
- **A mark can arrive after the close**, and then the engineer is unavailable for good although he has no
  ticket (`BookingExamples.LateMarkIsForGood`), against `internal/service/ticket_service.go:289-290`.  A close
  leaves him available if and only if no mark of him is under way and none can come any more
  (`BookingMarks.CloseFreesIff`).
- **Reassigning** takes no lock and leaves the new engineer available: every proposal that
  `RedistributeTickets` makes and that gets to its branch is unsafe (`BookingMoves.EveryReassignmentIsUnsafe`,
  with a run in `BookingExamples.ReassignmentIsUnsafe`), and it duplicates the ticket
  (`Sharding.ReassignDuplicates`).
- **A dead node's tickets are not recovered**: only the node itself holds them
  (`Redistribution.SilentNodeKeepsItsTickets`).
- **Stale election timers.**  Even when every timer waits for all answers, a timer of an answered election
  that fires right after the next one has begun elects the wrong node
  (`ElectionSafety.StaleTimerElectsTheWrongNode`), and this is the only way (`ElectionSafety.WrongVictoryIff`).
- **Messages of the time before can spoil a failover.**  An old COORDINATOR can come last and leave its receiver
  with the wrong master; an OK of a dead node can make the lowest live node step down after all others have
  (`ElectionAgreement.LateOkHappens`).  A failover must end in agreement if and only if neither is under way,
  or, as for the OK, the lowest node has as good as won: `ElectionAgreement.FailoverAgreesIff`.
- **The lock can be lost for good.**  A request that timed out in the queue still becomes holder and nobody
  releases it (`LockLoss.LostByTimeout`); and a release that goes to whoever is master by then never reaches
  the node that gave the lock (`LockLoss.LostByNewMaster`, without any timeout).  When exactly a lock is lost
  is `LockLoss.LockLostIff`, and that it stays lost `LockLoss.LostForever`.
- **A grant can be lost**: a local caller registers its channel after it has queued itself, and a LOCK_GRANT
  that arrives in between is dropped, so that it waits for a lock it already has.  This is the only way to
  lose one (`LockGrants.GrantLostIff`), and two callers on one node are enough
  (`LockGrants.GrantIsLostInTheGap`).
- **Query tags** survive splitting only for query IDs without a bar, which is what the code generates
  (`Query.TagRoundTrip`).
- **History is cut short by a long entry.**  A store is read back with a scanner whose lines are limited to
  64 KiB (`pkg/msgstore/store.go:63-76`), while the hub takes messages of up to 1 MiB
  (`pkg/hub/hub.go:127-128`) and saves them.  At the first longer line the scan ends without an error, and
  that entry and all later ones are missing from memory (`History.OverlongEntryHidesLaterOnes`).  A reopened
  window is the end of the log if and only if there is no such line (`History.ReopenedWindowIff`).

## Model

| member | source | states |
|---|---|---|
| Booking.FirstAvailable | internal/service/ticket_service.go:236-243 | the row found is the first available one of those collected; nothing is found only when no row is available |
| Booking.PickAvailable | internal/service/ticket_service.go:236-243 | the loop returns the first available row, or none |
| Booking.OneActive | internal/service/ticket_service.go:223-228 | with an unchanging master at most one raise in the whole cluster is between lock and release |
| Booking.StepMoves | internal/mutex/mutex.go:98-259 | no step of the lock takes it from a raise that has it: only its own release ends it |
| Booking.BookedIsUnavailable | internal/service/ticket_service.go:236-243 | while the lock holder has chosen and not yet inserted, the engineer of every live ticket is unavailable at his shard |
| Booking.AvailableIsFree | internal/service/ticket_service.go:230-243 | an engineer that a shard reports as available to the holder of the lock has no live ticket |
| Booking.ReadKeeps | internal/service/ticket_service.go:230-234 | reading a shard keeps the booking invariant: every available row read is of a free engineer |
| Booking.ChooseKeeps | internal/service/ticket_service.go:236-246 | choosing keeps it: the chosen engineer is free |
| Booking.InsertKeeps | internal/service/ticket_service.go:248-262 | INSERT_TICKET keeps it: the only live ticket of the engineer is the new one, covered by the lock until the mark |
| Booking.InsertFailedKeeps | internal/service/ticket_service.go:260-262 | an insert that is not applied at the raising node keeps it too, whoever got its COMMIT: no other branch takes the row |
| Booking.NoteKeeps | internal/service/ticket_service.go:264-275 | UPDATE_TICKET_FOLIO keeps the invariant |
| Booking.MarkKeeps | internal/service/ticket_service.go:277-282 | UPDATE_INGENIERO_DISPONIBLE keeps it, whether its proposal is applied here, reaches some peers or none |
| Booking.FinishKeeps | internal/service/ticket_service.go:224-228 | releasing keeps it provided the engineer is unavailable at his shard by then, or the ticket has been closed there |
| Booking.CloseKeeps | internal/service/ticket_service.go:291-299 | a close, by any node and whatever it reaches, keeps it unless it gets to the engineer's branch without being due: a ticket that keeps him busy, with no other close of it on its way there |
| Booking.ArriveKeeps | cmd/main.go:177-259 | a COMMIT that reaches a node at any time, in any order, keeps it |
| Booking.CommittedKeeps | internal/consensus/consensus.go:141-149 | broadcasting a commit to any peers and applying it or not keeps it, for every operation that frees nobody and every close that is due |
| Booking.LockStepKeeps | internal/mutex/mutex.go:98-259 | every other step of the lock (arrivals, grants, timeouts, messages) keeps it |
| Booking.StepKeeps | internal/service/ticket_service.go:223-299 | every orderly step of the whole system keeps the booking invariant |
| Booking.InvAlways | internal/service/ticket_service.go:223-299 | so does every orderly run |
| Booking.OrderlyRunsNeverDoubleBook | internal/dispatcher/dispatcher.go:26-27 | in every orderly run, from any number of branches and in any interleaving, no engineer has two open tickets, not counting tickets whose close has freed their engineer at his branch and not yet reached their own shard |
| Booking.NoTwoOpenTickets | internal/service/ticket_service.go:217-228 | once every close that has freed an engineer has reached its ticket's shard, any two open tickets of any two branches have different engineers |
| BookingTickets.InsertStoresRequest | internal/service/ticket_service.go:248-262 | once INSERT_TICKET is applied, the raising branch has under the new ID a row of the request's user and device, the chosen engineer, this branch, open, created at the given time; nothing else changes but what is on record of the raise and one COMMIT of that row to each target |
| BookingTickets.FailedInsertOnlySends | internal/service/ticket_service.go:260-262 | an insert that is not applied here leaves everything but the messages as it was |
| BookingTickets.NoteStoresFolio | internal/service/ticket_service.go:264-275 | the folio goes to the raise's own ticket, if it is in this shard, and to nothing else |
| BookingTickets.MarkStoresZero | internal/service/ticket_service.go:277-282 | the mark goes to the raise's own engineer, if he is in this shard, and to nothing else |
| BookingTickets.CloseStoresClosed | internal/service/ticket_service.go:291-299 | a close that is applied closes and stamps the ticket it names and frees the engineer it names, where they are in this shard, and goes out to each target once |
| BookingTickets.ArrivalIsApplied | cmd/main.go:177-259 | a COMMIT that arrives is applied to the shard of its receiver, to no other, and is then gone |
| BookingTickets.ProposedRowIsCommitted | internal/service/ticket_service.go:108-113 | the registration of an engineer and a reassignment commit the row that they carry, here if applied and to each target |
| BookingTickets.OtherStepsTouchNoShard | internal/service/ticket_service.go:223-246 | what a raise reads, chooses, abandons or gives back touches no shard and no message |
| BookingTickets.ChosenIsFirstAvailable | internal/service/ticket_service.go:230-246 | in every run, whoever a raise has chosen is the first engineer called available in all the rows that it has read, in the order in which it has read them |
| BookingTickets.RaiseStaysOnTicket | internal/service/ticket_service.go:248-287 | in every run, a raise that has inserted a ticket stays with that ticket and that engineer |
| BookingTickets.RowStep | cmd/main.go:210-247 | a step closes a ticket if and only if it applies a close of it where the ticket is, gives it a folio if and only if it applies one there, and changes nothing else of it |
| BookingTickets.TicketIsAsRequested | internal/service/ticket_service.go:217-299 | in every run without reassignments, orderly or not, a ticket stays at the branch that raised it, and nowhere else, with the user and the device of the request, its time and its engineer, who is the first one called available in what the request had read; it is closed if and only if a close of it has been applied there since, and its folio and closing time are the last ones applied there |
| BookingTickets.AbandonedGivesLockBack | internal/service/ticket_service.go:223-246 | a raise that has not inserted anything can be abandoned and can then release the lock |
| BookingTickets.BranchCanHire | internal/service/ticket_service.go:106-113 | a branch can register an engineer at any time, who is available there if he is new |
| BookingLimits.ReleaseGuardIsExact | internal/service/ticket_service.go:277-286 | a raise of any branch, with any requests queued, is over and its ticket open: to release now is safe for all orderly continuations if and only if the engineer is unavailable at his own shard already, or the head of the queue has given up, so that nobody gets the lock again; the code checks neither |
| BookingLimits.RunsAreInRun | internal/service/ticket_service.go:223-299 | at every moment of every orderly run: the booking invariant, a lock in order, every ticket open where it is kept until a close of it has been committed |
| BookingLimits.DeadIsSafe | internal/mutex/mutex.go:119-150 | once the lock is lost, or released to a request that has given up, no orderly run books anybody any more |
| BookingRuns.FreshRaise | internal/mutex/mutex.go:98-150 | as long as the lock is not lost and does not go to a request that has given up, orderly steps lead to another raise, without touching a given engineer that the present raise does not work for |
| BookingRuns.RaiseEnds | internal/service/ticket_service.go:223-287 | whatever a raise has done so far, orderly steps bring it to where it may release |
| BookingRuns.StaleIsBookedAgain | internal/service/ticket_service.go:230-262 | an engineer who looks available although he has an open ticket is booked again in some orderly run |
| BookingCloses.CloseAtEngineerIsExact | internal/service/ticket_service.go:291-299 | a close is applied at the engineer's branch: he never has another ticket open beside the old one, in any orderly continuation, if and only if the old one is no longer open in its own shard by then |
| BookingRequests.CloseIsExact | internal/service/ticket_service.go:291-299 | a request to close any ticket ID under any engineer, by any node, first or repeated, at any moment of an orderly run, whatever its COMMIT reaches: no orderly continuation books anybody twice if and only if MayClose holds, which asks for the tickets, closes, marks and raises of that engineer there and then |
| BookingRequests.LateCloseIsExact | cmd/main.go:235-247 | the same for the COMMIT of a close that is not of a ticket of his, at the moment of its arrival |
| BookingRequests.RepeatedIsUnsafe | internal/consensus/consensus.go:66-86 | to close a ticket again while the first close is on its way to the engineer's branch is unsafe, though the ticket is open and his |
| BookingRequests.AgainIsSafe | cmd/main.go:235-247 | the engineer's branch may apply a close of what is not his ticket if he has none, or only one whose raise still has the lock or that can never free him |
| BookingRequests.StrayIsSafe | cmd/main.go:235-247 | such a close may be on its way to him if he has a ticket that can never free him, or is out of service for good |
| BookingRequests.StrayIsUnsafe | cmd/main.go:235-247 | and is unsafe in every other case: he is available, unknown yet, read first or chosen by the raise at work, or has a ticket that is open or will free him |
| BookingRequests.LiveOrOpen | internal/service/ticket_service.go:291-299 | in every orderly run a ticket that keeps its engineer busy is open or being closed, and an open one is its row's engineer's unless its close has freed him |
| BookingMarks.CloseFreesIff | internal/service/ticket_service.go:289-299 | a close is applied at the engineer's branch: he stays available until booked again, in every orderly continuation, if and only if no mark of him is under way and no raise that booked him is still at work |
| BookingMarks.BlockedForGood | internal/service/ticket_service.go:277-282 | an engineer without a ticket who is unavailable and whom no raise is about to book is never available again in any orderly run |
| BookingMarks.LateMarkBlocks | internal/service/ticket_service.go:277-282 | a mark that arrives when nobody has him or is about to book him puts him there |
| BookingMoves.ProposedMoves | internal/service/ticket_service.go:332-352 | every proposal of RedistributeTickets is for an open ticket of one branch and an engineer of another who is available at his shard |
| BookingMoves.EveryReassignmentIsUnsafe | internal/service/ticket_service.go:303-354 | every proposal of RedistributeTickets that gets to its new branch is unsafe: some orderly continuation has its engineer booked twice |
| BookingExamples.DoubleBookingHappens | internal/service/ticket_service.go:277-286 | a run from the first state, two raises from two branches, with no failure, close, reassignment or change of master, that double-books: the lock is released before the mark's COMMIT reaches the engineer's branch |
| BookingExamples.CloseInFlight | internal/service/ticket_service.go:291-299 | an orderly run from the first state in which an engineer has two open tickets, because a close has reached his branch and not the ticket's |
| BookingExamples.SecondCloseIsUnsafe | internal/service/ticket_service.go:291-299 | an orderly run from the first state to a ticket that is closed while its engineer has another: closing it once more is unsafe |
| BookingExamples.RetriedCloseIsUnsafe | internal/consensus/consensus.go:66-86 | an orderly run from the first state to a ticket that is open and its engineer's own, and unsafe to close, because a first attempt has sent its COMMIT |
| BookingExamples.LateSecondCloseIsUnsafe | internal/service/ticket_service.go:291-299 | an orderly run from the first state to a closed ticket of a free engineer that another branch cannot safely close again |
| BookingExamples.LateMarkIsForGood | internal/service/ticket_service.go:277-282 | an orderly run from the first state in which the mark arrives after the close and the engineer is unavailable for good |
| BookingExamples.ReassignmentIsUnsafe | internal/service/ticket_service.go:303-354 | an orderly run from the first state to a reassignment that RedistributeTickets proposes and that is unsafe |
| BookingRelease.MarkTakesHold | internal/service/ticket_service.go:277-282 | the raise's last commit, applied at its engineer's branch by the raiser itself or on arrival, makes the engineer unavailable there |
| BookingRelease.MarkedStays | internal/service/ticket_service.go:277-287 | nothing any node does before the release makes him available again, unless the ticket itself is closed |
| BookingRelease.ActiveBefore | internal/mutex/mutex.go:98-150 | a raise that has released the lock never has it again |
| BookingRelease.PunctualRunsAreOrderly | internal/service/ticket_service.go:277-287 | runs in which every raise's mark has been applied at its engineer's branch before the release are orderly |
| BookingRelease.PunctualRunsNeverDoubleBook | internal/dispatcher/dispatcher.go:26-27 | in every such run no engineer is booked twice, in the same sense |
| LockEngine.Engine.AcquireLocal | internal/mutex/mutex.go:98-109 | takes a free lock, else joins the end of the queue |
| LockEngine.Engine.RegisterChannel | internal/mutex/mutex.go:111-114 | registers the caller's channel and touches nothing else |
| LockEngine.Engine.ForgetChannel | internal/mutex/mutex.go:191-194 | the caller's channel is no longer registered, and nothing else changes |
| LockEngine.Engine.Receive | internal/mutex/mutex.go:116-118 | takes one grant out of the caller's channel if there is one |
| LockEngine.Engine.ReleaseLocal | internal/mutex/mutex.go:126-150 | the head of the queue becomes the holder and gets one grant, in its channel when that is registered, which it is not afterwards, else by LOCK_GRANT to the node it came from; with an empty queue the lock is free; a release by anybody but the holder changes nothing |
| LockEngine.Engine.HandleLockRequest | internal/mutex/mutex.go:203-228 | a free lock is taken and LOCK_GRANT returned for the sender, else the request joins the end of the queue and LOCK_DENY is returned |
| LockEngine.Engine.HandleLockGrant | internal/mutex/mutex.go:232-243 | a grant goes into the channel of its request, and is dropped when that is not registered |
| LockEngine.Engine.HandleLockRelease | internal/mutex/mutex.go:253-259 | same as a local release |
| LockEngine.ArrivalKeepsOrder | internal/mutex/mutex.go:203-228 | an arrival extends holders-then-queue by itself at the end |
| LockEngine.ReleaseKeepsOrder | internal/mutex/mutex.go:126-150 | a release changes neither the order nor the arrivals; the head of the queue is next, and an ineffective release changes nothing |
| LockEngine.FifoOwnership | internal/mutex/mutex.go:98-150 | after any arrivals and releases, holders so far followed by the queue are the arrivals in order, a free lock has no queue, and ownership has changed once per effective release |
| LockEngine.TurnComesAfterExactly | internal/mutex/mutex.go:126-150 | the request at index k of the queue is holder if and only if exactly k+1 effective releases have happened since, whether or not anybody still waits |
| LockCluster.StartLocalKeeps | internal/mutex/mutex.go:98-109 | a local acquire keeps the lock invariant |
| LockCluster.RegisterLocalKeeps | internal/mutex/mutex.go:111-114 | so does registering the channel afterwards, even if the grant was sent in between |
| LockCluster.StartRemoteKeeps | internal/mutex/mutex.go:155-174 | a remote acquire keeps it, whether or not its request could be sent |
| LockCluster.WakeKeeps | internal/mutex/mutex.go:116-118 | a caller that takes its grant keeps it and becomes the one holder of its arbiter |
| LockCluster.GiveUpKeeps | internal/mutex/mutex.go:119-121 | timeouts and cancellations keep it, though the request stays in the queue |
| LockCluster.PassOnKeeps | internal/mutex/mutex.go:126-150 | a release hands the arbiter to the head of the queue with exactly one grant, by channel or by message |
| LockCluster.LetGoKeeps | internal/mutex/mutex.go:182-189 | a remote release that goes to whoever is master now keeps it |
| LockCluster.DeliverRequestKeeps | internal/mutex/mutex.go:203-228 | so does a request that arrives at any time |
| LockCluster.DeliverGrantKeeps | internal/mutex/mutex.go:232-243 | and a grant that arrives at any time, even for a request that has timed out |
| LockCluster.ChangeMasterKeeps | internal/nodestate/state.go:111-115 | and any change of any node's idea of the master |
| LockCluster.StepKeeps | internal/mutex/mutex.go:98-259 | every step of the cluster keeps the lock invariant |
| LockCluster.InvAlways | internal/mutex/mutex.go:98-259 | so does every run |
| LockCluster.MutualExclusionPerArbiter | internal/mutex/mutex.go:98-259 | in every run, of the requests granted by one node at most one is between acquire and release, and that node keeps the lock for it; with any timeouts, delays, losses and changes of master |
| LockCluster.MutualExclusion | internal/mutex/mutex.go:60-61 | while the master does not change, at most one request in the whole cluster has the lock |
| LockCluster.GrantNeverBlocks | internal/mutex/mutex.go:137-141 | in every run, no queued request and no LOCK_GRANT on its way finds a token in its channel of capacity one: neither a local release nor a message handler blocks on it |
| LockCluster.RunArbitrates | internal/mutex/mutex.go:98-259 | in every run an arbiter goes through exactly the arrivals and releases that reach it |
| LockCluster.FifoInEveryRun | internal/mutex/mutex.go:98-259 | FIFO ownership holds at every node in every run |
| LockCluster.TurnInEveryRun | internal/mutex/mutex.go:126-150 | in every run the request at index k of a node's queue is its holder later on if and only if exactly k+1 effective releases have reached the node since |
| LockSteps.RemoteRequestAsksMaster | internal/mutex/mutex.go:155-174 | a request that goes out asks the node's present idea of the master once, its channel registered by then; one that could not be sent leaves only a failed attempt |
| LockSteps.RequestIsAnswered | internal/mutex/mutex.go:203-228 | every request that arrives is answered with exactly one message to the node that asked: LOCK_GRANT when the lock was free and is now its own, LOCK_DENY when it is at the end of the queue |
| LockSteps.DenyChangesNothing | internal/mutex/mutex.go:247-249 | LOCK_DENY changes nothing at its receiver |
| LockSteps.RemoteReleaseGoesToMaster | internal/mutex/mutex.go:181-189 | a remote release sends one LOCK_RELEASE to whoever is master by then, if configured, and changes no engine |
| LockSteps.WakingTakesTheGrant | internal/mutex/mutex.go:116-118 | a caller is woken by the one grant in its channel, which is gone afterwards |
| LockSteps.GivingUpForgets | internal/mutex/mutex.go:190-197 | a caller that gives up has failed and that is all, but for a remote one that timed out, whose channel is no longer registered |
| LockSteps.LateGrantIsDropped | internal/mutex/mutex.go:190-194 | the grant of a remote request that timed out is dropped, however late it comes and whatever happens in the meantime |
| LockSteps.MessagesCanArrive | internal/mutex/mutex.go:203-259 | whatever is on its way in any run can arrive |
| LockSteps.AnybodyMayAsk | internal/mutex/mutex.go:90-96 | a node can always ask for the lock, of itself when it takes itself for the master, else of whom it takes for it, and who waits can give up |
| LockPaths.GetsTheLock | internal/mutex/mutex.go:116-118 | a waiting caller whose grant is in its channel or on the network gets the lock by steps at which nobody gives up |
| LockPaths.NextHolder | internal/mutex/mutex.go:98-150 | a lock that is free, or on its way to a request that still waits, is got by some request by such steps, and no other request moves |
| LockLoss.LostForever | internal/mutex/mutex.go:119-121 | once a node's lock is with a request that cannot let go of it, it stays with it, whatever happens |
| LockLoss.LockLostIff | internal/mutex/mutex.go:98-259 | at every moment of every run, the lock's holder can still be replaced if and only if it is between acquire and release, or waits with a grant coming, or its LOCK_RELEASE is on the way to that node |
| LockLoss.LostByTimeout | internal/mutex/mutex.go:119-121 | a run from the first state that loses the lock: a request times out in the queue and becomes holder afterwards |
| LockLoss.LostByNewMaster | internal/mutex/mutex.go:182-189 | another, without timeout or lost message: a release goes to whoever is master by then |
| LockGrants.PassOnGrants | internal/mutex/mutex.go:132-148 | the request that a release makes holder has exactly then a grant, in its channel or on the network |
| LockGrants.StepFine | internal/mutex/mutex.go:98-259 | every step keeps waiting callers registered, and holders that wait provided with a grant, except for a LOCK_GRANT that arrives between queueing and registering |
| LockGrants.WaitingHolderIsTold | internal/mutex/mutex.go:116-118 | in every run without that exception, a caller that waits for a lock it already has can take its grant, or can once the one on the network is delivered |
| LockGrants.GrantLostIff | internal/mutex/mutex.go:111-114 | at every moment of every run, whatever grants were lost before: the delivery of a grant leaves its waiting holder without one if and only if it comes between queueing and registering |
| LockGrants.GrantIsLostInTheGap | internal/mutex/mutex.go:108-118 | a concrete run of two local callers in which that happens |
| NodeState.State.constructor | internal/nodestate/state.go:22-28 | at first every configured node counts as alive |
| NodeState.State.Peers | internal/nodestate/state.go:43-53 | the nodes of PeersOf, in order; PeersExact says which these are |
| NodeState.PeersExact | internal/nodestate/state.go:43-53 | exactly the other nodes, each once |
| NodeState.State.AlivePeers | internal/nodestate/state.go:57-67 | the peers marked alive, in order |
| NodeState.State.MarkAlive | internal/nodestate/state.go:83-87 | adds a node to the live ones |
| NodeState.State.MarkDead | internal/nodestate/state.go:90-94 | takes it out |
| NodeState.State.SetMasterID | internal/nodestate/state.go:111-115 | changes the master and nothing else |
| NodeState.State.GetMasterNode | internal/nodestate/state.go:125-136 | a configured node with the master's ID, if and only if there is one |
| NodeState.State.NodeByName | internal/nodestate/state.go:139-149 | a configured node with the name, if and only if there is one |
| NodeState.AlivePeersExact | internal/nodestate/state.go:57-67 | exactly the peers marked alive, each once |
| Election.LowerExact | internal/election/election.go:168-176 | exactly the peers with a lower ID |
| Election.Engine.Enter | internal/election/election.go:43-51 | goes on if and only if no election was running; the flag is set and the timer left alone |
| Election.Engine.LowerNodes | internal/election/election.go:168-176 | the live peers with a lower ID, in order |
| Election.Engine.DeclareVictory | internal/election/election.go:93-101 | ends the election, names the timer to stop, and makes this node master |
| Election.Engine.HandleElection | internal/election/election.go:112-134 | answers and starts an election for a higher candidate only; the reply goes to the sender if it is configured |
| Election.Engine.HandleElectionOK | internal/election/election.go:138-148 | ends the election and names the timer to stop |
| Election.Engine.HandleCoordinator | internal/election/election.go:152-164 | takes the announced node for master |
| ElectionCluster.OnlyLastTimerStops | internal/election/election.go:93-99 | the end of an election stops a timer if and only if its engine armed it last and its callback has not fired yet to wait for the mutex |
| ElectionCluster.ArmedTimerIsLast | internal/election/election.go:69-79 | arming replaces the last timer without stopping it: nothing stops it any more |
| ElectionCluster.FireDeclaresIff | internal/election/election.go:70-78 | a timer leads to a declaration if and only if an election is running at its node by then, whichever it was armed for |
| ElectionSteps.BeginStartsIff | internal/election/election.go:43-51 | a StartElection makes exactly one election if none is running at its node, and none if one is; then nothing at all changes but that it is gone |
| ElectionSteps.EnterIsBegin | internal/election/election.go:43-51 | the engine object in the node's state goes on if and only if that step makes an election, and ends up in the node's state after it |
| ElectionSteps.SendChallengesOnce | internal/election/election.go:53-66 | an election challenges each lower node it can reach exactly once and goes on to its timer; with nobody to challenge it goes on to declare |
| ElectionSteps.AnnounceTellsOnce | internal/election/election.go:101-106 | the victor takes itself for master and sends one COORDINATOR to each node it can reach |
| ElectionSteps.ChallengeIsTakenUpIff | internal/election/election.go:112-134 | a challenge is answered, if the answer can be sent, and starts one election if and only if the challenger is higher |
| ElectionSteps.ChallengeIsGetElection | internal/election/election.go:112-134 | the engine object starts an election if and only if that step does, and replies to the configured node of the sender's name if there is one |
| ElectionSteps.TimerIsFire | internal/election/election.go:70-78 | the callback of a timer goes on if and only if the step makes a declaration |
| ElectionSteps.DeclareWins | internal/election/election.go:93-101 | a declaration ends the election, is put on record and leads to exactly one announcement |
| ElectionSteps.VictoryIsDeclare | internal/election/election.go:93-101 | the engine object ends up as the declaration and the announcement leave the node |
| ElectionSteps.OkEndsElection | internal/election/election.go:138-148 | an OK ends the election of its receiver, makes nothing new and takes away no work but timers of that node |
| ElectionSteps.CoordinatorIsBelieved | internal/election/election.go:152-164 | a COORDINATOR makes its receiver take the announced node for master and does nothing else |
| ElectionCluster.LowerWeighsHalf | internal/election/election.go:62-66 | an ELECTION to a lower node weighs at most half of one to a higher node |
| ElectionCluster.ChallengesWeight | internal/election/election.go:53-66 | challenging all lower nodes weighs less than being challenged oneself |
| ElectionCluster.StepDecreases | internal/election/election.go:43-134 | every step of any cluster lowers the measure |
| ElectionCluster.RunsAreFinite | internal/election/election.go:43-134 | from any state, whatever the delivery order, views, losses and crashes, no run is longer than the measure of its first state: elections quiesce |
| ElectionSafety.PendingKept | internal/election/election.go:112-148 | a challenge of a live lower node, or its answer, stays pending until the answer is handled |
| ElectionSafety.RunningKept | internal/election/election.go:43-80 | a node that runs an election is about to send its challenges or waits for every live lower node |
| ElectionSafety.DeclaringKept | internal/election/election.go:53-78 | whoever is on the way to a declaration is the lowest live node |
| ElectionSafety.StepKeeps | internal/election/election.go:43-176 | every reliable step keeps the election invariant |
| ElectionSafety.VictoryByLowest | internal/election/election.go:82-134 | in every reliable run, with crashes and stale timers, every victory is declared by the lowest live node and victors never get lower |
| ElectionSafety.WrongVictoryIff | internal/election/election.go:69-78 | with all answers in, a timer makes a node that is not the lowest declare victory if and only if its next election has begun and not yet sent a challenge |
| ElectionSafety.StaleTimerElectsTheWrongNode | internal/election/election.go:45-80 | a concrete reliable run to such a timer: the node declares although the lower one is alive |
| ElectionConvergence.UnderwayKept | internal/election/election.go:43-107 | an election of the lowest live node that is under way goes on until it has won, whatever timers of earlier ones do |
| ElectionConvergence.ComingKept | internal/election/election.go:62-66 | an election elsewhere reaches the lowest live node |
| ElectionConvergence.AnnouncedKept | internal/election/election.go:104-106 | after the victory every live node has been told or is about to be |
| ElectionConvergence.StepConverges | internal/election/election.go:43-164 | every reliable step without a crash keeps all this |
| ElectionConvergence.NeverStuck | internal/election/election.go:43-164 | as long as any work is left, a reliable step is possible |
| ElectionConvergence.WorkKept | internal/election/election.go:43-107 | in whatever run, a node whose election runs is at work on it or about to declare |
| ElectionConvergence.FailoverElectsLowest | internal/election/election.go:40-42 | after any reliable run with crashes: once a live node that runs no election starts one, nobody crashes any more, and no COORDINATOR of an earlier master and no OK for the lowest node are under way, every reliable run ends within its measure, and where it ends every live node takes the lowest live node for master |
| ElectionAgreement.FailoverAgreesIff | internal/election/election.go:40-42 | after any reliable run with crashes, once a live node that runs no election starts one: all reliable crash-free ways to the end lead to agreement on the lowest live node if and only if no COORDINATOR of another node is under way to a live one, and no OK to the lowest unless it is about to declare itself or everybody has been told |
| ElectionAgreement.StaleCoordinatorDisagrees | internal/election/election.go:152-164 | a COORDINATOR of another node that is under way can come last, and its receiver ends with the wrong master |
| ElectionAgreement.WonAgrees | internal/election/election.go:93-107 | a lowest node that is about to declare or announce itself, or of which all have been told, is what all agree on whatever comes |
| ElectionAgreement.LateOkSpoils | internal/election/election.go:138-148 | otherwise an OK of a dead node, delivered after all else, makes it step down, and the failover ends without agreement |
| ElectionAgreement.LateOkHappens | internal/election/election.go:112-148 | in every cluster of a node, the next and a third, a reliable run with one crash leads to such an OK |
| Consensus.Engine.OpenRound | internal/consensus/consensus.go:88-107 | opens a round that needs a majority of all configured nodes |
| Consensus.Engine.VoteForSelf | internal/consensus/consensus.go:118-122 | counts the proposer's vote and tells it whether that was enough |
| Consensus.Engine.HandleVote | internal/consensus/consensus.go:152-177 | counts a vote of an open round, fills the channel once there are enough and never blocks on it; drops votes of unknown rounds |
| Consensus.Engine.CloseRound | internal/consensus/consensus.go:109-113 | forgets the round and no other |
| Consensus.ProgressOk | internal/consensus/consensus.go:88-177 | every step of a round keeps its votes one per node and its channel full exactly when a waiting proposer has enough |
| Consensus.StepKeeps | internal/consensus/consensus.go:66-213 | every step of any number of concurrent rounds keeps the vote bookkeeping |
| Consensus.InvAlways | internal/consensus/consensus.go:66-213 | so does every run |
| Consensus.Quorum | internal/consensus/consensus.go:88-139 | a round that sends COMMIT has the yes votes of n/2+1 distinct nodes, proposer included |
| Consensus.QuorumsIntersect | internal/consensus/consensus.go:90-94 | any two committed rounds, concurrent or not, share a voter |
| Consensus.NoLostQuorum | internal/consensus/consensus.go:124-136 | a waiting proposer can go on to commit if and only if enough nodes have voted, however the votes interleave with its own; a result is never there with too few |
| Consensus.AppliedOnceAsProposed | internal/consensus/consensus.go:141-149 | no node's handler runs twice for one round, every application is of a committed round and of exactly the operation and data that were proposed |
| Consensus.EndedAttemptsStay | internal/consensus/consensus.go:109-113 | an attempt that committed, timed out or was cancelled is never changed by later votes or retries |
| Consensus.OpenRefines | internal/consensus/consensus.go:105-107 | opening a round in the cluster is OpenRound on the proposer's map |
| Consensus.VoteSelfRefines | internal/consensus/consensus.go:118-122 | the proposer's vote in the cluster is VoteForSelf on its map |
| Consensus.TakeResultRefines | internal/consensus/consensus.go:128-133 | a proposer that goes on has a full channel, empties it and leaves the counts as they are |
| Consensus.HandleVoteRefines | internal/consensus/consensus.go:152-177 | a delivered vote is HandleVote on the map of the node it reaches |
| Consensus.CloseRefines | internal/consensus/consensus.go:109-113 | the end of an attempt is CloseRound on its proposer's map |
| ConsensusRuns.CommitIsAppliedOrComing | internal/consensus/consensus.go:141-149 | in every run: a round has been committed if and only if its proposer has decided so, and then, and only then, the proposer's own handler has run on what was proposed; another node has run it or has its COMMIT still coming if and only if the COMMIT went out to it |
| ConsensusRuns.VotesAreAnswers | internal/consensus/consensus.go:152-213 | in every run: who has voted for a round has answered its PROPOSE with a vote or is its proposer; the vote has arrived or is on its way, and is counted if the round is still open when it arrives; a PROPOSE has been handled or is on its way if and only if it was sent |
| ConsensusProgress.CommitPossibleIff | internal/consensus/consensus.go:88-139 | at every moment of every run an open round can still be committed if and only if a majority of all nodes has been counted, is the proposer, has yet to be asked, or has PROPOSE or vote on the way |
| ConsensusProgress.DecidedCommits | internal/consensus/consensus.go:141-149 | a proposer that has decided can commit, to any of its peers |
| Database.DB.InsertIngenieroRow | internal/db/db.go:140-146 | inserts an available engineer unless the ID exists |
| Database.DB.InsertUsuarioRow | internal/db/db.go:193-199 | inserts a user unless the ID exists |
| Database.DB.InsertDispositivoRow | internal/db/db.go:223-229 | inserts the device with the engineer it is for, unless the ID exists |
| Database.DB.InsertTicketFull | internal/db/db.go:284-292 | inserts a ticket unless the ID exists |
| Database.DB.UpdateFolio | internal/db/db.go:295-298 | sets the folio of an existing ticket only |
| Database.DB.Close | internal/db/db.go:301-307 | closes an existing ticket and stamps it |
| Database.DB.SetIngenieroDisponible | internal/db/db.go:180-183 | sets the availability of an existing engineer only |
| Database.Commit | cmd/main.go:177-259 | the handler leaves the tables that ApplyAt describes: inserts of other branches are skipped, updates and closes run everywhere |
| Database.InsertsStoreWhatTheyCarry | cmd/main.go:177-224 | an insert under an ID that is not taken stores the row it carries, field by field, engineers available and tickets without closing time; it changes no other row, and none at all under an ID that is taken |
| Database.UpdatesChangeOneRow | cmd/main.go:225-259 | folio, close and availability change the fields they are about of the one row they name, or of the ticket and the engineer for a close, and nothing else |
| Database.OnlyOtherBranchesAreSkipped | cmd/main.go:177-259 | a node skips inserts of other branches and operations it does not know, and applies everything else |
| Database.ApplyTwice | cmd/main.go:177-259 | a second application makes the first one unobservable |
| Database.RedeliveryIsOneDelivery | internal/consensus/consensus.go:66-86 | an operation committed several times in a row leaves what its last commit alone would |
| Database.RedeliveryChangesOnlyClosedAt | internal/consensus/consensus.go:66-86 | compared with a single commit at any other time, nothing but closed_at differs |
| Sharding.RowLocal | cmd/main.go:177-259 | what an operation makes of a row depends on that row alone |
| Sharding.TouchesIff | cmd/main.go:177-259 | an operation touches a row if and only if there are tables in which it changes it |
| Sharding.HistoryDecides | internal/db/db.go:140-307 | two commit sequences that agree on the operations touching a row leave the same row |
| Sharding.ShardRow | cmd/main.go:185-213 | a shard treats its own branch's rows as the unfiltered database does and has no others |
| Sharding.StaysHoused | cmd/main.go:185-213 | no row ever belongs to a branch without a node |
| Sharding.ShardsRefineDatabase | cmd/main.go:177-259 | with nodes applying in orders and at times of their own that agree on each row's history at its home, every shard is exactly the home part of one unfiltered database |
| Sharding.AgreeingOrdersGiveOneShard | cmd/main.go:177-259 | any two delivery orders that agree on operations touching the same row give the same shard |
| Sharding.CloseUndoesRaise | internal/service/ticket_service.go:217-299 | the commits of a raise followed in order by that of its close leave all engineers as they were and the ticket closed with its folio |
| Sharding.UnionIsDatabase | internal/service/ticket_service.go:358-360 | the union of the shards, in any order, is that database |
| Sharding.PartitionKept | cmd/main.go:177-259 | one commit applied at all nodes keeps every row in exactly one shard, equal to the unfiltered database's |
| Sharding.PartitionKeptIff | cmd/main.go:177-259 | it does so if and only if an inserted row's branch has a node and the row is not already in another shard |
| Sharding.RefinedShardsPartition | cmd/main.go:177-259 | shards that refine a database none of whose rows lacks a node keep every row in exactly one of them |
| Sharding.ReassignDuplicates | cmd/main.go:210-223 | REASSIGN_TICKET to another branch always leaves two rows of one ticket |
| Query.Split | internal/service/ticket_service.go:613-620 | splits at the first bar; without one there is no query ID |
| Query.SplitQueryID | internal/service/ticket_service.go:613-620 | the loop computes that |
| Query.TagRoundTrip | internal/service/ticket_service.go:385-386 | query ID and table are recovered from their tag if and only if the query ID has no bar |
| Query.Service.OpenQuery | internal/service/ticket_service.go:364-371 | registers a collector that expects one answer per peer |
| Query.Service.AdjustExpected | internal/service/ticket_service.go:387-399 | lowers the expectation by the failed sends and closes the channel if it is met, unless it is closed |
| Query.Service.HandleQueryResponse | internal/service/ticket_service.go:471-494 | adds the answer to the query its tag names and closes the channel when the expectation is met, unless it is closed; drops others |
| Query.Service.MergeResults | internal/service/ticket_service.go:424-434 | the local rows followed by the rows of all answers in order of arrival |
| Query.Service.ForgetQuery | internal/service/ticket_service.go:373-377 | removes the collector and no other |
| Query.ProgressOk | internal/service/ticket_service.go:360-494 | every step of a query keeps its answers one per reached peer and its channel closed exactly when none is missing |
| Query.StepKeeps | internal/service/ticket_service.go:360-494 | every step of any number of concurrent queries keeps that |
| Query.CompleteReadIsExact | internal/service/ticket_service.go:360-435 | a read ended by its collector holds the local rows and exactly one answer of each peer whose QUERY was sent, under any interleaving of answers with the adjustment |
| Query.TimedOutReadIsPartial | internal/service/ticket_service.go:416-432 | a read ended by the clock holds at most one answer of each of those peers |
| Query.ClosedOnceWhenComplete | internal/service/ticket_service.go:387-399 | the channel is closed at most once, and a waiting read may end if and only if every reached peer has answered |
| Query.OpenRefines | internal/service/ticket_service.go:369-371 | opening a query in the cluster is OpenQuery on the requester's map |
| Query.AdjustRefines | internal/service/ticket_service.go:387-399 | the adjustment is AdjustExpected on it |
| Query.HandleResponseRefines | internal/service/ticket_service.go:471-494 | a delivered answer is HandleQueryResponse on the map of the node it reaches |
| Query.CloseRefines | internal/service/ticket_service.go:373-377 | the end of a query is ForgetQuery |
| QueryRuns.ReadIsWhatNodesRead | internal/service/ticket_service.go:360-494 | a complete read is the requester's own rows as it read them, then for every peer that QUERY was sent to, and no other, the rows that this peer's handler read |
| QueryRuns.AnswersDoNotGetLost | internal/service/ticket_service.go:438-494 | in every run a QUERY that was sent has been handled or is on its way, an answer has arrived or is on its way, and it is taken into account if the query is still open when it arrives |
| QueryProgress.CompletePossibleIff | internal/service/ticket_service.go:401-435 | at every moment of every run an open read can still be complete if and only if no peer that has taken its QUERY has left it unanswered; while it waits it can be ended by the clock or cancelled |
| Query.QuietReadListsTable | internal/service/ticket_service.go:358-360 | while the shards partition one database, a complete read that reached every node lists that database's table: every row, once |
| Query.QuietReadListsDatabase | internal/service/ticket_service.go:358-360 | in particular while they refine the unfiltered database, which is what commits make of them |
| Query.ListingsAreOnePermutation | internal/service/ticket_service.go:358-360 | any two such listings are permutations of each other |
| Heartbeat.Monitor.Claim | internal/heartbeat/heartbeat.go:92-98 | of two pings of one peer the second gives up |
| Heartbeat.OwnView | internal/heartbeat/heartbeat.go:91-138 | each mutex section of a ping, as its method does it, makes of the peer's count, channel, mark and liveness what one step of the simple bookkeeping does |
| Heartbeat.OtherPeer | internal/heartbeat/heartbeat.go:91-138 | and changes nothing of any other peer |
| Heartbeat.Monitor.DeclareDead | internal/heartbeat/heartbeat.go:144-175 | a peer not alive causes no action; one alive is marked dead, and an election starts if and only if it was the master, a redistribution if and only if it was not and this node is the master, a message to the master if and only if neither and a master is configured |
| Heartbeat.OneDeathPerOutage | internal/heartbeat/heartbeat.go:123-131 | the simple detector puts exactly one death into every outage of three or more misses, and none elsewhere |
| Heartbeat.PongBetweenDeaths | internal/heartbeat/heartbeat.go:144-148 | in a log that follows it, two deaths have a PONG between them |
| Heartbeat.OwnStepOk | internal/heartbeat/heartbeat.go:91-138 | each step of a ping keeps count, liveness and deaths in step with how pings ended |
| Heartbeat.StepKeeps | internal/heartbeat/heartbeat.go:91-201 | every step of all goroutines keeps the bookkeeping of every peer |
| Heartbeat.OnePingPerPeer | internal/heartbeat/heartbeat.go:91-108 | at most one ping of a peer is in progress and a registered channel belongs to it |
| Heartbeat.ExactAtRest | internal/heartbeat/heartbeat.go:109-138 | with no ping in progress the count is the misses since the last PONG taken, the peer is alive if and only if there are fewer than three, and deaths are exactly those of the simple detector |
| Heartbeat.OneDeathBetweenPongs | internal/heartbeat/heartbeat.go:144-148 | in every run, at every moment, two deaths of one peer have a PONG between them |
| Heartbeat.PingGoesOnIff | internal/heartbeat/heartbeat.go:91-104 | a ping of a peer goes on to wait in a channel of its own if and only if no other ping of it is in progress, else it ends without a trace |
| Heartbeat.PongArrives | internal/heartbeat/heartbeat.go:188-201 | a PONG handled while a ping of its sender waits gets into the channel which that ping reads |
| Heartbeat.PongRevives | internal/heartbeat/heartbeat.go:109-119 | a ping that takes a PONG makes its peer alive and its count zero |
| Heartbeat.ThirdMissKills | internal/heartbeat/heartbeat.go:120-131 | a ping that times out adds one to the count; the third miss in a row marks a live peer dead, a first or second one does not |
| Heartbeat.PingEnds | internal/heartbeat/heartbeat.go:91-138 | no ping gets stuck: whatever the others do, it is gone after at most eight steps of its own |
| Devices.CountDevices | internal/service/ticket_service.go:147-152 | counts every engineer's devices, leaving out devices of nobody |
| Devices.PickEngineer | internal/service/ticket_service.go:154-166 | the first engineer with the fewest devices |
| Devices.DistributeDevice | internal/service/ticket_service.go:132-184 | fails exactly when a read fails or there is no engineer; else the device is for an engineer whose count is least, at that engineer's branch, where devices of engineer zero are not counted |
| Devices.FirstLeastIsOne | internal/service/ticket_service.go:154-166 | of several engineers with equally few devices it is the one read first |
| Devices.CommitRaisesOneLoad | cmd/main.go:200-208 | once the device is committed, reading all devices again, in whatever order, counts one more for the engineer it was given to and for nobody else |
| Devices.CommittedIsSerial | internal/service/ticket_service.go:132-184 | devices that are assigned by a read each, and committed before the next, are a series of assignments as GapNeverGrows and BalancedExactlyAfter take it |
| Devices.GapNeverGrows | internal/service/ticket_service.go:130-131 | over any series of assignments the gap between most and least loaded never exceeds the larger of one and its first value |
| Devices.BalancedExactlyAfter | internal/service/ticket_service.go:130-131 | a series makes loads equal up to one if and only if it is at least as long as the shortfall to the top it started with, whatever the order of rows |
| Devices.BalancedWithinDeficit | internal/service/ticket_service.go:130-131 | which is at most what the engineers together lack to the most loaded one |
| IdAllocation.IdsDecode | internal/service/ticket_service.go:32-36 | division by 10000000000 recovers the node if and only if the counter is not negative and below that; the remainder is then the counter |
| IdCounter.Counter.NewID | internal/service/ticket_service.go:33-36 | one step of the counter gives the next ID of a node |
| IdCounter.StepKeeps | internal/service/ticket_service.go:38-50 | no step lowers the counter, the swap of the loop included, and what was issued stays issued |
| IdCounter.InvAlways | internal/service/ticket_service.go:30-50 | the counter never decreases under any interleaving of allocations and swap loops |
| IdCounter.IdsAreUnique | internal/service/ticket_service.go:25-36 | while the counter is within the span, all IDs made in a process differ, for all nodes, and each tells its node |
| IdCounter.SetMinHolds | internal/service/ticket_service.go:38-50 | once SetMinIDCounter has returned, the counter is at the minimum or above for good, and later IDs are above it |
| IdCounter.AllocationsAreConsecutive | internal/service/ticket_service.go:33-36 | calls of newID alone get consecutive counters, one each, in the order of the calls |
| IdCounter.SwapSetsExactly | internal/service/ticket_service.go:40-50 | the loop returns if and only if the counter it loads is at the minimum already, or nobody has moved it since and it sets it to exactly the minimum |
| IdCounter.SetMinAlone | internal/service/ticket_service.go:38-50 | a call that is left alone returns and leaves the larger of counter and minimum |
| Seed.SeedIngenieros | internal/db/seed.go:56-66 | the loop over engineers leaves what committing their inserts would, and the largest counter |
| Seed.SeedUsuarios | internal/db/seed.go:67-77 | likewise for users |
| Seed.SeedDispositivos | internal/db/seed.go:78-88 | likewise for devices |
| Seed.SeedNode | internal/db/seed.go:47-90 | a node with engineers is left alone; else it ends up as after committing all seed inserts at it, and the result is its largest seeded counter, or zero |
| Seed.EngineersAreSeeded | internal/db/seed.go:56-66 | an engineer that the seed has for the branch and whose ID is new is in the tables afterwards, as the seed has him and available; of several under one ID the first |
| Seed.UsersAreSeeded | internal/db/seed.go:67-77 | likewise for users |
| Seed.DevicesAreSeeded | internal/db/seed.go:78-88 | likewise for devices, with the engineer the seed gives them to |
| Seed.LaterIdsAvoidSeed | cmd/main.go:104-111 | no ID made for the node after start-up is the ID of a seeded row of its branch, whether the counter had to be raised or nothing was seeded above zero |
| Redistribution.RedistributeTickets | internal/service/ticket_service.go:303-354 | proposes as many reassignments as there are tickets to move and engineers to take them, pairing both lists in order; nothing after a failed read |
| Redistribution.TicketsExact | internal/service/ticket_service.go:309-314 | the list is exactly the open tickets of the dead branch, without duplicates |
| Redistribution.TakersExact | internal/service/ticket_service.go:325-330 | the list is exactly the available engineers of other branches, without duplicates |
| Redistribution.OrderKept | internal/service/ticket_service.go:309-314 | the tickets to hand over keep the order in which they were read |
| Redistribution.TakersOrderKept | internal/service/ticket_service.go:325-330 | and so do the engineers who may take them |
| Redistribution.ProposalIsSound | internal/service/ticket_service.go:332-353 | every proposal is an open ticket of the dead branch with only engineer, branch, folio and closing time changed, for an available engineer of another branch |
| Redistribution.ProposalsDiffer | internal/service/ticket_service.go:332-353 | two proposals are for different tickets and different engineers |
| Redistribution.ShardHasOwnTickets | cmd/main.go:210-223 | a shard never holds a ticket of another branch |
| Redistribution.SilentNodeKeepsItsTickets | internal/service/ticket_service.go:303-317 | rows read from other nodes alone give nothing to reassign: tickets of a node that does not answer stay where they are |
| History.Store.New | pkg/msgstore/store.go:38-40 | an empty store in memory |
| History.Store.NewWithFile | pkg/msgstore/store.go:44-80 | an opened store is what a reopening of the history makes of it: the last entries of what the scanner reads of the file, up to the first line that does not fit its buffer |
| History.Store.Save | pkg/msgstore/store.go:84-102 | with a file it is one save of the history; it appends to the file and to what is known in memory, and keeps the last entries of that |
| History.Store.Latest | pkg/msgstore/store.go:105-116 | the last min(n, max) entries of what was read at the opening and saved since |
| History.WindowOfLog | pkg/msgstore/store.go:44-102 | after any saves and reopenings the file holds all entries ever saved, and memory the last max of those that the last opening could read and those saved since |
| History.LoadFromFile | pkg/msgstore/store.go:63-80 | the scan ends at the first line that does not fit the buffer of 64 KiB and keeps the last entries read |
| History.WindowIsLogIff | pkg/msgstore/store.go:44-102 | memory is the end of the whole log if and only if the last opening found no overlong line or at least max entries have been saved since, entries being distinct |
| History.ReopenedWindowIff | pkg/msgstore/store.go:44-80 | after any saves and reopenings, ending with a reopening, a positive window is the end of the log if and only if no overlong line is on file |
| History.LongestLine | pkg/msgstore/store.go:63-64 | a line of 65535 bytes is the longest that a reopening can read |
| History.OverlongEntryHidesLaterOnes | pkg/msgstore/store.go:63-76 | one overlong entry, and a reopening loses the next one too |

## Left out

- Sockets, connection pooling, the hub, the TCP server and client: a send has a success flag and delivers to
  the message multiset.
- JSON, malformed payloads and unknown tables: payloads are datatypes; the tag of a query is the one string
  that is taken apart.
- The SQL engine, migrations, nullable columns and driver errors: a table is a map by primary key, and a
  failing handler is a commit that is not applied.
- The clock: timeouts are steps that may happen at any time, closed_at and created_at are inputs; only the
  election theorems restrict when a timer fires, and say so.
- The retry loops of `Acquire`, `Propose` and `RaiseTicket`, with their limits and delays: a retry is one more
  attempt, and the theorems hold for any number of attempts.
- `ClaimMastership`: its effect is that of the pending announcement `Announcing` in ElectionCluster, which
  `ElectionCluster.RunsAreFinite` covers; the safety and failover theorems start without one.
- Integer widths: IDs and counters are unbounded integers; 64-bit overflow of node number times span is not
  modelled.
- The dispatcher, the CLI, logging, configuration loading and the setup script.
- Liveness of the lock under timeouts, and safety of the lock across a change or restart of the arbiter: the
  code does not provide them.
- Agreement of elections under wrong suspicions, and uniqueness of IDs across restarts or between masters
  that allocate device IDs: the code does not provide them.
- The single loop nest of `Seed` is three methods, one per loop, called in the same order.
- Channels are counts of tokens and goroutines are steps: blocking is a step that is not enabled.
- LockEngine.Engine.HandleLockRequest: replies are returned to the caller instead of sent; the source sends
  them after it has left its mutex, LockCluster puts them into flight in the same step.
- LockEngine.Engine.ReleaseLocal: the grant it sends is returned, as above.
- Devices.GapNeverGrows: assignments are serial, with complete reads and a fixed set of engineers; two
  masters assigning at once are not modelled.
- History.Store.Save: a write to the file succeeds; the source reports a failed one after it has already
  changed the memory.
- Redistribution.RedistributeTickets: the result is the list of proposals made; whether each is committed is
  the business of module Consensus.
- Booking.ReadKeeps: a raise may read shards in any order and any number of them.  The source puts the rows of
  the raising node first and leaves out nodes that do not answer in time; the safety theorems hold for every
  order, and the run of `BookingExamples.DoubleBookingHappens` reads its own shard first.
- BookingLimits.ReleaseGuardIsExact: that an unsafe release leads to a double booking supposes that every
  branch still has an unused row ID, as `BookingCloses.CloseAtEngineerIsExact` does too.
- BookingRequests.CloseIsExact: that an unsafe close leads to a double booking supposes that raises can go on:
  the lock is not lost, nobody who waits for it has given up, and there are fewer tickets than row IDs of a
  branch.  That a safe one does not is proved without.
- BookingMoves.EveryReassignmentIsUnsafe: under the same premises, for an engineer who has no ticket that is
  closed and can never free him, and for rows that are what the shards hold when the proposal is made; a
  redistribution that works on older rows is not modelled.
- ElectionConvergence.FailoverElectsLowest: an OK of a dead node to the lowest live one is left out;
  `ElectionAgreement.FailoverAgreesIff` includes it.
- History.ReopenedWindowIff: entries are distinct, as they carry the time of their saving; the length of a
  line is a number that comes with the entry, and lines that are not an entry are not modelled.
- Query.QuietReadListsTable: the database must not change while the read is under way; what a read returns
  during commits is only that each node's rows were its rows when it answered.
