# distq: a verified model of the queue, its leases and its leaders

distq is a job queue on one Postgres database. Any number of servers campaign for a leased leadership row; the
one that believes it leads admits worker streams, claims jobs for free workers and sweeps expired job leases.
Nobody is told when it is deposed, so the design rests on leases, on fencing by worker id, and on a term stamped
into claims and sweeps. This project models that machinery and proves what holds over every run of it.

| file | what it holds |
|---|---|
| `Jobs.dfy` | the rows of `jobs` and each SQL statement as a function on the table |
| `QueueMachine.dfy` | the queue as a step machine under an abstract election; its invariant; what no continuation undoes |
| `Columns.dfy` | what the columns of a row say about its past |
| `Attempts.dfy` | conservation of attempts; a bound on all the work a run can hold |
| `Progress.dfy` | no state the cluster reaches is a dead end for a job |
| `Backoff.dfy` | how long a job has waited by each claim |
| `Deadlines.dfy`, `Heartbeat.dfy` | silent workers lose their job in time, attentive ones never do |
| `Replies.dfy`, `Stream.dfy` | what workers are told, against what the store did |
| `SimpleQueue.dfy` | the specification every run simulates |
| `Election.dfy` | the leadership row, the nodes around it, believers and reigns |
| `Cluster.dfy` | jobs, row and nodes together, projected onto the two machines above |
| `Store.dfy` | the store as a class: one method per statement, with faults |
| `Leadership.dfy` | the campaign, hold and run loops as classes, with a context per reign; every step adds to a legal history of the election |
| `Line.dfy` | the line of waiters and their channels over a whole day, and when a send can block |
| `Timer.dfy` | the retry timer's promise, statement by statement |
| `Shift.dfy` | one dispatcher as a step machine, others' statements in between; the promise over whole shifts |
| `Pass.dfy` | what one claiming pass hands out while the cluster goes on around it |
| `Stranded.dfy` | shifts in which a job is forgotten |
| `Dispatcher.dfy` | the dispatcher as a class; every method adds to a legal shift |

Runs are values: a start and the steps taken since. `StateOf`, `ElectOf`, `ClusterOf`, `DeskOf` and `PostOf` say where
a run has got to; lemmas quantify over all of them. Events carry whatever is not determined (which visible row a
claim takes, when the clock moves, whether a reply is lost), so "for all runs" covers every interleaving. A
dispatcher's shift is at the same time a queue run and a day at its desk (`ShiftIsARun`, `ShiftIsADay`), and the two
classes with loops note each step they take in such a history, so the theorems about all histories are about them.

## Assumptions

- Each SQL statement is atomic and the database clock never runs backwards. A statement may fail before it runs
  (`Dropped`) or run and lose its answer (`ReplyLost`), but not take effect after its call returned.
- Node ids are unique and non-empty; worker ids are non-empty (the stream refuses an empty one).
- A server may stamp a claim or sweep with any term it was ever told it won, since passes and reapers read the
  term once and act later. This covers deposed servers that still act.
- All servers run with one job lease and one backoff base; the election lease is the job lease.
- Time is an integer; `pow(2, n)` is exact. The timer is taken to be set at the moment the database answered.
- A pass holds the dispatcher's lock, so no registration, departure or other pass falls between its claims.
  Statements of anybody, the clock, elections and the streams' receipts do, before every claim and before the timer
  query. A timer that comes due while the lock is held waits for it; once it has fired it is not set.

## Where the code says less than its comments, or a promise fails

- A deposed leader's claim is not refused: any claim lands if and only if the row is visible (`ClaimLandsIff`,
  `DeposedClaimStillLands`). What the stamp does is record the highest term that ever claimed the job
  (`ClaimTermIsHighest`), and a sweep recovers the job if and only if its own term is at least that
  (`SweepRecoversIff`).
- `CreateJob` stores any status a client sends. Rows stay in order through a run if and only if no client sent
  `processing`, `done` or `failed` (`RowsStayInOrderIff`). A row sent with anything but `pending` never changes again (`ForgedRowIsStuck`), save one
  sent as `processing`, which the first sweep after a restart gives back (`RestartFreesForged`).
- A report whose update landed but whose database reply was lost is answered REFUSED. That is the only untruthful
  reply (`HonestIff`, `LostReplyLies`).
- "This send cannot block" holds if and only if nobody was let back in line with a job still in its channel, which
  the registration does not check (`NeverJamsIff`, `SendCanBlockIff`). Workers that free themselves at most once per
  job never cause it (`DisciplineNeverJams`), though less would do (`DisciplineIsNotNeeded`); a refused heartbeat
  followed by the late report of the same job does (`DoubleFreeJams`).
- "Not pushing at all would strand a job", and besides a blocked send four things can (`PromiseKeptIff` says exactly
  when): a row turned pending by a sweep, by another server, or by an enqueue whose reply was lost, none of which push
  here; a failure report by a worker that already stands in line, whose registration is ignored; a pass that ends
  early, above all the timer's own, since the timer has fired by then (`FiredPassFailsIff`); and a stream that ends
  between its report and the registration the report leads to. `RetryCanBeStranded`, `ReapedJobCanBeStranded` and
  `FailedPassCanStrand` reach such states from a server's start.
- A job lease under one second is announced as zero seconds; the worker then beats every ten seconds and can be
  reaped before its first beat (`ThreeBeatsFitIff`, `ShortLeaseReapsPunctualWorker`).

## Model

| member | source | states |
|---|---|---|
| `Jobs.NewRowInvIff` | internal/storage/postgres.go:95-113 | an inserted row is in order if and only if the client's status is not a forged lifecycle state |
| `Jobs.NewJobIsReady` | internal/storage/postgres.go:101-108 | a job is claimable if and only if it was enqueued without a status or as pending, from its insertion on; with three retries unless the client asked for another number |
| `Jobs.MigrationRepairs` | internal/storage/postgres.go:66-67 | the startup updates make a row without a due time due from its creation on and a processing row without a lease reapable from just after its creation, write nothing else, and have nothing to do a second time |
| `QueueMachine.NewParams` | internal/queue/queue.go:41-56 | lease and backoff base are the caller's when positive, and thirty seconds and one second respectively when not |
| `QueueMachine.StepKeepsInv` | internal/storage/postgres.go:127-300 | every statement, by anybody, keeps processing iff owned iff leased, done_at iff over, retry_count within budget, claim_term at most the highest term won, and created, started and done in that order and not after now |
| `QueueMachine.RowsStayInOrderIff` | internal/storage/postgres.go:95-113 | rows stay in order in every state of a run if and only if no insert on the way forged a lifecycle state |
| `QueueMachine.RestartChangesNothing` | internal/storage/postgres.go:57-67 | on every table a clean run reaches, the startup migration updates are a no-op |
| `QueueMachine.ClaimTermNeverFalls` | internal/storage/postgres.go:133 | claim_term never decreases along any continuation of any run |
| `QueueMachine.ClaimTermIsHighest` | internal/storage/postgres.go:60-62 | in every run claim_term is the highest term that ever claimed the job, 0 if none did |
| `QueueMachine.ClaimLandsIff` | internal/storage/postgres.go:124-141 | in every run a claim under any term, a deposed leader's included, lands if and only if the row is visible, and leaves it stamped with the highest term that ever claimed it |
| `QueueMachine.SweepRecoversIff` | internal/storage/postgres.go:273-288 | in every run a sweep stamped with a term changes a row if and only if its lease has run out and no higher term ever claimed it |
| `QueueMachine.StaleSweepIsHarmless` | internal/storage/postgres.go:273-288 | once a term has claimed a job, no sweep stamped with a lower term changes that row in any later state |
| `QueueMachine.TerminalRowsNeverChange` | internal/storage/postgres.go:168-300 | a done or dead-lettered row keeps every column through every continuation |
| `QueueMachine.TopSweepStrandsNobody` | internal/storage/postgres.go:277-288 | a sweep under the highest term won releases exactly the expired leases and leaves none, whoever claimed them |
| `QueueMachine.ForgedProcessingIsStuck` | internal/storage/postgres.go:96-99 | a row inserted as processing is touched by no claim, report, heartbeat or sweep before a restart |
| `QueueMachine.ForgedRowIsStuck` | internal/storage/postgres.go:95-113 | a row inserted with any status but pending is stored as sent, column for column, and never changes in any continuation, without a restart if it was sent as processing |
| `QueueMachine.RestartFreesForged` | internal/storage/postgres.go:66-67 | after a restart the next sweep gives a forged processing row back if and only if the clock is past its creation and the sweep's term is not below its stamp; it is then claimable at once, or dead-lettered if it had no retries |
| `Columns.ColumnsTellThePast` | internal/storage/postgres.go:95-300 | in every run started_at is the time of the last claim; worker and lease are the last claimant and one lease past the last claim or renewal, and empty unless processing; last_error is the last complaint, of dead letters too; done_at is the moment the job was over; next_run_at is when it was last made due |
| `Columns.OtherRowsStay` | internal/storage/postgres.go:127-300 | no statement changes a row it is not about |
| `Columns.InsertionIsForGood` | internal/storage/postgres.go:95-113 | created_at and max_retries are what the first insertion said in every continuation, inserting the id again included |
| `QueueMachine.DeposedClaimStillLands` | internal/storage/postgres.go:124-137 | a concrete run in which a deposed leader's claim lands on a row stamped by a newer term; its own later sweep cannot recover it, the newer term's can |
| `Attempts.AttemptsConserved` | internal/storage/postgres.go:14-18 | in every run the claims of a job equal retry_count plus one if in hand or done; failed iff retry_count is max_retries + 1; never more than max_retries + 1 claims |
| `Attempts.EachAttemptIsHandedOutOnce` | internal/storage/postgres.go:115-119 | two claims of one job in any run, by whichever servers, are for different attempts, the later for a higher retry_count |
| `Attempts.StepLowersRank` | internal/storage/postgres.go:127-300 | every step lowers the rank of each row whose state it moves and raises no row's |
| `Attempts.WorkIsBounded` | internal/storage/postgres.go:127-300 | all claims, completions, failures and released rows of any run, plus the rank left, are at most the sum over its jobs of 2(max_retries + 1) |
| `Progress.NoJobIsEverStuck` | internal/storage/postgres.go:265-323 | from every state a clean cluster history reaches, if every server and worker so far falls silent, one new server and any one worker can still bring any open job to done, or to dead-lettered if it was on its last attempt; the server then leads under the row's own term |
| `Backoff.ClaimsWaitOutBackoff` | internal/storage/postgres.go:203-205 | no claim comes before creation plus base·2^i for every earlier attempt i that ended in a reported failure |
| `Backoff.OwedInClosedForm` | internal/storage/postgres.go:286 | that sum is at most base·(2^k − 1) after k attempts, with equality when all were reported; a stall adds no wait but advances the exponent |
| `Backoff.AttemptSchedule` | internal/queue/queue.go:12-15 | after k reported failures and nothing else, claim k + 1 is at least base·(2^k − 1) after creation |
| `Backoff.DefaultSchedule` | internal/queue/queue.go:12-50 | for a queue made without a backoff base, claim k + 1 after k reported failures and nothing else is at least 2^k − 1 seconds after creation |
| `Backoff.ScheduleIsAttained` | internal/storage/postgres.go:203-205 | the schedule is exact: for every k within the budget some run has its next claim possible at base·2^k − base after creation and not before |
| `Backoff.GateIsExact` | internal/storage/postgres.go:197-206 | a job sent back is claimable from now + base·2^retry_count on and not sooner, a reaped one at once, each with its own error text |
| `Replies.HonestIff` | internal/server/stream.go:99-148 | the verdict matches ownership and the row's new state, and REFUSED means unchanged, if and only if the owner's database reply was not lost |
| `Replies.LostReplyLies` | internal/server/stream.go:125-128 | a concrete run: the job is done and its worker is told REFUSED |
| `Replies.RepliesAreBounded` | internal/server/stream.go:122-144 | across all servers and workers a job gets at most one ACCEPTED or DEAD_LETTERED, only once it is over, and at most max_retries RETRYING |
| `Stream.Answer` | internal/server/stream.go:99-158 | a completion from the owner finishes its job and is answered ACCEPTED; a failure costs it an attempt and is answered RETRYING or DEAD_LETTERED as the job goes back or is over; a heartbeat renews the lease; from anybody else nothing changes and a report is REFUSED for the fence, or for the store on an error; a report is always answered about its own job and frees the worker, a heartbeat is answered Lost, and frees, exactly when the job is not the sender's |
| `Heartbeat.LeaseSeconds` | internal/server/dispatcher.go:124-127 | the lease announced is the whole seconds of the lease: never longer, and shorter by less than a second |
| `SimpleQueue.RunsSimulateSimpleQueue` | internal/storage/postgres.go:127-300 | every run, step by step, is a run of a queue with jobs waiting, running on one worker, finished or dead |
| `SimpleQueue.OnlyOwnerOrExpiryEndsARun` | internal/storage/postgres.go:165-206 | whenever a worker stops owning a job, its own report did it or its lease had expired and a sweep took it |
| `Deadlines.SilentJobIsRecovered` | cmd/distq/main.go:23-29 | with current-term sweeps at gaps of at most reapEvery, a silent worker's job is given back within leaseFor + reapEvery of its last claim or renewal, across handovers |
| `Deadlines.AttentiveWorkerKeepsJob` | internal/storage/postgres.go:227-243 | a worker that touches the store at least once per lease keeps its job through any sweeps by any servers |
| `Heartbeat.ThreeBeatsFitIff` | cmd/worker/main.go:156-160 | the derived beat interval is at most a third of the lease if and only if the lease is at least a second, and at most a third of a second short of that third; under shorter leases it is ten seconds |
| `Heartbeat.BeatingWorkerIsNeverReaped` | cmd/worker/main.go:192-212 | with a lease of at least a second, beats at most two thirds of a lease late keep the job, through any number of sweeps |
| `Heartbeat.ShortLeaseReapsPunctualWorker` | internal/server/dispatcher.go:127 | under every shorter lease a punctual worker can be reaped before its first beat |
| `Election.EachWinIsAboveAllEarlier` | internal/server/election.go:29-34 | a win's term is above every term any node was told of and every term the row has carried |
| `Election.BelieversNeverShareATerm` | internal/server/leadership.go:93-114 | two nodes that believe they lead have different terms, and a believer's term is the row's iff the row names it |
| `Election.RenewalReturnsOwnTerm` | internal/server/election.go:105-125 | a renewal granted inside Hold leaves the row at the node's own term; it is refused exactly when the row names another or the lease lapsed, so a stalled leader cannot resurrect its lease |
| `Election.ResignationHandsOverAtOnce` | internal/storage/postgres.go:347-360 | after a resignation that landed, whoever campaigns next wins, at the next term |
| `Election.ReignsAreDisjoint` | internal/storage/postgres.go:307-360 | over every history the reigns the row records are pairwise disjoint in time, terms count up by one, and the row leaves a holder only after its lease lapsed or it resigned |
| `Election.VacantIff` | internal/storage/postgres.go:302-314 | the row can be taken if and only if nobody led yet, the last leader resigned, or its lease ran out |
| `Cluster.RunsProject` | internal/server/election.go:13-47 | the leadership row meets the abstract election contract: every cluster history is a queue run with the row's term as the highest term won |
| `Cluster.ClusterIsASimpleQueue` | internal/server/leadership.go:66-114 | any interleaving of servers, deposed ones, workers, sweeps, lost replies and handovers simulates the simple queue |
| `Cluster.FenceNeverStrands` | internal/server/leadership.go:165-195 | no claim_term and no node's term exceeds the row's, and the sweep of the node leading under the row's term leaves no expired lease |
| `Cluster.ClusterConservesAttempts` | internal/server/dispatcher.go:99-131 | all servers together hand a job out at most max_retries + 1 times |
| `Cluster.TwoMayBelieve` | internal/server/leadership.go:22-29 | split brain is reachable: two nodes believe they lead at the same moment |
| `Store.PostgresStore.CreateJob` | internal/storage/postgres.go:95-113 | inserts exactly one row, or reports an error on a duplicate id and changes nothing |
| `Store.PostgresStore.DequeueJob` | internal/storage/postgres.go:127-163 | claims some visible row if there is one and returns its columns; returns nothing, changing nothing, exactly when none is visible |
| `Store.PostgresStore.Complete` | internal/storage/postgres.go:168-186 | finishes the job for its owner; anybody else is told the lease is lost and nothing changes |
| `Store.PostgresStore.FailJob` | internal/storage/postgres.go:194-221 | gives the job back for its owner and reports whether it went back to pending |
| `Store.PostgresStore.HeartbeatJob` | internal/storage/postgres.go:227-243 | renews for the owner and says whether the caller is the owner |
| `Store.PostgresStore.NextVisible` | internal/storage/postgres.go:249-263 | the wait ends exactly at the least due time of the pending rows; the flag says whether anything is pending |
| `Store.PostgresStore.ReapExpiredLeases` | internal/storage/postgres.go:277-300 | releases every reapable row and no other, and counts them |
| `Store.PostgresStore.Campaign` | internal/storage/postgres.go:307-323 | takes the row at the next term exactly when its lease has lapsed |
| `Store.PostgresStore.RenewLeadership` | internal/storage/postgres.go:331-345 | extends only the caller's own live lease and returns the row's term |
| `Store.PostgresStore.ResignLeadership` | internal/storage/postgres.go:351-360 | clears the row only if the caller holds it; the term stays |
| `Leadership.PostgresElection.Campaign` | internal/server/election.go:79-99 | the loop extends a legal history of the election, in which this node campaigns once a round, store errors or not, until it has won or its context has ended; a win leases the row to it at a term above every term the row carried at any earlier point of that history |
| `Leadership.PostgresElection.Hold` | internal/server/election.go:105-125 | the loop extends a legal history, in which this node renews once a round, store errors or not, until an answered renewal was refused or its context has ended; every answered round before that is a renewal of this node's own term; it reports a loss only holding no live lease |
| `Leadership.Leadership.BecomeLead` | internal/server/leadership.go:93-99 | opens a fresh live context; at most one reign stays live if and only if the previous one had been ended |
| `Leadership.Leadership.Demote` | internal/server/leadership.go:105-114 | ends the reign and its context, keeps the term |
| `Leadership.Leadership.Resign` | internal/server/leadership.go:148-163 | ends the reign first, and touches the row only if this node still believed it led |
| `Leadership.Leadership.Run` | internal/server/leadership.go:66-89 | the loop is a stretch of a legal history of the election in which this node wins exactly the terms returned, in increasing order; contexts are opened and cancelled strictly in turn, one reaper bound to each; none is live when Run returns; a node that left while leading no longer holds the row unless its resignation was dropped; it returns only when its context has ended before a turn, while campaigning or while holding on, and its last act is the resignation if it was leading, and otherwise leaves the row alone |
| `Line.DeliveriesAreBounded` | internal/server/dispatcher.go:53-82 | the line never names a worker twice, a channel never holds two jobs, and deliveries plus the place in line are at most one plus the freeing messages |
| `Line.Leave` | internal/server/dispatcher.go:72-82 | a departure takes out the first entry that names the worker and keeps everybody else in order; with nobody of that name in line it changes nothing |
| `Line.FirstComeFirstServed` | internal/server/dispatcher.go:53-128 | over any stretch of any day, as long as a waiter's worker does not leave, nobody who does not stand before it is given a job until the waiter was given one |
| `Line.NeverJamsIff` | internal/server/dispatcher.go:124-127 | over every day, everybody in line has an empty channel at all times if and only if nobody was ever let back in line with a job still in its channel |
| `Line.SendCanBlockIff` | internal/server/dispatcher.go:112-128 | deliveries alone can run into a full channel if and only if somebody in line has one |
| `Line.DisciplineNeverJams` | internal/server/dispatcher.go:124-127 | if each worker frees itself at most once per job it was sent, everybody in line has an empty channel at all times |
| `Line.DisciplineIsNotNeeded` | internal/server/dispatcher.go:57-63 | a freeing message from a worker already in line breaks that rule and does no harm |
| `Line.DoubleFreeJams` | internal/server/stream.go:117-128 | from any desk with an empty line, freeing a worker twice around one delivery jams it |
| `Timer.TimeKeepsCoverIff` | internal/server/dispatcher.go:136-161 | the passing of time ends the timer's cover exactly when it runs past the timer with somebody waiting for a pending job |
| `Timer.TakingWorkKeepsCover` | internal/storage/postgres.go:127-243 | claims, completions and heartbeats by anybody keep the timer's cover |
| `Timer.UnpushedRetryIff` | internal/server/dispatcher.go:57-63 | a failure report no push follows stays covered if and only if nothing was sent back, nobody waits, or a timer still to fire fires in time for it |
| `Timer.UnpushedEnqueueIff` | internal/server/server.go:52-60 | the same for a job enqueued where no push reaches this dispatcher |
| `Timer.SweepKeepsCoverIff` | internal/server/leadership.go:178-194 | a sweep keeps the cover if and only if it returned nothing to the queue, nobody waits, or the timer is still to fire, within the minimum delay |
| `Timer.EventKeepsCoverIff` | internal/storage/postgres.go:95-300 | every statement there is keeps the cover if and only if it turned no row pending, nobody waits, or the timer fires for what arrived |
| `Shift.PromiseKeptIff` | internal/server/dispatcher.go:84-161 | through any shift of admissions, registrations, departures, messages, enqueues, passes and firings, with anybody's statements in between: the dispatcher never got stuck, and whenever the lock was free no pending job was without a push to come while somebody waited, if and only if no send met a full channel and every unannounced arrival, failure report from the line, early end of a pass and departure before a registration was minded |
| `Shift.NoStrandedRetry` | internal/server/dispatcher.go:133-161 | the leader's own error-free steps, with claims, completions and heartbeats by anybody in between, never break that promise and never get the dispatcher stuck |
| `Shift.PushComesInTime` | internal/server/dispatcher.go:147-160 | once the timer covers the queue, a pass has begun by the time a pending job is due, or the minimum delay from now if later, whatever the cluster does meanwhile |
| `Shift.NobodyJumpsTheLine` | internal/server/dispatcher.go:53-128 | the same from any moment of a dispatcher's shift on, through its passes, registrations and departures and whatever the cluster does |
| `Shift.FiredPassFailsIff` | internal/server/dispatcher.go:99-120 | a pass the timer began and that ends early keeps the promise if and only if nobody waits, nothing is pending or another push is on its way |
| `Shift.ShiftIsARun` | internal/server/dispatcher.go:99-131 | every shift is a legal run of the queue, so all that is proved of runs holds of a dispatcher at work |
| `Pass.PassServesAPrefix` | internal/server/dispatcher.go:112-128 | whatever lands between its claims, a pass serves a prefix of the line in registration order and leaves the rest of the line alone |
| `Pass.HandoversAreGranted` | internal/storage/postgres.go:127-163 | each job handed out was visible at that moment, and that claim leased it to the worker served and touched no other row |
| `Pass.PassHandsOutDistinctAttempts` | internal/server/dispatcher.go:112-128 | whatever lands between its claims, no attempt at a job is handed out twice |
| `Pass.PassHandsOutDistinctJobs` | internal/server/dispatcher.go:112-128 | unless a failure report or sweep lands in between, the jobs handed out are distinct, and each is still its worker's, or done by it, when the claiming ends |
| `Pass.PassFillsOneChannelEach` | internal/server/dispatcher.go:124-127 | each worker served is given exactly its own job, still in its channel or already received; nobody else is given anything |
| `Stranded.RetryCanBeStranded` | internal/server/stream.go:80-84 | a shift from a server's start to a retry with a waiter, no timer and no push to come |
| `Stranded.ReapedJobCanBeStranded` | internal/server/leadership.go:179 | the same for a reaped job |
| `Stranded.FailedPassCanStrand` | internal/server/dispatcher.go:115-119 | the same for a retry whose timer fired into a pass that failed |
| `Dispatcher.Dispatcher.PushLocked` | internal/server/dispatcher.go:99-131 | with any script of others' statements between its own, a pass stays a legal shift; the claiming is all that the pass lemmas say; it fails exactly in the round whose claim the store failed, or on a failed timer query with somebody left in line, so a leader's pass without store errors settles or blocks; it settles only at an empty line or with nothing visible, the timer then covering every pending job, and otherwise leaves the timer as it was; it blocks only in a crowded line |
| `Dispatcher.Dispatcher.ArmLocked` | internal/server/dispatcher.go:136-161 | with a waiter and a pending job the timer is set for the least due time, or 100 ms from now if that is later, and some job is claimable when it fires |
| `Dispatcher.Dispatcher.Register` | internal/server/dispatcher.go:53-67 | a worker in line is ignored and nothing is pushed; otherwise it joins the end, and what is left of the line is a tail of that; the pass is skipped exactly when this node does not believe it leads, fails only on a store error, and settled leaves the timer covering what is pending; it blocks only if the worker is let in with a job in its channel or into a crowded line |
| `Dispatcher.Dispatcher.Forget` | internal/server/dispatcher.go:72-82 | exactly the departed worker's entry is gone, everybody else stands in the order they stood in, a departure of somebody not in line changes nothing, and a registration it owed will not come |
| `Dispatcher.Dispatcher.Push` | internal/server/dispatcher.go:84-95 | an enqueue's push makes a pass unless the server is shutting down, in which case nothing changes; without a store error a leader's pass settles or blocks; settled, the timer covers every pending job |
| `Dispatcher.Dispatcher.Fire` | internal/server/dispatcher.go:155-160 | a timer that fires is no longer set; only a settled pass sets it again, covering what is pending; without a store error a leader's pass settles or blocks |
| `Dispatcher.Dispatcher.Enqueue` | internal/server/server.go:52-60 | the job is stored, then pushed for, with others' statements in between; without a store error a leader's pass settles or blocks, and settled leaves it covered if nobody took it; a lost reply means no push |
| `Dispatcher.Dispatcher.Admit` | internal/server/stream.go:28-65 | a stream is admitted if and only if it names a worker and this node believes it leads; it joins the end of the line; without a store error the pass settles or blocks; admitting never blocks in an uncrowded line |
| `Dispatcher.Dispatcher.OnMessage` | internal/server/stream.go:73-84 | the message is carried out on the table as it was, a completion as one and a failure as one, is answered about its own job, a refused heartbeat with Lost, and registers its worker again exactly when it frees it; the pass that follows fails only on a store error; a disciplined worker never blocks the dispatcher and stays disciplined |

## Left out

- The etcd election: its session and revision behaviour lives in a library outside the repository. The queue's theorems assume only increasing terms, so they apply to any election that gives them; switching mechanisms on a live cluster is not modelled.
- gRPC transport, generated protobuf code, signals, shutdown grace, logging, config, the producer and the fence probe: plumbing and easy members.
- The worker's handlers, reconnection and cancel slot: simulated work and goroutine races. Only the beat interval is modelled.
- The reaper's ticker loop: a sweep is one step, and how often sweeps come is a hypothesis of `SilentJobIsRecovered`. That timers fire on time is one of `PushComesInTime`.
- A send that blocks and is later released by its receiver, possible when the pass runs on another stream's goroutine: the model ends the pass there. When it runs on the receiver's own, nobody can release it.
- Postgres row locks and SKIP LOCKED: a claim takes any one visible row, atomically; a dequeue that skips a row another statement holds is not modelled.
- Payloads, job types, generated ids for jobs sent without one, int32 and int64 overflow, floating-point seconds.
- Dispatcher.Dispatcher.PushLocked: when a claim's reply is lost the contract does not say which extra row was claimed for the worker that stays in line.
- Dispatcher.Dispatcher.OnMessage: a stream's other select cases (send errors, the end of its context or reign) only end the stream, which is `Forget`; a reply that cannot be sent is that too, with the registration still owed.
