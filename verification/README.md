# Uppercut, modelled and verified

Uppercut is a small actor runtime: one event-loop thread owns the tables of a scheduler and exchanges actors with a set of
worker threads over two unbounded channels. This project models that runtime, the thread pool under it, the TCP bridge
beside it and the two distributed examples that run on it (a Paxos-style log and a gossip membership protocol), and
proves what they promise.

`dafny verify dfyconfig.toml` checks everything.

## What is modelled

**The runtime** (`src/core.rs`). `Scheduler` gives the loop's tables and what one pass through its `match` does to them.
`EventLoop.Loop` is the loop as the object it is, with its heap of delayed messages, its counters and its adaptive timeout;
`WorkerThread.Worker` is a worker with its `Local`. `ActorSystem` puts them together as a step relation: one step is one
atomic act of one thread, so its runs are the interleavings of the threads. `LoopThread` and `WorkerThread` prove that what
the two objects do, over any number of turns and with any steps of the other threads in between, is a run of that relation.
`LoopLaws` says what a run of the loop comes to in its rounds and tables alone: when it leaves, what each counter counts,
when a report goes out, what is popped.
On top of it stand

- `Conservation`: every actor ever made is in exactly one place, is stopped at most once, never after it failed, and gets
  no mail after its Stop event;
- `Exclusivity`: one actor per address, exactly when no address is registered while an actor of that address is still on
  its way; a run of two workers in which two actors work for one address at the same time; no lost wake-up;
- `Order`: messages from one sender to one address are handled in the order they were sent;
- `ActorModel` and `Refinement`: the model users have in mind (an address, an actor, a mailbox, one message at a time), and
  that every run that is safe in the sense of `Exclusivity` is one of its lives;
- `Handshake`: once the loop is over, a bounded number of steps takes every event that was already sent and ends every
  worker;
- `Shutdown`: whom a shutdown stops, which is exactly those whose Stop event was out when the loop ended.

**The pool** (`src/pool.rs`). `Pool` is the state machine of the shared job channel, with a bound on how long a drop takes;
`PoolObject.ThreadPool` is the object.

**Paxos** (`examples/paxos.rs`). `Paxos` is one node, `PaxosNet` any number of them on a network that loses, repeats and
reorders, `PaxosAgreement` the agreement theorem and the three conditions on delivery it needs, `PaxosNecessity` three runs
that show that none of the three can be dropped. `PaxosQuorums` is about any delivery at all: whom a node counts, and that
a majority stands behind everything it broadcasts. `PaxosCodec` is the bytes.

**Gossip** (`examples/gossip.rs`). `GossipMessages` has its messages, `Gossip` is one agent, `GossipMerge` its merge as a
join, `GossipHistory` the events it reports, `GossipLaws` when a peer is last heard of and reported out and what is
answered, `GossipNet` any number of agents, `RelayCoverage` whose turn it is to be relayed, `GossipCodec` the bytes.

**Remote** (`src/remote`). `Packets` is the wire format and its parser, `Reassembly` what becomes of a stream that arrives
in pieces, `Addresses` the text of addresses, `Remote` the client, the connection, and what reaches an actor on another
host and comes back.

`Wrappers`, `Counting`, `Words` and `Buffers` are shared: an option type, counting in sequences, big-endian numbers and
UTF-8, the byte buffers.

## What the proofs show about the code

- One actor per address is not unconditional. Stop an actor that is at work, register its address again before it comes
  back, and the old actor returns under the new registration (`Exclusivity.TwoActorsAtOneAddress`). The design guide says
  that all envelopes to an address are received by the actor bound to it; that holds exactly for the runs in which no
  address is registered too early (`Exclusivity.ExclusiveExactlyWhenSafe`).
- The design guide says that a shutdown stops all actors and drops all undelivered messages. In the code, mail already
  sent to the workers is still handled (`Handshake.ShutdownCompletes`). And `on_stop` runs for exactly those actors whose
  Stop event was out when the loop ended (`Shutdown.StoppedExactlyWhenSent`): every actor that is idle then is dropped
  without it (`Shutdown.IdleIsDropped`), and from any start there is a run that shows it (`Shutdown.ShutdownSkipsIdle`).
- A node of the Paxos example forgets how far it is when a late Selected arrives, and its promises are not tagged with a
  number. Agreement needs three conditions on delivery, each shown to be needed.
- A packet with nothing in it is not parsed when it is the last in the buffer, because the parser asks for more than a
  header (`Packets.RoundTripExactlyWhen`). The comment on `PACKET_SIZE_LIMIT` speaks of a 12-byte header; the header is
  14 bytes, so the payload limit is two bytes less than it says.
- `from_bytes` reads the header of a packet before it looks whether all of the packet is there, and never goes back. A
  packet of which more than the header but not the end has come is lost, and what follows it is misread. A stream of
  packets arrives in full exactly when no piece ends there (`Reassembly.ArrivesExactlyWhen`); a connection reads at most
  1024 bytes at a time. `Reassembly.CutPacketIsLost` is a packet of 30 bytes that closes its connection.
- An address splits back into what it was joined from exactly when neither half holds an `@`.
- The client files a new connection under the printed form of the address it parsed and then looks it up by the text it
  was given, so a host written in another form panics the client. For a printed IP address and any numeral as its port,
  that is exactly when the numeral has a zero in front (`Remote.NewHostIsSentExactlyWhen`).
- A gossip agent relays everybody exactly when its period and the number of live peers are coprime
  (`RelayCoverage.TickingRelaysAllExactlyWhenCoprime`).
- A failure of an actor ends a turn of the loop before the test for an empty system, so an eager shutdown waits for the
  next turn (`EventLoop.Loop.Turn`).

## Assumptions

- A channel is a FIFO sequence, one act of one thread is one step, and the clock of the loop and of the agents is
  whatever the run says; where a clock must not go back, the statement says so.
- Actor code is arbitrary: it may send, spawn, delay, stop, log and panic as it likes. It returns in the end, and `on_fail`
  and `on_stop` do not panic.
- The step relation does not look at the clock or the configuration: a delayed message may expire at any time, the earliest
  first, and the loop may end whenever nothing is registered. Every run the code allows is among its runs.
- The heap of delayed messages is a multiset; a pop takes some entry that none compares greater than.
- Rust's parser of socket addresses accepts zeros in front of a port and reads the number.
- The `ByteStream` of the `parsed` crate is a buffer with a read cursor: `len` counts what has not been pulled, reading
  moves the cursor, and `pull` drops what was read. That crate is not part of this model.
- The serial number and origin in an envelope's stamp, and the history in a system state, are bookkeeping of the model: no
  branch reads them, except that a newly boxed actor is told apart from all earlier ones.

## Model

| member | source | states |
|---|---|---|
| `Scheduler.HandleKeepsGood` | src/core.rs:391-455 | whatever action comes, however late, the mailboxes stay exactly those of the registered addresses and an idle actor's mailbox stays empty |
| `Scheduler.HandleMail` | src/core.rs:391-455 | one action moves messages of an address from arrival to mailbox to workers in order, none lost, none twice; nothing goes to the workers for an address that is or becomes unregistered |
| `Scheduler.AcceptedIsDispatchedThenQueued` | src/core.rs:400-432 | over any list of actions: per registration, the messages accepted are those dispatched followed by those still queued |
| `Scheduler.AcceptedSplits` | src/core.rs:391-455 | over all registrations of an address, accepted = dispatched + queued + thrown away by a stop or a failure |
| `EventLoop.TopExists` | src/core.rs:190-201 | a non-empty heap has an entry that none compares greater than under the reversed order of times |
| `EventLoop.NothingDueLeft` | src/core.rs:478-488 | a drain that ends leaves exactly what is later than the cutoff, and what it popped was due and came in time order |
| `EventLoop.EarlierFirst` | src/core.rs:190-201 | of two entries held together, the strictly earlier is popped, and before the later |
| `EventLoop.TimeoutStaysInRange` | src/core.rs:382-388 | halving and doubling keep the timeout a power of two from 1 to 256 |
| `EventLoop.RegisteredCount` | src/core.rs:391-455 | the number of registered addresses changes by exactly the spawns minus stops minus failures that the counters record |
| `EventLoop.BooksOfHit` | src/core.rs:387-471 | an action keeps the books: registered + stops + failures = base + spawns, queues = messages, ticks + failures = hit + miss at the loop head |
| `EventLoop.BooksOfMiss` | src/core.rs:472-490 | a time-out keeps the books |
| `EventLoop.BooksOfReset` | src/core.rs:507 | a metrics reset starts balanced books |
| `EventLoop.HandleOnTables` | src/core.rs:391-455 | what an action does to the tables and the workers does not depend on the delay heap |
| `EventLoop.Loop.constructor` | src/core.rs:119-129 | the loop starts with empty tables, balanced books and the longest timeout |
| `EventLoop.Loop.OnReturn` | src/core.rs:391-418 | the three cases of a returning actor: failed, next message or idle, or stopped in the meantime; the whole new state |
| `EventLoop.Loop.OnQueue` | src/core.rs:419-432 | a message for a registered address goes to its idle actor or into its mailbox, any other is dropped; no lookup misses |
| `EventLoop.Loop.OnSpawn` | src/core.rs:433-441 | a free address is registered with its actor and an empty mailbox, a taken one is left alone |
| `EventLoop.Loop.OnStop` | src/core.rs:446-455 | the address is given up with its mailbox, and an idle actor goes to the workers to be stopped |
| `EventLoop.Loop.Dispatch` | src/core.rs:390-471 | the whole match computes the tables, events and counters of the specification, for every action |
| `EventLoop.Loop.Peek` | src/core.rs:478-482 | shows some entry that none compares greater than, if there is one |
| `EventLoop.Loop.Drain` | src/core.rs:477-488 | every entry due within half the delay precision is posted once, in time order, and every other stays |
| `EventLoop.Loop.Take` | src/core.rs:386-475 | the first half of a turn: action or time-out, its counters and the adapted timeout |
| `EventLoop.Loop.Tick` | src/core.rs:490-522 | the second half: the tick, the report and reset when one is due, and the test for an empty system |
| `EventLoop.Loop.Turn` | src/core.rs:385-523 | one turn: tables, events, posted messages, timeout, heap and every counter after it, what is reported, when the counters start over, and exactly when the loop leaves |
| `EventLoop.Loop.Run` | src/core.rs:385-523 | over any rounds: tables, events, posted messages, heap, counters and reports are those of the rounds; what was delayed was popped, in time order, neither early nor late, or is still there; and the loop ends at the first turn that makes it leave |
| `EventLoop.BooksOfTurn` | src/core.rs:385-523 | a whole turn keeps the books, relative to its own end when it starts the counters over |
| `EventLoop.LedgerBalances` | src/core.rs:382-523 | at the loop head of any run, registered + stops + failures = registered at the last reset + spawns, queues = messages, ticks + failures = hit + miss |
| `EventLoop.RunBalances` | src/core.rs:382-523 | the same wherever a run ends, with the final Shutdown counted as received but not as a tick |
| `EventLoop.HitsSinceReset` | src/core.rs:385-475 | what is counted as received and as timed out since the last reset is exactly that |
| `EventLoop.ReportsBalance` | src/core.rs:490-509 | every report sent out balances with the number of addresses it gives, relative to the reset before it |
| `EventLoop.TurnIsTimely` | src/core.rs:477-488 | a turn pops nothing early and leaves nothing due: whatever a later drain finds that an earlier one would have popped was delayed after it |
| `LoopLaws.LeftExactlyWhen` | src/core.rs:385-523 | the loop leaves in a round exactly when that round received a Shutdown, or shutdown is eager and nothing is registered after it, unless the round gave back a failed actor of a registered address |
| `LoopLaws.CountersCount` | src/core.rs:385-490 | over any run each of the eleven counters is the number of rounds of its kind, in what they received and what was registered then, since the last reset |
| `LoopLaws.LastResetIs` | src/core.rs:491-509 | the counters last started over at the last round that was not cut short, found the interval over, and had reporting on |
| `LoopLaws.ActorsAreThoseOfInterval` | src/core.rs:491-497 | with reporting off the count of addresses is that of the last round at whose end the interval was over |
| `LoopLaws.ReportsAreDue` | src/core.rs:499-509 | one report goes out for each round at whose end one is due |
| `LoopLaws.ReportSays` | src/core.rs:490-509 | a report gives the counts since the report before it, its own round included, and how many addresses are registered then |
| `LoopLaws.PoppedExactlyWhenDue` | src/core.rs:477-488 | of what is on the heap when a turn drains it, exactly what lies at most half the precision ahead is popped |
| `LoopThread.DrainIsRun` | src/core.rs:477-488 | what a drain posts, the system posts by letting those entries expire one after the other, each when it is least |
| `LoopThread.TurnIsRun` | src/core.rs:385-523 | any turn of the loop object is a run of the system: to its tables, heap, events and posted messages if it stays, to the end of the loop if it leaves, by Shutdown or because nothing is registered |
| `LoopThread.LapsAreRun` | src/core.rs:385-523 | any number of turns, with any steps of the other threads in between, is a run of the system whose tables and heap are those of the loop object |
| `WorkerThread.Worker.Serve` | src/core.rs:335-364 | for one event the thread sends what the actor sends, then the actor, then its logs and metrics, and stays unless the event is Shutdown |
| `WorkerThread.Worker.Run` | src/core.rs:332-366 | the thread works through its events in order up to the first Shutdown, and its output is the output of each in turn |
| `WorkerThread.Worker.Drain` | src/core.rs:72-91 | logs and metrics go out once, if there are any, and the buffers are empty after |
| `WorkerThread.SendsPrecedeReturn` | src/core.rs:346-353 | for a message: first what receive sends, then after a panic what on_fail sends, then the actor, once and good unless it panicked, then logs and metrics, each once and only if there are any |
| `WorkerThread.StopSendsNoReturn` | src/core.rs:358-364 | for a Stop: what on_stop sends, then logs and metrics; the actor does not go back |
| `WorkerThread.EmitsRun` | src/core.rs:26-53 | what a running actor sends one after the other can be sent step by step, with the same actions in the same order |
| `WorkerThread.ServeIsRun` | src/core.rs:335-364 | what the thread does for any event is a run of the system: the same actions in order, one event less, the worker waiting again or, after Shutdown, gone, nothing else changed |
| `WorkerThread.ShiftsAreRun` | src/core.rs:332-366 | any number of events, with any steps of the other threads in between, is a run of the system in which this worker puts on the channel what the thread object does |
| `ActorSystem.RunsOn` | src/core.rs:332-569 | runs compose: a run followed by a run from where it ended is a run that ends where the second does |
| `Conservation.StepConserved` | src/core.rs:332-569 | every step of every thread keeps each actor made in exactly one place |
| `Conservation.RunConserved` | src/core.rs:332-569 | in every reachable state each actor made is in exactly one place: waiting to be spawned, idle, in a Mail event, at work, returning, being stopped, stopped, failed, refused, overwritten or dropped at the end |
| `Conservation.LoopNeverPanics` | src/core.rs:400 | in every reachable state the loop can take whatever is next on its channel: no mailbox lookup misses |
| `Conservation.StoppedOnce` | src/core.rs:340-361 | an actor is stopped at most once and never after it failed, and has left service when it is being stopped |
| `Conservation.NoMailAfterStop` | src/core.rs:411-455 | once an actor's Stop event is out, no mail, no worker turn and no return of it ever comes again |
| `Exclusivity.TakeAt` | src/core.rs:391-455 | how taking an action changes the number of actors of an address |
| `Exclusivity.StepExclusive` | src/core.rs:391-441 | from a state with at most one actor per address, a step leads to such a state exactly when it does not register an address with an actor still on its way |
| `Exclusivity.ExclusiveExactlyWhenSafe` | src/core.rs:391-455 | a run has at most one actor per address throughout exactly when it never registers an address too early |
| `Exclusivity.TwoActorsAtOneAddress` | src/core.rs:391-455 | with two workers there is a run, for any address, at whose end two different actors are at work for it |
| `Exclusivity.StepLosesNothing` | src/core.rs:391-441 | while addresses are exclusive no idle actor is overwritten |
| `Exclusivity.SafeRunKeepsActors` | src/core.rs:332-569 | in a safe run each actor made is in exactly one place, none of them overwritten, and its address has at most one |
| `Exclusivity.RunAwake` | src/core.rs:391-455 | in any run every registered address keeps an actor that is idle or will report back |
| `Exclusivity.NoLostWakeUp` | src/core.rs:400-431 | in any run, when a mailbox has mail its actor is not idle and one is on its way that will make the loop look again |
| `Order.StepOrdered` | src/core.rs:346-353 | every step keeps what was started, sent to workers, queued and on the channel for an address in the order it was sent |
| `Order.HandledInOrderOfSending` | src/core.rs:385-432 | in any run, what workers start on for an address was sent to it, each message once, in the order of sending |
| `Order.PairwiseOrder` | src/core.rs:26-30 | in any run, what one sender's messages to one address lead to there is, in order, a subsequence of what it sent there |
| `ActorModel.StoryAgrees` | src/core.rs:385-471 | what a life of the model says about an address agrees with what is at that address |
| `ActorModel.ModelGuarantees` | src/core.rs:385-471 | in every life of the model, per registration, messages are started in the order they were accepted, by the registered actor, one at a time, at most one of them after the registration is over |
| `Refinement.InitSim` | src/core.rs:119-129 | the empty runtime stands for the empty model |
| `Refinement.TakeSim` | src/core.rs:391-455 | the loop taking any action is a move of the model |
| `Refinement.CloseSim` | src/core.rs:467 | the end of the loop, with mail under way, is a move of the model |
| `Refinement.DrainSim` | src/core.rs:560-568 | dropping what comes back after the loop is over is a move of the model |
| `Refinement.PickMailSim` | src/core.rs:340-347 | a worker taking mail is the model starting the first message of the mailbox |
| `Refinement.GiveBackSim` | src/core.rs:349-353 | a worker returning an actor ends its turn in the model |
| `Refinement.StepSim` | src/core.rs:332-569 | every safe step of any thread is allowed in the model and leads to corresponding states |
| `Refinement.RunSim` | src/core.rs:332-569 | every safe run is a life of the model, step by step |
| `Refinement.RuntimeRefinesModel` | src/core.rs:332-569 | so it is from the start of the runtime, whatever the interleaving |
| `Refinement.RuntimeGuarantees` | src/core.rs:332-569 | so in every safe run, per registration, messages are handled in the order the loop accepted them, one at a time, by the registered actor only |
| `Handshake.StepAgreed` | src/core.rs:332-366 | every step keeps live workers equal to Shutdown tokens sent and still to be sent once the loop is over, with all tokens behind all other events |
| `Handshake.StepMeasure` | src/core.rs:549-569 | once the loop is over every step towards the end uses up a measure and no other step adds to it |
| `Handshake.ShutdownIsBounded` | src/core.rs:549-569 | so the measure bounds the steps towards the end in any further run |
| `Handshake.SomethingCanProgress` | src/core.rs:335-366 | while a worker is left, some step towards the end is possible: none waits forever |
| `Handshake.ShutdownCompletes` | src/core.rs:549-569 | the first token is only taken when nothing else is left, and when no such step is possible any more, every worker has exited and every event was taken |
| `Shutdown.ClosingStopsNobody` | src/core.rs:549-569 | once the loop is over, no step of any thread changes who is being or has been stopped |
| `Shutdown.ShutdownStopsNobody` | src/core.rs:549-569 | nor does any run |
| `Shutdown.StoppedExactlyWhenSent` | src/core.rs:549-569 | when all is over, on_stop has run for exactly those whose Stop event was out when the loop ended, once each |
| `Shutdown.IdleIsDropped` | src/core.rs:467-524 | in any run, every actor that is idle when the loop ends is dropped and never stopped |
| `Shutdown.CanComplete` | src/core.rs:332-366 | from wherever the loop ends the rest can be run to its end |
| `Shutdown.ShutdownSkipsIdle` | src/core.rs:549-569 | with any number of workers there is a complete run, from the start to the exit of every worker, in which a registered actor that never failed is dropped and never stopped |
| `Pool.StepConserved` | src/pool.rs:44-61 | every step keeps each submitted task in exactly one place |
| `Pool.StepAgreed` | src/pool.rs:64-102 | every step keeps live threads equal to Stops queued and still to be sent once the drop began, with tasks submitted before it ahead of every Stop |
| `Pool.DropRunsEverything` | src/pool.rs:64-75 | when the drop returns, every task submitted before it began has run exactly once, unless the pool has no thread, when none has |
| `Pool.NothingRunsTwice` | src/pool.rs:90-100 | no task ever runs twice, dropped or not |
| `Pool.DropCannotHang` | src/pool.rs:64-75 | until the drop has returned, a Stop, a job, a task or a join can go on |
| `Pool.StepMeasure` | src/pool.rs:64-102 | once the drop began every step but a submit uses up a measure, and a submit adds to it only while Stops are still being sent |
| `Pool.DropIsBounded` | src/pool.rs:64-102 | so the steps of the pool in any run are bounded by that measure and two for each such submit |
| `Pool.DropReturns` | src/pool.rs:64-75 | from where any drop begins its steps are so bounded, and when nothing but a submit is possible any more it has returned |
| `PoolObject.ThreadPool.constructor` | src/pool.rs:26-42 | a new pool has an empty channel and that many waiting threads |
| `PoolObject.ThreadPool.Submit` | src/pool.rs:44-50 | a task goes to the end of the channel |
| `PoolObject.ThreadPool.TellAll` | src/pool.rs:66-68 | the first loop of the drop puts one Stop per thread behind everything queued |
| `PoolObject.ThreadPool.JoinAll` | src/pool.rs:70-74 | the second loop ends, whatever threads act while it waits: every join returns and the drop is complete |
| `PoolObject.ThreadPool.Drop` | src/pool.rs:64-76 | the drop returns, and then every task submitted before it has run exactly once, if there is any thread |
| `PoolObject.ThreadPool.Receive` | src/pool.rs:91-98 | a thread takes the first job and ends if it is a Stop |
| `PoolObject.ThreadPool.Finish` | src/pool.rs:93-97 | a task is done once, whether it returns or panics |
| `PoolObject.ThreadPool.Work` | src/pool.rs:90-101 | a turn of a thread that nobody disturbs: the first job is taken and run once, or the thread ends |
| `PoolObject.TellAllIsRun` | src/pool.rs:64-68 | the drop up to its joins is a run of the state machine |
| `PoolObject.WorkIsRun` | src/pool.rs:90-101 | and so is a turn of a thread |
| `Paxos.NumberGoesDownExactlyWhen` | examples/paxos.rs:157-227 | a node's number goes down exactly when a Selected with a lower number arrives |
| `Paxos.FieldsChangeOnlyWhen` | examples/paxos.rs:157-227 | which message changes which field, to what, and that every other message leaves it alone; an acceptance counts only above the last number announced |
| `Paxos.GatheringSettlesAtMajority` | examples/paxos.rs:175-213 | one more promise or acceptance settles the number and starts the gathering over exactly when a majority has spoken, and is kept otherwise |
| `Paxos.ProposalsAreAnswered` | examples/paxos.rs:167-198 | every Prepare and Accept, and nothing else, is answered once to its sender for its own number, favourably exactly when the number is news or not outdated |
| `Paxos.ProposalIsNewExactlyWhen` | examples/paxos.rs:159-166 | a request starts a proposal above every number the node has seen exactly when that is not the last number there is |
| `Paxos.Agent.constructor` | examples/paxos.rs:141-154 | a new node has seen no number, promised nothing and stored nothing |
| `Paxos.Agent.Broadcast` | examples/paxos.rs:162-165 | one copy for each peer, in the order of the peers |
| `Paxos.Agent.TellClients` | examples/paxos.rs:220-223 | one copy for each client and nobody else |
| `Paxos.Agent.HandleMessage` | examples/paxos.rs:157-227 | every branch: the whole new state and the messages to be sent |
| `PaxosNet.SentByDelivery` | examples/paxos.rs:157-227 | what a delivery adds to the messages in flight is exactly what that message causes at that node |
| `PaxosNet.StepTraced` | examples/paxos.rs:157-227 | every step keeps each message and each stored choice traceable to what caused it |
| `PaxosNet.Validity` | examples/paxos.rs:192-223 | in any run, with any loss, repetition and reordering, the value of a Selected was requested by a client; one to a node follows an Accept for it by the same proposer, one to a client follows a Selected to the node that tells it |
| `PaxosNet.StoredValidity` | examples/paxos.rs:216-218 | the same for whatever a node has stored |
| `PaxosAgreement.StepNumbered` | examples/paxos.rs:175-213 | every step keeps the numbers of a node's proposals and announcements within what it remembers |
| `PaxosAgreement.RunNumbered` | examples/paxos.rs:175-213 | and so does every run, whatever is delivered |
| `PaxosAgreement.BroadcastsIncrease` | examples/paxos.rs:175-213 | in any run, however messages are delivered, a node that broadcasts an Accept, or a Selected to the nodes, gives it a higher number than any it broadcast before |
| `PaxosAgreement.MajoritiesMeet` | examples/paxos.rs:229-231 | two quorums share a node |
| `PaxosAgreement.QuorumBacks` | examples/paxos.rs:175-188 | under orderly delivery a node that proposes has promises for that very number from a majority |
| `PaxosAgreement.OneProposerPerNumber` | examples/paxos.rs:167-173 | no two nodes have a majority of promises for one number |
| `PaxosAgreement.StepBallots` | examples/paxos.rs:157-227 | every orderly step keeps: each proposal backed by a majority, each number promised once per node and proposed with one value |
| `PaxosAgreement.Agreement` | examples/paxos.rs:157-231 | in any run with orderly delivery, two Selected messages with one number carry one value |
| `PaxosAgreement.LogsAgree` | examples/paxos.rs:216-218 | and so do any two entries in the logs of any nodes |
| `PaxosQuorums.CountedSaidSo` | examples/paxos.rs:175-213 | in any run, whoever a node counts for a promise or an acceptance is a node that has sent it one, with a number above the last it settled |
| `PaxosQuorums.AnnouncedByMajority` | examples/paxos.rs:199-213 | in any run, when a node broadcasts a Selected, a majority has each sent it an acceptance with a number above every Selected it broadcast before |
| `PaxosQuorums.ProposedByMajority` | examples/paxos.rs:175-188 | in any run, when a node broadcasts an Accept, a majority has each sent it a promise with a number above every Accept it broadcast before |
| `PaxosQuorums.ClientsAreTold` | examples/paxos.rs:159-223 | in any run, whoever asked a node for a value is told by it of every choice it hears of afterwards |
| `PaxosNecessity.LateSelectedBreaksAgreement` | examples/paxos.rs:216-219 | for any three nodes and two values there is a run in which only a late Selected breaks the conditions, and both values are announced for one number |
| `PaxosNecessity.RequestMeanwhileBreaksAgreement` | examples/paxos.rs:159-166 | the same when only a request that comes while promises are gathered breaks them |
| `PaxosNecessity.OldPromiseBreaksAgreement` | examples/paxos.rs:175-180 | the same when only a promise for an older number breaks them |
| `PaxosCodec.Encode` | examples/paxos.rs:34-77 | writing a message field by field gives its encoding |
| `PaxosCodec.Decode` | examples/paxos.rs:79-104 | reading field by field gives the decoding, or a panic when bytes are missing |
| `PaxosCodec.DecodeEncoded` | examples/paxos.rs:34-104 | decoding undoes encoding for every message, whatever follows it |
| `PaxosCodec.NoPrefix` | examples/paxos.rs:34-77 | different messages have different bytes, and none is the beginning of another |
| `PaxosCodec.Layout` | examples/paxos.rs:34-77 | the kind in one byte, then the number, then the value, eight bytes each |
| `PaxosCodec.CutShort` | examples/paxos.rs:79-104 | reading a message that is cut short anywhere panics |
| `PaxosCodec.UnknownIsEmpty` | examples/paxos.rs:100-102 | an unknown first byte is read as an empty message |
| `Gossip.Find` | examples/gossip.rs:98 | finds the first peer with the tag |
| `Gossip.DetectFindsStale` | examples/gossip.rs:79-90 | after a detection exactly those are down who were, or who have not been heard of for longer than the horizon |
| `Gossip.FreshAreKnown` | examples/gossip.rs:63-68 | the live peers are exactly those heard of within the horizon, with the beat on record |
| `Gossip.Agent.Detect` | examples/gossip.rs:79-90 | reports each newly stale peer once and remembers it |
| `Gossip.Agent.Accept` | examples/gossip.rs:92-117 | merges the list, reports the new peers in order and then the stale ones |
| `Gossip.Agent.Receive` | examples/gossip.rs:205-253 | for every message that comes as bytes: the new state, what is sent, reported and asked of the runtime, and the events |
| `Gossip.Agent.OnTick` | examples/gossip.rs:254-271 | the beat goes up by one, every period-th time the agent detects and relays to every peer, and it asks for the next tick |
| `Gossip.Agent.OnInit` | examples/gossip.rs:272-292 | all settings are taken over, a first tick is asked for, and a ping goes to each address given |
| `GossipMerge.JoinIsUnique` | examples/gossip.rs:92-113 | the pointwise maximum of a beat map and a set of rumors is unique, and only the set matters |
| `GossipMerge.JoinIsLeast` | examples/gossip.rs:92-113 | more rumors lead to no smaller map |
| `GossipMerge.AcceptIsJoin` | examples/gossip.rs:92-113 | the loop of accept keeps tags unique and makes the beats the pointwise maximum of the old ones and the list, without the agent itself |
| `GossipMerge.HearIsJoin` | examples/gossip.rs:92-113 | and so does any sequence of lists at any times, with all of them together |
| `GossipMerge.OnlyRumorsMatter` | examples/gossip.rs:92-113 | so the beats do not depend on the order, grouping or repetition of what was heard, nor on the clock |
| `GossipHistory.PeerHistory` | examples/gossip.rs:79-294 | over any life of an agent, whatever messages, ticks and settings it gets, the events about each peer are a prefix of New, Out, and say exactly whether it is known and whether it is down |
| `GossipHistory.DoTold` | examples/gossip.rs:203-294 | whatever happens to an agent, its events account for exactly the change in whom it knows and whom it holds for down |
| `GossipHistory.OnlyStaleGoOut` | examples/gossip.rs:79-90 | a peer is only reported out when it is known and has not been heard of for longer than the horizon |
| `GossipLaws.SeenAfterAccept` | examples/gossip.rs:92-113 | an accept notes its own time for exactly the peers that are new to it or whose beat it raises |
| `GossipLaws.OutExactlyWhen` | examples/gossip.rs:79-117 | a peer is reported out exactly when the agent looks, knows it, does not hold it for down, and has noted a time more than the horizon back |
| `GossipLaws.OutMeansSilent` | examples/gossip.rs:79-113 | over any life with a clock that does not go back, a peer reported out was not raised by any rumor at a moment from which the horizon would reach that time |
| `GossipLaws.OnlyStrangersPingsAreAnswered` | examples/gossip.rs:203-253 | only a Ping from a stranger is answered, to its sender with the current beat; a Stop asks for the end and reports it; the rest is silent |
| `GossipLaws.MessagesKeepSettings` | examples/gossip.rs:203-253 | no message that comes as bytes changes the settings or the beat; exactly a Ping or Pong names the agent |
| `GossipLaws.StrangersBecomeKnown` | examples/gossip.rs:205-245 | a Ping or Pong makes its sender known exactly when it is a stranger and not the agent under its new name |
| `GossipLaws.RelayEndsWithSelf` | examples/gossip.rs:62-77 | a relay ends with the agent itself, and has one live peer before it exactly when there are at least two |
| `GossipLaws.TickWritesToAll` | examples/gossip.rs:254-271 | on every period-th beat, and no other, a Tick writes the same to each peer on record, live or not; it always asks for the next Tick once |
| `GossipLaws.SettingsTakeEffect` | examples/gossip.rs:272-292 | tick, period, pings and countdown of an Init decide the next Tick, the rounds, the pings and the report of the end |
| `GossipLaws.HorizonTakesEffect` | examples/gossip.rs:272-292 | the horizon of an Init decides which peers the next round reports out |
| `GossipNet.StepTruthful` | examples/gossip.rs:203-294 | every step of any agent on any network keeps every record, kept or on its way, within the beat of the agent it is about |
| `GossipNet.NobodyIsAhead` | examples/gossip.rs:203-294 | so no record is ever ahead of the agent it is about, in any reachable state |
| `GossipNet.RecordsNeverDecrease` | examples/gossip.rs:98-112 | over any run whoever is known stays known, and with no lower beat |
| `RelayCoverage.RelayedInRound` | examples/gossip.rs:62-77 | what is relayed in a round is the live peer at position round * period modulo their number, and the agent itself |
| `RelayCoverage.Bezout` | examples/gossip.rs:73 | the common divisor that Euclid's algorithm finds is a combination of both numbers |
| `RelayCoverage.PositionIsMultiple` | examples/gossip.rs:73 | every position relayed is a multiple of gcd(period, peers) |
| `RelayCoverage.MultipleIsRelayed` | examples/gossip.rs:73 | every multiple comes up within as many rounds as there are peers, from any round on |
| `RelayCoverage.RelayedPositions` | examples/gossip.rs:73 | the positions that come up in as many consecutive rounds as there are peers are exactly the multiples of gcd(period, peers) |
| `RelayCoverage.AllRelayedExactlyWhenCoprime` | examples/gossip.rs:73 | all positions come up exactly when period and number of peers are coprime |
| `RelayCoverage.TicksRelay` | examples/gossip.rs:254-271 | over any ticks, whoever is relayed is the live peer that one of the rounds among them comes to |
| `RelayCoverage.TickingRelays` | examples/gossip.rs:254-271 | an agent with a fixed list of live peers, ticked through as many rounds as there are live peers from any beat on, relays exactly the peers at the multiples of gcd(period, peers) |
| `RelayCoverage.TickingRelaysAllExactlyWhenCoprime` | examples/gossip.rs:254-271 | so it relays all of them exactly when period and number of peers are coprime |
| `GossipCodec.Encode` | examples/gossip.rs:131-165 | writing a message gives its encoding, with lengths cut to a byte |
| `GossipCodec.Decode` | examples/gossip.rs:167-200 | reading gives the decoding, or a panic on missing bytes or invalid UTF-8 |
| `GossipCodec.DecodeEncoded` | examples/gossip.rs:131-200 | decoding undoes encoding for every message that fits, whatever follows it |
| `GossipCodec.DecodedFits` | examples/gossip.rs:167-200 | whatever can be decoded fits |
| `GossipCodec.RoundTripExactlyWhenFits` | examples/gossip.rs:131-200 | a message survives exactly when its names and lists have at most 255 bytes and pairs, and it is not an Init |
| `GossipCodec.NoPrefix` | examples/gossip.rs:131-165 | of two messages that fit, neither encoding is the beginning of the other |
| `GossipCodec.PairLayout` | examples/gossip.rs:135-140 | the length of a name in one byte, the name, and the beat in eight bytes |
| `GossipCodec.PairsLayout` | examples/gossip.rs:147-154 | the pairs of a list follow each other in order and without a gap |
| `GossipCodec.Layout` | examples/gossip.rs:131-165 | the kind in one byte, then the pair, or the number of pairs in one byte and the pairs |
| `GossipCodec.CutShort` | examples/gossip.rs:167-200 | reading a message that fits and is cut short anywhere panics |
| `GossipCodec.UnknownIsTick` | examples/gossip.rs:196-198 | an unknown first byte is read as a Tick |
| `Words.GetPut` | src/remote/packet.rs:30-33 | a big-endian number that fits its width reads back as written |
| `Words.PutGet` | src/remote/packet.rs:45-50 | and bytes read as a number are written back unchanged |
| `Words.MostSignificantFirst` | src/remote/packet.rs:30-33 | the first byte of a number weighs most |
| `Words.TextExactlyWhen` | src/remote/packet.rs:60-61 | bytes are accepted as text exactly when they are what some characters are written as, one after the other, without surrogates |
| `Words.Utf8Concat` | src/remote/server.rs:175 | joining two strings gives a string |
| `Packets.ToBytes` | src/remote/packet.rs:23-38 | writing the fields in order gives the encoding |
| `Packets.ByteStream.FromBytes` | src/remote/packet.rs:40-71 | outcome and rest of the stream for every buffer: too short, too long, incomplete, a packet, or a panic |
| `Packets.ParseEncoded` | src/remote/packet.rs:23-71 | a packet that fits is read back, and what follows it is left |
| `Packets.TooLongIsRefused` | src/remote/packet.rs:51-55 | a packet over the limit is refused as soon as its header is read |
| `Packets.StreamOfPackets` | src/remote/server.rs:164-188 | what repeated parsing makes of any list of packets that fit |
| `Packets.RoundTripExactlyWhen` | src/remote/server.rs:164-188 | it gives exactly the list, and then nothing with nothing left, exactly when the last packet is not a bare header |
| `Packets.ReadHeader` | src/remote/packet.rs:30-33 | the three lengths and the port stand in the first fourteen bytes, in this order, four, four, four and two bytes wide |
| `Packets.ReadFields` | src/remote/packet.rs:34-36 | receiver, sender and payload follow in this order without a gap |
| `Packets.IncompleteIsNothing` | src/remote/packet.rs:40-58 | of a packet that fits, any part short of the whole gives nothing, and stays in the buffer |
| `Packets.StreamWithPart` | src/remote/server.rs:164-188 | whole packets with a part of one more behind them are all read, and all of the part is kept |
| `Packets.AnswersExactly` | src/remote/packet.rs:40-71 | for every buffer read from its start, exactly when the answer is too long, nothing yet, a packet or a panic |
| `Reassembly.Resumes` | src/remote/server.rs:164-188 | for any bytes, as long as no more than a header waits, reading on later gives what reading it all at once gives |
| `Reassembly.WaitingFor` | src/remote/packet.rs:40-58 | the header of what waits has been passed over exactly when more than it has come |
| `Reassembly.ArrivesExactlyWhen` | src/remote/server.rs:144-188 | however a stream of packets is cut into pieces, all of it is read exactly when no cut comes after the header of a packet and before its end |
| `Reassembly.CutPacketIsLost` | src/remote/packet.rs:40-58 | a packet of 30 bytes that comes in pieces of 20 and 10 is lost, and the connection fails |
| `Addresses.CutAtAscii` | src/remote/client.rs:207-211 | cutting a string at an ASCII byte gives two strings |
| `Addresses.PartsRejoin` | src/remote/client.rs:207-211 | the parts of an address joined by @ are the address, and no part holds an @ |
| `Addresses.SplitJoinExactlyWhen` | src/remote/client.rs:205-215 | an address splits into the name and host it was joined from exactly when neither holds an @ |
| `Addresses.SplitTakesTwo` | src/remote/client.rs:205-215 | an address without @ is a name with an empty host; of one with more than one @ what follows the second is dropped |
| `Addresses.ValueOfPadded` | src/remote/server.rs:67 | a padded id reads back as the id, also beyond twelve digits |
| `Addresses.TwelvePlacesExactlyWhen` | src/remote/server.rs:67 | an id takes exactly twelve places as long as it is below ten to the twelfth, and more from there on |
| `Addresses.TagsAreDistinct` | src/remote/server.rs:66-68 | two connection tags are equal exactly when server and id are, whatever the name of the server |
| `Addresses.PortsAreDistinct` | src/remote/server.rs:173-175 | the reply addresses of two ports of one host are different |
| `Addresses.WrittenAsPrintedExactlyWhen` | src/remote/client.rs:45-55 | a host with a numeral as its port is written as it prints exactly when the numeral has no zero in front |
| `Remote.Client.constructor` | src/remote/client.rs:25-40 | a new client knows no destination |
| `Remote.Client.Connect` | src/remote/client.rs:42-57 | a new connection is filed under the printed form of its address, under a new id, and a failed one changes nothing else |
| `Remote.Client.Receive` | src/remote/client.rs:177-202 | a letter to a connected host is sent, whatever its address resolves to; any other is sent, fails or panics as the new connection does; a sent letter appends exactly its packet to what waits for its host and nothing anywhere else |
| `Remote.Client.ReceiveAll` | src/remote/client.rs:177-202 | over any letters to any hosts, what waits for each host grows by exactly the packets of the letters sent to it, in order; and exactly when a letter is sent |
| `Remote.NewHostIsSentExactlyWhen` | src/remote/client.rs:104-107 | for every printed IP address and every numeral of a port, a first letter is sent exactly when the numeral has no zero in front, and panics the client otherwise |
| `Remote.Client.Close` | src/remote/client.rs:94-96 | a closed connection is forgotten together with its destination, and no destination is left without a connection |
| `Remote.Connection.KeepOpen` | src/remote/server.rs:131-140 | a closed connection is opened again or asks to be stopped |
| `Remote.Connection.Parse` | src/remote/server.rs:164-188 | everything that can be parsed is posted in order, once each, and a stream that is too long closes the connection |
| `Remote.Connection.Receive` | src/remote/server.rs:144-203 | one round of work: what is posted, written, left in the buffer, and whether it asks to be stopped |
| `Remote.Connection.ReceiveAll` | src/remote/server.rs:144-203 | over any pieces, everything that can be read of them is posted, in order, and nothing else |
| `Remote.PackedMessage` | src/core.rs:572-578 | a message to name@host goes to the client, which packs it for that name and that host |
| `Remote.RemoteDelivery` | src/remote/server.rs:144-188 | of messages to any hosts, what the client sends to one of them, in whatever pieces it comes, is posted there to the actors they name, unchanged, in order, once each, with the sender's name and address, exactly when no piece ends after the header of a packet and before its end |
| `Remote.ReplyComesBackExactlyWhen` | src/remote/server.rs:172-184 | an answer to the address a message came from goes to the client and splits into the sender's name and its host with the port it listens on, exactly when neither holds an @ |
| `Remote.ConnectionsAreLocal` | src/remote/server.rs:107-111 | the server reaches its connections without going through the client |

## Left out

- Sockets, polling, readiness, connection tables of the server, and `write_all`: they become parameters or are omitted.
- The capacity of a `ByteStream`: `put` always has room in the model.
- Logs and metrics: that they are flushed after the actor is returned is modelled, their content and their report are not.
- Actor code, and the dynamic types of messages: a turn sends an arbitrary list of actions; a message is opaque.
- The errors of a closed channel in `worker_loop`: the receiving ends outlive the workers.
- A panic in `on_fail` or `on_stop`, which would end the worker thread.
- `Runtime::start`, `Server::listen` and the start of the client and server actors: wiring.
- 64-bit wrap-around of beats, of `seen + horizon` and of milliseconds in the gossip agent: they are unbounded. The number
  of a Paxos node wraps as in a build without overflow checks.
- Gossip's countdown actor, and the delivery of an agent's own ticks: when an agent ticks is up to the run. An agent that
  has asked to be stopped may still act in the model.
- That the gossip `main` passes its settings in the order horizon, period, tick, while the receiver reads horizon, tick,
  period (`examples/gossip.rs:272`), is wiring; the settings are arbitrary here.
- Gossip agents are addressed by their public address; the local name a runtime knows an agent by is an arbitrary constant
  of the agent. A ping's payload, and with it the tag an agent takes, is the address it was sent to.
- The Paxos client with its retries, and the wiring of the `main` functions.
- `pi`, `ping`, `hello`, `full`, `fail`, `stop` and `remote` examples, configuration, errors and `ip.rs`: no hard property.
- PoolObject.ThreadPool.TellAll: no submit comes in between, and in `JoinAll` no thread but those of the pool acts; `Pool` leaves both open.
- Remote.Client.ReceiveAll: no connection closes between the letters; `Close` says what a closed one leaves.
- Remote.Connection.ReceiveAll: a connection that is kept alive and has nothing to write; `Receive` has the other cases.
- EventLoop.Loop.Run: what the channel gives, the clock and the report interval are parameters of each round.
