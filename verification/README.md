# Verification of the concurrency examples

This project models thirteen of the repository's concurrency packages in Dafny and
proves what each whole protocol guarantees, over every interleaving of any number
of goroutines and with cancellation at any moment.

Every package is modelled twice, and the two are tied together:

- a state machine: `State` holds the shared variables and one program counter per
  goroutine, `Action` names the atomic steps (a critical section, a channel
  rendezvous, an atomic operation, a WaitGroup operation), `Can` says when a step
  is possible and `Apply` what it does. Safety, absence of deadlock, termination
  and the results are theorems about every run of that machine;
- a class in the form of the Go code, with the same fields updated in place and one
  method per atomic section, whose postcondition equates the new state with a step
  of the machine. Where a package's program is closed (`Run`, `Crawl`) a method
  drives the class with an arbitrary scheduler and returns what the Go function
  returns; elsewhere `Settle` runs all calls under way to their end.

`Sums` counts goroutines in a given position, `Runs` turns facts about one step
into facts about every run: invariants hold throughout, and a measure that every
step lowers bounds the length of every schedule.

| file | package |
|---|---|
| dining.dfy | diningphilosophers |
| crawler.dfy, crawlresult.dfy, crawlrace.dfy, crawl.dfy | webcrawler |
| pubsub.dfy, pubsubresult.dfy, pubsubdelivery.dfy, pubsubrace.dfy, broker.dfy | pubsub |
| queue.dfy | boundedqueue |
| pool.dfy | connectionpool |
| keyedlock.dfy | keyedlock |
| bank.dfy | bankaccount |
| barrier.dfy | barrier |
| pipeline.dfy | pipeline |
| singleflight.dfy | singleflight |
| batcher.dfy | batcher |
| metrics.dfy | atomiccounter |
| workerpool.dfy | workerpool |

Three documented or expected properties are not what the code gives. The model
follows the code, shows a run that breaks each and proves what holds instead:

- Crawl's documentation promises the pages reachable up to maxDepth. A page keeps
  the depth of whichever discovery came first, so a race can lose pages behind it.
  `CrawlRace.PromiseIff` gives the exact condition on maxDepth and the number of
  workers; `CrawlResult.VisitedIff` and `CrawlResult.FullCoverage` say what every
  schedule visits.
- An Unsubscribe that meets a Close in progress returns before its channel is
  closed (`PubSubResult.UnsubscribeMayReturnEarly`). `PubSubRace.PromiseIff` gives the
  exact condition on the state in which the call begins, and
  `PubSubProtocol.UnsubscribeCloses` the only reason for an open channel afterwards.
- A singleflight call that begins after a duplicate has returned can still share
  the finished run (`SingleFlight.StaleJoin`); `SingleFlight.JoinsIff` says exactly
  which run a call joins.

## Model

| member | source | states |
|---|---|---|
| `DiningPhilosophers.InvStep` | examples/diningphilosophers/table.go:77-110 | every step of every philosopher and a cancellation keep: a fork is marked exactly while one neighbour holds it, seat tokens equal seated philosophers (at most N - 1), Rounds counts completed critical sections |
| `DiningPhilosophers.RingBreaks` | examples/diningphilosophers/table.go:57-97 | the ring argument: if some philosopher waits for its right fork, one of those who do has a right neighbour who does not, for any N |
| `DiningPhilosophers.LeaveNeverBlocks` | examples/diningphilosophers/table.go:108-110 | whoever is about to leave finds a token in the seat channel |
| `DiningPhilosophers.Progress` | examples/diningphilosophers/table.go:77-110 | deadlock freedom: while anyone is unfinished some philosopher can take a step that needs no cancellation |
| `DiningPhilosophers.Exclusion` | examples/diningphilosophers/table.go:77-97 | over every run no two neighbours hold the fork between them at once |
| `DiningPhilosophers.MeasureStep` | examples/diningphilosophers/table.go:81-94 | every step of every schedule lowers a measure |
| `DiningPhilosophers.WhenFinished` | examples/diningphilosophers/table.go:57-75 | once all have returned, seats and forks are free, and a philosopher failed exactly if it completed fewer than `rounds` rounds, which takes a cancellation |
| `DiningPhilosophers.Terminates` | examples/diningphilosophers/table.go:26-75 | every schedule has at most 7 * rounds * N + 2 states; one that cannot be continued has everyone finished, the table cleared and, if never cancelled, all Rounds equal to rounds |
| `DiningPhilosophers.RightIsMod` | examples/diningphilosophers/table.go:79 | the right neighbour used by the model is the index the code computes |
| `DiningPhilosophers.Table.SitDown` | examples/diningphilosophers/table.go:99-106 | sit takes a free seat or, if the context is done, may fail; with both ready either can happen |
| `DiningPhilosophers.Table.GetUp` | examples/diningphilosophers/table.go:108-110 | leave returns the token and leads to the next round or to the end |
| `DiningPhilosophers.Table.Step` | examples/diningphilosophers/table.go:77-97 | each branch of dine changes the shared state by one step of the model |
| `DiningPhilosophers.Run` | examples/diningphilosophers/table.go:26-75 | Run always returns what its goroutines have counted by the end of its schedule: argument errors; one result per philosopher; no error only if everyone ate `rounds` times; an error only after cancellation, and then somebody missed a round |
| `CrawlProtocol.CountedStep` | examples/webcrawler/crawler.go:99-162 | every step keeps pending equal to live senders plus jobs held by workers plus adds not yet handed to a sender |
| `CrawlProtocol.ZeroIsQuiet` | examples/webcrawler/crawler.go:99-102 | pending at zero means no sender, no job in hand and no worker able to create one |
| `CrawlProtocol.CloseIsSafe` | examples/webcrawler/crawler.go:99-102 | Add is called only before Wait can return, close(c.jobs) meets no sender and none appears later, and Done never finds the counter at zero |
| `CrawlProtocol.Progress` | examples/webcrawler/crawler.go:99-162 | until Crawl has returned some goroutine can move, cancelled or not, and without any sender giving up |
| `CrawlProtocol.ConsistentStep` | examples/webcrawler/crawler.go:119-176 | what workers, senders and maps say of a page agrees: job depth, scheduled depth, fetched, the link that led to it |
| `CrawlProtocol.LocatedStep` | examples/webcrawler/crawler.go:141-169 | a scheduled page is in exactly one place (marked, on offer, in hand, or fetched), and is lost only by cancellation |
| `CrawlProtocol.FoundStep` | examples/webcrawler/crawler.go:136-152 | every scheduled page but the start has a fetched parent scheduled one level above that links to it |
| `CrawlProtocol.ClosureStep` | examples/webcrawler/crawler.go:136-152 | unless cancelled, each link of a fetched page above the depth limit is scheduled or still to be looked at |
| `CrawlProtocol.ReportedStep` | examples/webcrawler/crawler.go:125-131 | errors are those of fetched broken pages, and unless cancelled each such page is reported or about to be |
| `CrawlProtocol.InvStep` | examples/webcrawler/crawler.go:99-176 | all of the above hold together after every step of every interleaving |
| `CrawlResult.MeasureStep` | examples/webcrawler/crawler.go:99-162 | every step lowers a measure although pages, senders and jobs are created on the way |
| `CrawlResult.Terminates` | examples/webcrawler/crawler.go:60-110 | every schedule is finite, and one that cannot be continued has returned with no sender, job or worker left |
| `CrawlResult.FetchedOnce` | examples/webcrawler/crawler.go:164-169 | no page is fetched twice, and each lies at the end of a walk of at most maxDepth links, even if cancelled |
| `CrawlResult.NothingForgotten` | examples/webcrawler/crawler.go:119-176 | over every run the pages fetched and the errors met up to any moment stay, whatever is cancelled, and a page is among them from the moment its fetch begins |
| `CrawlResult.FetchedIsScheduled` | examples/webcrawler/crawler.go:178-193 | a completed crawl fetched exactly the scheduled pages and reports exactly the broken ones |
| `CrawlResult.VisitedIff` | examples/webcrawler/crawler.go:132-152 | a completed crawl visits a page if and only if it is the start or linked from a visited page scheduled above maxDepth |
| `CrawlResult.Reachable` | examples/webcrawler/crawler.go:60-110 | the reachable pages are exactly the ends of walks over followed links |
| `CrawlResult.FullCoverage` | examples/webcrawler/crawler.go:60-110 | if maxDepth + 1 is at least the number of reachable pages, every completed schedule visits exactly the reachable pages |
| `CrawlResult.ShallowCoverage` | examples/webcrawler/crawler.go:60-110 | for maxDepth at most 1 a completed crawl visits exactly the pages within maxDepth links |
| `CrawlRace.PromiseKept` | examples/webcrawler/crawler.go:54-60 | "visits pages reachable from start up to maxDepth" holds of every graph and schedule when maxDepth <= 1, or maxDepth is 2 with one worker |
| `CrawlRace.TwoWorkersLose` | examples/webcrawler/crawler.go:146-152 | with two or more workers and maxDepth 2 a concrete graph and schedule miss a page within the limit |
| `CrawlRace.OneWorkerLoses` | examples/webcrawler/crawler.go:146-152 | for every maxDepth from 3 on a concrete graph misses a page within the limit even with one worker |
| `CrawlRace.PromiseIff` | examples/webcrawler/crawler.go:54-60 | the exact condition: the documented coverage holds for n workers and limit d if and only if d <= 1, or d = 2 and n = 1 |
| `WebCrawler.SortedCopy` | examples/webcrawler/crawler.go:181-182 | the returned copy is sorted and a permutation of what was fetched |
| `WebCrawler.Crawler.MainStep` | examples/webcrawler/crawler.go:99-102 | the caller of Crawl, with its enqueue, as steps of the model |
| `WebCrawler.Crawler.SenderGivesUp` | examples/webcrawler/crawler.go:155-161 | a cancelled sender takes its job and its count away |
| `WebCrawler.Crawler.ReceiveStep` | examples/webcrawler/crawler.go:112-117 | a worker receives one offered job or, once jobs is closed and drained, exits |
| `WebCrawler.Crawler.FetchStep` | examples/webcrawler/crawler.go:119-134 | fetch up to the loop over the links, with the error and depth branches |
| `WebCrawler.Crawler.LinkStep` | examples/webcrawler/crawler.go:136-152 | the loop over the links with the empty, depth and duplicate tests and the mark |
| `WebCrawler.Crawler.EnqueueStep` | examples/webcrawler/crawler.go:136-161 | the link loop with enqueue: the mark, the add, the sender, and pending.Done |
| `WebCrawler.Crawler.SomeoneReady` | examples/webcrawler/crawler.go:99-162 | until Crawl returns, the program has a goroutine that is not blocked |
| `WebCrawler.Crawl` | examples/webcrawler/crawler.go:60-110 | Crawl returns under every schedule and, cancelled or not, exactly what that schedule has fetched and recorded by its end: argument errors; sorted, duplicate-free pages all within maxDepth; every such page where no race can interfere; exactly the reachable pages where the limit has room; errors exactly for broken pages |
| `PubSubProtocol.HandshakeStep` | examples/pubsub/broker.go:71-244 | every step keeps: the WaitGroup counts the senders inside send; each subscriber is registered, on one closer's list or closed, exactly one of these; a channel is closed only at count zero with no later Add; buffered plus received is accepted |
| `PubSubProtocol.NeverPanics` | examples/pubsub/broker.go:211-244 | in any interleaving no send on a closed channel, no channel closed twice, no counter below zero, and no Add while a closer waits for that subscriber's senders or has its channel closed |
| `PubSubProtocol.LeaveReady` | examples/pubsub/broker.go:217-219 | a deferred wg.Done can always be done and never finds the counter at zero |
| `PubSubProtocol.OthersWait` | examples/pubsub/broker.go:183-194 | while one Unsubscribe of a subscriber has it to close, every other one is still to begin |
| `PubSubProtocol.UnsubscribeCloses` | examples/pubsub/broker.go:183-194 | after unsubscribe has returned its channel is open if and only if a Close under way has yet to get to it; no other Unsubscribe can be late |
| `PubSubProtocol.CloserProgress` | examples/pubsub/broker.go:126-149 | while an Unsubscribe or Close is unfinished, some step of a closer or of a leaving sender is possible although the write lock may be held during wg.Wait |
| `PubSubProtocol.PublisherProgress` | examples/pubsub/broker.go:105-121 | a Publish is held up only by the write lock, whose holder can move, or by the full channel of an open subscriber |
| `PubSubResult.MeasureStep` | examples/pubsub/broker.go:105-149 | every step of a call under way lowers a measure |
| `PubSubResult.SettledIfStuck` | examples/pubsub/broker.go:105-149 | if nothing can move without a receiver, every Unsubscribe and Close has returned and a Publish can only be stalled on a full open channel |
| `PubSubResult.Settles` | examples/pubsub/broker.go:105-244 | without new calls every schedule is finite and ends settled |
| `PubSubResult.EveryRun` | examples/pubsub/broker.go:71-244 | over every run nothing panics, and after an Unsubscribe has returned its channel is closed or a Close under way has it |
| `PubSubResult.UnsubscribeMayReturnEarly` | examples/pubsub/broker.go:138-148 | a concrete run in which Unsubscribe returns while Close has yet to close the channel |
| `PubSubRace.UndisturbedKeeps` | examples/pubsub/broker.go:183-194 | undisturbed when it begins, an Unsubscribe leaves a closed channel in every schedule of the calls under way |
| `PubSubRace.DisturbedFails` | examples/pubsub/broker.go:138-148 | otherwise some schedule makes it return with the channel open, although another Unsubscribe may first have to finish under the lock |
| `PubSubRace.PromiseIff` | examples/pubsub/broker.go:126-149 | the exact condition, read before the call: the channel is closed on return in every schedule if and only if it is closed already, or every Close has returned, or comes too late for this subscriber, or is past it |
| `PubSubDelivery.DeliveryStep` | examples/pubsub/broker.go:105-229 | every step keeps each publisher's accepted messages consecutive at each subscriber and ties them to the publisher's position in its current call |
| `PubSubDelivery.GapFree` | examples/pubsub/broker.go:105-229 | over every run what a subscriber accepts from one publisher is one contiguous block of its calls in order, and what it receives is the beginning of that |
| `PubSubDelivery.NilMeansDelivered` | examples/pubsub/broker.go:105-121 | if Publish returned nil, each subscriber of its snapshot accepted exactly one copy or an Unsubscribe of that subscriber has begun; Close is no excuse |
| `PubSubDelivery.SnapshotOutcome` | examples/pubsub/broker.go:163-181 | a closed broker refuses the call and otherwise the subscribers of a call are those registered at the moment of its snapshot |
| `PubSubDelivery.ClosedRefuses` | examples/pubsub/broker.go:105-109 | over every run each call of Publish that begins on a closed broker returns ErrClosed and sends nothing |
| `PubSubDelivery.NilReachesAll` | examples/pubsub/broker.go:101-121 | over every run: if a call of Publish returns nil, every subscriber registered when it began accepted exactly one copy or was unsubscribed in the meantime |
| `PubSub.Broker.SubscribeSection` | examples/pubsub/broker.go:71-99 | Subscribe fails exactly on a closed broker, else registers a fresh open subscriber |
| `PubSub.Broker.SnapshotSection` | examples/pubsub/broker.go:163-181 | ErrClosed exactly on a closed broker; otherwise the snapshot lists every registered subscriber once |
| `PubSub.Broker.SendSection` | examples/pubsub/broker.go:211-219 | the locked part of send counts the sender unless the subscriber is closed |
| `PubSub.Broker.SendCase` | examples/pubsub/broker.go:221-228 | the send case fills a slot or meets a receiver, on a channel that is open |
| `PubSub.Broker.CheckSection` | examples/pubsub/broker.go:112-117 | after a refused send Publish goes on or, on a closed broker, returns ErrClosed |
| `PubSub.Broker.UnsubscribeSection` | examples/pubsub/broker.go:183-193 | unsubscribe removes the entry and keeps the lock, or returns if there is none |
| `PubSub.Broker.CloseSection` | examples/pubsub/broker.go:131-144 | the first Close empties the registry onto its own list; later ones return |
| `PubSub.Broker.ShutSection` | examples/pubsub/broker.go:231-240 | the locked part of subscriber.close, once per subscriber |
| `PubSub.Broker.CloseChannel` | examples/pubsub/broker.go:242-243 | close(s.ch) finds the channel open and no sender counted |
| `PubSub.Broker.Publish` | examples/pubsub/broker.go:105-121 | Publish run to its return among all other calls: nil means delivered once or unsubscribed for every subscriber registered at the call, a broker closed at the call gives ErrClosed, and ErrClosed means closed |
| `PubSub.Broker.Unsubscribe` | examples/pubsub/broker.go:183-194 | Unsubscribe always returns; then the channel is closed or a Close has it, and it is closed if the call began undisturbed |
| `PubSub.Broker.Close` | examples/pubsub/broker.go:126-149 | Close always returns, the broker is closed, and every channel is closed that no other call still has to close |
| `PubSub.Broker.Settle` | examples/pubsub/broker.go:105-244 | an arbitrary scheduler always brings the broker to a settled state |
| `PubSub.NewBroker` | examples/pubsub/broker.go:55-65 | New refuses exactly a negative buffer |
| `BoundedQueue.InvStep` | examples/boundedqueue/queue.go:58-125 | every critical section and broadcast keeps FIFO order, the capacity bound and the wake-up counts |
| `BoundedQueue.NoLostWakeup` | examples/boundedqueue/queue.go:66-68 | when nothing moves any more, consumers sleep only on an open empty queue and producers only on an open full one |
| `BoundedQueue.EveryRun` | examples/boundedqueue/queue.go:58-125 | over every run: accepted is removed followed by items, at most capacity items, waiting never outlasts its reason |
| `BoundedQueue.Settles` | examples/boundedqueue/queue.go:58-125 | without new calls every schedule is finite; then whoever sleeps needs another call, and after Close nobody sleeps |
| `BoundedQueue.EnqueueResult` | examples/boundedqueue/queue.go:58-76 | over every run an Enqueue that returned nil has added its own item once and nothing else, and one that returned ErrClosed nothing, to a closed queue |
| `BoundedQueue.DequeueResult` | examples/boundedqueue/queue.go:82-103 | the k-th successful Dequeue returns the k-th accepted item; ErrClosed exactly when closed and every accepted item was removed |
| `BoundedQueue.NothingAfterClose` | examples/boundedqueue/queue.go:69-71 | once closed the queue accepts nothing more |
| `BoundedQueue.BroadcastOnce` | examples/boundedqueue/queue.go:114-124 | over every run of any number of Closes each condition is broadcast to at most once, and exactly once when no Close is under way any more |
| `BoundedQueue.Queue.EnqueueSection` | examples/boundedqueue/queue.go:63-75 | the critical section of Enqueue is one step of the model, signalling at most one consumer |
| `BoundedQueue.Queue.DequeueSection` | examples/boundedqueue/queue.go:88-102 | the critical section of Dequeue, signalling at most one producer |
| `BoundedQueue.Queue.CloseSection` | examples/boundedqueue/queue.go:114-121 | only the first Close goes on to broadcast |
| `BoundedQueue.Queue.Broadcast` | examples/boundedqueue/queue.go:123-124 | each broadcast notifies its whole wait set |
| `BoundedQueue.Queue.Settle` | examples/boundedqueue/queue.go:58-125 | an arbitrary scheduler always gets all calls to return or to sleep for a reason |
| `BoundedQueue.NewQueue` | examples/boundedqueue/queue.go:39-52 | New refuses exactly a capacity that is not positive |
| `ConnectionPool.ConservedStep` | examples/connectionpool/pool.go:87-159 | no step loses, copies or invents a connection: each of the `size` originals stays in one place among idle, borrowed and handed over |
| `ConnectionPool.FairStep` | examples/connectionpool/pool.go:92-115 | every step keeps served-then-waiting equal to arrivals less those that gave up |
| `ConnectionPool.InvStep` | examples/connectionpool/pool.go:87-159 | conservation, wait-list membership, limits and fairness together after every step |
| `ConnectionPool.EveryRun` | examples/connectionpool/pool.go:87-159 | they hold over every run of honest clients with cancellation at any moment |
| `ConnectionPool.ReleaseSucceeds` | examples/connectionpool/pool.go:137-159 | releasing a held connection never blocks on the waiter's channel and never reports ErrPoolFull; it serves the first waiter or returns to idle |
| `ConnectionPool.AcquireOutcome` | examples/connectionpool/pool.go:92-105 | Acquire is refused exactly when no connection is idle and the wait list is full, gets the first idle connection exactly when there is one, and otherwise comes last on the list |
| `ConnectionPool.WaitOutcome` | examples/connectionpool/pool.go:107-118 | a caller that receives gets the connection handed to it, and one that gives up returns the context error exactly if none was handed |
| `ConnectionPool.RaceDecided` | examples/connectionpool/pool.go:110-118 | a caller that gives up and is no longer listed was served, so its last receive does not block; one still listed was not |
| `ConnectionPool.NeverShared` | examples/connectionpool/pool.go:87-159 | no connection is borrowed twice, nor idle or handed over while borrowed, nor handed to two callers |
| `ConnectionPool.Fairness` | examples/connectionpool/pool.go:92-118 | the served are, in order, the first of those that came and did not give up; nobody waits while a connection is idle; waiters stay within maxWaiters |
| `ConnectionPool.IdleRoom` | examples/connectionpool/pool.go:153-158 | a borrowed connection leaves room among the idle ones |
| `ConnectionPool.QuietIff` | examples/connectionpool/pool.go:107-118 | at rest means that only new calls, releases and cancellations are possible |
| `ConnectionPool.WaitsForAll` | examples/connectionpool/pool.go:92-118 | at rest a caller still waits only while all `size` connections are borrowed |
| `ConnectionPool.WithoutCut` | examples/connectionpool/pool.go:187-190 | removing a waiter cuts out its one place and keeps the order of the rest |
| `ConnectionPool.Pool.RemoveWaiterLocked` | examples/connectionpool/pool.go:181-194 | the search and in-place shift report whether the waiter was there and leave the list without it, in order |
| `ConnectionPool.Pool.PopIdleLocked` | examples/connectionpool/pool.go:174-179 | takes the first idle connection |
| `ConnectionPool.Pool.AcquireSection` | examples/connectionpool/pool.go:92-105 | hands out the first idle connection if there is one; without one it refuses the caller exactly if the wait list is full and else puts it last |
| `ConnectionPool.Pool.ReceiveReady` | examples/connectionpool/pool.go:108-118 | a receive from w.ready yields the connection handed over and empties the channel |
| `ConnectionPool.Pool.CancelSection` | examples/connectionpool/pool.go:111-117 | the cancelled caller was removed exactly if its channel was empty |
| `ConnectionPool.Pool.ReleaseSection` | examples/connectionpool/pool.go:142-158 | serves the first waiter, else returns to idle, else ErrPoolFull |
| `ConnectionPool.Pool.ReleaseConn` | examples/connectionpool/pool.go:137-159 | a client releasing what it holds succeeds; nil is an error that changes nothing |
| `ConnectionPool.Pool.Settle` | examples/connectionpool/pool.go:107-118 | an arbitrary scheduler, cancelling at will, brings the waiting calls to rest, and then nobody waits unless every connection is borrowed |
| `ConnectionPool.NewPool` | examples/connectionpool/pool.go:61-79 | New refuses exactly a size that is not positive or a negative waiter limit |
| `KeyedLock.InvStep` | examples/keyedlock/locker.go:51-104 | every step keeps: an entry is registered exactly while its count is positive, the count equals its holders, waiters and mid-release callers, and it is locked by at most one of them |
| `KeyedLock.AsAsked` | examples/keyedlock/locker.go:51-60 | over every run each call keeps the key its caller passed, and its entry is one made for that key |
| `KeyedLock.Exclusive` | examples/keyedlock/locker.go:51-69 | two callers that asked for the same key never both hold it although entries are dropped and made anew |
| `KeyedLock.BlockedIff` | examples/keyedlock/locker.go:59-60 | Lock blocks if and only if another caller holds the key it asked for |
| `KeyedLock.ActiveKeysExact` | examples/keyedlock/locker.go:72-81 | the registry holds exactly the keys that unreleased calls asked for |
| `KeyedLock.ReleaseExact` | examples/keyedlock/locker.go:96-104 | the entry released is the one registered, its count does not go below zero, and it is dropped exactly with its last reference |
| `KeyedLock.EveryRun` | examples/keyedlock/locker.go:51-104 | over every run of locks, unlocks and repeated unlocks |
| `KeyedLock.Progress` | examples/keyedlock/locker.go:51-69 | an unreleased call can go on, or the holder of its key can |
| `KeyedLock.Locker.LockSection` | examples/keyedlock/locker.go:51-60 | an empty key is an error; otherwise the call is for the key passed, whose entry is found or made and counted |
| `KeyedLock.Locker.EntryLocked` | examples/keyedlock/locker.go:60 | once locked no other caller holds the key |
| `KeyedLock.Locker.UnlockOnce` | examples/keyedlock/locker.go:62-68 | only the first call of an Unlock does anything |
| `KeyedLock.Locker.ReleaseSection` | examples/keyedlock/locker.go:96-104 | releaseEntry as one step of the model |
| `KeyedLock.Locker.ActiveKeys` | examples/keyedlock/locker.go:72-81 | the number returned is that of the keys held, waited for or being released |
| `BankAccount.OverflowTest` | examples/bankaccount/account.go:198-200 | on balances the 64-bit test is exact: its own subtraction never wraps |
| `BankAccount.InvStep` | examples/bankaccount/account.go:101-184 | every step keeps balances in 0 to MaxInt64, each lock held by at most one transfer, and money in accounts plus money in transit equal to the funds |
| `BankAccount.Progress` | examples/bankaccount/account.go:168-172 | while a transfer is under way some transfer can take a step |
| `BankAccount.Chase` | examples/bankaccount/account.go:186-192 | following who waits for whom leads to ever higher accounts and so to a transfer that can go on |
| `BankAccount.Settles` | examples/bankaccount/account.go:154-184 | without new calls every schedule is finite and ends with all transfers returned, all accounts unlocked and all money in them |
| `BankAccount.Refines` | examples/bankaccount/account.go:150-184 | every step is one step of a bank whose transfers happen at once, or none |
| `BankAccount.TestDecides` | examples/bankaccount/account.go:174-179 | the test decides by the atomic balances, although it reads memory and guards against overflow by a subtraction |
| `BankAccount.TransferReturns` | examples/bankaccount/account.go:154-184 | over every interleaving a call's own steps move the amount exactly if it returns nil and nothing at all if it returns an error, which is that of its arguments or what the atomic balances at its single test call for |
| `BankAccount.SeesAtomic` | examples/bankaccount/account.go:85-94 | an account that can be locked, and those a transfer tests, show the balance of the atomic bank: nobody sees a partial transfer |
| `BankAccount.Conserved` | examples/bankaccount/account.go:101-184 | over every run the money is what was deposited less what was withdrawn, in range |
| `BankAccount.TransfersConserve` | examples/bankaccount/account.go:154-184 | transfers alone neither make nor lose money |
| `BankAccount.NewBank` | examples/bankaccount/account.go:60-73 | accounts open with the given balances unless an id is empty or a balance negative, the first of which is reported |
| `BankAccount.Bank.DepositSection` | examples/bankaccount/account.go:101-121 | succeeds exactly for a positive amount that fits; only then and only by the amount the balance grows; which error otherwise |
| `BankAccount.Bank.WithdrawSection` | examples/bankaccount/account.go:127-147 | succeeds exactly for a positive amount that is covered; which error otherwise |
| `BankAccount.Bank.BeginTransfer` | examples/bankaccount/account.go:154-168 | the argument checks of Transfer |
| `BankAccount.Bank.TransferStep` | examples/bankaccount/account.go:168-184 | each statement of Transfer after its checks as one step of the model |
| `BankAccount.Bank.Transfer` | examples/bankaccount/account.go:154-184 | Transfer run to its return among other transfers: nil if and only if it moved the amount, and which error otherwise |
| `BankAccount.Bank.Settle` | examples/bankaccount/account.go:154-184 | an arbitrary scheduler finishes all transfers and leaves the funds in the accounts |
| `Barrier.InvStep` | examples/barrier/barrier.go:56-102 | every critical section keeps the accounts of every generation |
| `Barrier.ReleasesExactly` | examples/barrier/barrier.go:68-82 | over every run nobody passes a generation before all its parties arrived, at most `parties` pass it, and exactly that many once its callers are out |
| `Barrier.Completes` | examples/barrier/barrier.go:68-75 | a generation completes exactly with its last arrival, and never after Close |
| `Barrier.EnterResult` | examples/barrier/barrier.go:64-79 | at its lock Wait returns ErrClosed exactly on a closed barrier, nil exactly to the last of the arrivals of an open one, and otherwise sleeps |
| `Barrier.NilCounted` | examples/barrier/barrier.go:61-84 | a goroutine's phase and the number that passed its generation grow exactly when its Wait returns nil |
| `Barrier.ResumeResult` | examples/barrier/barrier.go:77-84 | a caller of a completed generation gets nil even from a closed barrier, one of the unfinished generation ErrClosed |
| `Barrier.Settled` | examples/barrier/barrier.go:77-79 | nobody sleeps in vain: once nothing moves, sleepers are the fewer than `parties` arrivals of the open generation |
| `Barrier.Settles` | examples/barrier/barrier.go:56-102 | without new calls every schedule is finite and ends settled |
| `Barrier.LockStep` | examples/barrier/barrier.go:56-85 | exactly `parties` looping workers are never more than one phase apart, in any interleaving |
| `Barrier.Rendezvous.WaitSection` | examples/barrier/barrier.go:61-78 | Wait up to its first cond.Wait or return: ErrClosed if closed, nil to the last arrival |
| `Barrier.Rendezvous.WakeSection` | examples/barrier/barrier.go:77-84 | Wait from a wake-up on: nil after an earlier generation, ErrClosed if closed in its own |
| `Barrier.Rendezvous.CloseSection` | examples/barrier/barrier.go:91-102 | only the first Close broadcasts |
| `Barrier.Rendezvous.Settle` | examples/barrier/barrier.go:56-102 | an arbitrary scheduler gets all calls to return or to sleep in the open generation |
| `Barrier.NewBarrier` | examples/barrier/barrier.go:39-50 | New refuses exactly a number of parties that is not positive |
| `Pipeline.InvStep` | examples/pipeline/pipeline.go:13-121 | every rendezvous, close and cancellation keeps what each stage holds and has sent tied to the input |
| `Pipeline.CollectsPrefix` | examples/pipeline/pipeline.go:105-123 | in every state the collected values are a prefix of map(filter(input)), for any keep and mapper |
| `Pipeline.Progress` | examples/pipeline/pipeline.go:9-123 | until all four have returned some goroutine can move, cancelled or not |
| `Pipeline.EveryRun` | examples/pipeline/pipeline.go:133-148 | every schedule has at most 4 * n + 6 states and ends with everyone returned; no error means all values, an error means a cancellation |
| `Pipeline.Network.SourceStep` | examples/pipeline/pipeline.go:16-22 | the loop of Source as steps of the model |
| `Pipeline.Network.FilterStep` | examples/pipeline/pipeline.go:40-58 | the loop of Filter, apart from its receive |
| `Pipeline.Network.MapStep` | examples/pipeline/pipeline.go:76-94 | the loop of Map, apart from its receive |
| `Pipeline.Network.CollectStep` | examples/pipeline/pipeline.go:111-119 | the two ways in which Collect ends |
| `Pipeline.Run` | examples/pipeline/pipeline.go:133-148 | returns what Collect has got by the end of its schedule: the squares of the positive inputs in order, or with an error a prefix of them |
| `SingleFlight.InvStep` | examples/singleflight/group.go:63-84 | every step keeps: a run is registered exactly from its creation to its leader's delete, and each call belongs to one run of its key |
| `SingleFlight.OneAtATime` | examples/singleflight/group.go:63-84 | per key at most one call that has not yet deleted its run leads one, so at most one function runs |
| `SingleFlight.DeletesOwn` | examples/singleflight/group.go:80-82 | the delete removes the leader's own run and no other |
| `SingleFlight.ValueFixed` | examples/singleflight/group.go:77 | a run's value once set is never set again |
| `SingleFlight.SameResult` | examples/singleflight/group.go:63-85 | everyone who shares a run returns what its leader returns |
| `SingleFlight.ReturnsOwn` | examples/singleflight/group.go:77-84 | over every run: when a call of Do has returned, the function of its own run has returned exactly once and the call returned that result |
| `SingleFlight.DuplicateWaits` | examples/singleflight/group.go:64-70 | a duplicate returns only after the function of its run has, and each run has exactly one leader, which came first |
| `SingleFlight.JoinsIff` | examples/singleflight/group.go:64-75 | a new call joins a run exactly if its leader's Do has not returned |
| `SingleFlight.RunsAreReturns` | examples/singleflight/group.go:72-84 | over every run functions that have returned equal unshared returns and those about to be; with no call under way they equal the functions started |
| `SingleFlight.StaleJoin` | examples/singleflight/group.go:78-81 | a concrete run in which a call that begins after a duplicate returned still joins the finished run |
| `SingleFlight.Progress` | examples/singleflight/group.go:63-85 | a call can go on itself or waits for a run whose leader can |
| `SingleFlight.Group.LookupSection` | examples/singleflight/group.go:56-75 | an empty key is an error; otherwise the call joins the registered run or leads a new one |
| `SingleFlight.Group.FnReturns` | examples/singleflight/group.go:77 | the leader stores the function's result in its own run |
| `SingleFlight.Group.WgDone` | examples/singleflight/group.go:78 | the leader releases the duplicates |
| `SingleFlight.Group.DeleteSection` | examples/singleflight/group.go:80-84 | the leader deletes the key and returns its result unshared |
| `SingleFlight.Group.WaitOver` | examples/singleflight/group.go:68-69 | a duplicate returns the run's result as shared |
| `Batcher.FullWithoutTicks` | examples/batcher/batcher.go:86-108 | if no tick comes every batch but the last holds exactly maxSize items |
| `Batcher.NothingStays` | examples/batcher/batcher.go:86-108 | by a tick, and by the end of the input, every item received before has been sent in some batch, in order and nothing else |
| `Batcher.Loop.Flush` | examples/batcher/batcher.go:69-84 | sends a copy of the pending items or loses it to a cancellation, empties the buffer, disarms the timer; batches sent before are untouched |
| `Batcher.Loop.CopyPending` | examples/batcher/batcher.go:74 | the copy is a new slice with the pending items |
| `Batcher.Loop.TakeItem` | examples/batcher/batcher.go:96-102 | an item is appended to the pending ones; a full buffer is flushed; afterwards the timer is armed exactly while items are pending |
| `Batcher.Loop.TakeTick` | examples/batcher/batcher.go:103-107 | a tick flushes what is pending |
| `Batcher.Loop.Turn` | examples/batcher/batcher.go:90-108 | one turn of the select, related to the reference grouping |
| `Batcher.Drive` | examples/batcher/batcher.go:86-109 | the whole loop from its start: what was received and sent, and how it ended |
| `Batcher.Run` | examples/batcher/batcher.go:43-110 | for any events and cancellation: batches are a prefix of the reference grouping, each of 1 to maxSize items and never changed later; received is their concatenation plus what is pending or lost; without cancellation nothing is lost and the loop ends exactly if the input closes |
| `AtomicCounter.InvStep` | examples/atomiccounter/metrics.go:39-98 | every atomic operation keeps the counters balanced and the peak explained |
| `AtomicCounter.PeakExact` | examples/atomiccounter/metrics.go:39-98 | over every run, whenever no Start is between its Add and the end of its loop the peak is the maximum inFlight has reached; at rest requests = success + failure + inFlight |
| `AtomicCounter.CountsCalls` | examples/atomiccounter/metrics.go:39-58 | over every run requests, success and failure are the numbers of calls of Start, Succeed and Fail |
| `AtomicCounter.HighestIsMax` | examples/atomiccounter/metrics.go:41 | the highest value the model keeps is the maximum of inFlight over the run |
| `AtomicCounter.PeakRises` | examples/atomiccounter/metrics.go:94 | the peak only rises, by a successful swap alone |
| `AtomicCounter.OthersHelp` | examples/atomiccounter/metrics.go:88-98 | whatever another goroutine does, be it to start a request, leaves a goroutine in its CAS loop where it is and no further from the peak |
| `AtomicCounter.OwnStep` | examples/atomiccounter/metrics.go:88-98 | each step of the loop that stays in it, a failed CompareAndSwap above all, strictly shrinks the distance value - peak still to go |
| `AtomicCounter.LoopUses` | examples/atomiccounter/metrics.go:88-98 | along any run, new requests included, a goroutine still in its loop has spent its own steps out of its initial distance |
| `AtomicCounter.LoopBound` | examples/atomiccounter/metrics.go:88-98 | recordPeak(value) stays in its loop for at most 2 * (value - peak) + 1 of its own steps in any company |
| `AtomicCounter.WorkStep` | examples/atomiccounter/metrics.go:88-98 | once no further request is counted, every step lowers the work of all loops together, so Settle ends |
| `AtomicCounter.Metrics.FirstAdd` | examples/atomiccounter/metrics.go:40-56 | the first Add of Start, Succeed and Fail raises its own counter alone |
| `AtomicCounter.Metrics.AddInFlight` | examples/atomiccounter/metrics.go:39-58 | the second Add of Start, Succeed and Fail, with the count they return |
| `AtomicCounter.Metrics.RecordPeakStep` | examples/atomiccounter/metrics.go:88-98 | one Load or CompareAndSwap of recordPeak |
| `AtomicCounter.Metrics.Settle` | examples/atomiccounter/metrics.go:39-98 | an arbitrary scheduler finishes all calls, and then the peak is exact |
| `WorkerPool.InvStep` | examples/workerpool/pool.go:62-107 | every step keeps: dispatched indices are a prefix, each with one worker or one result; the rest is untouched or marked in order |
| `WorkerPool.WritesOnce` | examples/workerpool/pool.go:62-107 | whoever writes a slot finds it unset, and the dispatcher marks only slots no worker has or will get |
| `WorkerPool.Progress` | examples/workerpool/pool.go:56-90 | until Run has returned some goroutine can move, cancelled or not |
| `WorkerPool.AtMostWorkers` | examples/workerpool/pool.go:56-66 | over every run at most as many tasks are in progress as there are workers |
| `WorkerPool.Outcome` | examples/workerpool/pool.go:68-107 | at the end dispatched tasks have their own result (or the cancellation's), the others are marked, and there is an error exactly if there are others |
| `WorkerPool.TaskOutcome` | examples/workerpool/pool.go:92-101 | runTask gives the cancellation exactly if the context is done when it begins, else an error to a nil task, else what the task returns |
| `WorkerPool.CalledIsKept` | examples/workerpool/pool.go:62-66 | over every run the result of a task that was called is kept, whatever is cancelled before or after it returns |
| `WorkerPool.EveryRun` | examples/workerpool/pool.go:37-90 | every schedule is finite and one that cannot be continued has returned |
| `WorkerPool.Batch.DispatchStep` | examples/workerpool/pool.go:69-84 | the dispatcher's loop head and select |
| `WorkerPool.Batch.MarkStep` | examples/workerpool/pool.go:103-107 | one iteration of markUnscheduled |
| `WorkerPool.Batch.WorkerStep` | examples/workerpool/pool.go:62-64 | a worker runs a task through runTask and writes its slot |
| `WorkerPool.Run` | examples/workerpool/pool.go:37-90 | one indexed result per task, as its schedule left it: of a prefix what each task, or the cancelled context, said, and of the rest the mark; no error exactly if all were dispatched; never more than `workers` tasks at once |

## Left out

- Real time: timers, tickers and deadlines. A tick and a cancellation are steps that
  may happen whenever they are possible; a cancellation is never taken back.
- The Go scheduler and memory model: mutexes, condition variables, WaitGroups,
  channels and atomics behave as documented; no fairness is assumed, and none is
  needed for the termination results.
- Error texts and wrapped causes: an error is one of a few constructors. Nil
  receivers, zero values and nil contexts are not modelled.
- `Stats`, `Len`, `ID`, `SubscriberCount`, `Snapshot` and similar getters: settled by
  reading one branch. `Balance` is covered by `BankAccount.SeesAtomic`.
- Packages semaphore, inventory, lazyinit, timeoutworker, taskgroup, ratelimiter and
  actor: each keeps one counter, map entry, flag or serialized command list and
  would add only easy members.
- Callbacks that panic or never return, and tasks or fetchers that answer
  differently from call to call: a fetch is a fixed map from page to links or
  failure, which may also fail once the context is cancelled; a task returns a given
  error; singleflight functions return any value.
- Counters that wrap: sequence numbers, subscriber ids, generations, WaitGroup
  counts and the metrics counters are unbounded. Account balances and the
  pipeline's squares are 64-bit.
- Heap addresses: keyed-lock entries, pool waiters, subscribers and singleflight runs
  are numbered in the order of their creation instead of being addresses. The slices
  of the queue and the pool are sequences, so sharing of their backing arrays and
  the clearing of dead slots are not modelled; the batcher's buffer and batches are
  arrays.
- In webcrawler the test of the context and the following `recordFetched`, and likewise
  that before `recordError`, are one step each; so are the locked test and mark in
  `enqueue`.
- In pubsub the read side of the broker's lock and each subscriber's own mutex are
  held within single steps; a second call of one Unsubscribe function may run beside
  the first instead of waiting for its sync.Once.
- In batcher the argument checks of `Batch` and the timer's internals; a tick reaches
  the loop only while the timer is armed.
- `Metrics.Reset`, which makes the peak meaningless while calls are under way.
- PubSub.Broker.Publish: a subscriber that holds the call up by a full channel is
  taken to receive; one that never does can hold it up for ever.
- ConnectionPool.EveryRun: assumes the clients' rule stated beside `Release`, that
  they release only what they hold, once; double releases are not modelled.
- Pipeline.Run: goroutine start order and channel creation are not modelled; all four
  stages exist from the first step.
