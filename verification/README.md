# ActorGo: verified models

Dafny models of the parts of the ActorGo actor framework whose correctness is not visible in any one
function: its timing wheel and delay queue, the actors' lock-free mailbox, the life of a pooled message,
the Redis lease lock, three shutdown and request/reply protocols, the UID index of client connections,
and the two codecs for binary data and IDs. `dafny verify dfyconfig.toml` checks everything.

Code that one goroutine runs is modelled as it is written, with classes updated in place, arrays and
loops, and proved equal to functions on values; the properties are then proved about those functions.
Code whose point is that several goroutines or processes run it at once is modelled as a state and its
atomic steps, and the properties are proved for every run, that is for every interleaving of any number
of participants. Beside most of these protocols stands the object whose methods take the steps: fields,
nodes, channels, flags and wait group counters updated in place, each method being what one goroutine
does between two points where another may come in, or a whole call that nobody interrupts. So what is
proved of every run holds of every state the methods can reach. Their contracts say what a call changes and
that nothing else does, so that calls can follow each other: the methods named `Lifecycle` in `Queues`,
`DelayQueues`, `Connectors` and `Clusters`, and `RedisLocks.Contend`, make a row of them.

- **Timing wheel** (`Wheel.dfy`, `TimerRuns.dfy`, `TimerOrder.dfy`, `TimeWheel.dfy`). A tower of wheels, each with the
  interval of the one below as its tick, shares one heap of buckets. `WheelSpec` is the tower and the
  insertion of one timer; `TimerRuns` adds timers, their callbacks and whole runs; `TimeWheels` is the
  code, as linked wheel objects. The main theorem, `FlatDeadlines`, says that the tower behaves like a
  flat set of deadlines.
- **Delay queue** (`PriorityQueue.dfy`, `Handshake.dfy`, `DelayQueue.dfy`). The heap in an array, the
  wake-up protocol between `Offer` and `Poll`, and the object that joins them.
- **Mailbox queue** (`ActorQueue.dfy`, `QueuePool.dfy`, `Queue.dfy`). Any number of producers swap themselves
  into a linked list of pooled nodes; one consumer takes values out and is woken through a channel of one
  slot. `QueuePool` puts any number of such queues over the one pool that they share.
- **Message ownership** (`Messages.dfy`). Calls, mailboxes, parent and child actors pass pooled messages on.
  The fields of a message name the call whose result channel, context and target they hold, so that a
  field left over from an earlier use of the object would be one of another call. An actor is named by its
  path, so that children of different actors may share a name.
- **Mailboxes** (`Mailboxes.dfy`). The last two run together: the messages are the values in the queues, a
  post takes effect at a swap of head and a message is taken when tail advances, while all the other steps
  of both go on in between.
- **Lease lock** (`LeaseLock.dfy`, `RedisLock.dfy`). Many lock objects, one server with expiry, lost and
  delayed messages.
- **Connector** (`Connector.dfy`, `ConnectorObject.dfy`), **cluster work queue** (`Cluster.dfy`,
  `ClusterObject.dfy`) and **cluster requests** (`ClusterReply.dfy`). Exactly-once disposal of sockets,
  exactly-once processing of deliveries under a concurrent stop, and correlation of replies over a network
  that loses, delays and repeats messages.
- **Connection index** (`Connections.dfy`). The UID index and the sessions it must agree with.
- **Codecs** (`Radix.dfy`, `Base58.dfy`, `Snowflake.dfy`, `SnowflakeText.dfy`). Change of base with leading
  zeros, chunked base 58 in 64-bit arithmetic, packed IDs that grow strictly, and their texts.

`Common.dfy` holds what the modules share: options, runs of a transition system and sums over maps.

Three promises turned out not to hold as written, and are proved with a failing input and the exact condition.
`ScheduleFunc` promises a call of the function at each next time, but its task adds the timer again before it
calls: when several deadlines are over at once the latest is called back first (`TimerOrder.EightBeforeFour`);
the order is that of the deadlines exactly if a timer is never two of them behind (`TimerOrder.AscendingIff`),
which a period of at least a tick ensures and no shorter one does (`TimerOrder.InOrderIff`). `Add` of the
connection manager does not look at the UID index: adding a removed connection again can leave two live
connections with one UID (`ConnectionIndex.AddBreaks`), and the index agrees with the sessions exactly if the
connection claims the UID of the one it replaces, or none (`ConnectionIndex.AddAgreesIff`). That run goes
through the exported methods; the comment on `Add` speaks of a newly accepted connection, and its only caller
in the repository (net/parser/component.go:75) adds each new connection once, so the component never makes it
(`ConnectionIndex.RunsAgree`). `ParseBase32` and `ParseBase58` of the snowflake package document an error for
invalid text, but their tables mark only bytes below the size of the alphabet
(`SnowflakeText.InvalidAccepted`, `SnowflakeText.RefusesInvalidIff`). `Bind`, which takes an empty connection
ID for "not bound", has an exact condition too (`ConnectionIndex.BindAgreesIff`), but no run of the manager
violates it (`ConnectionIndex.BindAgrees`).

## Model

| member | source | states |
|---|---|---|
| TimerRuns.FlatDeadlines | extend/time_wheel/time_wheel.go:63-157 | After any run of adds, stops and bucket events no callback was early or ran twice for a deadline, and once no queued bucket is due, the callbacks that have run are, for every timer not stopped, exactly the deadlines (one, or start + k * period for a periodic timer) whose tick has come; only timers that Stop was called for are stopped, and they have run their deadlines up to the one that was next |
| TimerRuns.BucketAgreement | extend/time_wheel/time_wheel.go:70-86 | All timers of a bucket share its virtual ID, whose time lies in the wheel's current turn, and the bucket is in the delay queue once, under that time and no other |
| TimerRuns.NeverRekeyed | extend/time_wheel/bucket.go:28-44 | An insertion finds its bucket out of the queue or already keyed by the time it asks for, and never is the bucket whose time has just come |
| TimerRuns.StoppedForGood | extend/time_wheel/timer.go:42-55 | After a Stop that returned true the callback never runs again |
| TimerRuns.StopKeeps | extend/time_wheel/timer.go:42-55 | Stop keeps the invariant and takes the timer out of its bucket |
| TimerRuns.AddTimerKeeps | extend/time_wheel/time_wheel.go:171-181 | A new timer, however late or far ahead, keeps the invariant: bucket placed and queued, or callbacks caught up |
| TimerRuns.AddOrRunKeeps | extend/time_wheel/time_wheel.go:110-121 | addOrRun, with a periodic task that adds its timer again, terminates and keeps wheel, queue, back pointers and the account of callbacks in agreement |
| TimerRuns.EventKeeps | extend/time_wheel/time_wheel.go:145-151 | Taking an earliest bucket, advancing the clocks and flushing keeps the invariant, although timers move down the tower meanwhile |
| TimerRuns.FlushLoopKeeps | extend/time_wheel/bucket.go:68-81 | Flushing empties the bucket and keeps the invariant; each of its timers ends in another bucket or, if it is one-shot, done, and no other timer changes |
| TimerRuns.FlushCalls | extend/time_wheel/bucket.go:68-81 | The callbacks of a flush, in order: the catch-ups of the bucket's timers one after the other |
| TimerRuns.FlushLeaves | extend/time_wheel/bucket.go:68-81 | On any tower, well-formed or not: a flush leaves its timers in a bucket or done and all others alone |
| TimerRuns.AddOrRunCalls | extend/time_wheel/time_wheel.go:110-121 | The callbacks of a catch-up: the task of a deadline calls back after the tasks of all later deadlines that are over |
| TimerRuns.EventStops | extend/time_wheel/time_wheel.go:145-151 | A bucket event stops no timer |
| TimerRuns.DoCalls | extend/time_wheel/time_wheel.go:145-241 | What every action calls, in order, after all that was called before |
| TimerRuns.EventDecreases | extend/time_wheel/time_wheel.go:146-151 | A bucket event moves the base clock or leaves fewer buckets due: the events at one time come to an end |
| TimerRuns.NoOverflow | extend/time_wheel/time_wheel.go:63-106 | With expiration * wheelSize below 2^63 and a root turn that fits, no sum or product that add computes on its way up leaves 64 bits |
| TimerOrder.InOrderIff | extend/time_wheel/time_wheel.go:212-241 | On wheels of a given tick every timer of a given period that is made in time is called back in the order of its deadlines, in every run, exactly if it is one-shot or its period is at least a tick |
| TimerOrder.AscendingIff | extend/time_wheel/time_wheel.go:212-241 | In any run a timer's callbacks come in the order of their deadlines exactly if no action finds it two deadlines behind |
| TimerOrder.StepOrder | extend/time_wheel/time_wheel.go:224-236 | The same for one action, the condition being read off the clock and the timer before it |
| TimerOrder.NewCallsShape | extend/time_wheel/time_wheel.go:224-236 | The calls of one action come latest deadline first, and all of them after those of earlier deadlines |
| TimerOrder.CatchUpShape | extend/time_wheel/time_wheel.go:224-236 | A catch-up calls back each deadline that is over, latest first |
| TimerOrder.LatestFirst | extend/time_wheel/time_wheel.go:224-236 | For every period below a tick a run in which the order fails |
| TimerOrder.EightBeforeFour | extend/time_wheel/time_wheel.go:224-236 | Every 4 ms on a tick of 10 ms: 8 is called back before 4 |
| TimerRuns.RunsKeep | extend/time_wheel/time_wheel.go:138-157 | Every run keeps the invariant and what each timer was asked to do, leaves stopped timers alone, and stops only those that Stop was called for |
| WheelSpec.NestedClocks | extend/time_wheel/time_wheel.go:123-135 | Every wheel's clock is the base clock rounded down to its tick |
| WheelSpec.AdvanceKeeps | extend/time_wheel/time_wheel.go:123-135 | Advancing keeps the tower and sets every clock to the time rounded down |
| WheelSpec.InsertEffect | extend/time_wheel/time_wheel.go:63-106 | A timer is refused exactly if it is due at the root, so an overflow wheel never refuses; else it lands in one bucket, at one level, keyed by its own virtual ID, and nothing else changes |
| WheelSpec.SetBucketEffect | extend/time_wheel/bucket.go:46-60 | A change of one bucket keeps the tower and every other bucket |
| Ticks.TruncateBounds | extend/time_wheel/utils.go:11-16 | Rounding down gives a multiple at most a tick below |
| Ticks.SlotUnique | extend/time_wheel/time_wheel.go:72-73 | Two virtual IDs of one turn that share a slot are equal |
| TimeWheels.TimeWheel.Add | extend/time_wheel/time_wheel.go:63-106 | The wheels, the returned placement and the queue are what Insert says, overflow wheels being created on the way |
| TimeWheels.TimeWheel.AddToBucket | extend/time_wheel/time_wheel.go:70-86 | The bucket gets the timer and its time, and is offered exactly if the time is new |
| TimeWheels.TimeWheel.CreateOverflow | extend/time_wheel/time_wheel.go:88-102 | The overflow wheel exists afterwards and is the one the tower has above |
| TimeWheels.TimeWheel.AdvanceClock | extend/time_wheel/time_wheel.go:123-135 | All linked wheels become what Advance says |
| TimeWheels.TimeWheel.constructor | extend/time_wheel/time_wheel.go:45-60 | A new wheel: truncated clock, empty buckets, no overflow wheel |
| TimeWheels.TimerService.AddOrRun | extend/time_wheel/time_wheel.go:110-121 | The objects after the recursive call are those of the function AddOrRun |
| TimeWheels.TimerService.AfterFunc | extend/time_wheel/time_wheel.go:171-181 | Adds a one-shot timer and keeps the invariant |
| TimeWheels.TimerService.ScheduleFunc | extend/time_wheel/time_wheel.go:212-241 | Adds a periodic timer and keeps the invariant |
| TimeWheels.TimerService.Stop | extend/time_wheel/timer.go:42-55 | True exactly if the timer was in a bucket, from which it is then gone |
| TimeWheels.TimerService.Flush | extend/time_wheel/bucket.go:68-81 | The loop and SetExpiration(-1) yield what Flushed says |
| TimeWheels.TimerService.NextBucket | extend/time_wheel/time_wheel.go:145-151 | Either nothing is due and nothing changes, or an earliest due bucket has been handled |
| TimeWheels.TimerService.RunDue | extend/time_wheel/time_wheel.go:145-156 | The loop over due buckets terminates, is a run of events in order, and leaves nothing due |
| PriorityQueues.RootIsMin | extend/time_wheel/delay_queue.go:30-32 | The root of the heap is a minimum |
| PriorityQueues.SiftUpStep | extend/time_wheel/delay_queue.go:34-38 | Swapping an item with its larger parent moves the only disorder up |
| PriorityQueues.SiftDownStep | extend/time_wheel/delay_queue.go:34-38 | Swapping an item with its smaller child moves the only disorder down |
| PriorityQueues.SwapConserves | extend/time_wheel/delay_queue.go:34-38 | A swap keeps the multiset of items |
| PriorityQueues.PriorityQueue.Offer | extend/time_wheel/delay_queue.go:106-112 | Adds the item, keeping the heap, all index fields and all other items; index 0 exactly for a strictly smallest priority |
| PriorityQueues.PriorityQueue.Append | extend/time_wheel/delay_queue.go:40-52 | Push doubles a full slice and keeps its content |
| PriorityQueues.PriorityQueue.DropLast | extend/time_wheel/delay_queue.go:54-67 | Pop shrinks a sparse slice, keeps its content and takes the last item |
| PriorityQueues.PriorityQueue.PeekAndShift | extend/time_wheel/delay_queue.go:69-81 | Removes a minimum exactly if it is due; otherwise changes nothing and returns the exact wait, 0 only for an empty queue |
| Handshake.NeverOversleeps | extend/time_wheel/delay_queue.go:106-181 | In every run at most one Offer is committed to sending, only while Poll waits or drains; and while an item is earlier than the poller's deadline some Offer is about to wake it |
| Handshake.NothingLost | extend/time_wheel/delay_queue.go:106-181 | In every run what was offered is in the queue, in Poll's hand or delivered, each element once |
| Handshake.StepKeeps | extend/time_wheel/delay_queue.go:106-181 | Each step of Offer or Poll keeps the handshake invariant |
| Handshake.PeekEnabled | extend/time_wheel/delay_queue.go:126-138 | Poll can always look at the queue: a non-empty one has a minimum |
| DelayQueues.DelayQueue.Offer | extend/time_wheel/delay_queue.go:106-120 | The heap holds the new item; the call owes a send to wakeupC exactly if its item became the only earliest one while Poll slept, and then is the only one that owes it |
| DelayQueues.DelayQueue.Peek | extend/time_wheel/delay_queue.go:126-138 | Under the lock: a due minimum to deliver, or the wait for the earliest item, with sleeping set |
| DelayQueues.DelayQueue.TimerFired | extend/time_wheel/delay_queue.go:158-167 | Poll goes on to receive from wakeupC exactly if sleeping was reset, and then an Offer is sending |
| DelayQueues.DelayQueue.Receive | extend/time_wheel/delay_queue.go:141-167 | The receive releases the Offer and returns Poll to the top |
| DelayQueues.DelayQueue.Deliver | extend/time_wheel/delay_queue.go:175-177 | The element that was taken goes out next, and Poll starts over |
| DelayQueues.SenderThere | extend/time_wheel/delay_queue.go:162-166 | Poll never drains wakeupC in vain |
| ActorQueue.Fifo | net/actor/queue.go:39-71 | For any number of producers values come out in the order of head swaps, each once; Pop finds nothing only if there is nothing or the next producer has not linked yet |
| ActorQueue.SafeRecycling | net/actor/queue.go:56-71 | A node goes to the pool only after its successor was linked: no producer writes to a pooled node or to one that another producer has; QueuePool carries this over to several queues |
| ActorQueue.NoLostWakeup | net/actor/queue.go:83-91 | With no push in flight and the consumer idle, count is the length, and a token waits if there is a value |
| QueuePool.EveryQueue | net/actor/queue.go:9-13 | For any number of queues over the one pool, whatever the others do: each is first in, first out, recycles safely and loses no wake-up |
| QueuePool.NoStrayWrites | net/actor/queue.go:9-13 | The node that a producer of one queue is about to write is neither in the pool nor in use by another queue |
| QueuePool.StoppingActorDrains | net/actor/actor.go:87-106 | A stopping actor leaves only with mailbox and event queue empty and otherwise does not block |
| QueuePool.Footprint | net/actor/queue.go:39-71 | An access to one queue leaves every node alone that is in use elsewhere |
| QueuePool.MoveKeeps | net/actor/queue.go:28-71 | A new queue or an access to one keeps all queues in order and their nodes apart |
| ActorQueue.StepKeeps | net/actor/queue.go:39-91 | Each atomic access keeps chain, ownership, values, count and wake-up in order |
| Queues.Queue.Push | net/actor/queue.go:39-54 | On real nodes, five steps of the protocol that, uninterrupted, append the value and signal; nodes stay where they were and an added one is new |
| Queues.Queue.Pop | net/actor/queue.go:56-71 | On real nodes, returns the oldest value, or none exactly if tail.next is nil, and then the queue is empty or a Push has yet to link; the nodes are the same |
| Queues.Queue.Get | net/actor/queue.go:44-46 | A pooled or new node, filled, private to the call |
| Queues.Queue.Swap | net/actor/queue.go:47-48 | Is the protocol's head swap and returns the previous head |
| Queues.Queue.Link | net/actor/queue.go:50-51 | Writes prev.next of a node that is still in use |
| Queues.Queue.Advance | net/actor/queue.go:60-62 | Moves tail and takes the value, which is never missing |
| Queues.Queue.Recycle | net/actor/queue.go:63-65 | Pools the old stub, which is not pooled yet |
| Queues.PushRun | net/actor/queue.go:39-54 | The five steps of a Push in a row append its value and leave no trace of the call |
| Queues.PopRun | net/actor/queue.go:56-71 | The steps of a Pop in a row take the oldest value |
| Queues.TakeOne | net/actor/queue.go:56-91 | With no call under way a queue that is not empty has a token, and gives its oldest value |
| Queues.Reuse | net/actor/queue.go:39-71 | A Push after a Pop and two more Pops: the values come in order and no token is left |
| Messages.OneOwner | facade/message.go:15-16 | A message is with one party at a time: a caller, one mailbox, an actor or the pool, where it is blank |
| Messages.OneSlot | net/actor/actor.go:409-411 | A message is in at most one slot of a mailbox |
| Messages.TouchedByOwner | facade/message.go:40-50 | Every step that touches a message is taken by its owner: none after recycling |
| Messages.SendNeverBlocks | net/actor/actor.go:180-187 | The result channel that the object points to has room whenever an actor finishes a message, also after the caller's timeout and after earlier uses of the object |
| Messages.AtMostOnce | net/actor/actor.go:108-187 | Per call: the handler runs at most once, the message is recycled at most once, and a notification's context is cancelled exactly on recycling |
| Messages.OwnAnswer | net/actor/system.go:199-213 | The result a caller gets is the one sent for its own call, though message objects are reused; that it is what the handler returned is CallerGets |
| Messages.CallerGets | net/actor/actor.go:157-187 | In every run from the return of a handler on, or from an actor's own answer in its stead, the value the caller gets, if it gets any, is that very value |
| Messages.OutcomeOfCall | net/actor/system.go:173-265 | What a call returns and why: the value decided for its message, the handler's if it ran; not found exactly if no actor was found, and then nothing was posted or run; expired exactly if the caller gave up on a posted request; accepted for a posted notification |
| Messages.DecidedStays | net/actor/actor.go:121-187 | What is decided for a call is decided once |
| Messages.Asks | net/actor/system.go:173-265 | From every reachable state a call to an actor can be made and posted, and its message is then the last in the mailbox of that actor |
| Messages.Answers | net/actor/actor.go:108-187 | An idle actor can handle its oldest message, answer and release it, and a waiting caller then receives what the handler returned |
| Messages.PassesOn | net/actor/actor.go:121-133 | A top actor passes a message for a child of its own on to that child's mailbox |
| Messages.AnswersFromHolder | net/actor/actor.go:180-187 | A call's result is sent once, by the actor that holds the message given to it |
| Messages.OwnChannel | net/actor/actor.go:180-187 | Finishing a message writes its result to the channel of the call it was filled for and to no other, and for a notification to none |
| Messages.RunsWhereAddressed | net/actor/actor.go:121-133 | A handler runs on the actor that its call named, and a message is passed on only to the child, of the very actor that passes it on, that its call named; though children of different actors may share an ID and the parsed path is cached in the object |
| Messages.NothingLeaks | net/actor/actor.go:180-187 | When nothing is left to do every message has been recycled exactly once and no caller waits in vain |
| Messages.StepKeeps | net/actor/system.go:173-265 | Each step of callers and actors keeps ownership and the account of calls |
| Messages.PhaseStep | net/actor/actor.go:236-291 | A caller holds the message it has just touched until it posts or recycles it |
| Mailboxes.OneMachine | net/actor/actor_mailbox.go:103-119 | For every interleaving of calls, actors and queue accesses: the queue of each actor holds the actor's mail in order, what Pop hands out is the message the actor then holds, and what is proved of messages and of queues holds of both together |
| Mailboxes.OneOwnerQueued | facade/message.go:15-16 | A message in a mailbox queue is there once, in no other mailbox, and with nobody else |
| Mailboxes.NothingStuck | net/actor/actor.go:87-118 | Where everybody stands still every message has been recycled once and every caller has returned: no message and no token is lost between queue and actor |
| Mailboxes.StillIff | net/actor/actor.go:87-118 | Everybody stands still (no push or pop under way, no token, idle actors, callers returned or waiting at empty channels) exactly where no step of a call, an actor or a mailbox is enabled, not counting new calls, actors and queues, evictions and the caller's deadline: nothing waits in a circle |
| Mailboxes.EverythingEnds | net/actor/actor.go:87-118 | Wherever no such step is enabled every message has been recycled once and every caller has returned |
| Mailboxes.PushMoves | net/actor/actor_mailbox.go:115-119 | A post that has begun can take effect, whatever has happened in between |
| Mailboxes.PostStays | net/actor/actor_mailbox.go:115-119 | Steps on other messages do not take away a post under way |
| Mailboxes.AdvancedValue | net/actor/queue.go:60-62 | In a world of queues the value an advance takes out is the oldest one of that queue |
| Mailboxes.StepKeeps | net/actor/actor_mailbox.go:103-119 | Each joint step keeps mail and queues in agreement |
| LeaseLock.MutualExclusion | components/redis/lock.go:134-158 | In every run at most one lock holds, counting from when it sent its last confirmed request; meanwhile the key is its own, every SET NX fails and no script under another token changes the key |
| LeaseLock.GrantLasts | components/redis/lock.go:30-47 | A granted SET or renewal keeps the key under its token until it expires, unless a release for that token runs |
| LeaseLock.HoldLasts | components/redis/lock.go:134-237 | In every run a lock that holds goes on holding, under the same token, until the time it was confirmed to, unless its own Unlock is among the steps |
| LeaseLock.ObtainedLasts | components/redis/lock.go:134-158 | A TryLock that succeeds gives the lock, and nobody else, from then until ttl after its request was sent, or its own Unlock |
| LeaseLock.HoldStep | components/redis/lock.go:134-294 | No step of another lock, the watchdog, the server or the network ends a hold, nor does any of its own but Unlock |
| LeaseLock.ReturnConfirms | components/redis/lock.go:142-157 | While a lock holds, a call of it can only succeed under the token it holds |
| LeaseLock.OneWatchdog | components/redis/lock.go:240-294 | In every run a lock has at most one watchdog that was not told to stop, and none after Unlock until it is taken again |
| LeaseLock.UnlockStops | components/redis/lock.go:190-211 | Unlock tells the lock's watchdog to stop |
| LeaseLock.GrantSurvives | components/redis/lock.go:190-237 | No single request but a release under its own token shortens a grant |
| LeaseLock.StepKeeps | components/redis/lock.go:134-294 | TryLock, Unlock, Renew, watchdog, server, lost and delayed messages all keep the invariant |
| LeaseLock.FinishKeeps | components/redis/lock.go:142-157 | Recording a reply, with or without starting the watchdog, keeps the invariant |
| RedisLocks.Server.Execute | components/redis/lock.go:30-47 | SET NX PX and the two scripts: success exactly for an expired key or the key's own token, and the key afterwards |
| RedisLocks.Lock.TryLock | components/redis/lock.go:134-158 | nil exactly if answered and the key was free; then the lock holds and, if it renews itself and had none, has a watchdog for its token; otherwise token and watchdog are as before; key, tokens in use and all other locks exactly |
| RedisLocks.Lock.Unlock | components/redis/lock.go:190-211 | nil exactly if answered and the key was its own, which then is gone; a holder's answered Unlock never fails; the token is forgotten in any case; no other lock changes |
| RedisLocks.Lock.Renew | components/redis/lock.go:215-237 | nil exactly if answered and the key is its own, then held for ttl from now; a renewal never ends a hold; no other lock changes |
| RedisLocks.Lock.StartWatchdog | components/redis/lock.go:240-247 | Sets the fields unless a watchdog is running; the goroutine is in the contracts of TryLock and Tick |
| RedisLocks.Lock.Tick | components/redis/lock.go:266-281 | The watchdog renews only the lock it was started for, and ends, it alone, when the token has changed or the renewal fails; no other lock changes |
| RedisLocks.Server.Elapse | components/redis/lock.go:30-47 | Time passes and the key expires by it |
| RedisLocks.Lock.Exchange | components/redis/lock.go:142-147 | The lock, the key and the watchdogs after an answer, a lost reply or a lost request; no other lock changes |
| RedisLocks.Lock.Call | components/redis/lock.go:142-157 | From sending the request to the end of the call: outcome, key and lock, and that nothing but this lock and its names changed |
| RedisLocks.Refused | components/redis/lock.go:134-158 | Two locks on one server: the second is refused while the first holds |
| RedisLocks.Renewed | components/redis/lock.go:266-281 | The first one's watchdog makes its hold last |
| RedisLocks.TakenOver | components/redis/lock.go:190-211 | After expiry the second one holds alone, and the first one's late Unlock fails and does not end that |
| RedisLocks.HolderHasKey | components/redis/lock.go:190-237 | A lock that holds owns the key |
| Connector.DisposedOnce | net/connector/connector.go:44-137 | No socket is closed or handed over more than once in all; when the winning Stop has returned, every socket whose InChan returned has been disposed of once and the queue is empty; which of the two it is, is PassedOn and NoneAfterMark |
| Connector.PassedOn | net/connector/connector.go:44-105 | A socket is closed only once the connector has been stopped: before that every socket whose InChan has returned is queued, in the dispatcher's hand or was passed on, once in all, the queue keeps to its size, and the dispatcher does not leave |
| Connector.NoneAfterMark | net/connector/connector.go:94-128 | From Stop's mark on at most the socket that the callback is being called for is still passed on |
| Connector.QuietAfterStop | net/connector/connector.go:121-137 | After that no callback starts, and a later InChan closes its socket |
| Connector.StopAdvances | net/connector/connector.go:121-137 | A Stop on its way always gets on: a step that lowers what it still waits for is enabled, and no step but a new call raises that, from the closing of done on none at all |
| Connector.NeverMore | net/connector/connector.go:44-137 | Every step lowers what Stop still waits for, but for new calls and calls that Stop does not wait for, which leave it |
| Connector.StepKeeps | net/connector/connector.go:44-137 | Each step keeps locks, wait groups and the place of every socket in order |
| Connectors.Connector.InChan | net/connector/connector.go:44-63 | Uninterrupted, the socket ends up queued, or closed if the connector is stopped, and all else, the wait group too, is as before |
| Connectors.Connector.Enter | net/connector/connector.go:48-55 | The locked part: refuses and closes, or joins the wait group |
| Connectors.Connector.HandOff | net/connector/connector.go:56-62 | The select: queued, or closed after done; leaves the wait group and everything else alone |
| Connectors.Connector.Start | net/connector/connector.go:66-80 | Starts a dispatcher, counted by its wait group, unless stopped; nothing else changes |
| Connectors.Connector.DispatchTurn | net/connector/connector.go:82-105 | Prefers done, and then leaves the wait group; otherwise takes the oldest socket and passes it on, or closes it once stopped; the calls and Stop are where they were |
| Connectors.Connector.BeginStop | net/connector/connector.go:121-128 | Marks the connector as stopped and closes done, with whatever calls and dispatcher are running; a later Stop does nothing |
| Connectors.Connector.FinishStop | net/connector/connector.go:134-136 | Once both wait groups are at zero: nothing queued, what was queued closed, and every socket whose InChan returned closed or passed on, once in all |
| Connectors.Connector.CloseQueued | net/connector/connector.go:107-118 | The loop closes every queued socket once |
| Connectors.Counted | net/connector/connector.go:53-58 | The wait groups count exactly the calls handing over and a running dispatcher |
| ClusterDrain.DrainedOnce | net/cluster/rabbitmq_cluster/cluster.go:97-110 | Nothing is processed twice or without having been accepted, and when the winning Stop gets past its wait every accepted delivery has been processed |
| ClusterDrain.FateGiven | net/cluster/rabbitmq_cluster/cluster.go:268-279 | In every run a delivery gets its fate once: ignored exactly if the cluster is stopping, otherwise accepted, as the last in the queue, exactly if there is room |
| ClusterDrain.IgnoredByStop | net/cluster/rabbitmq_cluster/cluster.go:271-273 | What was ignored was so because of Stop |
| ClusterDrain.ClosedForGood | net/cluster/rabbitmq_cluster/cluster.go:268-279 | From Stop's mark on nothing more is accepted; after Stop nothing more is processed |
| ClusterDrain.StopAdvances | net/cluster/rabbitmq_cluster/cluster.go:97-110 | A Stop on its way always gets on: a step that lowers what it still waits for is enabled, and no step but a new call raises that, from Stop's mark on none at all |
| ClusterDrain.NeverMore | net/cluster/rabbitmq_cluster/cluster.go:268-298 | Every step of a worker or of Stop lowers what Stop still waits for, and calls never raise it once Stop has set its mark |
| ClusterDrain.StepKeeps | net/cluster/rabbitmq_cluster/cluster.go:268-298 | Each step of enqueue, workers and Stop keeps the place of every delivery |
| Clusters.Cluster.Enqueue | net/cluster/rabbitmq_cluster/cluster.go:268-279 | Ignored when stopping, accepted if there is room, otherwise overloaded; what is queued then, with workers and Stop where they were |
| Clusters.Cluster.WorkerTurn | net/cluster/rabbitmq_cluster/cluster.go:284-286 | Processes the oldest delivery |
| Clusters.Cluster.WorkerDrain | net/cluster/rabbitmq_cluster/cluster.go:287-295 | After stop the loop processes all that is queued, each delivery once, and the worker leaves the wait group |
| Clusters.Cluster.BeginStop | net/cluster/rabbitmq_cluster/cluster.go:98-104 | Marks the cluster as stopping and closes stop |
| Clusters.Cluster.WaitForWorkers | net/cluster/rabbitmq_cluster/cluster.go:105 | With the wait group at zero nothing is queued and every accepted delivery has been processed once |
| ClusterReply.OwnResponse | net/cluster/rabbitmq_cluster/cluster.go:398-439 | A Request that succeeds returns a response that was built for this very request |
| ClusterReply.OneResponse | net/cluster/rabbitmq_cluster/cluster.go:244-266 | However often replies are repeated a call is sent at most one, its channel has room for it, and the correlation check never fails; that the one arrives is LoadedArrives and Delivery |
| ClusterReply.LoadedArrives | net/cluster/rabbitmq_cluster/cluster.go:256-263 | In every reachable state a call that waits, whose waiter was taken by a pump that has sent, has the very reply that pump loaded in its channel, and receiving it is a success |
| ClusterReply.Delivery | net/cluster/rabbitmq_cluster/cluster.go:398-439 | A request that waits was sent and can be answered with any body, and every answer that reaches a pump before its waiter is taken is loaded, sent and received |
| ClusterReply.OutcomeOfCall | net/cluster/rabbitmq_cluster/cluster.go:398-439 | Every Request that has returned got what happened to it: the response loaded for it, carrying what a peer answered to this very request, the error of its publish, or the timeout |
| ClusterReply.RequestKept | net/cluster/rabbitmq_cluster/cluster.go:398-418 | A request keeps the node and message ID it was begun with |
| ClusterReply.WaitersPending | net/cluster/rabbitmq_cluster/cluster.go:416-419 | The waiter table holds correlation IDs of pending calls only |
| ClusterReply.NumbersUnique | net/cluster/rabbitmq_cluster/cluster.go:416 | Two calls at one node never share a correlation ID |
| ClusterReply.LoadsOwn | net/cluster/rabbitmq_cluster/cluster.go:256-263 | A reply that finds a waiter finds the one of the call it was built for, whose channel is empty |
| ClusterReply.StepKeeps | net/cluster/rabbitmq_cluster/cluster.go:244-439 | Each step of requests, peers and pumps keeps the correlation invariant |
| ConnectionIndex.FoundIff | net/parser/connection_manager.go:50-57 | With an index that agrees, GetUID(u) finds c exactly if c is indexed and c.UID() = u > 0 |
| ConnectionIndex.FoundNone | net/parser/connection_manager.go:50-57 | And finds none exactly if no indexed connection has that UID |
| ConnectionIndex.AddAgreesIff | net/parser/connection_manager.go:21-27 | The exact condition under which Add keeps the index in agreement |
| ConnectionIndex.AddBreaks | net/parser/connection_manager.go:21-27 | A run after which Add breaks the agreement: two live connections with one UID |
| ConnectionIndex.BindAgreesIff | net/parser/connection_manager.go:61-80 | Bind keeps the index in agreement exactly if the UID is not taken from a connection with an empty ID |
| ConnectionIndex.BindAgrees | net/parser/connection_manager.go:61-80 | After any run with IDs that are not empty, Bind keeps the index in agreement |
| ConnectionIndex.BindIff | net/parser/connection_manager.go:61-80 | With an index that agrees and IDs that are not empty, each answer of Bind is read off the sessions: refused exactly for want of a positive UID, of the connection, or because another live connection has the UID; otherwise UID and data are set, and a refusal changes nothing |
| ConnectionIndex.RemoveAgrees | net/parser/connection_manager.go:30-40 | Remove always does, and leaves all other connections alone |
| ConnectionIndex.RebindMoves | net/parser/connection_manager.go:73-79 | A connection, bound or not, may take any UID that no other live connection has; it is then found under that UID only, and nobody else is affected |
| ConnectionIndex.RunsAgree | net/parser/connection_manager.go:20-80 | With fresh non-empty IDs the index agrees after any run of Add, Bind and Remove |
| ConnectionManagers.ConnectionManager.Add | net/parser/connection_manager.go:21-27 | The maps after Add; nil is ignored |
| ConnectionManagers.ConnectionManager.Remove | net/parser/connection_manager.go:30-40 | The maps after Remove |
| ConnectionManagers.ConnectionManager.Get | net/parser/connection_manager.go:43-48 | The connection of that ID, or none |
| ConnectionManagers.ConnectionManager.GetUID | net/parser/connection_manager.go:51-57 | The connection is the only live one with that UID |
| ConnectionManagers.ConnectionManager.Bind | net/parser/connection_manager.go:61-80 | The outcome, the maps and the session after Bind; with an index that agrees it succeeds exactly if the UID is positive, the connection is there and no other one has the UID; a refused Bind changes nothing |
| ConnectionManagers.Connection.Bind | net/parser/connection.go:100-108 | Replaces UID and data |
| Radix.RebaseRoundTrip | extend/base58/base58.go:50-120 | Changing the base of a digit string and back, a leading zero for a leading zero, is the identity |
| Radix.ValueOfDigits | extend/base58/base58.go:52-67 | The digits of a number have its value |
| Radix.DigitsOfValue | extend/base58/base58.go:85-106 | A digit string without leading zeros is the digits of its value |
| Base58.DecodeEncode | extend/base58/base58.go:50-120 | Encoding yields valid text that decodes to the same bytes, leading zeros included |
| Base58.EncodeDecode | extend/base58/base58.go:50-120 | Every valid text is the encoding of what it decodes to |
| Base58.SameNumber | extend/base58/base58.go:50-77 | The text is the number of the bytes, most significant digit first, with as many leading ones as there are leading zero bytes |
| Base58.KnownText | extend/base58/base58.go:50-77 | The text of the bytes 0, 0, 97, 98 |
| Radix.RebaseValue | extend/base58/base58.go:50-120 | A change of base keeps the number and the zeros in front |
| Base58.Encode | extend/base58/base58.go:50-77 | The chunked loops and the reversal compute the base 58 text of the bytes |
| Base58.EmitChunk | extend/base58/base58.go:58-66 | The inner loop emits the low digits of a chunk in 64-bit arithmetic |
| Base58.Decode | extend/base58/base58.go:81-120 | Valid text yields the only bytes it encodes; otherwise the first bad symbol and its position |
| Base58.ReadChunk | extend/base58/base58.go:86-102 | The inner loop reads up to a multiple of ten in 64-bit arithmetic |
| Base58.Chunk | extend/base58/base58.go:86-102 | The value and the weight of a chunk stay within 58^10, below 2^63 |
| Base58.AlphabetSymbols | extend/base58/base58.go:11 | The symbols are those of the alphabet |
| Base58.TableInverts | extend/base58/base58.go:12-45 | The table gives the digit of exactly the symbol that stands for it, and 255 for every other byte |
| Base58.RadixIsChunk | extend/base58/base58.go:10 | The chunk radix is 58^10 |
| Bits.OrDisjoint | extend/snowflake/snowflake.go:156 | A bitwise or of a shifted number and one that fits below is their sum |
| Bits.AndMask | extend/snowflake/snowflake.go:337-339 | A bitwise and with a mask of k ones is the remainder by 2^k |
| Bits.AndShifted | extend/snowflake/snowflake.go:331-333 | A shifted mask selects the bits of the number shifted the other way |
| Snowflake.Unpack | extend/snowflake/snowflake.go:325-339 | Time, Node and Step recover the packed fields |
| Snowflake.IdOrder | extend/snowflake/snowflake.go:156 | IDs of one node are ordered by time, then step |
| Snowflake.IdSum | extend/snowflake/snowflake.go:156 | The layout of an ID: time above node above step |
| Snowflake.IdFits | extend/snowflake/snowflake.go:156 | With 22 bits for node and step and a time below 2^41 an ID is below 2^63 |
| Snowflake.StrictlyIncreasing | extend/snowflake/snowflake.go:138-160 | Over a clock that never goes back, calls of Generate yield strictly increasing IDs |
| Snowflake.StepsInOrder | extend/snowflake/snowflake.go:142-154 | Over every run an ID's step is the number of steps its node has taken in that millisecond before (0 for the first ID of a millisecond, then 1, 2, ...), and a call takes more than one clock reading exactly if all 2^stepBits steps of its first reading have been taken |
| Snowflake.GeneratingWhen | extend/snowflake/snowflake.go:142-154 | A call gets its ID at its first reading unless that is the last millisecond and full, then at the first later one; it waits for ever exactly if there is none |
| Snowflake.RunFields | extend/snowflake/snowflake.go:138-160 | Every ID carries its node's number and a time that its clock showed |
| Snowflake.NeverCollide | extend/snowflake/snowflake.go:134-160 | Nodes with different numbers never generate the same ID |
| Snowflake.GeneratingKeeps | extend/snowflake/snowflake.go:142-154 | One call moves on to a later time or step, step overflow waiting for the next millisecond |
| Snowflake.Node.Generate | extend/snowflake/snowflake.go:138-160 | The object, the ID and the readings used by the spin loop are what Generating says: step 0 in a new millisecond, otherwise the next one, and more than one reading exactly if the steps have run out |
| Snowflake.NewNode | extend/snowflake/snowflake.go:104-132 | A node number that its bits cannot hold is refused |
| SnowflakeText.ParseFormat | extend/snowflake/snowflake.go:199-281 | Parsing the base 32 or base 58 text of an ID gives the ID back, for every ID that is not negative |
| SnowflakeText.KnownTexts | extend/snowflake/snowflake.go:199-266 | 65 is nb in base 32 and 116 is 31 in base 58: the most significant digit comes first |
| SnowflakeText.Format | extend/snowflake/snowflake.go:248-266 | The division loop and the reversal compute the numeral |
| SnowflakeText.Parse | extend/snowflake/snowflake.go:269-281 | The error exactly for a byte marked 255, otherwise the number read, wrapped to 64 bits |
| SnowflakeText.FillTable | extend/snowflake/snowflake.go:65-82 | The table: digits for symbols, 255 only for the first entries, 0 elsewhere |
| SnowflakeText.Alphabets | extend/snowflake/snowflake.go:39-45 | No symbol occurs twice in either alphabet |
| SnowflakeText.RejectedIff | extend/snowflake/snowflake.go:222-234 | Either parser returns its error exactly for texts with a byte below the size of the alphabet that is not in it |
| SnowflakeText.InvalidAccepted | extend/snowflake/snowflake.go:55-59 | Any other byte outside the alphabet is parsed, as zero |
| SnowflakeText.RefusesInvalidIff | extend/snowflake/snowflake.go:55-59 | The exact condition under which invalid text is refused, for either alphabet |
| SnowflakeText.MarkedBytes | extend/snowflake/snowflake.go:39-45 | The marked bytes of the two alphabets; "l" is invalid in both and not marked |

## Left out

- `Messages`, `Mailboxes` and `ClusterReply` are states and steps on values only, since what matters there is the interleaving: message objects, mailboxes and channels are addresses in maps, so the clearing of fields in place and the aliasing of pointers are modelled through addresses, not through objects.
- `Queues.Queue` holds a pool of its own; that queues share one is proved on values, in `QueuePool`.
- RedisLocks.Lock.StartWatchdog: the ticker's period, a third of the TTL, is not modelled; the watchdog may tick at any time.
- The methods of `Queues`, `DelayQueues`, `RedisLocks`, `Connectors` and `Clusters` do not block: where the code would wait, their preconditions say what it waits for. Where other goroutines come in between, the steps of the protocol apply.
- Timing wheel granularity: add, stop, and taking and flushing one bucket are each one step; the gap in `Flush` between the unlock and `SetExpiration(-1)` is not modelled.
- Timer objects are records under an ID and buckets are reached by level and slot; list elements and bucket pointers are not objects of their own.
- TimeWheels.TimerService.ScheduleFunc: only EverySchedule with an interval of whole milliseconds, at least 1; schedules that end (the code tests the first expiration again, time_wheel.go:228), fixed dates and asynchronous tasks are not modelled.
- TimeWheels.TimerService.constructor: ticks of at least 1 ms and wheels of at least 2 slots; with one slot an overflow wheel repeats the tick below.
- `container/heap` belongs to Go's standard library; its sift loops are written out in `PriorityQueue`, for the operations the delay queue uses.
- Exit of `Poll` and of the wheel's loops.
- The 32-bit wrap of the queue's count, `Destroy` racing with late pushes, and posting to an actor that is already stopping.
- Handlers run in one step, and user code that keeps a message it was shown by OnFindChild is excluded.
- In `Mailboxes` a caller may go on as soon as its head swap is done, which is more than the code allows: there it first finishes its Push. That every run without new calls comes to rest is not stated, only that it can go on until it has.
- `Messages` takes OnFindChild to return the child whose ID it is asked for, and targets that do not parse to be refused before a message is filled, as prepareTyped does.
- The lease lock's retry loop, TTLs below a millisecond, and liveness of the watchdog after an expired lock is taken again; a key counts as expired from the instant its time has come.
- The connector's listener and TLS setup; sockets are identities, and nil sockets are ignored.
- The cluster's reconnection, topology, body encoding and message validation; the sequence number is unbounded, so a node is taken to make fewer than 2^64 requests, and not to restart.
- The NATS cluster, which has the same workers and waiters.
- `Count`, `Snapshot`, `Range` and `CloseAll` of the connection manager, which only read its map.
- Connection life cycle, framing, handshake, in-flight limits and writing; the locks of the connection manager are taken to make its methods atomic.
- SnowflakeText.Format: IDs are not negative; the code indexes its alphabet with a negative number otherwise and panics.
- Snowflake.StrictlyIncreasing: for a clock that does not go back and stays below 2^41 ms; Generate itself is modelled for any clock.
- The decimal, binary, base 36, base 64, byte and JSON forms of an ID, which rest on the standard library.
- Network, broker, database, HTTP, logging, profile and web components, reflection-based handlers and `extend/time`.
