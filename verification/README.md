# A verified model of hannibal

`hannibal` is a small actor runtime: an actor is a value owned by an event loop, other tasks reach it
through a mailbox, and a flag plus a one-shot tell them when it has ended. This project models that
runtime in Dafny 4.11 and proves what its parts guarantee together. `dafny verify dfyconfig.toml` checks
everything.

## Layers

1. **Actor protocol** (`Mailbox`, `Behaviour`, `Lifecycle`, `Protocol`, `LoopInvariants`,
   `ProtocolInvariants`, `ClientInvariants`, `ProtocolOwners`, `ProtocolTheorems`, `ProtocolProgress`,
   `ProtocolMeasure`, `ProtocolLimits`, `ProtocolCounts`). One actor and all its clients are a step system. Flag checks and enqueues are
   separate steps, and so are lowering the flag and sending the one-shot; handlers are lists of
   micro-steps, so a timeout or a panic can cut them anywhere. A ghost history records what was
   accepted, what became of it, every turn of the loop and every hook. The theorems quantify over every
   run, that is, every interleaving of any number of handles and operations.
2. **The programs themselves** (`Mailbox.Channel`, `Wakes`, `EventLoop`, `Addr`). The two event loops, the stop
   notifier, the restart strategies and every client entry point in imperative form. Each action of a
   loop is mirrored by one enabled step of the loop in `Protocol`, so a loop object satisfies every loop
   invariant; `Wakes` says what each wake-up of a loop must lead to, and that the environment determines it; each client method keeps its promise `Submitted`, and `StepsSubmit` shows that the
   operations of the step system keep the same ones.
3. **Ownership** (`Ownership`). Contexts own children through strong senders; shutdown is reference
   counting over the ownership graph.
4. **Service registry** (`Registry`, and `RegistryDeadlock` for what its requests wait for), **broker**
   (`Broker`, and `BrokerDelivery` for what the order of its clients' calls says about delivery), and what
   a context owns besides (`Context`, and `Interval`, whose timer sends through `Mailbox.Channel`).

## What is assumed of the environment

- The mailbox is an `async_channel` 2.5 queue: FIFO, optional capacity of at least one, a count of strong
  senders, and a `closed` bit that is set at count zero or when the receiver is dropped and never
  cleared. `try_send` fails when full or closed, `send` waits for space, `force_send` on a full queue
  displaces the oldest entry, and a weak upgrade fails once the queue is closed or the count is zero.
- A payload still queued when the receiver goes stays unanswered or is cancelled; both are allowed
  (label `LoseQueued`, and `Config.cancels` in `Registry`).
- Atomic operations are sequentially consistent. Timers fire no earlier than asked.

## What the proofs brought to light

- Awaiting an address never yields `Canceled`: dropping the notifier sends the one-shot as well, on the
  panic and error exits too (`TerminationPublished`), although the error's documentation says otherwise
  (src/error.rs:19-22).
- `stop` can return `Ok` and have no effect: on every bounded mailbox later forced sends can displace the
  Stop (`StopCanBeLost`), and on an unbounded one never (`StopKeptIffUnbounded`).
- `call`, `ping` and `try_send` answer `AlreadyStopped` for a merely full mailbox: on every bounded mailbox
  some run does so while the actor runs, and on an unbounded one none (`FullLooksStopped`,
  `StoppedTruthfulIffUnbounded`); `RefusalExact` gives the exact condition of a refusal.
- `already_running` answers whether the registered service has stopped, the opposite of its name and
  documentation (`Registry.ServiceRegistry.AlreadyRunning`); the code is followed.
- Requests to the registry never wait for each other in a circle (`DeadlockFree`), but if a mailbox keeps
  its queued payloads after the receiver is gone, a caller whose new service stops before answering the
  ping waits for ever. With any service at all this can happen if and only if such pings are not cancelled
  (`CancelsIffNeverStuck`). A single request is lost exactly when its wait chain leads to a stopped instance
  and somebody on that chain already waits (`NeverSettledIff`); that the waiting one be the last of the
  chain is not necessary (`HangsWithoutOrphan`).
- Actors that own each other never stop, and a cascade leaves nothing behind exactly if there is no such
  cycle (`CycleLeaks`, `LeakFreeIffAcyclic`).
- Context and task ids are unique for 2^64 ids and then repeat (`IdsRepeatIff`); only a repeated id could
  make a running background task lose its entry (`SpawnTask`).
- `consume` on an actor that already stopped returns `AlreadyStopped` without joining (`Consume`).

## Model

| member | source | states |
|---|---|---|
| ProtocolTheorems.SequentialRefinement | src/event_loop.rs:112-148 | in every reachable state the actor is the sequential replay of its turns, and mailbox turns are accepted payloads in acceptance order, however clients, timeouts and restarts interleave |
| ProtocolTheorems.CompletedTurn | src/event_loop.rs:126-138 | a completed handler ran all its micro-steps on the replay before it and answered from the replay after it |
| ProtocolTheorems.RefreshedTurn | src/actor/restart_strategy.rs:11-43 | a completed restart leaves `started(stopped(a))` under RestartOnly, `started(default)` under RecreateFromDefault and `a` under NonRestartable; a broken one got as far as its hooks did |
| ProtocolTheorems.OtherTurns | src/event_loop.rs:126-141 | a Stop changes nothing, the end of the stream applies `finished` once, a handler has applied exactly the micro-steps it ran |
| ProtocolTheorems.BootedActor | src/event_loop.rs:114 | before its first turn a started actor is the initial one after `started` |
| ProtocolTheorems.RealTimeOrder | src/addr.rs:121-144 | an operation that returned before another began is ahead of it in acceptance order, and its turn comes first |
| ProtocolTheorems.CallAnswered | src/addr.rs:121-144 | `Ok(v)` means exactly one turn handled this message, completed, and `v` is its answer on the sequential state before it |
| ProtocolTheorems.CallCanceled | src/addr.rs:129-144 | `Canceled` means the message was accepted and no turn of it completed |
| ProtocolProgress.CanceledForGood | src/addr.rs:129-144 | nor does any turn of it complete later, in whatever run follows |
| ProtocolTheorems.RefusedNeverStarts | src/addr/caller.rs:45-63 | any other error means that every entry of the mailbox was sent by some other operation, so no handler starts on the refused message |
| ProtocolTheorems.OneSenderPerEntry | src/addr.rs:92-144 | every accepted entry was sent by exactly one operation and carries that operation's payload |
| ProtocolTheorems.SentPayload | src/addr.rs:92-144 | `stop` (also of a context) puts a Stop into the mailbox, `restart` a Restart and every other entry point a task with its own script, and the turn that takes the entry ends, restarts or runs that script |
| ProtocolTheorems.Answers | src/addr/caller.rs:45-63 | each entry point answers nothing but its own kinds of result and error |
| ProtocolTheorems.AnswerReachesItsCaller | src/addr.rs:129-138 | the outcome of a turn shows in the slot of the operation that sent its payload and in no other |
| ProtocolTheorems.TerminationPublished | src/context/core.rs:56-84 | the one-shot is sent at most once and, on every exit path, by the end of the loop; a resolved await never failed and implies that the flag is down |
| ProtocolTheorems.ExitCauses | src/event_loop.rs:119-148 | each exit has its cause in the turns taken, and a handler is cut only where a timeout is configured, as the last turn if the loop fails on timeouts |
| ProtocolTheorems.SilentOnceDown | src/event_loop.rs:144-148 | once the flag is down no continuation of the run raises it or runs a hook, handler or micro-step |
| ProtocolTheorems.LifecycleLanguage | src/event_loop.rs:112-148 | hooks are exactly those the turns call for and form a word of the lifecycle automaton; a normal end balances `started` and `stopped`, a timeout failure ends in its only `cancelled` |
| Lifecycle.ModeCounts | src/event_loop.rs:114-147 | the mode of a legal trace fixes how often `started`, `stopped` and `cancelled` were invoked |
| Lifecycle.LegalOrder | src/actor/restart_strategy.rs:22-43 | in a legal trace each `started` after the first follows its `stopped` at once, no handler runs between them, and `cancelled` is last |
| ProtocolTheorems.Conservation | src/addr.rs:92-100 | the queue is the open suffix of the accepted sequence; every other entry was taken by exactly one turn or displaced; displacements never outnumber forced sends |
| ProtocolTheorems.GracefulDrain | src/event_loop.rs:119-147 | a loop that ended at the end of the channel had dequeued every accepted, undisplaced payload |
| ProtocolTheorems.StreamMerge | src/event_loop.rs:164-212 | stream items are handled once each in stream order between mailbox turns in acceptance order; `finished` comes at most once, after the last item |
| ProtocolTheorems.JoinOnce | src/actor/handle.rs:49-61 | at most one join yields the actor, only after a normal end, and it is the final replayed state |
| ProtocolTheorems.ReferencesExact | src/addr/sender.rs:43-121 | the strong count is live addresses + 3 per sender + callers + operations in flight; the mailbox is closed exactly at zero or without its receiver |
| ProtocolCounts.ReferencesCounted | src/addr/sender.rs:43-121 | the same count over the handles themselves: addresses, three per sender, callers, and the sends, calls and context stops that hold a reference in flight |
| ProtocolCounts.HooksCounted | src/event_loop.rs:112-148 | every hook and handler was called exactly as often as the turns, the start and the end of the channel call for |
| ProtocolCounts.JoinExact | src/actor/handle.rs:49-61 | the first join gets the final actor if and only if the loop ended normally, every other join nothing |
| ProtocolProgress.FailedUpgradeStaysFailed | src/addr/weak_sender.rs:41-52 | a weak handle that could not be upgraded can never be upgraded later |
| ProtocolProgress.LateOperationsRefused | src/addr.rs:121-128 | whatever begins once the flag is down never reaches the mailbox and can only be refused |
| ProtocolProgress.RunGrows | src/addr.rs:92-144 | over any run history only grows: accepted entries, fates and turns stay, and what an operation returned stands |
| ProtocolProgress.StopIsLast | src/event_loop.rs:119-142 | nothing behind a dequeued Stop is ever taken from the mailbox |
| ProtocolProgress.StopBound | src/addr.rs:92-100 | once a Stop is queued, at most as many other payloads are dequeued as were ahead of it (fewer than the capacity), until it is taken or displaced |
| ProtocolMeasure.NeverStuck | src/event_loop.rs:119-148 | unless it waits for an empty open mailbox the loop always has a step to take |
| ProtocolMeasure.DrainTerminates | src/event_loop.rs:119-147 | after the mailbox closed, the steps the loop can still take are bounded in advance in every interleaving, up to a cost for each item its stream still yields |
| ProtocolMeasure.StopTerminates | src/addr.rs:92-100 | a queued, undisplaced Stop bounds the steps of the loop, however much is sent behind it, up to a cost for each item its stream yields first |
| ProtocolMeasure.ExitTerminates | src/event_loop.rs:129-148 | whichever exit it takes, the loop publishes its end and is gone within seven steps |
| ProtocolLimits.RefusalExact | src/addr.rs:129-196 | a push fails exactly when the receiver is gone, or when a `try_send` entry point meets a full mailbox |
| ProtocolLimits.CallOnFull | src/addr.rs:129-139 | a `call` or `try_send` that meets a full mailbox is refused and changes nothing in it |
| ProtocolLimits.ForceOnFull | src/addr.rs:92-100 | `stop`, `restart` and `force_send` displace the oldest entry of a full open mailbox instead |
| ProtocolLimits.SendWaits | src/addr.rs:166-181 | exactly `send`, a sender's `send` and a caller's `call` wait, while the mailbox is full and open |
| ProtocolLimits.StopCanBeLost | src/addr.rs:92-100 | on every bounded mailbox some run displaces the Stop of a `stop` that reported it as sent |
| ProtocolLimits.StopKeptIffUnbounded | src/addr.rs:247-249 | no run displaces a reported Stop if and only if the mailbox is unbounded |
| ProtocolLimits.FullLooksStopped | src/addr.rs:184-198 | on every bounded mailbox some run answers `AlreadyStopped` while the actor runs |
| ProtocolLimits.StoppedTruthfulIffUnbounded | src/addr.rs:184-198 | no run tells anybody that the actor has stopped before its loop begins to end, if and only if the mailbox is unbounded |
| Mailbox.ForceConserves | src/addr.rs:97-99 | forcing an entry in keeps conservation and makes it the newest accepted one |
| Mailbox.Channel.TrySend | src/addr.rs:130-139 | succeeds exactly on an open mailbox with room, and then appends |
| Mailbox.Channel.ForceSend | src/addr.rs:97-99 | succeeds exactly on an open mailbox, displacing the oldest entry of a full one |
| Mailbox.Channel.Recv | src/event_loop.rs:119 | takes the oldest entry and labels it with its turn |
| Mailbox.Channel.Upgrade | src/addr/weak_addr.rs:19-24 | adds a reference exactly if the mailbox is open and referenced |
| EventLoop.StopNotifier.Notify | src/context/core.rs:69-74 | lowers the flag and sends the one-shot, exactly once together with the drop that follows |
| EventLoop.StopNotifier.Drop | src/context/core.rs:77-84 | publishes the end unless `notify` already did, and never twice |
| EventLoop.LoopAfterKeeps | src/event_loop.rs:110-151 | the loop invariants hold after any sequence of steps on any mailboxes |
| EventLoop.EventLoop.TimeoutFut | src/event_loop.rs:96-108 | without timer or panic the handler runs to its end and answers; a timer cuts it after exactly the micro-steps it had done, and only if a timeout is configured |
| EventLoop.EventLoop.Refresh | src/actor/restart_strategy.rs:11-43 | returns the actor itself, `started(stopped(actor))` or `started(default)` per strategy, with the turn at that stage; a failing or panicking hook leaves the loop through the matching exit |
| EventLoop.EventLoop.Next | src/event_loop.rs:119 | yields the oldest payload, the end of a closed empty channel, or nothing yet, in step with the mailbox history |
| EventLoop.EventLoop.Unwind | src/event_loop.rs:144-148 | however the loop ends: flag down, one-shot sent once, receiver and context dropped |
| EventLoop.EventLoop.Conclude | src/event_loop.rs:144-147 | runs `stopped` and publishes the end while the receiver is still held |
| EventLoop.EventLoop.Create | src/event_loop.rs:111-151 | the loop refines the step system; each wake-up sees what the clients left in the mailbox, takes the turn its course, timer and hooks call for, and the first one with a panic, a failing timeout or restart, a Stop or the end of the channel decides the result, as a failing or panicking `started` does before; it resolves to the stopped replay of its turns with its end published once |
| EventLoop.EventLoop.CreateOnStream | src/event_loop.rs:153-221 | the same for the loop over mailbox and stream, where a Restart panics and the stream arm is off once the stream ended |
| Wakes.FirstEnds | src/event_loop.rs:119-148 | in any such play a panicking handler, a failing timeout, a failing restart, a Stop or the closed channel is the last wake-up and fixes the result |
| Wakes.Determined | src/event_loop.rs:119-148 | the environment determines the play: what was seen, which turns were taken, how far they got and how the loop ends |
| Addr.SubmittedLast | src/addr.rs:92-100 | an accepted payload is the newest entry behind everything accepted before; a refused one left nothing |
| Addr.StepsSubmit | src/addr.rs:92-198 | per entry point, the operations of the step system push as the methods do, the same payload, with the same refusal, with any steps of others between check and push |
| Addr.StepsAwait | src/addr.rs:137-143 | in a run the awaited slot resolves exactly when the result can be received, to what became of the call's own entry: the answer of its completed turn, or `Canceled` if it was displaced, cut, broken or left behind |
| Addr.ForceIn | src/addr.rs:92-100 | flag check, then forced push, with others running in between: refused exactly if the flag was down or the mailbox closed |
| Addr.TryIn | src/addr.rs:184-198 | the same for `try_send`, also refused when full |
| Addr.WaitIn | src/addr.rs:166-181 | the same for `send`, which waits exactly while the mailbox is full and open, at every event it waits through |
| Addr.Addr.Stop | src/addr.rs:92-100 | submits a Stop or answers `AlreadyStopped` |
| Addr.Addr.Restart | src/addr.rs:243-251 | submits a Restart or answers `AlreadyStopped` |
| Addr.Addr.Call | src/addr.rs:121-144 | returns the awaited reply of a submitted message, or `AlreadyStopped`; a full mailbox refuses the message and is left alone |
| Addr.Addr.Clone | src/addr.rs:81-88 | a clone holds one more reference |
| Addr.Addr.Sender | src/addr.rs:206-212 | after the clones on the way exactly three references remain |
| Addr.Addr.Caller | src/addr.rs:223-228 | after the clones on the way exactly one reference remains |
| Addr.Addr.Weak | src/addr.rs:215-220 | creating a weak handle leaves the count as it was |
| Addr.Sender.Send | src/addr/sender.rs:49-70 | the send future holds one more reference until it resolves; a refusal is `ChannelClosed` |
| Addr.Sender.ForceSend | src/addr/sender.rs:87-100 | forces the message in unless the flag is down or the mailbox closed |
| Addr.Caller.Call | src/addr/caller.rs:39-65 | waits for space, then for the answer, holding one more reference until it returns |
| Addr.Weak.UpgradeSender | src/addr/weak_sender.rs:41-52 | yields a sender with three references exactly if the mailbox is open and referenced |
| Addr.Weak.TryStop | src/addr/weak_addr.rs:39-45 | `ActorDropped` without an upgrade, else the outcome of `stop`; the temporary address is returned |
| Addr.Weak.ContextStop | src/context.rs:64-71 | a context's `stop` consults no flag: the upgrade alone decides, and forces a Stop in |
| Addr.Weak.ContextRestart | src/context.rs:521-529 | a context's `restart` does the same with a Restart |
| Addr.ActorHandle.Join | src/actor/handle.rs:49-61 | only the first join can yield the actor, and only what the loop returned |
| Addr.OwningAddr.Consume | src/addr.rs:291-297 | stops, then joins; a refused stop returns without joining |
| Ownership.CascadeTerminates | src/context.rs:48-59 | every run of a cascade is finite: each step takes away one actor or one reference |
| Ownership.SupportedSurvive | src/addr/sender.rs:43-121 | on any graph, a set of live actors that reference each other or are referenced from outside never loses a member |
| Ownership.CascadeExact | src/context.rs:184-215 | an actor is alive at the end of a cascade if and only if such a set contained it |
| Ownership.ReachableSurvives | src/context.rs:78-89 | no actor reachable from an outside reference has its mailbox closed by a cascade |
| Ownership.AcyclicCascade | src/context.rs:48-59 | over an acyclic graph exactly the actors reachable from outside survive |
| Ownership.LeakFreeIffAcyclic | src/context.rs:78-89 | a finished cascade leaves no unreachable actor behind if and only if their ownership had no cycle |
| Ownership.CascadeCompletes | src/event_loop.rs:119-147 | from every state some run finishes the cascade |
| Ownership.CycleLeaks | src/context.rs:78-89 | two actors that own each other stay alive unreachable |
| Registry.InvStep | src/actor/service.rs:187-216 | every step keeps lock, entries, instances and requests consistent, and each request is answered by an instance of the type it asked for |
| RegistryDeadlock.LockReleased | src/actor/service.rs:196-211 | whoever holds the write lock frees it within two steps of its own, which wait for nobody |
| RegistryDeadlock.WaitsForNewer | src/actor/service.rs:205-212 | a hook or handler only waits for an instance newer than its own |
| RegistryDeadlock.NotStuck | src/actor/service.rs:187-216 | the wait chain of any pending request ends at a task that moves, by its own step or the lock holder's, or at an orphan: a ping its stopped receiver left queued |
| RegistryDeadlock.DeadlockFree | src/actor/service.rs:187-216 | so nothing is stuck but by an orphan at the end of its own chain, and never where queued pings are cancelled |
| RegistryDeadlock.OrphanStays | src/actor/service.rs:212 | an orphaned ping never returns, whatever follows |
| RegistryDeadlock.NeverSettledIff | src/actor/service.rs:187-216 | a pending request stays open in every continuation if and only if its chain leads to a stopped instance, a task on it already waits, and queued pings are not cancelled |
| RegistryDeadlock.HangsWithoutOrphan | src/actor/service.rs:205-212 | a concrete run after which a request hangs for good although no ping is orphaned yet |
| RegistryDeadlock.CanGetStuck | src/actor/service.rs:212 | without cancelled pings, every configuration with a service has a run that stops with a request pending |
| RegistryDeadlock.CancelsIffNeverStuck | src/actor/service.rs:187-216 | for every configuration with a service, no run gets stuck with a request pending if and only if queued pings are cancelled |
| RegistryDeadlock.RequestsTerminate | src/actor/service.rs:187-216 | from any state, services that stopped included, the steps the tasks can take on their own are bounded in advance |
| RegistryDeadlock.QuietMeansAnswered | src/actor/service.rs:151-157 | when no task can go on, every task that did not fail has an instance of every type it asked for, or its pending request ends in an orphan |
| Registry.OneServicePerType | src/actor/service.rs:73-99 | without `replace` and `unregister`, of all instances of a type ever registered at most the current one runs |
| Registry.SpawnOnlyAfterStop | src/actor/service.rs:196-209 | a lookup spawns only when every registered instance of the type has stopped |
| Registry.LookShares | src/actor/service.rs:198-205 | a lookup hands out the registered instance whenever that runs, and spawns nothing |
| Registry.ReplaceKeepsBoth | src/actor/service.rs:104-112 | `replace` leaves the replaced service running, which breaks uniqueness |
| Registry.EntriesChange | src/actor/service.rs:73-112 | in the step system `register` enters an instance unless a running one is entered, `replace` in any case, and `unregister` removes the entry |
| Registry.ServiceRegistry.Register | src/actor/service.rs:73-99 | refused exactly while a running instance is registered; otherwise the old entry is returned |
| Registry.ServiceRegistry.Replace | src/actor/service.rs:104-112 | always registers and hands back the old entry |
| Registry.ServiceRegistry.Unregister | src/actor/service.rs:172-182 | afterwards the type is not found and no other lookup changed |
| Registry.ServiceRegistry.AlreadyRunning | src/actor/service.rs:140-149 | answers whether the registered service has stopped |
| Registry.ServiceRegistry.TryFromRegistry | src/actor/service.rs:160-169 | finds the running instance, and nothing while the lock is held |
| Registry.ServiceRegistry.FromRegistry | src/actor/service.rs:187-211 | shares the running instance or spawns, inserts and unlocks, and keeps uniqueness |
| Broker.ExactDelivery | src/broker.rs:95-172 | over any history a subscriber received, of the publications made while it was subscribed, a prefix, in order, and all of them while it lives |
| Broker.OnceInOrder | src/broker.rs:95-126 | every subscriber receives every publication at most once, in publication order |
| Broker.CommonOrder | src/broker.rs:107-112 | any two subscribers agree on the order of common publications |
| Broker.OneContiguousRange | src/broker.rs:146-151 | from any subscription, first or repeated, until it ends, a subscriber's log grows by one contiguous range that starts at the next publication, up to the latest one while it lives |
| Broker.SilentUnsubscribed | src/broker.rs:167-172 | from an unsubscription until the next subscription the log does not change |
| Broker.SubscribedIsServed | src/broker.rs:182-185 | a publication handled after a subscription that nobody ended reaches the subscriber unless it stopped by then |
| BrokerDelivery.ReturnedSubscribeIsServed | src/broker.rs:182-190 | if a `subscribe` returned before a `publish` began, in any run of the broker's actor, and no payload accepted between them ends the subscription, the publication reaches the subscriber unless it stopped by then |
| Broker.Broker.HandleSubscribe | src/broker.rs:146-151 | inserts or overwrites the entry of the sender's context |
| Broker.Broker.HandleUnsubscribe | src/broker.rs:167-172 | removes exactly the entry of the sender's context |
| Broker.Broker.HandleSubscribeExternal | src/broker.rs:153-165 | appends the external channel and leaves all else |
| Broker.Broker.Retain | src/broker.rs:97-98 | drops exactly the entries that cannot be upgraded |
| Broker.Broker.SendAll | src/broker.rs:107-111 | with actors stopping at any await, every live subscriber gets the message once or is dead |
| Broker.Broker.HandlePublish | src/broker.rs:95-126 | the three loops of the handler are one publication to all members, every external channel got it once or is closed, and of the channels exactly the open ones are remembered, in order |
| Broker.Broker.PublishTwice | src/broker.rs:114-118 | over two publications a channel that stays open has both messages, in order |
| Context.IdsRepeatIff | src/context/context_id.rs:8-12 | ids coincide exactly when a multiple of 2^64 lies between them, and grow before that |
| Context.IdCounter.FetchAdd | src/context/task_id.rs:8-12 | hands out the next id, wrapping around |
| Context.FreshId | src/context/task_id.rs:8-12 | while fewer than 2^64 ids were handed out the next one is not in use |
| Context.Tasks.SpawnTask | src/context.rs:339-351 | no running job loses its entry unless the fresh id overwrites it |
| Context.Tasks.ExactlyOneEntry | src/context.rs:339-351 | a running job stands in the map under its own id and no other |
| Context.Tasks.IsTaskFinished | src/context.rs:472-483 | while every running job is contained, `Some(false)` exactly if a job under this id still runs, so `None` never hides a running one; `Some(true)` tells of a job that ended |
| Context.Tasks.StopTask | src/context.rs:486-495 | aborts the job of that entry and nothing else |
| Context.Tasks.Gc | src/context.rs:141-157 | removes exactly the finished jobs |
| Context.Tasks.Drop | src/context.rs:48-59 | aborts everything, so no contained job outlives its context |
| Context.CollectedLists | src/context.rs:202-215 | retaining the running children of each list is marking the stopped ones in the registration history |
| Context.ListedMembers | src/context.rs:202-215 | a child is listed under a type if and only if some registration for it was not seen stopped |
| Context.Children.Register | src/context.rs:189-200 | appends to the list of the child's message type |
| Context.Children.RemoveStopped | src/context.rs:202-215 | each list is the registration order minus children seen stopped at a gc |
| Context.Children.Forward | src/context.rs:218-236 | offers one clone per listing under the message's type, and nothing to other children |
| Interval.TimedSend | src/context.rs:303-308 | the send wins whenever it resolves by the deadline, at once if there is room, else at the event that made room; it is abandoned only on a mailbox that is full and open then, and leaves no trace |
| Interval.SendTick | src/context.rs:375-387 | one round adds the tick to what the mailbox accepted exactly if it counts as enqueued, and no other tick; it fails only if the flag is down or the mailbox closed |
| Interval.EnqueuedExactly | src/context.rs:373-388 | the list of enqueued ticks holds each of them once, with its own message, in generation order |
| Interval.AcceptedIffEnqueued | src/context.rs:373-388 | a mailbox whose own entries are that list accepted a tick if and only if it was enqueued |
| Interval.OnlyLastOpen | src/context.rs:373-388 | at most one tick has failed or is in flight |
| Interval.TimesIsProduct | src/context.rs:373-374 | the repeated sums in the bounds of `Run` are products |
| Interval.Run | src/context.rs:369-389 | through the shared mailbox, whatever others push, take or drop: the interval's entries among the accepted ones are exactly the enqueued ticks in generation order, and no skipped or failed tick is accepted; the k-th tick is made no earlier than k periods after the start and, with ideal timers, no later than those plus one expiry per earlier tick; only a refused send or a failed upgrade ends the task |

## Left out

- Aborting or dropping the loop's own task from outside (runtime shutdown); only the five exits of the loop itself are modelled.
- The `async_runtime` variant of task handles: only the tokio variant is modelled.
- `hannibal-derive`, builders and spawn conveniences: configuration and capacity are parameters here.
- OS signals, examples, logging, the wall-clock value of `ping`, `f32` rounding of the interval expiry.
- `TypeId` and `Any` downcasts: types are tags, and matching tags are an invariant.
- Weak memory: atomic accesses are sequentially consistent.
- Client operations that a handler or hook starts on other actors; in the protocol every operation belongs to some client. Requests that hooks and handlers make to the registry are modelled there.
- Actor values whose handlers carry other actors' handles inside payloads: the ownership graph counts references in contexts and outside only.
- Temporary references between two steps of one client (the clones inside `sender()` or `upgrade`) are shown in the imperative methods only; in the step system a handle appears with its final count.
- Broker channels that nobody drains, custom-configured brokers, and handlers that block on the broker.
- `delayed_send` and `delayed_exec`: one round of what `Interval.Run` does.
- RegistryDeadlock.DeadlockFree: a handler whose request is pending is not cut by a configured timeout; the requests of hooks and handlers end by an answer, by cancellation or with their own service.
- Addr.Addr.Call: what becomes of the reply slot is a parameter of the method, because the handler runs in another task; `StepsAwait` and `CallAnswered` tie the slot to the handler in the step system.
- Addr.Caller.Call: the reply slot is a parameter here too, tied to the handler by `StepsAwait` and `CallAnswered`.
- Interval.Run: between an event that makes room and the next poll of the waiting send nothing else happens; the references of a round are dropped together.
- Broker.OneContiguousRange: displacement by forced sends into a subscriber's own mailbox is counted as delivered, because the mailbox accepted the message.
- EventLoop.EventLoop.Create: the environment acts on the mailbox only while the loop waits for its next event; acts during a handler are the same to the loop as acts right after it.
