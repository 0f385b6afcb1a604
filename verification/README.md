# AgentsMesh protocols, verified

This project models the parts of AgentsMesh in which concurrency, history or
arithmetic make correctness hard to see, and proves what they are meant to
guarantee, for every input, run or reachable state.

- **The relay's terminal channel** connects one runner (the publisher) to many
  browsers (the subscribers). `Channel` is a transition system in which every
  critical section is one action, so its runs are all interleavings of any number
  of publisher replacements, forwarders, reconnect timers, closes, joins, removals
  and control requests. `PublisherSafety`, `Delivery`, `Control` and `Status` prove
  invariants over its runs. `Terminal` is the channel as an object: each method,
  with its loops, is proved to be a run of that system. `ReplayBuffer` is the
  output buffer, as a sequence and in place on its backing array. `Locks` reduces
  every goroutine to its lock operations and proves deadlock freedom and mutual
  exclusion; `LockScripts` proves that those operations are the ones of the
  channel's actions and that every change is made under the lock that guards it.
- **The channel manager** pairs waiting publishers and subscribers by pod key.
  `Registry` is the manager object with its three maps; `Relay` lets connect calls,
  channels, clean-up and administrative closes interleave; `Connects` says what a
  connection meets on its way; `RelayRuns` exhibits particular runs; `Simulation`
  proves that the detailed channel of `Channel` behaves like the coarser one that
  `Relay` uses, and `Composition` puts the manager and any number of detailed
  channels together into one system.
- **Loop-run admission** (`LoopRuns`) allocates run numbers and concurrency slots.
- **Agent probing** (`AgentProbe`) reports deltas that keep a replica equal to the
  runner's cache.
- **The autopilot's retry loop** (`Retry`) backs off exponentially under an error
  limit, in 64-bit arithmetic.
- **Effective extensions** (`Effective`) lets a user's installation override the
  organization's.

Assumptions about the surroundings: a read from a connection that the relay has
closed fails; a write succeeds or fails; subscriber ids and newly accepted
connections are fresh; each database transaction is atomic and serialized by the
lock on its loop row; a command found by the probe has a non-empty path.

## Where code and documentation differ

The model follows the code.

- `GetRetryDelay` is documented as 2^n seconds capped at thirty. The shift and the
  product are done in 64 bits before the cap, so from 34 errors on the delay is
  zero or negative, except for eight counts where the wrapped product happens to
  exceed the cap (`Retry.BackoffExactlyWhen`).
- An `OutputBufferCount` of 0 makes buffering index an empty slice
  (`ReplayBuffer.PanicsExactlyWithoutSlots`); all results about channels take a
  count of at least 1.
- The close callback removes by pod key, not by channel. After `CloseChannel` it
  can unregister the next channel of that key (`RelayRuns.CloseChannelCanOrphan`);
  `Relay.StaysRegisteredExactlyWhen` gives the exact condition, which the manager
  could check before pairing.
- The controller need not be a current subscriber. There are exactly two ways to
  get there (`Control.HolderIsLiveExactlyWhen`), and both happen
  (`Control.HolderMayBeGone`, `Control.CloseLeavesHolder`).
- A joining subscriber can be told RunnerDisconnected after it was told
  RunnerReconnected, and then believes it (`Status.NoticeCanBeLate`);
  `Status.NoticesAreTrueExactlyWhen` is the exact condition.
- The backend ignores an empty full report of agents, which it takes for an old
  runner's, so agents of a runner that lost all of them stay listed
  (`AgentProbe.AgreesThroughoutExactlyWhen`).
- A diff is documented as returning only changes. With two contradicting results
  for one slug it reports that slug twice (`AgentProbe.ExactExactlyWhenConsistent`).
- The cap on concurrent runs can be exceeded when an orphaned pod comes back
  (`LoopRuns.OrphanReturnExceedsCap`); `LoopRuns.CapHoldsExactlyWhen` says exactly
  when it is not.

## How the pieces fit

`Channel.Enabled` and `Channel.Do` define the steps. A goroutine that waits for
publisherReplaceMu has done nothing yet, so only the holder of that lock has a
program counter, while forwarders form an arbitrary map: that there is never more
than one is proved. History variables record what happened and no guard reads
them. A closed check made inside another lock is merged with the section around
it: nothing else in that section depends on the flag, so a close that sets the
flag in between is indistinguishable from one that sets it just afterwards.

Each theorem about runs rests on a lemma that every step keeps an invariant:
`PublisherSafety.PubInv` for the publisher side, `Delivery.DelInv` for who has or
is still owed which message, `Control.ControlInv` for the control token,
`Status.Known` for what subscribers have heard, `Relay.Conserved`, `Relay.RegOk`,
`Relay.AllHollow` and `Relay.Admitted` for the manager. Where a property fails, a
predicate on a state and the next action says which steps lose it, and a theorem
over runs says that it holds throughout exactly when no such step is taken.

## Model

| member | source | states |
|---|---|---|
| `Wire.KindByTypeByte` | relay/internal/protocol/message.go:9-20 | the first byte decides: 1 is a snapshot, 2 is output, anything else and an empty frame is only passed on |
| `ReplayBuffer.BufferRefinesReplay` | relay/internal/channel/terminal_channel.go:410-455 | for every sequence of outputs and snapshots, evicting and appending message by message yields the longest suffix since the last snapshot that fits count and bytes |
| `ReplayBuffer.RetainIsLongest` | relay/internal/channel/terminal_channel.go:417-424 | what is kept is a suffix, fits both limits, and no longer suffix fits |
| `ReplayBuffer.PushRetains` | relay/internal/channel/terminal_channel.go:411-442 | the eviction loop followed by the conditional append is the longest fitting suffix of the buffer plus the message, oversized messages included |
| `ReplayBuffer.RetainAppend` | relay/internal/channel/terminal_channel.go:417-424 | evicting before each append loses nothing that evicting once at the end would keep |
| `ReplayBuffer.ReplayStep` | relay/internal/channel/terminal_channel.go:504-516 | one forwarder iteration on an output or a snapshot keeps the buffer equal to its specification |
| `ReplayBuffer.ReplayOmits` | relay/internal/channel/terminal_channel.go:444-455 | a message missing from the buffer was superseded by a later snapshot, or the messages from it on exceed the budget |
| `ReplayBuffer.SinceSnapshotSplit` | relay/internal/channel/terminal_channel.go:510-516 | what precedes the last snapshot is exactly what a snapshot supersedes |
| `ReplayBuffer.PanicsExactlyWithoutSlots` | relay/internal/channel/terminal_channel.go:418-420 | buffering indexes an empty slice if and only if OutputBufferCount is 0, whatever the buffer, message and byte limit |
| `ReplayBuffer.OutputBuffer.BufferOutput` | relay/internal/channel/terminal_channel.go:411-442 | in place, on a backing array with offset and capacity: new contents are the specified push of the old ones, dead slots are cleared, the byte counter is exact, compaction and growth change no content |
| `ReplayBuffer.OutputBuffer.EvictOldest` | relay/internal/channel/terminal_channel.go:419-423 | drops exactly the oldest message, clears its slot, keeps the counter exact |
| `ReplayBuffer.OutputBuffer.Relocate` | relay/internal/channel/terminal_channel.go:426-432 | compaction: a new backing array of the requested capacity holds the same messages |
| `ReplayBuffer.OutputBuffer.Append` | relay/internal/channel/terminal_channel.go:434-441 | appends, growing into a larger array when the old one is full |
| `ReplayBuffer.OutputBuffer.ClearOutputBuffer` | relay/internal/channel/terminal_channel.go:446-455 | empties the buffer, leaves no reference behind, resets the counter |
| `ReplayBuffer.OutputBuffer.GetBufferedOutput` | relay/internal/channel/terminal_channel.go:458-469 | returns exactly the buffered messages, in order, as a copy |
| `ReplayBuffer.OutputBuffer.Release` | relay/internal/channel/terminal_channel.go:762-769 | closing clears every slot of the old backing array and lets it go |
| `ReplayBuffer.OutputBuffer.Forward` | relay/internal/channel/terminal_channel.go:504-516 | if the buffer showed a history's replay, it now shows the replay of the history plus this message |
| `PublisherSafety.StepKeeps` | relay/internal/channel/terminal_channel.go:158-775 | every critical section of every goroutine keeps the publisher invariant |
| `PublisherSafety.RunKeeps` | relay/internal/channel/terminal_channel.go:475-520 | the publisher invariant holds after every run |
| `PublisherSafety.SingleForwarder` | relay/internal/channel/terminal_channel.go:204-218 | in every reachable state at most one forwarder exists, the wait group counts it, and at most one broadcast is in progress, whoever makes it |
| `PublisherSafety.EpochOrder` | relay/internal/channel/terminal_channel.go:187-190 | in every run, all broadcasts of an epoch precede all broadcasts of a later epoch |
| `PublisherSafety.NotificationsAlternate` | relay/internal/channel/terminal_channel.go:208-214 | in every run the begin and end of RunnerDisconnected and RunnerReconnected strictly cycle, starting with a disconnect; when nobody is in the middle of the protocol the last one agrees with the disconnected flag |
| `PublisherSafety.ReconnectTimeoutSafety` | relay/internal/channel/terminal_channel.go:600-623 | disconnected implies no publisher installed; a timer is armed only while disconnected, at most one is; a closing timer callback never meets an installed publisher or a replacement in progress |
| `PublisherSafety.StaleDisconnectIsIgnored` | relay/internal/channel/terminal_channel.go:583-589 | in every run, no action of a forwarder whose epoch is over changes publisher, disconnected flag, epoch or any reconnect timer |
| `PublisherSafety.DisconnectCountsExactlyWhen` | relay/internal/channel/terminal_channel.go:578-623 | in every run a disconnect changes those exactly when the installed connection is the forwarder's own: whenever the pointer matches, so does the epoch |
| `PublisherSafety.RunOwns` | relay/internal/channel/terminal_channel.go:475-490 | in every run, outside a replacement the forwarder is of the current epoch and works on the installed connection, and an older one never does |
| `PublisherSafety.PublisherIsServed` | relay/internal/channel/terminal_channel.go:475-490 | in every run an installed publisher has its reader: unless a replacement is still on its way to spawning one, a forwarder of the current epoch is about to start or works on that very connection |
| `PublisherSafety.ReaderTakesAnything` | relay/internal/channel/terminal_channel.go:494-500 | a forwarder that reads an open connection takes whatever arrives |
| `PublisherSafety.CloseIsFinalAndOnce` | relay/internal/channel/terminal_channel.go:718-775 | over any racing closes and timers, cleanup and callback happen at most once; once the callback has run, every later state has no publisher, forwarder, subscriber, buffered message or timer |
| `PublisherSafety.RunEmptied` | relay/internal/channel/terminal_channel.go:754-769 | what closeInternal has emptied is empty in every later state |
| `PublisherSafety.CallbacksPersist` | relay/internal/channel/terminal_channel.go:771-774 | the callback count never decreases along a run |
| `PublisherSafety.AwaitedForwarderCanStep` | relay/internal/channel/terminal_channel.go:750-752 | a forwarder that somebody waits for always has an enabled action of its own |
| `PublisherSafety.WaitEnds` | relay/internal/channel/terminal_channel.go:204-206 | while somebody waits, each action of the awaited forwarder brings it strictly closer to leaving, nobody else moves it back, and the waiter stays |
| `PublisherSafety.ForwarderCanStep` | relay/internal/channel/terminal_channel.go:494-519 | in every run each forwarder has an enabled action of its own |
| `PublisherSafety.HolderCanStep` | relay/internal/channel/terminal_channel.go:600-622 | in every run whoever holds publisherReplaceMu can go on, or waits for a forwarder that exists; when nobody holds it, any replacement, close or fired callback can have it; any armed timer can fire |
| `Delivery.StepDelivers` | relay/internal/channel/terminal_channel.go:381-408 | every critical section keeps the account of who has or is still owed which message |
| `Delivery.RunDelivers` | relay/internal/channel/terminal_channel.go:250-293 | that account holds after every run |
| `Delivery.NoGapJoin` | relay/internal/channel/terminal_channel.go:250-293 | in every interleaving, a subscriber past its replay with no failed write has received every message no forwarder still holds, live or replayed, unless the message preceded the join and, when the buffer was copied, had been superseded by a snapshot or pushed out by the budget |
| `Delivery.LiveBuffer` | relay/internal/channel/terminal_channel.go:504-518 | in every run the shared buffer is the specified replay of what went through it, until it is released and except while a snapshot is replacing it |
| `Delivery.DeliveriesAreGenuine` | relay/internal/channel/terminal_channel.go:280-293 | nobody is ever sent, live or replayed, a numbered message that differs from the one published under that number |
| `Delivery.CopyAccounts` | relay/internal/channel/terminal_channel.go:457-469 | what a copy of the buffer lacks is lost for a reason, in any state of the forwarder |
| `Control.ControlExclusive` | relay/internal/channel/terminal_channel.go:678-708 | in every run, from a grant to its release or clean-up nobody else is granted control, only the holder's input passes, and no other subscriber's step takes control away |
| `Control.ClearedOnlyAfterRemoval` | relay/internal/channel/terminal_channel.go:323-328 | control is only cleaned up for a subscriber that has left the map |
| `Control.HolderMayBeGone` | relay/internal/channel/terminal_channel.go:309-315 | a concrete run in which control is granted to a subscriber that has been removed and cleaned up |
| `Control.CloseLeavesHolder` | relay/internal/channel/terminal_channel.go:754-760 | a concrete run in which closing drops the map and leaves its holder |
| `Control.LiveStep` | relay/internal/channel/terminal_channel.go:686-697 | from any state in which the holder is subscribed or about to be cleaned up, a step keeps it so if and only if it neither grants control to somebody gone nor drops the map under a holder nobody is cleaning up |
| `Control.HolderIsLiveExactlyWhen` | relay/internal/channel/terminal_channel.go:309-328 | over whole runs: the holder is always subscribed or about to be cleaned up if and only if no such step is ever taken |
| `Terminal.TerminalChannel.Broadcast` | relay/internal/channel/terminal_channel.go:381-408 | the whole method, loops included, is a run of the transition system: every subscriber whose write succeeds gets the message once more, exactly the failing ones are removed, the broadcaster moves on |
| `Terminal.TerminalChannel.WriteAll` | relay/internal/channel/terminal_channel.go:392-402 | the writing loop delivers once to each subscriber of the snapshot whose write succeeds and collects the others |
| `Terminal.TerminalChannel.RemoveFailed` | relay/internal/channel/terminal_channel.go:404-407 | the removing loop takes out exactly the failed ones and clears the control token if one of them held it |
| `Terminal.TerminalChannel.StartForwarding` | relay/internal/channel/terminal_channel.go:475-490 | is a run; reads the installed connection exactly if there is one and the epoch is current, whatever anybody else is doing |
| `Terminal.TerminalChannel.ForwardMessage` | relay/internal/channel/terminal_channel.go:494-519 | one iteration is a run: the buffer absorbs a replayable message, every surviving subscriber has the frame last, the forwarder is back where it was |
| `Terminal.TerminalChannel.HandlePublisherDisconnect` | relay/internal/channel/terminal_channel.go:580-630 | is a run; with matching pointer and epoch the publisher is gone, closed, a timer armed and RunnerDisconnected announced, otherwise only the forwarder leaves |
| `Terminal.TerminalChannel.LosePublisher` | relay/internal/channel/terminal_channel.go:591-629 | the part of it that follows a passed identity check |
| `Terminal.TerminalChannel.AddSubscriber` | relay/internal/channel/terminal_channel.go:247-306 | is a run; closed and at-capacity results exactly when the code returns them, with nothing changed; otherwise the subscriber is in, was sent the numbered buffer in order up to the first failed write, and then RunnerDisconnected exactly when the publisher is away and that write succeeds |
| `Terminal.TerminalChannel.ReplayBuffered` | relay/internal/channel/terminal_channel.go:280-293 | the replaying loop sends a prefix of the copied buffer, all of it unless a write fails |
| `Terminal.TerminalChannel.RemoveSubscriber` | relay/internal/channel/terminal_channel.go:309-328 | is a run of its two critical sections |
| `Terminal.TerminalChannel.ReplacePublisher` | relay/internal/channel/terminal_channel.go:158-202 | SetPublisher up to the wait is a run: refused exactly when closed, ignored exactly for the installed connection, otherwise next epoch, timer stopped, old connection closed |
| `Terminal.TerminalChannel.ResumePublisher` | relay/internal/channel/terminal_channel.go:204-218 | SetPublisher after the wait is a run: RunnerReconnected exactly after a disconnect, then one new forwarder of the epoch |
| `Terminal.TerminalChannel.BeginClose` | relay/internal/channel/terminal_channel.go:720-748 | closeInternal up to the wait is a run: only the first caller goes on, and it detaches and closes the publisher |
| `Terminal.TerminalChannel.FinishClose` | relay/internal/channel/terminal_channel.go:750-775 | closeInternal after the wait is a run that empties subscribers and buffer, lets the backing array go and calls back once |
| `Terminal.TerminalChannel.ReconnectTimeout` | relay/internal/channel/terminal_channel.go:600-622 | the timer callback is a run that closes exactly when the publisher is still disconnected and the channel not closed yet |
| `Terminal.TerminalChannel.CanInput` | relay/internal/channel/terminal_channel.go:677-684 | permission exactly for the holder, or for anybody when there is none |
| `Terminal.TerminalChannel.RequestControl` | relay/internal/channel/terminal_channel.go:686-697 | granted exactly when nobody holds control |
| `Terminal.TerminalChannel.ReleaseControl` | relay/internal/channel/terminal_channel.go:699-708 | releases exactly the caller's own control |
| `Terminal.TerminalChannel.constructor` | relay/internal/channel/terminal_channel.go:142-152 | a new channel shows the initial state |
| `Status.DisconnectIsKnown` | relay/internal/channel/terminal_channel.go:295-301 | in every run, while the publisher is away and its farewell has been broadcast, the last thing each subscriber with sound writes and a finished join has heard is RunnerDisconnected |
| `Status.NoticesAreTrueExactlyWhen` | relay/internal/channel/terminal_channel.go:295-301 | throughout a run, whoever last heard RunnerDisconnected is right or still to be told otherwise, if and only if no join sends its notice after the reconnect was announced to it |
| `Status.NoticeCanBeLate` | relay/internal/channel/terminal_channel.go:295-301 | a concrete run in which it does: a runner is connected and the subscriber was last told that it is gone |
| `Status.TruthfulStep` | relay/internal/channel/terminal_channel.go:208-214 | the same condition for a single step |
| `Locks.EveryGoroutineDisciplined` | relay/internal/channel/terminal_channel.go:158-775 | each goroutine, on each path and for any loop counts, acquires locks and the wait group in one rank order and releases all of them |
| `Locks.ScheduleDisciplined` | relay/internal/channel/channel_manager.go:318-333 | the discipline holds in every state of every schedule over any number of goroutines and channels, readers overtaking writers that have not locked yet included |
| `Locks.NoWaitCycle` | relay/internal/channel/terminal_channel.go:712-775 | no schedule leads to a wait-for cycle, pending writers included |
| `Locks.DeadlockFree` | relay/internal/channel/channel_manager.go:227-233 | in every state of every schedule, if a goroutine is unfinished then some goroutine can proceed, even if pending writers keep readers out |
| `Locks.MutualExclusion` | relay/internal/channel/terminal_channel.go:85-132 | in every schedule, of two goroutines that hold the same lock neither holds it exclusively |
| `Locks.OneDecides` | relay/internal/channel/terminal_channel.go:158-219 | in every schedule whoever waits for a channel's forwarder or sets its closed flag holds its publisherReplaceMu, and nobody else does |
| `Locks.WhoWaits` | relay/internal/channel/terminal_channel.go:204-206 | a replacement waits for the forwarder exactly when it replaces, a close or timeout exactly when it is the one that closes |
| `LockScripts.PublisherIsLocked` | relay/internal/channel/terminal_channel.go:158-197 | in any state, every change of publisher, flag, epoch or timer is made under publisherMu and every change of the closed flag under closedMu |
| `LockScripts.SubscribersAreLocked` | relay/internal/channel/terminal_channel.go:250-276 | in any state, every change of the subscriber map, the token, the buffer or what a subscriber is sent is made under the lock that guards it |
| `LockScripts.ReadsAreLocked` | relay/internal/channel/terminal_channel.go:221-233 | what the sections learn they read under the lock as well |
| `LockScripts.BroadcastIsScript` | relay/internal/channel/terminal_channel.go:381-408 | Broadcast's lock program is that of its actions, for any snapshot and any failures |
| `LockScripts.ReplacementIsScript` | relay/internal/channel/terminal_channel.go:158-219 | SetPublisher's lock program is that of its actions |
| `LockScripts.CloseIsScript` | relay/internal/channel/terminal_channel.go:712-775 | the lock programs of Close and of the timer callback are those of their actions |
| `LockScripts.ForwarderIsScript` | relay/internal/channel/terminal_channel.go:475-520 | the forwarder's lock program is that of its actions, for any number of messages |
| `LockScripts.JoinIsScript` | relay/internal/channel/terminal_channel.go:247-306 | addSubscriberInternal's lock program is that of its actions |
| `Registry.ChannelManager.HandlePublisherConnect` | relay/internal/channel/channel_manager.go:106-151 | by cases on the old maps: attach to the registered channel, pair with the waiting subscriber in a new registered channel, or park with the time, displacing an older waiter; no key gets into two maps |
| `Registry.ChannelManager.HandleSubscriberConnect` | relay/internal/channel/channel_manager.go:155-204 | the subscriber's counterpart, by the same cases |
| `Registry.ChannelManager.Forget` | relay/internal/channel/channel_manager.go:214-233 | removes whatever the key names and reports it |
| `Registry.ChannelManager.CleanupPending` | relay/internal/channel/channel_manager.go:236-272 | exactly the waiters older than the timeout are removed and handed back to be closed, and every one left is not older, in any iteration order |
| `Registry.ChannelManager.SweepPublishers` | relay/internal/channel/channel_manager.go:252-259 | the loop over waiting publishers, by their ages |
| `Registry.ChannelManager.SweepSubscribers` | relay/internal/channel/channel_manager.go:261-268 | the loop over waiting subscribers, by their ages |
| `Registry.ChannelManager.Close` | relay/internal/channel/channel_manager.go:277-304 | all maps end up empty; every channel is handed out to be closed and every waiter is closed |
| `Registry.ChannelManager.DrainChannels` | relay/internal/channel/channel_manager.go:283-288 | each registered channel is collected exactly once |
| `Relay.ConnectionConservation` | relay/internal/channel/channel_manager.go:106-204 | in every run a connection handed to the manager is in exactly one place (in a call, pending, publisher, leaving, subscriber, returned, closed), no other connection is in any, and none is left in a channel that is past closing it |
| `Relay.RunHollows` | relay/internal/channel/terminal_channel.go:738-760 | in every run a channel past detaching has no publisher, and one past emptying has nothing left to close and no subscribers |
| `Relay.StepConserves` | relay/internal/channel/channel_manager.go:236-304 | every critical section of manager and channels keeps the connections accounted for |
| `Relay.RunConserves` | relay/internal/server/handler.go:153-171 | that account holds after every run, and a subscriber id stays with the connection it arrived with |
| `Relay.HandedIsPlaced` | relay/internal/channel/channel_manager.go:106-204 | exactly the connections that arrived have a place |
| `Connects.SweepClosesExactlyStale` | relay/internal/channel/channel_manager.go:247-270 | in every run, a sweep closes a waiting connection exactly when its connect call went through the mutex more than the timeout earlier, and otherwise leaves it where it is |
| `Connects.LockRoutes` | relay/internal/channel/channel_manager.go:106-204 | in every run the mutex routes by key: to the registered channel, which has that key; else, with the one waiting on the other side, into a new registered channel; else into the waiting list, closing whoever waited there |
| `Connects.AdmitByCases` | relay/internal/channel/terminal_channel.go:250-268 | a closed channel closes the joining connection, a full one hands it back, any other takes it, and only the limited join can be full |
| `Connects.CallCanStep` | relay/internal/channel/channel_manager.go:104-204 | in every run each connect call in progress has a next section that it can perform |
| `Connects.AlwaysPossible` | relay/internal/channel/channel_manager.go:104-204 | fresh connections can arrive under any key at any time, and clean-up and closing are always possible |
| `Connects.ReturnedIsClosed` | relay/internal/server/handler.go:161-170 | a connection handed back can be closed by its handler, and then is |
| `Connects.CloseAllCloses` | relay/internal/channel/channel_manager.go:277-298 | the manager's Close closes exactly the waiting connections and empties the maps |
| `Relay.RegistryConsistency` | relay/internal/channel/channel_manager.go:106-204 | in every run the three key sets are disjoint, and for a key never closed administratively each unfinished channel is the one registered under its key |
| `Relay.CallbackRemovesOnlyItself` | relay/internal/channel/channel_manager.go:227-233 | the close callback of such a channel removes its own entry and no other |
| `Relay.StaysRegisteredExactlyWhen` | relay/internal/channel/channel_manager.go:214-233 | after any run, a registered channel stays registered until its own callback, in every continuation without an administrative close of its key, if and only if every other channel ever created for the key has finished closing |
| `Relay.SoleStays` | relay/internal/channel/channel_manager.go:227-233 | the forward half, for one continuation |
| `Relay.Finishes` | relay/internal/channel/terminal_channel.go:718-775 | the other half: an unfinished channel can always run to its callback and take the key's entry with it |
| `Relay.AdmissionBound` | relay/internal/channel/channel_manager.go:159-183 | with a positive limit, in every run a channel has at most that many subscribers until its creator is admitted and at most one more afterwards |
| `Relay.RunAdmits` | relay/internal/channel/terminal_channel.go:264-268 | the invariant behind the bound, after every run |
| `Relay.RunRegisters` | relay/internal/channel/channel_manager.go:110-126 | the registry invariant, after every run |
| `RelayRuns.CloseChannelCanOrphan` | relay/internal/channel/channel_manager.go:214-232 | a concrete run: after CloseChannel, an old channel's callback unregisters the new channel of the key, which stays open with its subscriber |
| `RelayRuns.AdmissionBoundIsTight` | relay/internal/channel/channel_manager.go:181-183 | a concrete run that reaches the bound of limit plus one |
| `Simulation.ChannelStepIsManagerStep` | relay/internal/channel/terminal_channel.go:158-775 | after any run, whatever the detailed channel does on its own is at most one critical section of the manager's channel and is shown by it afterwards |
| `Simulation.InstallIsManagerStep` | relay/internal/channel/channel_manager.go:110-131 | SetPublisher's critical section is the install step of the connect call |
| `Simulation.AdmitIsManagerStep` | relay/internal/channel/terminal_channel.go:250-268 | a join is admitted by the detailed channel exactly when the connect call admits it, and the two still agree afterwards |
| `Simulation.OthersKeepShowing` | relay/internal/channel/channel_manager.go:236-304 | whatever the manager does elsewhere leaves the channel as shown |
| `Simulation.NewChannelIsShown` | relay/internal/channel/channel_manager.go:177-179 | a freshly created channel is shown |
| `Composition.ComposedRunsProject` | relay/internal/channel/channel_manager.go:104-204 | whatever the manager and any number of detailed channels do together, the manager's part is a run of Relay, each channel's part is a run of Channel, and the manager's view of a channel is what it is |
| `Composition.FinishedHoldsNothing` | relay/internal/channel/terminal_channel.go:771-774 | in every such run, once a channel's callback has run no connection is left with it as publisher, on its way out, or as subscriber |
| `Composition.SettledStays` | relay/internal/channel/channel_manager.go:236-304 | no step moves a subscriber's connection but to close it |
| `LoopRuns.RunNumbersAreConsecutive` | backend/internal/infra/loop_run_repo.go:424-452 | over any history of triggers, skips, rewrites and prunings, a loop's runs are numbered 1, 2, 3, ... in creation order |
| `LoopRuns.NewestSurvives` | backend/internal/infra/loop_run_repo.go:364-384 | retention always keeps the newest run ever created, which carries the highest number |
| `LoopRuns.TriggerByCases` | backend/internal/infra/loop_run_repo.go:387-463 | by cases on the table: nothing for a missing or disabled loop; otherwise one new last row, pending, open and without a pod below the cap, skipped and finished at it |
| `LoopRuns.NumbersOnlyWhileEnabled` | backend/internal/infra/loop_run_repo.go:401-403 | over any history a loop is issued exactly one number per trigger that comes while it is enabled |
| `LoopRuns.RetentionKeepsExactly` | backend/internal/infra/loop_run_repo.go:364-384 | with distinct ids, the loop's finished runs afterwards number the limit, or all of them if there are no more, and every other row survives in order |
| `LoopRuns.IdsStayDistinct` | backend/internal/infra/loop_run_repo.go:424-452 | over any history rows are in the order of their ids, which are distinct |
| `LoopRuns.RetentionDropsOldest` | backend/internal/infra/loop_run_repo.go:369-378 | only finished runs of the loop are deleted, and each is older than every finished run kept |
| `LoopRuns.ConcurrencyCap` | backend/internal/infra/loop_run_repo.go:405-422 | from an empty table, with a fixed cap and no other writer reviving a run, the active count never exceeds the cap |
| `LoopRuns.SkippedExactlyAtCap` | backend/internal/infra/loop_run_repo.go:466-502 | a run is skipped exactly when the cap is reached, and exactly the skipped ones take no slot |
| `LoopRuns.AttachIsQuiet` | backend/internal/infra/loop_run_repo.go:118-133 | attaching a pod to a pending run revives nothing |
| `LoopRuns.FinishIsQuiet` | backend/internal/infra/loop_run_repo.go:118-133 | finishing a run revives nothing |
| `LoopRuns.OrphanReturnExceedsCap` | backend/internal/infra/loop_run_repo.go:405-422 | a concrete history in which an orphaned pod comes back and the cap of one is exceeded |
| `LoopRuns.CapAfterPodChangeExactlyWhen` | backend/internal/service/runner/pod_reconcile_handler.go:69-72 | after a pod status change the cap holds if and only if the active count, plus the loop's runs on that pod if it comes back, minus them if it goes, is within it |
| `LoopRuns.CapHoldsExactlyWhen` | backend/internal/infra/loop_run_repo.go:405-422 | over whole histories in which pods change as they please: the cap always holds if and only if no pod ever comes back to find too little room for its runs |
| `LoopRuns.PodChangeCounts` | backend/internal/domain/agentpod/pod.go:125-129 | what a pod's change does to the active count, by how many runs are attached to it |
| `LoopRuns.LoopRunRepo.TriggerRunAtomic` | backend/internal/infra/loop_run_repo.go:387-463 | the transaction, by cases on the old table: not found or disabled with nothing changed, otherwise one row appended, as LoopRuns.TriggerByCases says |
| `LoopRuns.LoopRunRepo.HandleConcurrencyPolicy` | backend/internal/infra/loop_run_repo.go:466-502 | appends one skipped, finished run with the next number, under every policy |
| `LoopRuns.LoopRunRepo.DeleteOldFinishedRuns` | backend/internal/infra/loop_run_repo.go:364-384 | nothing for a non-positive limit; otherwise as many finished runs of the loop are left as asked for, or all, every other row survives in order, and the number deleted is returned |
| `LoopRuns.LoopRunRepo.ComputeLoopStats` | backend/internal/infra/loop_run_repo.go:170-239 | adding aggregated finished runs and individually derived unfinished ones counts each run of the loop exactly once |
| `LoopRuns.CountedSplits` | backend/internal/infra/loop_run_repo.go:170-239 | the two halves of the statistics partition the runs |
| `LoopRuns.UnfinishedRunTally` | backend/internal/domain/loop/loop_run.go:117-185 | what an unfinished run with a pod adds to the statistics, by autopilot phase and pod status |
| `LoopRuns.OwnStatusTally` | backend/internal/infra/loop_run_repo.go:178-186 | what a finished run, or one never given a pod, adds by its own status |
| `LoopRuns.TallyAppend` | backend/internal/infra/loop_run_repo.go:213-238 | the statistics of a table are those of its parts |
| `LoopRuns.PodIsActiveOrFinished` | backend/internal/domain/agentpod/pod.go:125-158 | a pod status is active exactly if it is not one of the finished ones |
| `AgentProbe.ReplicaAgreement` | runner/internal/client/agent_probe.go:51-163 | after any session of full probes and diffs, duplicates included, the receiver holds exactly the cache if and only if no slug is left over from a full probe that found nothing |
| `AgentProbe.AgreesThroughoutExactlyWhen` | backend/internal/api/grpc/runner_adapter_message.go:221-224 | receiver and cache agree throughout a session if and only if the runner never comes up with nothing after having had something |
| `AgentProbe.EmptyListLeavesStale` | backend/internal/api/grpc/runner_adapter_message.go:221-224 | one agent found, then none: the receiver keeps it |
| `AgentProbe.MergeIsFold` | backend/internal/service/runner/status.go:105-143 | merging the last entry per slug, in any order, is applying the list entry by entry |
| `AgentProbe.DiffReplicates` | runner/internal/client/agent_probe.go:95-163 | one diff list, in any map order, carries a replica from the old cache to the new one |
| `AgentProbe.FullReplicates` | runner/internal/client/agent_probe.go:51-87 | the full list rebuilds the cache |
| `AgentProbe.FoundIsLastFound` | runner/internal/client/agent_probe.go:65-81 | after a full probe the cache holds exactly the slugs found, each with its last result found |
| `AgentProbe.DiffCacheIsResults` | runner/internal/client/agent_probe.go:114-160 | after a diff the cache says for each slug what its last result says, and nothing about slugs not found or not probed |
| `AgentProbe.ExactExactlyWhenConsistent` | runner/internal/client/agent_probe.go:112-162 | each diff names exactly the changed slugs, once each, for every cache and map order, if and only if no two results for a slug contradict each other |
| `AgentProbe.ConsistentDiffIsExact` | runner/internal/client/agent_probe.go:112-162 | the forward half, for one diff |
| `AgentProbe.ClashIsInexact` | runner/internal/client/agent_probe.go:116-148 | for any contradicting results, a cache from which a slug is reported twice |
| `AgentProbe.EmptyExactlyWhenUnchanged` | runner/internal/client/agent_probe.go:89-91 | a diff is empty exactly when the cache did not change |
| `AgentProbe.Probe.ProbeAll` | runner/internal/client/agent_probe.go:51-87 | cache, slugs and versions are those of the results found |
| `AgentProbe.Probe.ProbeAndDiff` | runner/internal/client/agent_probe.go:95-163 | nothing without known types; otherwise a diff in some map order that carries the old cache to the new one |
| `AgentProbe.Probe.Compare` | runner/internal/client/agent_probe.go:112-148 | the comparing loop is the specified fold |
| `Retry.DecisionBound` | runner/internal/autopilot/autopilot_decision.go:13-53 | a decision starting with e errors makes at most max(1, max - e) attempts, gives up for too many errors exactly when an attempt failed and the count has reached the limit, and the count grows by one per attempt unless the decision succeeds |
| `Retry.DecisionRounds` | runner/internal/autopilot/autopilot_decision.go:17-44 | no attempt is made in a cancelled round; every attempt but the last failed below the limit with the pod waiting and the controller not stopped; a cancelled end means the next round was cancelled |
| `Retry.DecisionEnds` | runner/internal/autopilot/autopilot_decision.go:57-98 | how a decision ends, from its last attempt alone: success, exhaustion, busy pod, stop or cancellation, each exactly when |
| `Retry.BackoffExactlyWhen` | runner/internal/autopilot/iteration_controller.go:269-286 | for every error count of at least 1 the 64-bit delay is min(2^n, 30) seconds if and only if n is at most 33 or one of eight larger values; otherwise it is not positive |
| `Retry.SmallBackoff` | runner/internal/autopilot/iteration_controller.go:269-286 | up to 33 errors neither shift nor product overflows and the delay is the documented one |
| `Retry.FirstDelay` | runner/internal/autopilot/config.go:33-34 | with no error recorded the delay is two seconds |
| `Retry.DelaysFollowErrors` | runner/internal/autopilot/autopilot_decision.go:83-98 | the k-th delay of a decision is the one for its error count, below the limit |
| `Retry.DelaysAreBackoffs` | runner/internal/autopilot/autopilot_decision.go:83-98 | with a limit of at most 34, every delay of every decision is the documented backoff without overflow |
| `Retry.LimitIsTight` | runner/internal/autopilot/iteration_controller.go:280-285 | with a limit of 35 a decision meets a negative delay |
| `Retry.IterationController.RunSingleDecision` | runner/internal/autopilot/autopilot_decision.go:13-53 | the loop terminates, computes the specified decision, never attempts in a cancelled round, and keeps every recorded error when cancelled |
| `Retry.IterationController.HandleDecisionError` | runner/internal/autopilot/autopilot_decision.go:57-98 | when to stop, why, and which delay |
| `Retry.IterationController.RecordError` | runner/internal/autopilot/iteration_controller.go:231-247 | counts and tells whether the limit is reached |
| `Retry.IterationController.ResetErrors` | runner/internal/autopilot/iteration_controller.go:250-260 | back to zero |
| `Retry.IterationController.GetRetryDelay` | runner/internal/autopilot/iteration_controller.go:271-286 | the wrapped and capped delay |
| `Effective.GetEffective` | backend/internal/infra/extension_repo.go:373-394 | for every list and map order the result is strictly sorted with one entry per slug, the first user-scope one if any and else the first org-scope one, and no other list satisfies that |
| `Effective.ResolutionUnique` | backend/internal/infra/extension_repo.go:465-486 | only one list resolves an input, so map iteration order cannot matter |
| `Effective.WinnerIsFirst` | backend/internal/infra/extension_repo.go:373-385 | the winner by positions: first of its scope for the slug, and a user's unless there is none |
| `Effective.LessExactlyWhen` | backend/internal/infra/extension_repo.go:391-393 | the order of slugs: a proper prefix first, otherwise the first differing character decides |
| `Effective.DeduplicateStep` | backend/internal/infra/extension_repo.go:375-385 | the map keeps the winner of the prefix read so far |
| `Effective.Collect` | backend/internal/infra/extension_repo.go:387-390 | collecting yields each map value once, in any order |
| `Effective.SortBySlug` | backend/internal/infra/extension_repo.go:391-393 | a strictly sorted permutation of the collected items |

## Left out

- Terminal.TerminalChannel.RemoveSubscriber: does not model the section that starts the keep-alive timer for the last one to leave (terminal_channel.go:330-367), because that timer does nothing but an HTTP call to the backend; `Locks` covers the locks it takes.
- Retry.IterationController.GetRetryDelay: states the wrapped value for all error counts; the documented value only under the condition of Retry.BackoffExactlyWhen.
- Relay.RegistryConsistency: says nothing of keys closed through CloseChannel or the manager's Close; for those, Relay.StaysRegisteredExactlyWhen gives the exact condition.
- Relay.ConnectionConservation: connections are fresh, so the branch in which SetPublisher is given the installed connection again is covered by Channel and Terminal only; that a publisher on its way out is closed before the subscribers are dropped is a guard in Relay that Simulation proves of the detailed channel.
- Locks.DeadlockFree: reading from a connection is not a lock operation; that an awaited forwarder always gets to leave is PublisherSafety.WaitEnds.
- Delivery.NoGapJoin: claims no order and no uniqueness for a joining subscriber, because replay and live broadcast can duplicate and reorder.
- PublisherSafety.ReconnectTimeoutSafety: does not claim that a full timeout elapsed, because a callback that fired earlier may run after a later disconnect.
- Control.ControlExclusive: the clean-up of the token after a removal may happen at any later time in the model, which includes the code's own order.
- Terminal.TerminalChannel.Broadcast: one goroutine at a time; what happens when others run in between is what the transition system covers.
- Terminal.TerminalChannel.ReplacePublisher: waiting for the old forwarder is not a method body; the method is split there, as are ResumePublisher, BeginClose and FinishClose.
- ReplayBuffer.OutputBuffer.Append: the capacity that append grows to is unspecified beyond being large enough.
- Effective.SortBySlug: models sort.Slice on values, as an insertion sort, not in place; strings are compared by code point where the code compares bytes.
- Effective.GetEffective: the SQL query that supplies the list is an arbitrary input.
- LoopRuns.ConcurrencyCap: lowering a loop's cap while runs are active is outside it, and so are loop deletion, cron claiming and rows created outside the trigger; pods that come back are in LoopRuns.CapHoldsExactlyWhen.
- LoopRuns.LoopRunRepo.ComputeLoopStats: the phases of an autopilot that is still going are one value.
- LoopRuns.LoopRunRepo.TriggerRunAtomic: SQL failures and aborted transactions are not modelled, nor prompt, trigger source and timestamps.
- AgentProbe.Probe.ProbeAndDiff: running the agents' version commands is an arbitrary list of results, and a full probe does not interleave with a diff.
- Retry.IterationController.RunSingleDecision: the control process, the pod status and cancellation are arbitrary inputs, with one decision in flight; phases and progress tracking are not modelled.
- The manager's Stats totals, GetChannel and the accessors of the channel: reads of one field.
- WebSocket frames, write deadlines, close reasons, logging, JSON and token validation: a connection is open or closed and only a message's type byte matters.
- Handling of control-request payloads other than request and release, and ping replies: text and I/O around the token that is proved.
- gRPC, TLS, registration, billing, middleware, configuration and the CRUD repositories: thin wrappers with easy properties.
