# RandomTeleport core in Dafny

A verified model of the two parts of RandomTeleport that carry its logic:

- **The location queue and its replenishment chain** (`LocationQueue.generate`).
  A queue of pre-validated locations per world is refilled by searches that
  share one counter, `startedAmount`. An initial loop runs
  `min(amount, MAX_CONCURRENT)` times, with `MAX_CONCURRENT` = 5. Each loop
  iteration and each successful search draws the next counter value with
  `getAndIncrement`. When that value is below `amount`, it launches one more
  search. A successful search first offers its location to the bounded
  buffer. A failed search only logs.
- **The teleport request pipeline** (`BasicTeleportHandler`). It has three parts:
  - the gate of `toRandomLocation`: funds, then cooldown, then delay;
  - the delayed task and its cancel-on-move watcher;
  - the body of `teleport`: empty queue, unsafe location with retry, or the
    safe path. The safe path sets the stand point and cooldown, re-checks
    funds, charges, moves the player, refreshes the death timer, charges
    again, counts the teleport and schedules a refill.

Files:

- `locations.dfy`: module `Locations`, the shared values (locations, positions, `Option`).
- `queue.dfy`: module `Queue`, the replenishment chain.
- `cooldowns.dfy`: module `Cooldowns`, the cooldown record.
- `gate.dfy`: module `TeleportGate`, the gate decision.
- `delay.dfy`: module `DelayWatch`, the delay and the watcher.
- `teleport.dfy`: module `TeleportHandler`, the handler and the plugin's stores.

How the model is built:

- **The replenishment chain is an event system.** The completions are
  asynchronous. They are modelled as events `LoopIteration`, `SearchFound(loc)`
  and `SearchFailed`, applied one at a time in any order. The counter is atomic,
  so every real interleaving is one of these sequences. `Inv` holds in every
  reachable state. It says:
  - every counter value was drawn by a loop iteration or by a successful search;
  - every value below `amount` launched exactly one search;
  - every launched search is in flight, found or failed.

  The classes `LocationQueue` and `Generation` perform the same steps in place.
  The event methods `LoopIteration`, `OnFound` and `OnFailed` are each proved
  to make exactly the step `Step` describes. `Offer` makes exactly
  `AfterOffer`, and `Generate` ends in the state the initial loop reaches.
- **The teleport pipeline uses abstract stores.** The plugin's stores are the
  fields of class `Plugin`: cooldowns, `makePayment` calls, death timers,
  teleport count, scheduled refills, `teleportAsync` calls, and the messages,
  particles and log lines sent out. `TeleportEffect` is a pure function that
  gives the outcome of `teleport` and the new stores. `RequestEffect` does the
  same for a whole `toRandomLocation` request, gate included. The methods
  `BasicTeleportHandler.Teleport` and `BasicTeleportHandler.ToRandomLocation`
  perform the source's steps in order and are proved equal to them. The
  collaborators' answers are inputs of type `Answers`:
  the clock, `isSafe`, `hasEnough`, and whether each payment goes through.

### Quirks of the code that the model keeps

- The cooldown is recorded *before* the funds re-check. A failed re-check
  leaves a fresh cooldown and no move (`CooldownWithoutMove`).
- A charged request under a positive configured price is charged the
  property's price twice: at line 145 and again at line 160 (`ChargedTwice`).
  The second charge ignores the payment's result.
- The first payment message is plural when the price is above 1. The second
  is plural when the price is not exactly 1.
- The unsafe-location retry re-enters `toRandomLocation` with the same
  property, so every round passes the whole gate again. The property still
  holds the same location. While the gate lets the request run inline and the
  location stays unsafe, the rounds repeat without end: there is no retry
  ceiling (`RetryRepeats`). A bounded retry of the location resolution alone
  would be the safer choice.
- The funds gate (line 59) calls `hasEnough` on the economy handler without
  checking it for null. The handler checks for null at lines 134 and 159, so
  it can evidently be absent. A charged request without an economy handler
  therefore throws `NullPointerException` from `toRandomLocation`. The model
  returns `ThrewNullPointer` in that case. As a consequence, the "economy
  disabled" report in `teleport` (lines 149-152) is never reached from the
  gate (`MissingEconomyNeverReported`).
- With no delay, `toRandomLocation` returns `SUCCESS` whatever `teleport`
  does, even when the queue gave no location. With a delay it returns `FAIL`.
- A failed search ends only its own chain. It does not by itself leave fewer
  than `amount` searches started: that happens only when every one of the
  `min(amount, 5)` chains fails. While at least one chain is left, the others
  keep drawing until exactly `amount` searches have been started. What each
  failure always costs is one offer (`ChainOutcome`).
- How many searches the initial loop launches depends on the timing. With
  amount 12, it is 5 when the five iterations run before any search
  completes (`TwelveIntoFiveLoopFirst`). It can be as few as 1 when searches
  complete inside the loop, and then the chains launch the rest.

## Model

| member | source | states |
|---|---|---|
| `Queue.OfferTakesOneSlot` | Api/src/main/java/me/darkeyedragon/randomtp/api/queue/LocationQueue.java:40 | an offer uses exactly one slot of remaining capacity, or is dropped unchanged when the buffer is full (drop-when-full is the model's assumption about the inherited queue) |
| `Queue.OffersFillInOrder` | Api/src/main/java/me/darkeyedragon/randomtp/api/queue/LocationQueue.java:40 | successive offers keep the buffer's contents and admit exactly the first `capacity - size` offered locations in order; the size ends at `min(size + offers, capacity)` |
| `Queue.StepKeepsInv` | Api/src/main/java/me/darkeyedragon/randomtp/api/queue/LocationQueue.java:36-53 | every event (loop iteration, successful search, failed search) preserves the counter invariant |
| `Queue.RunKeepsInv` | Api/src/main/java/me/darkeyedragon/randomtp/api/queue/LocationQueue.java:36-53 | the counter invariant holds after any sequence of events, in any order |
| `Queue.ConcurrencyBounded` | Api/src/main/java/me/darkeyedragon/randomtp/api/queue/LocationQueue.java:39-53 | in every reachable state: in flight at most `min(amount, 5)` and at most 5, started at most `amount`, offers at most started |
| `Queue.NothingForNonPositiveAmount` | Api/src/main/java/me/darkeyedragon/randomtp/api/queue/LocationQueue.java:48-53 | with `amount <= 0` the counter stays 0 and no search is started and nothing offered |
| `Queue.InitialBurst` | Api/src/main/java/me/darkeyedragon/randomtp/api/queue/LocationQueue.java:48-53 | for `amount >= 1` the initial loop alone starts exactly `min(amount, 5)` searches and advances the counter once per iteration |
| `Queue.ChainOutcome` | Api/src/main/java/me/darkeyedragon/randomtp/api/queue/LocationQueue.java:36-53 | once the chain has ended: offers = started - failed; with fewer failures than initial searches exactly `amount` were started; with none, exactly `amount` started and `amount` offered; any failure leaves fewer than `amount` offers |
| `Queue.GenerateBuffer` | Api/src/main/java/me/darkeyedragon/randomtp/api/queue/LocationQueue.java:36-53 | after a chain with no failure, exactly `amount` results were offered; the buffer keeps its contents followed by the first `min(amount, capacity - size)` results in arrival order, and holds `min(size + amount, capacity)` |
| `Queue.GenerateFillsBuffer` | Api/src/main/java/me/darkeyedragon/randomtp/api/queue/LocationQueue.java:23-25 | generating for the remaining capacity with no failure admits every offer and leaves the buffer exactly full |
| `Queue.TwelveIntoFive` | Api/src/main/java/me/darkeyedragon/randomtp/api/queue/LocationQueue.java:36-53 | amount 12 into an empty queue of capacity 5 with no failure: 12 searches started, at most 5 of them by the initial loop and so at least 7 by chains, never more than 5 in flight at any prefix, and exactly the first 5 results kept |
| `Queue.TwelveIntoFiveLoopFirst` | Api/src/main/java/me/darkeyedragon/randomtp/api/queue/LocationQueue.java:48-53 | when the five loop iterations run before any search completes, the loop launches exactly 5 searches and the chains exactly 7 |
| `Queue.LocationQueue.constructor` | Api/src/main/java/me/darkeyedragon/randomtp/api/queue/LocationQueue.java:17-21 | a new queue has the given capacity and an empty buffer |
| `Queue.LocationQueue.Remaining` | Api/src/main/java/me/darkeyedragon/randomtp/api/queue/LocationQueue.java:24 | `remainingCapacity()` is the free-slot count the offer lemmas reason about: with `OfferTakesOneSlot`, an offer lowers it by exactly one unless it is 0 and the buffer is full; with `OffersFillInOrder`, it is how many more offers are admitted |
| `Queue.LocationQueue.Offer` | Api/src/main/java/me/darkeyedragon/randomtp/api/queue/LocationQueue.java:40 | the buffer becomes its drop-when-full offer and stays within capacity |
| `Queue.LocationQueue.Generate` | Api/src/main/java/me/darkeyedragon/randomtp/api/queue/LocationQueue.java:36-54 | creates a fresh counter and runs the initial loop: counter, iterations, in flight and started all equal `max(0, min(amount, 5))`, nothing offered |
| `Queue.LocationQueue.GenerateRemaining` | Api/src/main/java/me/darkeyedragon/randomtp/api/queue/LocationQueue.java:23-25 | is `Generate` with the remaining capacity as amount |
| `Queue.Generation.constructor` | Api/src/main/java/me/darkeyedragon/randomtp/api/queue/LocationQueue.java:37-38 | the counter starts at 0 with nothing started, in flight or offered |
| `Queue.Generation.GetAndIncrement` | Api/src/main/java/me/darkeyedragon/randomtp/api/queue/LocationQueue.java:41 | `getAndIncrement` returns the counter's old value and advances it by one |
| `Queue.Generation.RunWorker` | Api/src/main/java/me/darkeyedragon/randomtp/api/queue/LocationQueue.java:42-51 | `worker.get().run()` launches one more search: in flight and started each grow by one |
| `Queue.Generation.LoopIteration` | Api/src/main/java/me/darkeyedragon/randomtp/api/queue/LocationQueue.java:49-53 | one loop iteration draws the counter and launches a search iff the drawn value is below `amount`; the invariant is kept |
| `Queue.Generation.OnFound` | Api/src/main/java/me/darkeyedragon/randomtp/api/queue/LocationQueue.java:39-43 | a successful search offers its location exactly once, then draws the counter and launches a successor iff the drawn value is below `amount` |
| `Queue.Generation.OnFailed` | Api/src/main/java/me/darkeyedragon/randomtp/api/queue/LocationQueue.java:44-47 | a failed search leaves the counter and the offers unchanged and launches nothing |
| `Locations.StandPoint` | Common/src/main/java/me/darkeyedragon/randomtp/common/teleport/BasicTeleportHandler.java:130 | `add(0.5, 1.5, 0.5)` keeps the world and the base coordinates and applies the offset once more, so every move goes to the resolved location plus one offset; the result always differs from the location it was given |
| `TeleportGate.Decide` | Common/src/main/java/me/darkeyedragon/randomtp/common/teleport/BasicTeleportHandler.java:51-101 | each outcome holds exactly when its conditions hold. A charged request with no economy handler throws. A charged request with too little balance is rejected for funds. Past the funds gate, an active, unexpired, unbypassed cooldown with a positive configured cooldown rejects, reporting `remaining / 50`. Otherwise an effective delay of 0 or less runs inline, and a positive one defers by that delay. The effective delay is 0 under the delay bypass |
| `TeleportHandler.RequestEffect` | Common/src/main/java/me/darkeyedragon/randomtp/common/teleport/BasicTeleportHandler.java:51-101 | the response from the request itself: an exception exactly for a charged request without an economy handler; INSUFFICIENT_FUNDS exactly when charged with too little balance; past the funds gate, COOLDOWN exactly when an active, unexpired, unbypassed cooldown applies, otherwise FAIL exactly for a positive effective delay (and a delay is started) and SUCCESS exactly for none (and `teleport` runs inline with exactly its effect); every other response leaves the property alone and sends its one message, or nothing for the exception |
| `TeleportGate.FundsGateIgnoresCooldowns` | Common/src/main/java/me/darkeyedragon/randomtp/common/teleport/BasicTeleportHandler.java:59-74 | whether a request is rejected for funds does not depend on the cooldown store or the clock: the funds gate comes first |
| `TeleportGate.BypassesHold` | Common/src/main/java/me/darkeyedragon/randomtp/common/teleport/BasicTeleportHandler.java:54-69 | the delay bypass never defers, the cooldown bypass never rejects for cooldown, the economy bypass never rejects for funds |
| `DelayWatch.RunDelayKeepsInv` | Common/src/main/java/me/darkeyedragon/randomtp/common/teleport/BasicTeleportHandler.java:78-95 | after any sequence of ticks and task runs: the teleport ran at most once, exactly when `complete` is set; a cancellation sent exactly one notice, stopped the watcher and never coexists with a run |
| `DelayWatch.DelayOutcomes` | Common/src/main/java/me/darkeyedragon/randomtp/common/teleport/BasicTeleportHandler.java:78-95 | from the start of a delay: at most one run, at most one cancel notice, never both, and a cancelled task never runs |
| `DelayWatch.TickCases` | Common/src/main/java/me/darkeyedragon/randomtp/common/teleport/BasicTeleportHandler.java:86-95 | on a tick: after the task started, the watcher stops without cancelling; before it, a coordinate change cancels the task, stops the watcher and sends one notice; otherwise the watcher keeps observing |
| `DelayWatch.CancelIsFinal` | Common/src/main/java/me/darkeyedragon/randomtp/common/teleport/BasicTeleportHandler.java:89-92 | once the deferred task is cancelled no later tick or due time changes anything |
| `DelayWatch.MoveBeforeDueCancels` | Common/src/main/java/me/darkeyedragon/randomtp/common/teleport/BasicTeleportHandler.java:83-95 | with cancel-on-move, a tick that sees a move before the task is due prevents the teleport for good, with exactly one cancel notice |
| `DelayWatch.NoWatcherNoCancel` | Common/src/main/java/me/darkeyedragon/randomtp/common/teleport/BasicTeleportHandler.java:79-84 | without cancel-on-move nothing cancels the task, and it runs once it is due |
| `DelayWatch.DelayedTeleport.constructor` | Common/src/main/java/me/darkeyedragon/randomtp/common/teleport/BasicTeleportHandler.java:78-84 | a delay starts not complete, not cancelled, with the position snapshot, watching iff cancel-on-move |
| `DelayWatch.DelayedTeleport.WatcherTick` | Common/src/main/java/me/darkeyedragon/randomtp/common/teleport/BasicTeleportHandler.java:86-95 | one watcher run makes exactly the `Tick` step and reports whether the cancel message is due |
| `DelayWatch.DelayedTeleport.TaskDue` | Common/src/main/java/me/darkeyedragon/randomtp/common/teleport/BasicTeleportHandler.java:79-82 | the due task sets `complete` and runs unless it was cancelled or already ran |
| `TeleportHandler.TeleportEffect` | Common/src/main/java/me/darkeyedragon/randomtp/common/teleport/BasicTeleportHandler.java:115-181 | no location: only the empty-queue message to the issuer. Unsafe: nothing changes and the request retries. Safe: stand point and a `cooldown * 50` record for `now` are set before the re-check; the re-check fails exactly when charged, economy present and balance short, and then nobody moves or pays. Otherwise: one move to the stand point, the charges `ChargesMade` lists, death timer set iff configured > 0, count + 1, one refill for the world after the init delay, ending with the teleported message; without an economy handler the error is reported and the move still happens. Messages are only appended |
| `TeleportHandler.ChargedTwice` | Common/src/main/java/me/darkeyedragon/randomtp/common/teleport/BasicTeleportHandler.java:133-163 | under a positive configured price, a charged request whose payments are accepted is charged the property's price twice |
| `TeleportHandler.CooldownWithoutMove` | Common/src/main/java/me/darkeyedragon/randomtp/common/teleport/BasicTeleportHandler.java:130-137 | a failed funds re-check leaves the new cooldown recorded while nobody moved or paid |
| `TeleportHandler.RetryRounds` | Common/src/main/java/me/darkeyedragon/randomtp/common/teleport/BasicTeleportHandler.java:125-129 | successive re-entries of `toRandomLocation` after an unsafe location, each through the gate; whatever the number of rounds, messages and log lines are only appended |
| `TeleportHandler.RetryRepeats` | Common/src/main/java/me/darkeyedragon/randomtp/common/teleport/BasicTeleportHandler.java:125-129 | while the gate lets the request run inline and the location stays unsafe, any number of re-entered requests each pass the gate, return SUCCESS, keep the same location and change no store: the retry has no ceiling |
| `TeleportHandler.CooldownAfterTeleport` | Common/src/main/java/me/darkeyedragon/randomtp/common/teleport/BasicTeleportHandler.java:64-131 | the cooldown a safe location records (line 131) is what the next request's gate reads (lines 64-70): with a positive configured cooldown, an unbypassed request that passes the funds gate gets COOLDOWN exactly while `cooldown * 50` has not elapsed |
| `TeleportHandler.MissingEconomyNeverReported` | Common/src/main/java/me/darkeyedragon/randomtp/common/teleport/BasicTeleportHandler.java:59-62 | a request that passes the gate with no economy handler is never charged and never reaches the "economy disabled" report of lines 149-152 |
| `TeleportHandler.Plugin.RunRefill` | Common/src/main/java/me/darkeyedragon/randomtp/common/teleport/BasicTeleportHandler.java:171-179 | a refill asks the world handler to generate for its world; an IllegalArgumentException only logs a warning |
| `TeleportHandler.BasicTeleportHandler.constructor` | Common/src/main/java/me/darkeyedragon/randomtp/common/teleport/BasicTeleportHandler.java:35-41 | the handler keeps the plugin, the configuration, the property's request and location, and whether an economy handler is present |
| `TeleportHandler.BasicTeleportHandler.ToRandomLocation` | Common/src/main/java/me/darkeyedragon/randomtp/common/teleport/BasicTeleportHandler.java:43-102 | the response, the property's location and the new stores are exactly `RequestEffect` of the old ones; a delay object is returned exactly when a delay starts, fresh, with the effective delay and the position snapshot, watching iff cancel-on-move |
| `TeleportHandler.BasicTeleportHandler.AddToDeathTimer` | Common/src/main/java/me/darkeyedragon/randomtp/common/teleport/BasicTeleportHandler.java:104-108 | removes the player's timer, then adds it with the configured duration; nothing else changes |
| `TeleportHandler.BasicTeleportHandler.Teleport` | Common/src/main/java/me/darkeyedragon/randomtp/common/teleport/BasicTeleportHandler.java:115-181 | the outcome, the property's new location and the new stores are exactly `TeleportEffect` of the old ones |
| `TeleportHandler.BasicTeleportHandler.SafeLocation` | Common/src/main/java/me/darkeyedragon/randomtp/common/teleport/BasicTeleportHandler.java:124-137 | the continuation for a safe location: its outcome, the property's new location and the new stores are exactly those of `TeleportEffect` |
| `TeleportHandler.BasicTeleportHandler.FinishTeleport` | Common/src/main/java/me/darkeyedragon/randomtp/common/teleport/BasicTeleportHandler.java:138-180 | after a passed funds re-check: pays, moves the player to the stand point, refreshes the death timer, pays again, counts the teleport and schedules the refill, in that order (the stores become `Finish` of the old ones) |
| `TeleportHandler.BasicTeleportHandler.PayFirst` | Common/src/main/java/me/darkeyedragon/randomtp/common/teleport/BasicTeleportHandler.java:133-153 | the first payment block: one charge under the property's price with a message if accepted, or the missing-economy report |
| `TeleportHandler.BasicTeleportHandler.PaySecond` | Common/src/main/java/me/darkeyedragon/randomtp/common/teleport/BasicTeleportHandler.java:159-163 | the second charge under the configured-price guard, with its message whatever the result |
| `TeleportHandler.BasicTeleportHandler.WatcherRuns` | Common/src/main/java/me/darkeyedragon/randomtp/common/teleport/BasicTeleportHandler.java:86-95 | one watcher run makes the `Tick` step and sends the cancel message exactly when it cancelled |
| `TeleportHandler.BasicTeleportHandler.DelayElapsed` | Common/src/main/java/me/darkeyedragon/randomtp/common/teleport/BasicTeleportHandler.java:79-82 | the due task runs `teleport` (with exactly its effect) iff it was neither cancelled nor already run; otherwise nothing changes |

## Left out

- `ObservableQueue`, the superclass that owns the buffer, is not part of this model. Its `offer` is taken to drop when full, and `remainingCapacity()` is taken to be capacity minus size. `poll`/`take` by consumers is not modelled.
- `LocationSearcher.getRandom`, `isSafe` and the data provider are not modelled. A search's result arrives as an event; `isSafe` is an input.
- `TeleportHandler.BasicTeleportHandler.ToRandomLocation`: the inline teleport runs to completion before SUCCESS is returned. In the code, everything after line 124 waits for `getChunkAtAsync`, and SUCCESS is returned as soon as the chunk is requested. So the cooldown of line 131 is recorded only after the return. A second request from the same player before the chunk loads passes the cooldown gate (lines 64-70) and teleports again. The model does not capture this window.
- `TeleportHandler.RequestEffect`: likewise runs the inline teleport to completion; it does not separate the request from the chunk-load completion.
- `BasicCooldown` is not part of this model. Its record is taken to expire once `now >= startTime + duration`, and its remaining time is taken to be `startTime + duration - now` before that and 0 after, never negative.
- `Queue.LocationQueue.Generate` runs the initial loop with no completion in between. Completions during the loop are covered by the event model, where any order is allowed.
- `Queue.GenerateFillsBuffer` assumes that only this burst touches the buffer. Several bursts on one queue at the same time, or consumers taking locations during a burst, are not modelled.
- Integers are unbounded. The 32-bit `startedAmount` wrapping after 2^31 draws and an overflow of `cooldown * 50` are not modelled.
- Prices are `real` and only compared (`> 0`, `> 1`, `== 1`); NaN and infinities of `double` are not modelled.
- The (0.5, 1.5, 0.5) offset is recorded as a count on the location, not computed. Whether `add` changes the location in place is not modelled.
- Message texts, currency names and the coordinates in the teleported message are not modelled. Messages are tagged values; the currency is a plural flag.
- Particle rendering (lines 110-113) is recorded as a `WarpParticles` effect.
- The debug timing log (lines 116-118) and the wall clock are not modelled. `now` is an input.
- Scheduler timing (the delay in ticks, the watcher's 5-tick period, the refill's init delay) is not modelled. Ticks and due times are events in any order, and a scheduled refill is recorded with its delay.
- The death tracker is modelled as a map from player to duration.
- The economy handler is taken to be the same object at line 59, at line 134 and at line 159, which reads `plugin.getEcoHandler()` again.
- `TeleportHandler.BasicTeleportHandler.Teleport`: the unsafe-location retry is returned as `RetryRequest` rather than re-entering `toRandomLocation` itself. The re-entry is modelled by `RetryRounds`, which passes each round through `RequestEffect` with the same collaborators' answers (clock, balance, safety) in every round; a re-entered request that defers runs its teleport later through `DelayElapsed`.
- The commented-out event pipeline (lines 45-50, 167-169) is not modelled.
