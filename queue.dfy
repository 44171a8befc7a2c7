/**
 * The location queue of one world and its replenishment chain.
 *
 * `generate(amount)` shares one counter (`startedAmount`) between an initial
 * loop of `min(amount, MAX_CONCURRENT)` iterations and the completions of the
 * searches it launches: every iteration and every successful completion draws
 * the next counter value, and launches a search when that value is below
 * `amount`. A failed search draws nothing and launches nothing.
 *
 * The asynchronous completions are modelled as events applied one at a time in
 * any order (the counter is atomic, so every interleaving is one of these
 * sequences). The pure part (Burst, Step, Run, Inv) is the specification; the
 * classes LocationQueue and Generation perform the same steps in place and are
 * proved against it.
 */
module Queue {
  import opened Locations

  /** MAX_CONCURRENT. */
  const MaxConcurrent: int := 5

  /** `Math.min(amount, MAX_CONCURRENT)`: the bound of the initial loop (negative when amount is). */
  function WorkersToStart(amount: int): int
  {
    Min(amount, MaxConcurrent)
  }

  // ----- The bounded buffer (ObservableQueue), offer drops when full -----

  function RemainingCapacity(buffer: seq<Location>, capacity: nat): int
  {
    capacity - |buffer|
  }

  /** The buffer after `offer(loc)`: appended when there is room, unchanged when full. */
  function AfterOffer(buffer: seq<Location>, capacity: nat, loc: Location): seq<Location>
  {
    if |buffer| < capacity then buffer + [loc] else buffer
  }

  /** The buffer after offering every location of `locs`, in order. */
  function AfterOffers(buffer: seq<Location>, capacity: nat, locs: seq<Location>): seq<Location>
    decreases |locs|
  {
    if locs == [] then buffer else AfterOffers(AfterOffer(buffer, capacity, locs[0]), capacity, locs[1..])
  }

  /** An offer takes exactly one slot of remaining capacity, or is dropped when there is none. */
  lemma OfferTakesOneSlot(buffer: seq<Location>, capacity: nat, loc: Location)
    requires |buffer| <= capacity
    ensures var after := AfterOffer(buffer, capacity, loc);
            && |after| <= capacity
            && (RemainingCapacity(buffer, capacity) > 0 ==>
                  after == buffer + [loc] && RemainingCapacity(after, capacity) == RemainingCapacity(buffer, capacity) - 1)
            && (RemainingCapacity(buffer, capacity) == 0 ==> after == buffer)
  {
  }

  /**
   * Offering a sequence keeps what was there and admits the first
   * `capacity - |buffer|` offered locations; the rest are dropped.
   */
  lemma {:induction false} OffersFillInOrder(buffer: seq<Location>, capacity: nat, locs: seq<Location>)
    requires |buffer| <= capacity
    ensures AfterOffers(buffer, capacity, locs) == buffer + locs[..Min(|locs|, capacity - |buffer|)]
    ensures |AfterOffers(buffer, capacity, locs)| == Min(|buffer| + |locs|, capacity)
    decreases |locs|
  {
    if locs != [] {
      var next := AfterOffer(buffer, capacity, locs[0]);
      OffersFillInOrder(next, capacity, locs[1..]);
      if |buffer| < capacity {
        assert next == buffer + [locs[0]];
        calc {
          AfterOffers(buffer, capacity, locs);
          next + locs[1..][..Min(|locs| - 1, capacity - |buffer| - 1)];
          { assert [locs[0]] + locs[1..][..Min(|locs| - 1, capacity - |buffer| - 1)]
                   == locs[..Min(|locs|, capacity - |buffer|)]; }
          buffer + locs[..Min(|locs|, capacity - |buffer|)];
        }
      } else {
        assert locs[..0] == [];
      }
    }
  }

  // ----- The replenishment chain as an event system -----

  /** The state of one `generate` call. */
  datatype Burst = Burst(
    counter: int,            // value of the shared AtomicInteger startedAmount
    loopIndex: nat,          // iterations of the initial loop done so far
    inFlight: nat,           // searches launched and not yet finished
    started: nat,            // searches launched in total (calls to getRandom)
    offered: seq<Location>,  // results offered to the buffer, in order
    failed: nat,             // searches that completed exceptionally
    loopLaunched: nat)       // searches launched by the initial loop itself (the rest by chains)

  datatype Event =
    | LoopIteration          // one iteration of the initial loop (lines 49-53)
    | SearchFound(loc: Location)  // a search completes with a location (lines 39-43)
    | SearchFailed           // a search completes exceptionally (lines 44-47)

  /** The state right after the counter is created. */
  function Idle(): Burst
  {
    Burst(0, 0, 0, 0, [], 0, 0)
  }

  /** One event. An event that cannot happen in `s` (no loop iteration left, nothing in flight) changes nothing. */
  function Step(amount: int, s: Burst, e: Event): Burst
  {
    match e
    case LoopIteration =>
      if s.loopIndex < WorkersToStart(amount) then
        var launch := s.counter < amount;
        s.(counter := s.counter + 1, loopIndex := s.loopIndex + 1,
           inFlight := if launch then s.inFlight + 1 else s.inFlight,
           started := if launch then s.started + 1 else s.started,
           loopLaunched := if launch then s.loopLaunched + 1 else s.loopLaunched)
      else s
    case SearchFound(loc) =>
      if s.inFlight > 0 then
        var launch := s.counter < amount;
        s.(offered := s.offered + [loc], counter := s.counter + 1,
           inFlight := if launch then s.inFlight else s.inFlight - 1,
           started := if launch then s.started + 1 else s.started)
      else s
    case SearchFailed =>
      if s.inFlight > 0 then s.(inFlight := s.inFlight - 1, failed := s.failed + 1) else s
  }

  function Run(amount: int, s: Burst, events: seq<Event>): Burst
    decreases |events|
  {
    if events == [] then s else Run(amount, Step(amount, s, events[0]), events[1..])
  }

  /** How many of the counter values 0 .. counter-1 are below `amount`. */
  function Below(counter: int, amount: int): int
  {
    if amount <= 0 || counter <= 0 then 0 else Min(counter, amount)
  }

  /**
   * Every counter value was drawn by a loop iteration or by a successful
   * search, every value below `amount` launched exactly one search, and
   * every launched search is in flight, found or failed.
   */
  ghost predicate Inv(amount: int, s: Burst)
  {
    && s.counter == s.loopIndex + |s.offered|
    && s.started == Below(s.counter, amount)
    && s.inFlight + |s.offered| + s.failed == s.started
    && s.loopIndex <= Max(0, WorkersToStart(amount))
    && s.loopLaunched <= s.loopIndex && s.loopLaunched <= s.started
  }

  lemma StepKeepsInv(amount: int, s: Burst, e: Event)
    requires Inv(amount, s)
    ensures Inv(amount, Step(amount, s, e))
  {
  }

  lemma {:induction false} RunKeepsInv(amount: int, s: Burst, events: seq<Event>)
    requires Inv(amount, s)
    ensures Inv(amount, Run(amount, s, events))
    decreases |events|
  {
    if events != [] {
      StepKeepsInv(amount, s, events[0]);
      RunKeepsInv(amount, Step(amount, s, events[0]), events[1..]);
    }
  }

  /**
   * Whatever the order of completions: at most `min(amount, 5)` searches are in
   * flight, at most `amount` are ever launched, and every offer comes from a
   * launched search.
   */
  lemma ConcurrencyBounded(amount: int, events: seq<Event>)
    ensures var s := Run(amount, Idle(), events);
            && s.inFlight + s.failed <= s.loopIndex
            && s.inFlight <= Max(0, Min(amount, MaxConcurrent))
            && s.inFlight <= MaxConcurrent
            && s.started <= Max(0, amount)
            && |s.offered| <= s.started
  {
    RunKeepsInv(amount, Idle(), events);
  }

  /** With `amount <= 0` nothing is drawn, launched or offered. */
  lemma NothingForNonPositiveAmount(amount: int, events: seq<Event>)
    requires amount <= 0
    ensures var s := Run(amount, Idle(), events);
            s.counter == 0 && s.started == 0 && s.inFlight == 0 && s.offered == []
  {
    RunKeepsInv(amount, Idle(), events);
  }

  /** `k` more loop iterations from a state where every draw so far launched a search. */
  lemma {:induction false} LoopIterations(amount: int, j: nat, k: nat)
    requires j + k <= WorkersToStart(amount)
    ensures Run(amount, Burst(j, j, j, j, [], 0, j), seq(k, _ => LoopIteration))
            == Burst(j + k, j + k, j + k, j + k, [], 0, j + k)
    decreases k
  {
    if k > 0 {
      var events := seq(k, _ => LoopIteration);
      assert events[0] == LoopIteration && events[1..] == seq(k - 1, _ => LoopIteration);
      LoopIterations(amount, j + 1, k - 1);
    }
  }

  /**
   * When no search completes during the initial loop, the loop launches
   * exactly `min(amount, 5)` searches and advances the counter once per iteration.
   */
  lemma InitialBurst(amount: int)
    requires amount >= 1
    ensures var w := Min(amount, MaxConcurrent);
            Run(amount, Idle(), seq(w, _ => LoopIteration)) == Burst(w, w, w, w, [], 0, w)
  {
    LoopIterations(amount, 0, Min(amount, MaxConcurrent));
  }

  /** The loop is over and nothing is in flight: the chain has ended. */
  ghost predicate Quiescent(amount: int, s: Burst)
  {
    s.inFlight == 0 && s.loopIndex == Max(0, WorkersToStart(amount))
  }

  /**
   * How a chain ends. Every launched search either offered or failed. A failure
   * ends only its own chain: as long as some chain is left (fewer failures than
   * initial searches), the remaining chains keep drawing until `amount`
   * searches were launched. With no failure, exactly `amount` searches were
   * launched and exactly `amount` offers made (for `amount >= 1`); every failure
   * costs one offer.
   */
  lemma ChainOutcome(amount: int, events: seq<Event>)
    requires Quiescent(amount, Run(amount, Idle(), events))
    ensures var s := Run(amount, Idle(), events);
            && |s.offered| == s.started - s.failed
            && s.failed <= Max(0, WorkersToStart(amount))
            && (s.failed < Max(0, WorkersToStart(amount)) ==> s.started == Max(0, amount))
            && (s.failed == 0 ==> s.started == Max(0, amount) && |s.offered| == Max(0, amount))
            && (s.failed > 0 ==> |s.offered| < Max(0, amount))
  {
    RunKeepsInv(amount, Idle(), events);
  }

  /**
   * The buffer after a chain that ended with no failure: what was there is kept,
   * followed by the first results in the order they arrived, up to the
   * remaining room; the buffer holds `min(|buffer| + amount, capacity)`.
   */
  lemma GenerateBuffer(buffer: seq<Location>, capacity: nat, amount: int, events: seq<Event>)
    requires |buffer| <= capacity
    requires var s := Run(amount, Idle(), events); Quiescent(amount, s) && s.failed == 0
    ensures var s := Run(amount, Idle(), events);
            && |s.offered| == Max(0, amount)
            && AfterOffers(buffer, capacity, s.offered)
               == buffer + s.offered[..Min(Max(0, amount), capacity - |buffer|)]
            && |AfterOffers(buffer, capacity, s.offered)| == Min(|buffer| + Max(0, amount), capacity)
  {
    ChainOutcome(amount, events);
    OffersFillInOrder(buffer, capacity, Run(amount, Idle(), events).offered);
  }

  /**
   * `generate(dataProvider)` asks for `remainingCapacity()` locations; when no
   * search fails, the buffer ends exactly full and every offer was admitted.
   */
  lemma GenerateFillsBuffer(buffer: seq<Location>, capacity: nat, events: seq<Event>)
    requires |buffer| <= capacity
    requires var s := Run(capacity - |buffer|, Idle(), events);
             Quiescent(capacity - |buffer|, s) && s.failed == 0
    ensures var s := Run(capacity - |buffer|, Idle(), events);
            && AfterOffers(buffer, capacity, s.offered) == buffer + s.offered
            && |AfterOffers(buffer, capacity, s.offered)| == capacity
  {
    var s := Run(capacity - |buffer|, Idle(), events);
    GenerateBuffer(buffer, capacity, capacity - |buffer|, events);
    assert s.offered[..|s.offered|] == s.offered;
  }

  lemma {:induction false} RunAppend(amount: int, s: Burst, a: seq<Event>, b: seq<Event>)
    ensures Run(amount, s, a + b) == Run(amount, Run(amount, s, a), b)
    decreases |a|
  {
    if a == [] {
      assert a + b == b;
    } else {
      assert (a + b)[0] == a[0] && (a + b)[1..] == a[1..] + b;
      RunAppend(amount, Step(amount, s, a[0]), a[1..], b);
    }
  }

  /** Once the initial loop is over, completions never add to what the loop launched. */
  lemma {:induction false} LoopLaunchesFixed(amount: int, s: Burst, events: seq<Event>)
    requires s.loopIndex >= WorkersToStart(amount)
    ensures Run(amount, s, events).loopLaunched == s.loopLaunched
    ensures Run(amount, s, events).loopIndex == s.loopIndex
    decreases |events|
  {
    if events != [] {
      LoopLaunchesFixed(amount, Step(amount, s, events[0]), events[1..]);
    }
  }

  /**
   * Twelve locations into an empty queue of capacity 5: 12 searches are
   * launched, at most 5 of them by the initial loop and so at least 7 by
   * chains, never more than 5 at once, and 5 results are kept while the
   * other 7 are dropped.
   */
  lemma TwelveIntoFive(events: seq<Event>)
    requires Quiescent(12, Run(12, Idle(), events)) && Run(12, Idle(), events).failed == 0
    ensures var s := Run(12, Idle(), events);
            && s.started == 12 && |s.offered| == 12
            && s.loopLaunched <= 5 && s.started - s.loopLaunched >= 7
            && (forall k :: 0 <= k <= |events| ==> Run(12, Idle(), events[..k]).inFlight <= 5)
            && AfterOffers([], 5, s.offered) == s.offered[..5]
  {
    var s := Run(12, Idle(), events);
    RunKeepsInv(12, Idle(), events);
    ChainOutcome(12, events);
    forall k | 0 <= k <= |events|
      ensures Run(12, Idle(), events[..k]).inFlight <= 5
    {
      ConcurrencyBounded(12, events[..k]);
    }
    GenerateBuffer([], 5, 12, events);
  }

  /**
   * When the five loop iterations run before any search completes, the loop
   * launches exactly 5 searches and the chains exactly 7.
   */
  lemma TwelveIntoFiveLoopFirst(rest: seq<Event>)
    requires var s := Run(12, Idle(), seq(5, _ => LoopIteration) + rest);
             Quiescent(12, s) && s.failed == 0
    ensures var s := Run(12, Idle(), seq(5, _ => LoopIteration) + rest);
            s.loopLaunched == 5 && s.started - s.loopLaunched == 7
  {
    var loop := seq(5, _ => LoopIteration);
    InitialBurst(12);
    RunAppend(12, Idle(), loop, rest);
    LoopLaunchesFixed(12, Run(12, Idle(), loop), rest);
    ChainOutcome(12, loop + rest);
  }

  // ----- The same chain, performed in place -----

  /** The queue of one world: a bounded buffer with its capacity. */
  class LocationQueue {
    const capacity: nat
    var buffer: seq<Location>

    ghost predicate Valid()
      reads this
    {
      |buffer| <= capacity
    }

    constructor (capacity: nat)
      ensures Valid() && this.capacity == capacity && buffer == []
    {
      this.capacity := capacity;
      buffer := [];
    }

    /** `remainingCapacity()`: the free slots, as the offer lemmas count them. */
    function Remaining(): (r: nat)
      reads this
      requires Valid()
      ensures r == RemainingCapacity(buffer, capacity)
    {
      capacity - |buffer|
    }

    /** `offer(loc)`: appended when there is room, dropped when full. */
    method Offer(loc: Location)
      requires Valid()
      modifies this
      ensures Valid() && buffer == AfterOffer(old(buffer), capacity, loc)
    {
      if |buffer| < capacity {
        buffer := buffer + [loc];
      }
    }

    /**
     * `generate(dataProvider, amount)`: creates the counter and runs the
     * initial loop. The searches it launches complete later, through the
     * returned Generation.
     */
    method Generate(amount: int) returns (g: Generation)
      ensures fresh(g) && g.queue == this && g.amount == amount && g.Valid()
      ensures var w := Max(0, WorkersToStart(amount));
              g.State() == Burst(w, w, w, w, [], 0, w)
    {
      g := new Generation(this, amount);
      var workersToStart := WorkersToStart(amount);
      var workerIndex := 0;
      while workerIndex < workersToStart
        invariant 0 <= workerIndex <= Max(0, workersToStart)
        invariant g.queue == this && g.amount == amount && g.Valid()
        invariant g.State() == Burst(workerIndex, workerIndex, workerIndex, workerIndex, [], 0, workerIndex)
      {
        g.LoopIteration();
        workerIndex := workerIndex + 1;
      }
    }

    /** `generate(dataProvider)`: generate as many as the buffer has room for. */
    method GenerateRemaining() returns (g: Generation)
      requires Valid()
      ensures fresh(g) && g.queue == this && g.amount == capacity - |buffer| && g.Valid()
      ensures var w := Max(0, WorkersToStart(capacity - |buffer|));
              g.State() == Burst(w, w, w, w, [], 0, w)
    {
      g := Generate(Remaining());
    }
  }

  /** The state one `generate` call shares with the searches it launches. */
  class Generation {
    const queue: LocationQueue
    const amount: int
    var startedAmount: int
    ghost var loopIndex: nat
    ghost var inFlight: nat
    ghost var started: nat
    ghost var offered: seq<Location>
    ghost var failed: nat
    ghost var loopLaunched: nat

    ghost function State(): Burst
      reads this
    {
      Burst(startedAmount, loopIndex, inFlight, started, offered, failed, loopLaunched)
    }

    ghost predicate Valid()
      reads this
    {
      Inv(amount, State())
    }

    constructor (queue: LocationQueue, amount: int)
      ensures Valid() && State() == Idle()
      ensures this.queue == queue && this.amount == amount
    {
      this.queue := queue;
      this.amount := amount;
      startedAmount := 0;
      loopIndex, inFlight, started, offered, failed, loopLaunched := 0, 0, 0, [], 0, 0;
    }

    /** `startedAmount.getAndIncrement()`. */
    method GetAndIncrement() returns (drawn: int)
      modifies this`startedAmount
      ensures drawn == old(startedAmount) && startedAmount == drawn + 1
    {
      drawn := startedAmount;
      startedAmount := startedAmount + 1;
    }

    /** `worker.get().run()`: one more search is launched. */
    method RunWorker()
      modifies this`inFlight, this`started
      ensures inFlight == old(inFlight) + 1 && started == old(started) + 1
    {
      inFlight := inFlight + 1;
      started := started + 1;
    }

    /** The body of the initial loop. */
    method LoopIteration()
      requires Valid() && loopIndex < WorkersToStart(amount)
      modifies this
      ensures Valid() && State() == Step(amount, old(State()), Event.LoopIteration)
    {
      ghost var before := State();
      var drawn := GetAndIncrement();
      loopIndex := loopIndex + 1;
      if drawn < amount {
        RunWorker();
        loopLaunched := loopLaunched + 1;
      }
      StepKeepsInv(amount, before, Event.LoopIteration);
    }

    /** A search completed with `loc`: offer it, then continue the chain if the next counter value allows. */
    method OnFound(loc: Location)
      requires Valid() && inFlight > 0 && queue.Valid()
      modifies this, queue
      ensures Valid() && queue.Valid()
      ensures State() == Step(amount, old(State()), SearchFound(loc))
      ensures queue.buffer == AfterOffer(old(queue.buffer), queue.capacity, loc)
    {
      ghost var before := State();
      queue.Offer(loc);
      offered := offered + [loc];
      inFlight := inFlight - 1;
      var drawn := GetAndIncrement();
      if drawn < amount {
        RunWorker();
      }
      StepKeepsInv(amount, before, SearchFound(loc));
    }

    /** A search completed exceptionally: the error is logged and the chain ends. */
    method OnFailed()
      requires Valid() && inFlight > 0
      modifies this
      ensures Valid() && State() == Step(amount, old(State()), SearchFailed)
      ensures startedAmount == old(startedAmount) && offered == old(offered)
    {
      ghost var before := State();
      inFlight := inFlight - 1;
      failed := failed + 1;
      StepKeepsInv(amount, before, SearchFailed);
    }
  }
}
