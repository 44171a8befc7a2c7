/**
 * BasicTeleportHandler: the request pipeline of one TeleportProperty.
 *
 * `toRandomLocation` takes the gate decision (module TeleportGate) and then
 * either runs `teleport` inline or starts a delay (module DelayWatch).
 * `teleport` resolves the property's location, re-checks its safety and
 * then, in the order of the source, sets the stand point, records the
 * cooldown, re-checks funds, charges, moves the player, refreshes the death
 * timer, charges again under the configured price, counts the teleport and
 * schedules a queue refill.
 *
 * The plugin's stores (cooldowns, payments, death tracker, stats, scheduled
 * refills, moves, and the messages, particles and log lines sent out) are the
 * fields of class Plugin. The pure function TeleportEffect gives their new
 * value; the method Teleport performs the same steps in place and is proved
 * against it. What the collaborators answer (the clock, the safety check, the
 * balance, whether a payment goes through) is passed in as Answers.
 */
module TeleportHandler {
  import opened Locations
  import opened Cooldowns
  import opened TeleportGate
  import opened DelayWatch

  datatype Recipient = ToPlayer(player: PlayerId) | ToIssuer

  datatype Message =
    | InsufficientFundsMsg
    | CountdownMsg(ticks: int)
    | InitDelayMsg(delay: int)
    | TeleportCanceledMsg
    | EmptyQueueMsg
    | EconomyDisabledMsg
    | PaymentMsg(amount: real, pluralCurrency: bool)
    | TeleportedMsg

  /** What goes out to players, the world and the log. */
  datatype Effect =
    | Sent(to: Recipient, msg: Message)
    | WarpParticles(player: PlayerId)
    | SevereLogged    // economy features disabled
    | WarningLogged   // the refill rejected the world

  /** One `makePayment` call and whether the economy accepted it. */
  datatype Charge = Charge(player: PlayerId, amount: real, accepted: bool)

  /** One `teleportAsync` call. */
  datatype Move = Move(player: PlayerId, destination: Location)

  /** One refill task handed to the scheduler. */
  datatype Refill = Refill(world: WorldName, delay: int)

  datatype Stores = Stores(
    cooldowns: map<PlayerId, BasicCooldown>,
    charges: seq<Charge>,
    deathTimers: map<PlayerId, int>,
    teleportCount: nat,
    refills: seq<Refill>,
    moves: seq<Move>,
    effects: seq<Effect>)

  /** The answers of the collaborators during one request. */
  datatype Answers = Answers(
    now: int,                     // System.currentTimeMillis()
    balanceAtRequest: bool,       // hasEnough at the funds gate
    safe: bool,                   // isSafe(location) after the chunk is loaded
    balanceAtPayment: bool,       // hasEnough at the re-check
    firstPaymentAccepted: bool,   // result of the first makePayment
    secondPaymentAccepted: bool)  // result of the second makePayment (ignored by the source)

  datatype Outcome =
    | EmptyQueue          // no location was assigned to the property
    | RetryRequest        // unsafe location: toRandomLocation is entered again
    | FundsRecheckFailed  // cooldown already recorded, nobody moved
    | Teleported

  datatype TeleportResult = TeleportResult(outcome: Outcome, location: Option<Location>, stores: Stores)

  function EcoAt(present: bool, balanceOk: bool): EcoAnswer
  {
    if present then Economy(balanceOk) else NoEconomy
  }

  /** The charges a completed teleport makes: under the property's price, then under the configured price. */
  function ChargesMade(req: Request, cfg: Config, ecoPresent: bool, ans: Answers): seq<Charge>
  {
    (if Charged(req) && ecoPresent then [Charge(req.target, req.price, ans.firstPaymentAccepted)] else [])
    + (if cfg.economyPrice > 0.0 && !req.bypassEco && ecoPresent
       then [Charge(req.target, req.price, ans.secondPaymentAccepted)] else [])
  }

  /** The first payment, after a successful re-check (or the missing-economy report). */
  function FirstPayment(req: Request, ecoPresent: bool, ans: Answers, s: Stores): Stores
  {
    if !Charged(req) then s
    else if ecoPresent then
      s.(charges := s.charges + [Charge(req.target, req.price, ans.firstPaymentAccepted)],
         effects := s.effects + if ans.firstPaymentAccepted
                                then [Sent(ToPlayer(req.target), PaymentMsg(req.price, req.price > 1.0))]
                                else [])
    else
      s.(effects := s.effects + [Sent(ToIssuer, EconomyDisabledMsg), SevereLogged])
  }

  /** The second payment, guarded by the configured price and made whatever its result. */
  function SecondPayment(req: Request, cfg: Config, ecoPresent: bool, ans: Answers, s: Stores): Stores
  {
    if cfg.economyPrice > 0.0 && !req.bypassEco && ecoPresent then
      s.(charges := s.charges + [Charge(req.target, req.price, ans.secondPaymentAccepted)],
         effects := s.effects + [Sent(ToPlayer(req.target), PaymentMsg(req.price, req.price != 1.0))])
    else s
  }

  /** `addToDeathTimer`, when the configured death timer is positive. */
  function DeathTimerStep(req: Request, cfg: Config, s: Stores): Stores
  {
    if cfg.deathTimer > 0 then s.(deathTimers := (s.deathTimers - {req.target})[req.target := cfg.deathTimer])
    else s
  }

  /** The body of `teleport`: the outcome, the property's new location and the stores afterwards. */
  function TeleportEffect(req: Request, cfg: Config, ecoPresent: bool, location: Option<Location>,
                          ans: Answers, s: Stores): (r: TeleportResult)
    // No location: only the empty-queue message, to the command issuer.
    ensures location.None? ==>
              r == TeleportResult(EmptyQueue, location, s.(effects := s.effects + [Sent(ToIssuer, EmptyQueueMsg)]))
    // Unsafe location: nothing changes, the request is entered again with the same property.
    ensures location.Some? && !ans.safe ==> r == TeleportResult(RetryRequest, location, s)
    // Safe location: stand point and cooldown are set before the funds re-check.
    ensures location.Some? && ans.safe ==>
              && r.location == Some(StandPoint(location.value))
              && r.stores.cooldowns ==
                   s.cooldowns[req.target := BasicCooldown(req.target, ans.now, cfg.cooldown * 50)]
    ensures r.outcome == FundsRecheckFailed <==>
              location.Some? && ans.safe && Charged(req) && ecoPresent && !ans.balanceAtPayment
    ensures r.outcome == Teleported <==>
              location.Some? && ans.safe && !(Charged(req) && ecoPresent && !ans.balanceAtPayment)
    // Messages and log lines are only ever appended.
    ensures |s.effects| <= |r.stores.effects| && r.stores.effects[..|s.effects|] == s.effects
    // Nobody moves, pays or is counted unless the teleport completes.
    ensures r.outcome != Teleported ==>
              && r.stores.moves == s.moves && r.stores.charges == s.charges
              && r.stores.teleportCount == s.teleportCount && r.stores.refills == s.refills
              && r.stores.deathTimers == s.deathTimers
    ensures r.outcome == Teleported ==>
              && r.stores.moves == s.moves + [Move(req.target, StandPoint(location.value))]
              && r.stores.charges == s.charges + ChargesMade(req, cfg, ecoPresent, ans)
              && r.stores.teleportCount == s.teleportCount + 1
              && r.stores.refills == s.refills + [Refill(location.value.world, cfg.initDelay)]
              && r.stores.deathTimers ==
                   (if cfg.deathTimer > 0 then s.deathTimers[req.target := cfg.deathTimer] else s.deathTimers)
              && |r.stores.effects| > |s.effects|
              && r.stores.effects[|r.stores.effects| - 1] == Sent(ToPlayer(req.target), TeleportedMsg)
    // A missing economy is reported right after the first particles, and the move still happens.
    ensures r.outcome == Teleported && Charged(req) && !ecoPresent ==>
              && |r.stores.effects| > |s.effects| + 2
              && r.stores.effects[|s.effects|..|s.effects| + 3]
                   == [WarpParticles(req.target), Sent(ToIssuer, EconomyDisabledMsg), SevereLogged]
  {
    if location.None? then
      TeleportResult(EmptyQueue, location, s.(effects := s.effects + [Sent(ToIssuer, EmptyQueueMsg)]))
    else if !ans.safe then
      TeleportResult(RetryRequest, location, s)
    else
      var loc := location.value;
      var p := req.target;
      var s1 := s.(cooldowns := s.cooldowns[p := BasicCooldown(p, ans.now, cfg.cooldown * 50)],
                   effects := s.effects + [WarpParticles(p)]);
      if Charged(req) && ecoPresent && !ans.balanceAtPayment then
        TeleportResult(FundsRecheckFailed, Some(StandPoint(loc)),
                       s1.(effects := s1.effects + [Sent(ToPlayer(p), InsufficientFundsMsg)]))
      else
        TeleportResult(Teleported, Some(StandPoint(loc)), Finish(req, cfg, ecoPresent, loc, ans, s1))
  }

  /** Everything after a passed funds re-check: pay, move, death timer, pay again, count, refill. */
  function Finish(req: Request, cfg: Config, ecoPresent: bool, loc: Location, ans: Answers, s: Stores): Stores
  {
    var p := req.target;
    var s2 := FirstPayment(req, ecoPresent, ans, s);
    var s3 := s2.(moves := s2.moves + [Move(p, StandPoint(loc))]);
    var s4 := DeathTimerStep(req, cfg, s3);
    var s5 := SecondPayment(req, cfg, ecoPresent, ans, s4);
    s5.(effects := s5.effects + [WarpParticles(p), Sent(ToPlayer(p), TeleportedMsg)],
        teleportCount := s5.teleportCount + 1,
        refills := s5.refills + [Refill(loc.world, cfg.initDelay)])
  }

  /** What `toRandomLocation` returns, whether it started a delay, and the outcome of an inline teleport. */
  datatype RequestResult = RequestResult(response: Response, deferred: bool, teleport: Option<Outcome>,
                                         location: Option<Location>, stores: Stores)

  /** The gate's reading of the player's cooldown: `remaining / 50`. */
  function CountdownTicks(req: Request, ans: Answers, s: Stores): int
  {
    if req.target in s.cooldowns then RemainingTime(s.cooldowns[req.target], ans.now) / 50 else 0
  }

  /** `toRandomLocation`, with the inline teleport run to completion. */
  function RequestEffect(req: Request, cfg: Config, ecoPresent: bool, location: Option<Location>,
                         ans: Answers, s: Stores): (r: RequestResult)
    ensures r.response == ThrewNullPointer <==> Charged(req) && !ecoPresent
    ensures r.response == Returned(InsufficientFunds) <==> Charged(req) && ecoPresent && !ans.balanceAtRequest
    ensures r.response == Returned(Cooldown) <==>
              FundsOk(req, EcoAt(ecoPresent, ans.balanceAtRequest))
              && CooldownBlocks(req, cfg, Lookup(s.cooldowns, req.target), ans.now)
    ensures r.response == Returned(Fail) <==>
              FundsOk(req, EcoAt(ecoPresent, ans.balanceAtRequest))
              && !CooldownBlocks(req, cfg, Lookup(s.cooldowns, req.target), ans.now)
              && EffectiveDelay(req, cfg) > 0
    ensures r.response == Returned(Success) <==>
              FundsOk(req, EcoAt(ecoPresent, ans.balanceAtRequest))
              && !CooldownBlocks(req, cfg, Lookup(s.cooldowns, req.target), ans.now)
              && EffectiveDelay(req, cfg) <= 0
    // A delay is started exactly when FAIL is returned; the teleport runs inline exactly on SUCCESS.
    ensures r.deferred <==> r.response == Returned(Fail)
    ensures r.teleport.Some? <==> r.response == Returned(Success)
    ensures r.teleport.Some? ==>
              var t := TeleportEffect(req, cfg, ecoPresent, location, ans, s);
              r.teleport.value == t.outcome && r.location == t.location && r.stores == t.stores
    // Otherwise the property is untouched and at most one message goes to the player.
    ensures r.teleport.None? ==> r.location == location
    ensures r.response == ThrewNullPointer ==> r.stores == s
    ensures r.response == Returned(InsufficientFunds) ==>
              r.stores == s.(effects := s.effects + [Sent(ToPlayer(req.target), InsufficientFundsMsg)])
    ensures r.response == Returned(Cooldown) ==>
              r.stores == s.(effects := s.effects + [Sent(ToPlayer(req.target), CountdownMsg(CountdownTicks(req, ans, s)))])
    ensures r.response == Returned(Fail) ==>
              r.stores == s.(effects := s.effects + [Sent(ToPlayer(req.target), InitDelayMsg(EffectiveDelay(req, cfg)))])
  {
    var d := Decide(req, cfg, EcoAt(ecoPresent, ans.balanceAtRequest), Lookup(s.cooldowns, req.target), ans.now);
    var p := ToPlayer(req.target);
    match d
    case EconomyDereferenced => RequestResult(ThrewNullPointer, false, None, location, s)
    case RejectFunds =>
      RequestResult(Returned(InsufficientFunds), false, None, location,
                    s.(effects := s.effects + [Sent(p, InsufficientFundsMsg)]))
    case RejectCooldown(ticks) =>
      RequestResult(Returned(Cooldown), false, None, location, s.(effects := s.effects + [Sent(p, CountdownMsg(ticks))]))
    case Defer(delay) =>
      RequestResult(Returned(Fail), true, None, location, s.(effects := s.effects + [Sent(p, InitDelayMsg(delay))]))
    case RunNow =>
      var t := TeleportEffect(req, cfg, ecoPresent, location, ans, s);
      RequestResult(Returned(Success), false, Some(t.outcome), t.location, t.stores)
  }

  /**
   * With a positive configured price, a charged request whose payments go
   * through is charged the property's price twice: once under its own price
   * and once more under the configured price's guard.
   */
  lemma ChargedTwice(req: Request, cfg: Config, loc: Location, ans: Answers, s: Stores)
    requires Charged(req) && cfg.economyPrice > 0.0
    requires ans.safe && ans.balanceAtPayment && ans.firstPaymentAccepted && ans.secondPaymentAccepted
    ensures var r := TeleportEffect(req, cfg, true, Some(loc), ans, s);
            && r.outcome == Teleported
            && r.stores.charges == s.charges + [Charge(req.target, req.price, true), Charge(req.target, req.price, true)]
  {
  }

  /** A failed funds re-check leaves the new cooldown in place although nobody moved. */
  lemma CooldownWithoutMove(req: Request, cfg: Config, loc: Location, ans: Answers, s: Stores)
    requires ans.safe && Charged(req) && !ans.balanceAtPayment
    ensures var r := TeleportEffect(req, cfg, true, Some(loc), ans, s);
            && r.outcome == FundsRecheckFailed
            && req.target in r.stores.cooldowns
            && r.stores.cooldowns[req.target].startTime == ans.now
            && r.stores.moves == s.moves && r.stores.charges == s.charges
  {
  }

  /**
   * An unsafe location re-enters `toRandomLocation` with the same property,
   * which still holds the same location. While the gate lets the request run
   * inline (funds, no cooldown, no delay) and the location stays unsafe,
   * every round returns SUCCESS, changes nothing and retries again: the retry
   * has no ceiling of its own.
   */
  lemma {:induction false} RetryRepeats(req: Request, cfg: Config, ecoPresent: bool, loc: Location,
                                        ans: Answers, s: Stores, rounds: nat)
    requires !ans.safe
    requires FundsOk(req, EcoAt(ecoPresent, ans.balanceAtRequest))
    requires !CooldownBlocks(req, cfg, Lookup(s.cooldowns, req.target), ans.now)
    requires EffectiveDelay(req, cfg) <= 0
    ensures RetryRounds(req, cfg, ecoPresent, Some(loc), ans, s, rounds)
            == RequestResult(Returned(Success), false, Some(RetryRequest), Some(loc), s)
    decreases rounds
  {
    if rounds > 1 {
      RetryRepeats(req, cfg, ecoPresent, loc, ans, s, rounds - 1);
    }
  }

  /**
   * `rounds` (at least one) successive requests of one property: each round
   * goes through the gate again, and the next round follows only when this
   * one ran the teleport inline and met an unsafe location.
   */
  function RetryRounds(req: Request, cfg: Config, ecoPresent: bool, location: Option<Location>,
                       ans: Answers, s: Stores, rounds: nat): (r: RequestResult)
    // However many rounds run, messages and log lines are only ever appended.
    ensures |s.effects| <= |r.stores.effects| && r.stores.effects[..|s.effects|] == s.effects
    decreases rounds
  {
    var r := RequestEffect(req, cfg, ecoPresent, location, ans, s);
    if rounds <= 1 || r.teleport != Some(RetryRequest) then r
    else RetryRounds(req, cfg, ecoPresent, r.location, ans, r.stores, rounds - 1)
  }

  /**
   * The cooldown a safe location records (line 131) is the one the gate of the
   * player's next request reads (lines 64-70): with a positive configured
   * cooldown, an unbypassed request that passes the funds gate is refused for
   * cooldown exactly while `cooldown * 50` has not elapsed since then.
   */
  lemma CooldownAfterTeleport(req: Request, cfg: Config, ecoPresent: bool, loc: Location, ans: Answers,
                              s: Stores, next: Answers, nextLocation: Option<Location>)
    requires ans.safe && cfg.cooldown > 0 && !req.bypassCooldown
    requires FundsOk(req, EcoAt(ecoPresent, next.balanceAtRequest))
    ensures var t := TeleportEffect(req, cfg, ecoPresent, Some(loc), ans, s);
            var r := RequestEffect(req, cfg, ecoPresent, nextLocation, next, t.stores);
            r.response == Returned(Cooldown) <==> next.now < ans.now + cfg.cooldown * 50
  {
  }

  /**
   * Every request that gets past the gate without an economy handler has no
   * price to charge, so `teleport` never reaches its missing-economy report:
   * the gate has already thrown for such requests.
   */
  lemma MissingEconomyNeverReported(req: Request, cfg: Config, record: Option<BasicCooldown>,
                                    location: Option<Location>, ans: Answers, s: Stores)
    requires Decide(req, cfg, NoEconomy, record, ans.now) in {RunNow, Defer(EffectiveDelay(req, cfg))}
    ensures var r := TeleportEffect(req, cfg, false, location, ans, s);
            && r.stores.charges == s.charges
            && Sent(ToIssuer, EconomyDisabledMsg) !in r.stores.effects[|s.effects|..]
  {
  }

  /** The plugin's stores, updated in place. */
  class Plugin {
    var cooldowns: map<PlayerId, BasicCooldown>
    var charges: seq<Charge>
    var deathTimers: map<PlayerId, int>
    var teleportCount: nat
    var refills: seq<Refill>
    var moves: seq<Move>
    var effects: seq<Effect>
    var refillRequests: seq<WorldName>  // worlds a refill task asked the world handler to generate for

    function State(): Stores
      reads this
    {
      Stores(cooldowns, charges, deathTimers, teleportCount, refills, moves, effects)
    }

    constructor ()
      ensures State() == Stores(map[], [], map[], 0, [], [], []) && refillRequests == []
    {
      cooldowns, charges, deathTimers, teleportCount := map[], [], map[], 0;
      refills, moves, effects, refillRequests := [], [], [], [];
    }

    /** A message, particle burst or log line goes out. */
    method Emit(e: Effect)
      modifies this
      ensures State() == old(State()).(effects := old(effects) + [e])
      ensures refillRequests == old(refillRequests)
    {
      effects := effects + [e];
    }

    /** `addCooldown`: overwrites the player's record. */
    method AddCooldown(c: BasicCooldown)
      modifies this
      ensures State() == old(State()).(cooldowns := old(cooldowns)[c.player := c])
      ensures refillRequests == old(refillRequests)
    {
      cooldowns := cooldowns[c.player := c];
    }

    /** `makePayment`: the call is recorded with the economy's answer, which is returned. */
    method MakePayment(player: PlayerId, amount: real, accepted: bool) returns (ok: bool)
      modifies this
      ensures ok == accepted
      ensures State() == old(State()).(charges := old(charges) + [Charge(player, amount, accepted)])
      ensures refillRequests == old(refillRequests)
    {
      charges := charges + [Charge(player, amount, accepted)];
      ok := accepted;
    }

    method RemoveDeathTimer(player: PlayerId)
      modifies this
      ensures State() == old(State()).(deathTimers := old(deathTimers) - {player})
      ensures refillRequests == old(refillRequests)
    {
      deathTimers := deathTimers - {player};
    }

    method AddDeathTimer(player: PlayerId, duration: int)
      modifies this
      ensures State() == old(State()).(deathTimers := old(deathTimers)[player := duration])
      ensures refillRequests == old(refillRequests)
    {
      deathTimers := deathTimers[player := duration];
    }

    /** `teleportAsync`. */
    method MovePlayer(player: PlayerId, destination: Location)
      modifies this
      ensures State() == old(State()).(moves := old(moves) + [Move(player, destination)])
      ensures refillRequests == old(refillRequests)
    {
      moves := moves + [Move(player, destination)];
    }

    /** `addTeleportStat`. */
    method AddTeleportStat()
      modifies this
      ensures State() == old(State()).(teleportCount := old(teleportCount) + 1)
      ensures refillRequests == old(refillRequests)
    {
      teleportCount := teleportCount + 1;
    }

    /** `runTaskLater(refill, initDelay)`. */
    method ScheduleRefill(world: WorldName, delay: int)
      modifies this
      ensures State() == old(State()).(refills := old(refills) + [Refill(world, delay)])
      ensures refillRequests == old(refillRequests)
    {
      refills := refills + [Refill(world, delay)];
    }

    /**
     * A scheduled refill runs: it asks the world handler to generate for its
     * world; when that throws IllegalArgumentException (`rejected`), a warning
     * is logged and nothing else happens.
     */
    method RunRefill(refill: Refill, rejected: bool)
      modifies this
      ensures State() == old(State()).(effects := old(effects) + if rejected then [WarningLogged] else [])
      ensures refillRequests == old(refillRequests) + if rejected then [] else [refill.world]
    {
      if rejected {
        effects := effects + [WarningLogged];
      } else {
        refillRequests := refillRequests + [refill.world];
      }
    }
  }

  /** The handler of one teleport property. */
  class BasicTeleportHandler {
    const plugin: Plugin
    const config: Config
    const request: Request
    const ecoPresent: bool
    var location: Option<Location>  // the property's location slot

    constructor (plugin: Plugin, config: Config, request: Request, ecoPresent: bool, location: Option<Location>)
      ensures this.plugin == plugin && this.config == config && this.request == request
      ensures this.ecoPresent == ecoPresent && this.location == location
    {
      this.plugin := plugin;
      this.config := config;
      this.request := request;
      this.ecoPresent := ecoPresent;
      this.location := location;
    }

    /** `toRandomLocation`: decide, then teleport inline or start the delay. */
    method ToRandomLocation(ans: Answers, position: Position) returns (resp: Response, pending: DelayedTeleport?)
      modifies this, plugin
      ensures var r := RequestEffect(request, config, ecoPresent, old(location), ans, old(plugin.State()));
              && resp == r.response && location == r.location && plugin.State() == r.stores
              && (pending != null <==> r.deferred)
      ensures pending != null ==>
                && fresh(pending) && pending.delay == EffectiveDelay(request, config)
                && pending.State() == Begin(position, config.cancelOnMove)
      ensures plugin.refillRequests == old(plugin.refillRequests)
    {
      pending := null;
      var d := Decide(request, config, EcoAt(ecoPresent, ans.balanceAtRequest),
                      Lookup(plugin.cooldowns, request.target), ans.now);
      match d
      case EconomyDereferenced =>
        resp := ThrewNullPointer;
      case RejectFunds =>
        plugin.Emit(Sent(ToPlayer(request.target), InsufficientFundsMsg));
        resp := Returned(InsufficientFunds);
      case RejectCooldown(ticksLeft) =>
        plugin.Emit(Sent(ToPlayer(request.target), CountdownMsg(ticksLeft)));
        resp := Returned(Cooldown);
      case Defer(delay) =>
        plugin.Emit(Sent(ToPlayer(request.target), InitDelayMsg(delay)));
        pending := new DelayedTeleport(delay, position, config.cancelOnMove);
        resp := Returned(Fail);
      case RunNow =>
        var _ := Teleport(ans);
        resp := Returned(Success);
    }

    /** `addToDeathTimer`: remove the player's timer, then add it with the configured duration. */
    method AddToDeathTimer()
      modifies plugin
      ensures plugin.State() == old(plugin.State()).(deathTimers := (old(plugin.deathTimers) - {request.target})[request.target := config.deathTimer])
      ensures plugin.refillRequests == old(plugin.refillRequests)
    {
      plugin.RemoveDeathTimer(request.target);
      plugin.AddDeathTimer(request.target, config.deathTimer);
    }

    /** `teleport`, including the continuation that runs once the chunk is loaded. */
    method Teleport(ans: Answers) returns (outcome: Outcome)
      modifies this, plugin
      ensures var r := TeleportEffect(request, config, ecoPresent, old(location), ans, old(plugin.State()));
              outcome == r.outcome && location == r.location && plugin.State() == r.stores
      ensures plugin.refillRequests == old(plugin.refillRequests)
    {
      if location.None? {
        plugin.Emit(Sent(ToIssuer, EmptyQueueMsg));
        return EmptyQueue;
      }
      if !ans.safe {
        // toRandomLocation(player) is entered again with this same property.
        return RetryRequest;
      }
      outcome := SafeLocation(ans);
    }

    /** The continuation once the location was found safe. */
    method SafeLocation(ans: Answers) returns (outcome: Outcome)
      requires location.Some? && ans.safe
      modifies this, plugin
      ensures var r := TeleportEffect(request, config, ecoPresent, old(location), ans, old(plugin.State()));
              outcome == r.outcome && location == r.location && plugin.State() == r.stores
      ensures plugin.refillRequests == old(plugin.refillRequests)
    {
      var player := request.target;
      var loc := location.value;
      location := Some(StandPoint(loc));
      plugin.AddCooldown(BasicCooldown(player, ans.now, config.cooldown * 50));
      plugin.Emit(WarpParticles(player));
      if Charged(request) && ecoPresent && !ans.balanceAtPayment {
        plugin.Emit(Sent(ToPlayer(player), InsufficientFundsMsg));
        return FundsRecheckFailed;
      }
      FinishTeleport(loc, ans);
      outcome := Teleported;
    }

    /** The rest of the continuation once the funds re-check (if any) has passed; `loc` is the resolved location. */
    method FinishTeleport(loc: Location, ans: Answers)
      requires location == Some(StandPoint(loc))
      requires !(Charged(request) && ecoPresent && !ans.balanceAtPayment)
      modifies plugin
      ensures plugin.State() == Finish(request, config, ecoPresent, loc, ans, old(plugin.State()))
      ensures plugin.refillRequests == old(plugin.refillRequests)
    {
      var player := request.target;
      ghost var s0 := plugin.State();
      PayFirst(ans);
      ghost var s2 := plugin.State();
      assert s2 == FirstPayment(request, ecoPresent, ans, s0);
      plugin.MovePlayer(player, location.value);
      ghost var s3 := plugin.State();
      assert s3 == s2.(moves := s2.moves + [Move(player, StandPoint(loc))]);
      if config.deathTimer > 0 {
        AddToDeathTimer();
      }
      ghost var s4 := plugin.State();
      assert s4 == DeathTimerStep(request, config, s3);
      PaySecond(ans);
      ghost var s5 := plugin.State();
      assert s5 == SecondPayment(request, config, ecoPresent, ans, s4);
      plugin.Emit(WarpParticles(player));
      plugin.Emit(Sent(ToPlayer(player), TeleportedMsg));
      plugin.AddTeleportStat();
      plugin.ScheduleRefill(location.value.world, config.initDelay);
    }

    /** The first payment block, once the re-check (if any) has passed. */
    method PayFirst(ans: Answers)
      requires !(Charged(request) && ecoPresent && !ans.balanceAtPayment)
      modifies plugin
      ensures plugin.State() == FirstPayment(request, ecoPresent, ans, old(plugin.State()))
      ensures plugin.refillRequests == old(plugin.refillRequests)
    {
      if Charged(request) {
        if ecoPresent {
          var plural := request.price > 1.0;
          var paid := plugin.MakePayment(request.target, request.price, ans.firstPaymentAccepted);
          if paid {
            plugin.Emit(Sent(ToPlayer(request.target), PaymentMsg(request.price, plural)));
          }
        } else {
          plugin.Emit(Sent(ToIssuer, EconomyDisabledMsg));
          plugin.Emit(SevereLogged);
        }
      }
    }

    /** The second payment, guarded by the configured price. */
    method PaySecond(ans: Answers)
      modifies plugin
      ensures plugin.State() == SecondPayment(request, config, ecoPresent, ans, old(plugin.State()))
      ensures plugin.refillRequests == old(plugin.refillRequests)
    {
      if config.economyPrice > 0.0 && !request.bypassEco && ecoPresent {
        var _ := plugin.MakePayment(request.target, request.price, ans.secondPaymentAccepted);
        plugin.Emit(Sent(ToPlayer(request.target), PaymentMsg(request.price, request.price != 1.0)));
      }
    }

    /** The watcher's body: a move cancels the deferred task and tells the player. */
    method WatcherRuns(pending: DelayedTeleport, current: Position)
      modifies pending, plugin
      ensures pending.State() == Tick(old(pending.State()), current)
      ensures plugin.State() == old(plugin.State()).(effects := old(plugin.effects)
                + if pending.cancelNotices > old(pending.cancelNotices)
                  then [Sent(ToPlayer(request.target), TeleportCanceledMsg)] else [])
      ensures plugin.refillRequests == old(plugin.refillRequests)
    {
      var notify := pending.WatcherTick(current);
      if notify {
        plugin.Emit(Sent(ToPlayer(request.target), TeleportCanceledMsg));
      }
    }

    /** The deferred task's body: mark it complete, then teleport; a cancelled task does not run. */
    method DelayElapsed(pending: DelayedTeleport, ans: Answers) returns (outcome: Option<Outcome>)
      modifies pending, this, plugin
      ensures pending.State() == Due(old(pending.State()))
      ensures outcome.Some? <==> pending.runs == old(pending.runs) + 1
      ensures outcome.Some? ==>
                var r := TeleportEffect(request, config, ecoPresent, old(location), ans, old(plugin.State()));
                outcome.value == r.outcome && location == r.location && plugin.State() == r.stores
      ensures outcome.None? ==> location == old(location) && plugin.State() == old(plugin.State())
      ensures plugin.refillRequests == old(plugin.refillRequests)
    {
      var run := pending.TaskDue();
      if run {
        var o := Teleport(ans);
        outcome := Some(o);
      } else {
        outcome := None;
      }
    }
  }
}
