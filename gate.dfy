/**
 * The decision `toRandomLocation` takes before anything is scheduled: the
 * funds gate, then the cooldown gate, then the choice between running the
 * teleport inline (no delay) and deferring it.
 */
module TeleportGate {
  import opened Locations
  import opened Cooldowns

  /** The configuration values the handler reads; times are in ticks. */
  datatype Config = Config(
    delay: int,            // teleport.delay
    cooldown: int,         // teleport.cooldown
    cancelOnMove: bool,    // teleport.cancelOnMove
    deathTimer: int,       // teleport.deathTimer
    economyPrice: real,    // economy.price
    initDelay: int)        // queue.initDelay

  /** The fixed part of a TeleportProperty. The price is only ever compared. */
  datatype Request = Request(
    target: PlayerId,
    price: real,
    bypassDelay: bool,
    bypassCooldown: bool,
    bypassEco: bool)

  /** The economy handler at the funds gate: absent (null), or present with its `hasEnough` answer. */
  datatype EcoAnswer = NoEconomy | Economy(hasEnough: bool)

  datatype TeleportType = Success | Fail | InsufficientFunds | Cooldown

  /** What `toRandomLocation` returns, or the exception that escapes it. */
  datatype Response = Returned(kind: TeleportType) | ThrewNullPointer

  datatype Decision =
    | RejectFunds                   // insufficient-funds message, INSUFFICIENT_FUNDS
    | RejectCooldown(ticksLeft: int)  // countdown message, COOLDOWN
    | RunNow                        // teleport inline, SUCCESS
    | Defer(delay: int)             // delay message, deferred teleport, FAIL
    | EconomyDereferenced           // hasEnough called on an absent economy handler

  /** The price is charged: no economy bypass and a positive price. */
  predicate Charged(req: Request)
  {
    !req.bypassEco && req.price > 0.0
  }

  /** The funds gate lets the request through. */
  predicate FundsOk(req: Request, eco: EcoAnswer)
  {
    !Charged(req) || eco == Economy(true)
  }

  /** The cooldown gate stops the request. */
  predicate CooldownBlocks(req: Request, cfg: Config, record: Option<BasicCooldown>, now: int)
  {
    record.Some? && cfg.cooldown > 0 && !IsExpired(record.value, now) && !req.bypassCooldown
  }

  /** The delay that applies: none with the delay bypass, the configured one otherwise. */
  function EffectiveDelay(req: Request, cfg: Config): int
  {
    if req.bypassDelay then 0 else cfg.delay
  }

  function Decide(req: Request, cfg: Config, eco: EcoAnswer, record: Option<BasicCooldown>, now: int): (d: Decision)
    ensures d == EconomyDereferenced <==> Charged(req) && eco == NoEconomy
    ensures d == RejectFunds <==> Charged(req) && eco == Economy(false)
    ensures d.RejectCooldown? <==> FundsOk(req, eco) && CooldownBlocks(req, cfg, record, now)
    ensures d.RejectCooldown? ==>
              && 0 <= d.ticksLeft
              && d.ticksLeft * 50 <= RemainingTime(record.value, now) < (d.ticksLeft + 1) * 50
    ensures d == RunNow <==>
              FundsOk(req, eco) && !CooldownBlocks(req, cfg, record, now) && EffectiveDelay(req, cfg) <= 0
    ensures d.Defer? <==>
              FundsOk(req, eco) && !CooldownBlocks(req, cfg, record, now) && EffectiveDelay(req, cfg) > 0
    ensures d.Defer? ==> d.delay == EffectiveDelay(req, cfg) > 0
  {
    if Charged(req) && eco.NoEconomy? then EconomyDereferenced
    else if Charged(req) && !eco.hasEnough then RejectFunds
    else if CooldownBlocks(req, cfg, record, now) then RejectCooldown(RemainingTime(record.value, now) / 50)
    else if EffectiveDelay(req, cfg) > 0 then Defer(EffectiveDelay(req, cfg))
    else RunNow
  }

  /**
   * The funds gate comes before the cooldown lookup: whether a request is
   * rejected for funds does not depend on the cooldown store or the clock.
   */
  lemma FundsGateIgnoresCooldowns(req: Request, cfg: Config, eco: EcoAnswer,
                                  r1: Option<BasicCooldown>, now1: int, r2: Option<BasicCooldown>, now2: int)
    ensures Decide(req, cfg, eco, r1, now1) == RejectFunds <==> Decide(req, cfg, eco, r2, now2) == RejectFunds
  {
  }

  /** With the delay bypass the teleport never waits; with the cooldown bypass no cooldown stops it. */
  lemma BypassesHold(req: Request, cfg: Config, eco: EcoAnswer, record: Option<BasicCooldown>, now: int)
    ensures req.bypassDelay ==> !Decide(req, cfg, eco, record, now).Defer?
    ensures req.bypassCooldown ==> !Decide(req, cfg, eco, record, now).RejectCooldown?
    ensures req.bypassEco ==> Decide(req, cfg, eco, record, now) !in {RejectFunds, EconomyDereferenced}
  {
  }
}
