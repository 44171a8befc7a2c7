/**
 * A player's cooldown record (BasicCooldown). The record class itself is not
 * part of this model; it is taken to expire once `now >= startTime + duration`
 * and to report the time left until then, never negative.
 */
module Cooldowns {
  import opened Locations

  datatype BasicCooldown = BasicCooldown(player: PlayerId, startTime: int, duration: int)

  predicate IsExpired(c: BasicCooldown, now: int)
  {
    now >= c.startTime + c.duration
  }

  /** `getRemainingTime()`: the time until the record expires, zero once it has. */
  function RemainingTime(c: BasicCooldown, now: int): (r: nat)
    ensures r == 0 <==> IsExpired(c, now)
    ensures !IsExpired(c, now) ==> now + r == c.startTime + c.duration
  {
    if IsExpired(c, now) then 0 else c.startTime + c.duration - now
  }

  /** The record a cooldown store holds for `player`, if any (`getCooldown`). */
  function Lookup(store: map<PlayerId, BasicCooldown>, player: PlayerId): (r: Option<BasicCooldown>)
    ensures r.Some? <==> player in store
    ensures r.Some? ==> r.value == store[player]
  {
    if player in store then Some(store[player]) else None
  }
}
