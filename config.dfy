/** The game's fixed configuration and the two numeric helpers built on it (script.js, CONFIG and HELPERS). */
module Config {

  /** Rounds in one race; exceeding this count ends the race by distance. */
  const TOTAL_ROUNDS: nat := 20
  /** Steps from start to finish line for both racers. */
  const STEPS: nat := 20

  /** Fall speed of a word on its first showing, in pixels per second. */
  const BASE_FALL_SPEED: int := 30
  /** Extra fall speed for every earlier showing of the same word. */
  const PER_SEEN_SPEED: int := 30
  /** Cap on the fall speed. */
  const MAX_FALL_SPEED: int := 580

  /** Extra draws the word picker makes to avoid repeating the previous word. */
  const MAX_RETRIES: nat := 20

  /** `clamp(n, min, max)`, written as Math.max(min, Math.min(max, n)). */
  function Clamp(n: int, lo: int, hi: int): (r: int)
    ensures lo <= r
    ensures lo <= hi ==> r <= hi
    ensures lo <= n <= hi ==> r == n
    ensures lo <= hi < n ==> r == hi
    ensures n < lo ==> r == lo
  {
    var m := if hi < n then hi else n;
    if m < lo then lo else m
  }

  /** The fall speed of a word that has now been shown `seen` times in this session. */
  function FallSpeed(seen: nat): (r: int)
    ensures BASE_FALL_SPEED <= r <= MAX_FALL_SPEED
    ensures 1 <= seen <= 19 ==> r == 30 * seen
    ensures seen >= 20 ==> r == MAX_FALL_SPEED
  {
    Clamp(BASE_FALL_SPEED + (seen - 1) * PER_SEEN_SPEED, BASE_FALL_SPEED, MAX_FALL_SPEED)
  }

  /** A word shown more often never falls more slowly. */
  lemma FallSpeedMonotone(a: nat, b: nat)
    requires a <= b
    ensures FallSpeed(a) <= FallSpeed(b)
  {
  }
}
