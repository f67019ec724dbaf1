/**
  What the limiters share: the lifetime that they give their keys, computed from the
  period over which old usage matters.
 */
module KeyLifetime {

  const SECOND := 1_000_000

  /** Lifetime in whole seconds for a period in microseconds: twice the period, at least one second. */
  function Seconds(period: int): int {
    var ttl := (period * 2) / SECOND;
    if ttl < 1 then 1 else ttl
  }

  /** A key set to live that long outlives the period, for every period, despite the rounding, and lives no longer
      than twice the period, or a second. */
  lemma Covers(period: int)
    ensures Seconds(period) * SECOND >= period
    ensures Seconds(period) * SECOND <= 2 * period || Seconds(period) == 1
  {
  }
}
