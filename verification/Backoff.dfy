/** The retry budget and backoff of the delivery engine. */
module Backoff {
  import opened Wrappers
  import opened Clock

  /** How many due runs one pass picks up. */
  const BATCH_LIMIT: int := 50
  const MAX_DELAY: int := HOUR

  /** SetMaxAttempts never lets the budget drop below one. */
  type Budget = n: int | n >= 1 witness 1

  /** Attempts are numbered from one; Go would panic on the negative shift for zero. */
  type Attempt = n: int | n >= 1 witness 1

  datatype Config = Config(maxAttempts: Budget, defaultUrl: string)

  /** Go's left shift of a duration: `d << k`. */
  function Shift(d: int, k: nat): int {
    if k == 0 then d else 2 * Shift(d, k - 1)
  }

  /** The backoff after `attempt` failed deliveries. */
  function RetryDelay(attempt: Attempt): int {
    if attempt >= 7 then MAX_DELAY
    else if Shift(MINUTE, attempt - 1) < MAX_DELAY then Shift(MINUTE, attempt - 1)
    else MAX_DELAY
  }

  lemma {:induction false} ShiftGrows(d: int, j: nat, k: nat)
    requires d >= 0 && j <= k
    ensures d <= Shift(d, j) <= Shift(d, k)
    decreases k
  {
    if j < k {
      ShiftGrows(d, j, k - 1);
    } else if k > 0 {
      ShiftGrows(d, k - 1, k - 1);
    }
  }

  /** The shortcut at 7 is exact: the delay is the doubled minute capped at an hour for every attempt. */
  lemma RetryDelayIsCappedDoubling(attempt: Attempt)
    ensures RetryDelay(attempt) == if Shift(MINUTE, attempt - 1) < MAX_DELAY then Shift(MINUTE, attempt - 1) else MAX_DELAY
    ensures MINUTE <= RetryDelay(attempt) <= MAX_DELAY
    ensures RetryDelay(attempt) <= RetryDelay(attempt + 1)
  {
    ShiftGrows(MINUTE, attempt - 1, attempt);
    if attempt >= 7 {
      assert Shift(MINUTE, 6) == 2 * Shift(MINUTE, 5) == 4 * Shift(MINUTE, 4) == 8 * Shift(MINUTE, 3);
      assert Shift(MINUTE, 3) == 2 * Shift(MINUTE, 2) == 4 * Shift(MINUTE, 1) == 8 * MINUTE;
      ShiftGrows(MINUTE, 6, attempt - 1);
    }
  }

  /** A minute after the first failure, and doubled after each further one until it would pass an hour. */
  lemma RetryDelayDoubles(attempt: Attempt)
    ensures RetryDelay(1) == 60 * SECOND
    ensures RetryDelay(attempt + 1) == if 2 * RetryDelay(attempt) < 60 * MINUTE then 2 * RetryDelay(attempt) else 60 * MINUTE
  {
    RetryDelayIsCappedDoubling(attempt);
    RetryDelayIsCappedDoubling(attempt + 1);
    ShiftGrows(MINUTE, attempt - 1, attempt);
  }

  /** Where a delivery goes: the run's own URL if it has a nonempty one, else the configured default. */
  function TargetUrl(cfg: Config, webhook: Option<string>): string {
    if webhook.Some? && webhook.value != "" then webhook.value else cfg.defaultUrl
  }
}
