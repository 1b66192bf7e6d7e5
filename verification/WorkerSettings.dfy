/** The promotion worker's configuration (internal/promote/worker.go). Durations are nanoseconds. */
module WorkerSettings {
  const SECOND := 1_000_000_000
  const MINUTE := 60 * SECOND

  const DEFAULT_MAX_ATTEMPTS := 3
  const DEFAULT_RECOVER_AFTER := 15 * MINUTE
  const RECOVER_ERROR_INTERVAL := MINUTE

  // maxAttempts is the uint8 field MaxAttempts; recoverAfter any signed duration.
  datatype Settings = Settings(maxAttempts: nat, recoverAfter: int) {
    predicate Valid() { maxAttempts < 0x100 }

    function Budget(): (m: nat)
      ensures m >= 1
      ensures Valid() ==> m < 0x100
      ensures m == maxAttempts || (maxAttempts == 0 && m == 3)
    {
      if maxAttempts == 0 then DEFAULT_MAX_ATTEMPTS else maxAttempts
    }

    // The only reading of recoverAfter a sweep may use: never zero, never negative.
    function Window(): (d: int)
      ensures d > 0
      ensures recoverAfter > 0 ==> d == recoverAfter
    {
      if recoverAfter <= 0 then DEFAULT_RECOVER_AFTER else recoverAfter
    }

    function SweepEvery(): (d: int)
      ensures 0 < d <= Window()
      ensures recoverAfter > 0 ==> d == recoverAfter
    {
      if recoverAfter <= 0 then RECOVER_ERROR_INTERVAL else recoverAfter
    }

    /** Zero and negative mean the same: a window of fifteen minutes, looked at every minute. */
    lemma Unset()
      requires recoverAfter <= 0
      ensures Window() == 15 * SweepEvery() && SweepEvery() == 60_000_000_000
    {
    }
  }
}
