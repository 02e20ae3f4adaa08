/** The time constants of the service. The clock of every model counts milliseconds;
    the cache and the queue's retention setting count seconds. */
module Durations {
  datatype Option<+T> = None | Some(value: T)

  // milliseconds-base
  const SECONDS: nat := 1000
  const MINUTES: nat := 60 * SECONDS
  const HOURS: nat := 60 * MINUTES

  // seconds-base
  const RAW_SECONDS: nat := 1
  const RAW_MINUTES: nat := 60 * RAW_SECONDS
  const RAW_HOURS: nat := 60 * RAW_MINUTES

  /** Lifetime of a lock taken by the @MurLock decorator. */
  const LEASE: nat := 5 * SECONDS
  /** Lifetime of a sold-out flag, as the cache sees it: whole seconds, back in milliseconds. */
  const FLAG_TTL: nat := 24 * HOURS / SECONDS * SECONDS
  /** How long a failed job's record is kept; the setting is in seconds. */
  const FAILED_JOB_AGE: nat := 24 * RAW_HOURS * SECONDS
  /** Queue settings. */
  const ATTEMPTS: nat := 3
  const BACKOFF: nat := 1 * SECONDS
  const LIMITER_DURATION: nat := 1 * SECONDS
  /** How often a job may stall and be started again; BullMQ's default, which the processor keeps. */
  const MAX_STALLS: nat := 1

  function Max(a: int, b: int): int { if a < b then b else a }
  function Min(a: int, b: int): int { if a < b then a else b }
}
