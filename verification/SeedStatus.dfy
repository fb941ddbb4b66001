/** The persisted state of one seed-generation run: the fields of
    `SeedGenerationStatus` together with the `SeedGenerationCompleted` condition,
    and the pure decisions the controller takes from them. */
module SeedStatus {
  import opened Wrappers

  /** UIDs, digests, URLs, image references and fingerprints matter only by equality; the
      controller also tells an unset one. */
  type Name = nat
  const NONE: Name := 0

  datatype Reason =
    | Validating | InProgress | CleaningACMResources | BuildingISO
    | Completed | Failed | TimedOut | PreconditionChecksFailed

  datatype Condition = NoCondition | Condition(status: bool, reason: Reason)

  /** Times are nanoseconds. A status that was never started is `Initial`. */
  datatype Status = Status(
    cond: Condition,
    startedAt: Option<int>,
    timeoutSeconds: int,
    detachmentStarted: bool,
    clusterID: Name,
    managedClusterUID: Name,
    klusterletUID: Name,
    agentDetachmentCompleted: bool,
    detachedCleanupCompleted: bool,
    seedGeneratorSubmitted: bool,
    seedGeneratorFinished: bool,
    releaseImageDigest: Name,
    seedImage: Name,
    isoJobSubmitted: bool,
    isoJobSubmittedAt: Option<int>,
    isoJobSpecHash: Name,
    isoJobUID: Name,
    isoUploadCleanupDeadline: Option<int>,
    isoUploadCleanupCompleted: bool,
    isoURL: Name,
    isoDigest: Name,
    diagnosticsExpireAt: Option<int>,
    snapshotUIDs: Name)

  const Initial: Status :=
    Status(NoCondition, None, 0, false, NONE, NONE, NONE, false, false, false, false, NONE, NONE,
           false, None, NONE, NONE, None, false, NONE, NONE, None, NONE)

  const SECOND: int := 1_000_000_000
  const ADOPTION_WINDOW: int := 120 * SECOND
  const UPLOAD_CLEANUP_TIMEOUT: int := 300 * SECOND
  const DIAGNOSTICS_RETENTION: int := 24 * 3600 * SECOND

  predicate Terminal(c: Condition) {
    c.Condition? &&
    if c.status then c.reason.Completed?
    else c.reason.Failed? || c.reason.TimedOut? || c.reason.PreconditionChecksFailed?
  }

  predicate FailureNeedsCleanup(c: Condition) {
    c.Condition? && !c.status &&
    (c.reason.Failed? || c.reason.TimedOut? || c.reason.PreconditionChecksFailed?)
  }

  predicate IsCompleted(c: Condition) {
    c == Condition(true, Completed)
  }

  /** Routing at the top of every reconcile: the seed workflow or normal provisioning. */
  predicate NeedsFastPath(s: Status) {
    if s.detachmentStarted then true
    else if Terminal(s.cond) then false
    else s.startedAt.Some? || s.cond.Condition?
  }

  predicate PinsSet(s: Status) {
    s.clusterID != NONE && s.managedClusterUID != NONE && s.klusterletUID != NONE
  }

  predicate SamePins(s: Status, n: Status) {
    s.clusterID == n.clusterID && s.managedClusterUID == n.managedClusterUID && s.klusterletUID == n.klusterletUID
  }

  predicate Started(s: Status) {
    s.startedAt.Some? && s.timeoutSeconds > 0
  }

  function Deadline(s: Status): int
    requires s.startedAt.Some?
  {
    s.startedAt.value + s.timeoutSeconds * SECOND
  }

  /** No upload can be left behind, or its removal has been recorded. */
  predicate UploadSettled(s: Status) {
    !s.isoJobSubmitted || s.isoUploadCleanupCompleted || IsCompleted(s.cond)
  }

  /** Nothing is left on the spoke, or nothing was ever done to it. */
  predicate SpokeSettled(s: Status) {
    !s.detachmentStarted || s.detachedCleanupCompleted
  }

  /** Timeouts are persisted in whole seconds, rounded up. */
  function TimeoutSeconds(timeout: int): (seconds: int)
    requires timeout > 0
    ensures seconds >= 1
    ensures (seconds - 1) * SECOND < timeout <= seconds * SECOND
  {
    var whole := timeout / SECOND;
    if timeout % SECOND != 0 then whole + 1 else whole
  }

  /** The deadline given to the ISO build Job, from the time left in the run. */
  function ActiveDeadlineSeconds(remaining: int): int
    requires remaining > 0
  {
    var whole := remaining / SECOND;
    if whole < 1 then 1 else whole
  }

  /** The check a Job must pass before it is observed. */
  predicate DeadlinePolicy(activeDeadline: int, timeoutSeconds: int) {
    0 < activeDeadline <= timeoutSeconds
  }

  /** Rounding never makes the controller reject a Job it built itself. The Job also
      never outlives the run by a full second. */
  lemma JobDeadlinePassesPolicy(s: Status, now: int)
    requires Started(s) && s.startedAt.value <= now < Deadline(s)
    ensures DeadlinePolicy(ActiveDeadlineSeconds(Deadline(s) - now), s.timeoutSeconds)
    ensures now + ActiveDeadlineSeconds(Deadline(s) - now) * SECOND < Deadline(s) + SECOND
  {
    var remaining := Deadline(s) - now;
    assert remaining <= s.timeoutSeconds * SECOND;
    assert remaining / SECOND <= s.timeoutSeconds;
  }
}
