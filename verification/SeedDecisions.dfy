/** What one reconcile of a seed-generation run leads to when no call and no status write
    fails, from the persisted status, what the reconcile sees and what it is told from
    outside. Over these decisions: what a run fails for, and that it completes. */
module SeedDecisions {
  import opened Wrappers
  import opened SeedStatus
  import opened SeedProtocol
  import opened SeedInvariant
  import opened SeedWrites

  /** What is decided outside of this model, once per reconcile: the frozen inputs, identities
      and tools of the preflight, the inputs of the ISO build and the state of its result,
      the retention of logs and the removal of an upload. */
  datatype Outside = Outside(
    snapshotReady: bool,
    snapshotUIDs: Name,
    managedClusterUID: Name,
    klusterletUID: Name,
    toolsReady: bool,
    digest: Name,
    preflightPodsGone: bool,
    credentials: bool,
    inputsValid: bool,
    workspaceReady: bool,
    buildable: bool,
    jobHash: Name,
    deadlineExceeded: bool,
    resultValid: bool,
    resultReady: bool,
    isoURL: Name,
    isoDigest: Name,
    hasLogs: bool,
    logsKept: bool,
    logsRetried: bool,
    podsValid: bool,
    artifactValid: bool,
    uploadReached: bool)

  /** What a decision looks at: the configuration, the cluster that is reached, what is told,
      what was seen, and the time at the beginning and at the end. */
  datatype View = View(cfg: Config, reach: Name, out: Outside, k: Knowledge, since: int, until: int)

  // ---------------------------------------------------------------- ends and waits

  /** Cleanup only adds to what is recorded about it. */
  predicate Cleaned(s: Status, n: Status) {
    && n.cond == s.cond && n.startedAt == s.startedAt && n.timeoutSeconds == s.timeoutSeconds && SamePins(s, n)
    && n.detachmentStarted == s.detachmentStarted && n.agentDetachmentCompleted == s.agentDetachmentCompleted
    && n.seedGeneratorSubmitted == s.seedGeneratorSubmitted && n.isoJobSubmitted == s.isoJobSubmitted
    && n.releaseImageDigest == s.releaseImageDigest && n.seedImage == s.seedImage && n.snapshotUIDs == s.snapshotUIDs
    && n.isoJobSubmittedAt == s.isoJobSubmittedAt && n.isoJobSpecHash == s.isoJobSpecHash
    && n.isoURL == s.isoURL && n.isoDigest == s.isoDigest && n.diagnosticsExpireAt == s.diagnosticsExpireAt
    && (s.seedGeneratorFinished ==> n.seedGeneratorFinished)
    && (s.detachedCleanupCompleted ==> n.detachedCleanupCompleted)
    && (s.isoJobUID != NONE ==> n.isoJobUID == s.isoJobUID)
    && (s.isoUploadCleanupDeadline.Some? ==> n.isoUploadCleanupDeadline == s.isoUploadCleanupDeadline)
    && (s.isoUploadCleanupCompleted ==> n.isoUploadCleanupCompleted)
  }

  /** The run has ended for a reason, and cleanup may have begun. */
  predicate Ended(s: Status, n: Status, reason: Reason) {
    Cleaned(Failing(s, reason), n)
  }

  function Says(s: Status, reason: Reason): Status {
    s.(cond := Condition(false, reason))
  }

  predicate SpokeFault(reach: Name, s: Status) {
    s.clusterID == NONE || reach != s.clusterID
  }

  // ---------------------------------------------------------------- preflight

  function Uids(out: Outside): Name {
    if out.snapshotUIDs == NONE then 1 else out.snapshotUIDs
  }

  function Frozen(out: Outside, s: Status): Status {
    s.(snapshotUIDs := Uids(out))
  }

  function Pinned(reach: Name, out: Outside, s: Status): Status {
    s.(clusterID := reach, managedClusterUID := out.managedClusterUID, klusterletUID := out.klusterletUID)
  }

  predicate SnapshotFault(out: Outside, s: Status) {
    s.snapshotUIDs != NONE && s.snapshotUIDs != Uids(out)
  }

  predicate IdentityFault(reach: Name, out: Outside, s: Status) {
    !PinsSet(Pinned(reach, out, s)) || (s.clusterID != NONE && !SamePins(s, Pinned(reach, out, s)))
  }

  predicate ToolsFault(cfg: Config, out: Outside, s: Status) {
    cfg.hasISO && out.toolsReady && s.releaseImageDigest == NONE && out.digest == NONE
  }

  /** What the tools add: the digest first, then the run is ready for its first change. */
  function ToolsNext(cfg: Config, out: Outside, s: Status): Status {
    if !cfg.hasISO || !out.toolsReady then s
    else if s.releaseImageDigest != NONE then Says(s, InProgress)
    else s.(releaseImageDigest := out.digest)
  }

  predicate ToolsDecision(v: View, s: Status, n: Status) {
    if ToolsFault(v.cfg, v.out, s) then Ended(s, n, PreconditionChecksFailed)
    else if !v.cfg.hasISO then n == Says(s, InProgress)
    else n == ToolsNext(v.cfg, v.out, s)
  }

  predicate PreflightDecision(v: View, s: Status, n: Status) {
    if !v.out.snapshotReady then n == s
    else if SnapshotFault(v.out, s) then Ended(s, n, PreconditionChecksFailed)
    else if IdentityFault(v.reach, v.out, Frozen(v.out, s)) then Ended(Frozen(v.out, s), n, PreconditionChecksFailed)
    else ToolsDecision(v, Pinned(v.reach, v.out, Frozen(v.out, s)), n)
  }

  // ---------------------------------------------------------------- the SeedGenerator

  predicate ImageFault(cfg: Config, s: Status) {
    s.seedImage != NONE && s.seedImage != cfg.seedImage
  }

  /** On what LCA reports. */
  predicate Observed(cfg: Config, result: LcaResult, s: Status, n: Status) {
    match result
    case Unfinished => n == Says(s, InProgress)
    case Failure => Ended(s.(seedGeneratorFinished := true), n, Failed)
    case Success =>
      if Blank(cfg.seedImage) then Ended(s, n, Failed)
      else if ImageFault(cfg, s) then Ended(s.(seedGeneratorFinished := true), n, Failed)
      else n == Accepted(cfg, s)
  }

  /** The seed image is there: the ISO is next, or the run is complete. */
  function Accepted(cfg: Config, s: Status): Status {
    s.(seedGeneratorFinished := true, seedImage := cfg.seedImage,
       cond := if cfg.hasISO then Condition(false, BuildingISO) else Condition(true, Completed))
  }

  /** The credentials are on the spoke before the SeedGenerator is. */
  predicate SubmitDecision(v: View, s: Status, n: Status) {
    v.k.secret.Looked? &&
    match v.k.secret.what
    case NoSecret => !v.out.credentials && Ended(s, n, Failed)
    case SeedSecret(owned, dataMatches, deleting) =>
      if !owned || (!deleting && !dataMatches) then Ended(s, n, Failed)
      else if deleting then n == s
      else n == Sent(s)
  }

  /** The intent to create the SeedGenerator. */
  function Sent(s: Status): Status {
    s.(seedGeneratorSubmitted := true, cond := Condition(false, InProgress))
  }

  predicate GeneratorDecision(v: View, s: Status, n: Status) {
    if Blank(v.cfg.seedImage) || SpokeFault(v.reach, s) then Ended(s, n, Failed)
    else
      v.k.generator.Looked? &&
      match v.k.generator.what
      case NoGenerator => if s.seedGeneratorSubmitted then n == Says(s, InProgress) else SubmitDecision(v, s, n)
      case Generator(owned, specMatches, deleting, result) =>
        if !owned || !specMatches then Ended(s, n, Failed)
        else if deleting then n == Says(s, InProgress)
        else Observed(v.cfg, result, s, n)
  }

  function AgentsDetached(s: Status): Status {
    s.(agentDetachmentCompleted := true, cond := Condition(false, InProgress))
  }

  predicate AgentsDecision(v: View, s: Status, n: Status) {
    if s.agentDetachmentCompleted then GeneratorDecision(v, s, n)
    else if SpokeFault(v.reach, s) then Ended(s, n, Failed)
    else if !v.k.agentsGone then n == Says(s, CleaningACMResources)
    else GeneratorDecision(v, AgentsDetached(s), n)
  }

  // ---------------------------------------------------------------- the ISO

  /** The end of a run with a Job, whose logs are kept for a while if there are any. */
  predicate LogsEnded(v: View, s: Status, n: Status, reason: Reason) {
    if s.diagnosticsExpireAt.None? && v.out.hasLogs && v.out.logsKept then
      && n.diagnosticsExpireAt.Some?
      && v.since + DIAGNOSTICS_RETENTION <= n.diagnosticsExpireAt.value <= v.until + DIAGNOSTICS_RETENTION
      && Ended(s.(diagnosticsExpireAt := n.diagnosticsExpireAt), n, reason)
    else Ended(s, n, reason)
  }

  /** Logs that could not be kept are tried again, up to the deadline of the run. */
  predicate LogsRetried(out: Outside, s: Status) {
    s.diagnosticsExpireAt.None? && out.hasLogs && !out.logsKept && out.logsRetried
  }

  predicate JobEnded(v: View, s: Status, n: Status, reason: Reason)
    requires s.startedAt.Some?
  {
    if LogsRetried(v.out, s) then
      (v.since < Deadline(s) && n == Says(s, BuildingISO)) || (v.until >= Deadline(s) && Ended(s, n, reason))
    else LogsEnded(v, s, n, reason)
  }

  predicate ResultFault(out: Outside, s: Status) {
    (s.isoURL != NONE && s.isoURL != out.isoURL) || (s.isoDigest != NONE && s.isoDigest != out.isoDigest)
  }

  /** On the state of the pinned Job: success first. */
  predicate Judged(v: View, job: Job, s: Status, n: Status)
    requires job.Job? && s.startedAt.Some?
  {
    if !job.succeeded && job.failed then JobEnded(v, s, n, if v.out.deadlineExceeded then TimedOut else Failed)
    else if !job.succeeded then n == Says(s, BuildingISO)
    else if !v.out.resultValid then JobEnded(v, s, n, Failed)
    else if !v.out.resultReady then n == s
    else if ResultFault(v.out, s) then Ended(s, n, Failed)
    else n == Recorded(v.out, s)
  }

  /** The verified result of the Job completes the run. */
  function Recorded(out: Outside, s: Status): Status {
    s.(isoURL := out.isoURL, isoDigest := out.isoDigest, cond := Condition(true, Completed))
  }

  predicate JobFault(job: Job, s: Status)
    requires job.Job?
  {
    (s.isoJobUID != NONE && s.isoJobUID != job.uid) || job.hash != s.isoJobSpecHash ||
    !DeadlinePolicy(job.activeDeadline, s.timeoutSeconds)
  }

  predicate JobDecision(v: View, job: Job, s: Status, n: Status)
    requires s.isoJobSubmittedAt.Some? && s.startedAt.Some?
  {
    var at := s.isoJobSubmittedAt.value;
    if job.NoJob? then
      || (n == s && v.since - at < ADOPTION_WINDOW)
      || (Ended(s, n, Failed) && v.until - at >= ADOPTION_WINDOW)
    else if !job.owned then Ended(s, n, Failed)
    else if job.deleting then n == s
    else if JobFault(job, s) then Ended(s, n, Failed)
    else if s.isoJobUID == NONE then n == s.(isoJobUID := job.uid)
    else Judged(v, job, s, n)
  }

  predicate BuildFault(out: Outside) {
    !out.buildable || out.jobHash == NONE
  }

  /** A Job is submitted with its fingerprint, at a time within the reconcile, and its UID is
      recorded. */
  predicate Submitted(v: View, s: Status, n: Status) {
    && n == s.(isoJobSubmitted := true, isoJobSubmittedAt := n.isoJobSubmittedAt, isoJobSpecHash := v.out.jobHash,
               isoJobUID := v.k.createdUID, cond := Condition(false, BuildingISO))
    && n.isoJobSubmittedAt.Some? && v.since <= n.isoJobSubmittedAt.value <= v.until && v.k.createdUID != NONE
  }

  predicate SubmitJobDecision(v: View, s: Status, n: Status)
    requires s.startedAt.Some?
  {
    if !v.out.workspaceReady then n == Says(s, BuildingISO)
    else
      || (Ended(s, n, TimedOut) && v.until >= Deadline(s))
      || (v.since < Deadline(s) && if BuildFault(v.out) then Ended(s, n, Failed) else Submitted(v, s, n))
  }

  predicate ISODecision(v: View, s: Status, n: Status)
    requires s.startedAt.Some?
  {
    if !v.out.inputsValid then Ended(s, n, Failed)
    else if !s.isoJobSubmitted then SubmitJobDecision(v, s, n)
    else v.k.job.Looked? && s.isoJobSubmittedAt.Some? && JobDecision(v, v.k.job.what, s, n)
  }

  /** The spoke is clean before the ISO is built. */
  predicate CleanupDecision(v: View, s: Status, n: Status)
    requires s.startedAt.Some?
  {
    if s.detachedCleanupCompleted then ISODecision(v, s, n)
    else if SpokeFault(v.reach, s) then Ended(s, n, Failed)
    else if !SawNoOwnedGenerator(v.k) || !SawNoOwnedSecret(v.k) then n == s
    else ISODecision(v, s.(detachedCleanupCompleted := true), n)
  }

  // ---------------------------------------------------------------- the whole reconcile

  predicate DetachedDecision(v: View, s: Status, n: Status)
    requires s.startedAt.Some?
  {
    if s.seedGeneratorFinished && v.cfg.hasISO then CleanupDecision(v, s, n) else AgentsDecision(v, s, n)
  }

  /** What must have been frozen and pinned before the first change to the cluster. */
  predicate FrozenFault(cfg: Config, s: Status) {
    s.snapshotUIDs == NONE || (cfg.hasISO && s.releaseImageDigest == NONE)
  }

  predicate SnapshotDecision(v: View, s: Status, n: Status)
    requires s.startedAt.Some?
  {
    if FrozenFault(v.cfg, s) then Ended(s, n, PreconditionChecksFailed)
    else if !v.out.preflightPodsGone then n == s
    else if s.detachmentStarted then DetachedDecision(v, s, n)
    else if !PinsSet(s) then Ended(s, n, PreconditionChecksFailed)
    else n == s.(detachmentStarted := true, cond := Condition(false, CleaningACMResources))
  }

  predicate StageDecision(v: View, s: Status, n: Status)
    requires s.startedAt.Some?
  {
    if s.detachmentStarted || !s.cond.Condition? || !s.cond.reason.Validating? then SnapshotDecision(v, s, n)
    else PreflightDecision(v, s, n)
  }

  /** The Job of the run is there to give its logs. */
  predicate JobSeen(v: View, s: Status) {
    s.isoJobSubmitted && v.k.job.Looked? && OwnedJob(v.k.job.what) && (s.isoJobUID == NONE || s.isoJobUID == v.k.job.what.uid)
  }

  predicate TimeoutDecision(v: View, s: Status, n: Status) {
    if JobSeen(v, s) then LogsEnded(v, s, n, TimedOut) else Ended(s, n, TimedOut)
  }

  /** A reconcile of a live run: at the deadline it ends. */
  predicate Decision(v: View, s: Status, n: Status)
    requires Started(s)
  {
    || (v.until >= Deadline(s) && TimeoutDecision(v, s, n))
    || (v.since < Deadline(s) && StageDecision(v, s, n))
  }

  // ---------------------------------------------------------------- what a run fails for

  /** Other inputs than were frozen, identities that are missing or changed, or no digest. */
  predicate PreflightFault(v: View, s: Status) {
    && v.out.snapshotReady
    && (|| (s.snapshotUIDs != NONE && s.snapshotUIDs != (if v.out.snapshotUIDs == NONE then 1 else v.out.snapshotUIDs))
        || v.reach == NONE || v.out.managedClusterUID == NONE || v.out.klusterletUID == NONE
        || (s.clusterID != NONE &&
            (s.clusterID != v.reach || s.managedClusterUID != v.out.managedClusterUID || s.klusterletUID != v.out.klusterletUID))
        || (v.cfg.hasISO && v.out.toolsReady && s.releaseImageDigest == NONE && v.out.digest == NONE))
  }

  predicate GeneratorFault(v: View, s: Status) {
    v.k.generator.Looked? && v.k.generator.what.Generator? &&
    var g := v.k.generator.what;
    || !g.owned || !g.specMatches
    || (!g.deleting && (g.result.Failure? || (g.result.Success? && s.seedImage != NONE && s.seedImage != v.cfg.seedImage)))
  }

  predicate SecretFault(v: View, s: Status) {
    v.k.generator == Looked(NoGenerator) && !s.seedGeneratorSubmitted && v.k.secret.Looked? &&
    match v.k.secret.what
    case NoSecret => true
    case SeedSecret(owned, dataMatches, deleting) => !owned || (!deleting && !dataMatches)
  }

  /** The logs of a failed build cannot be kept yet. */
  predicate LogsOpen(v: View, s: Status) {
    s.diagnosticsExpireAt.None? && v.out.hasLogs && !v.out.logsKept && v.out.logsRetried
  }

  /** The Job is missing for too long, not ours, not the one that was submitted, has failed, or
      its result is no good. */
  predicate JobFails(v: View, s: Status) {
    v.k.job.Looked? && s.isoJobSubmittedAt.Some? &&
    match v.k.job.what
    case NoJob => v.until - s.isoJobSubmittedAt.value >= ADOPTION_WINDOW
    case Job(uid, hash, activeDeadline, owned, deleting, succeeded, failed) =>
      || !owned
      || (!deleting &&
          (|| (s.isoJobUID != NONE && s.isoJobUID != uid)
           || hash != s.isoJobSpecHash || activeDeadline <= 0 || activeDeadline > s.timeoutSeconds
           || (s.isoJobUID != NONE && !LogsOpen(v, s) && (if succeeded then !v.out.resultValid else failed))
           || (s.isoJobUID != NONE && succeeded && v.out.resultValid && v.out.resultReady &&
               ((s.isoURL != NONE && s.isoURL != v.out.isoURL) || (s.isoDigest != NONE && s.isoDigest != v.out.isoDigest)))))
  }

  predicate ISOFault(v: View, s: Status)
    requires s.startedAt.Some?
  {
    if !s.detachedCleanupCompleted && (s.clusterID == NONE || v.reach != s.clusterID) then true
    else
      && (s.detachedCleanupCompleted || (SawNoOwnedGenerator(v.k) && SawNoOwnedSecret(v.k)))
      && (!v.out.inputsValid || (if s.isoJobSubmitted then JobFails(v, s) else v.out.workspaceReady && (!v.out.buildable || v.out.jobHash == NONE)))
  }

  predicate DetachedFault(v: View, s: Status)
    requires s.startedAt.Some?
  {
    if s.seedGeneratorFinished && v.cfg.hasISO then ISOFault(v, s)
    else
      || s.clusterID == NONE || v.reach != s.clusterID
      || ((s.agentDetachmentCompleted || v.k.agentsGone) &&
          (v.cfg.seedImage == NONE || GeneratorFault(v, s) || SecretFault(v, s)))
  }

  /** All the reasons, other than time, for which a reconcile gives up a run. */
  predicate Fault(v: View, s: Status)
    requires s.startedAt.Some? && s.cond.Condition?
  {
    if !s.detachmentStarted && s.cond.reason.Validating? then PreflightFault(v, s)
    else
      || s.snapshotUIDs == NONE || (v.cfg.hasISO && s.releaseImageDigest == NONE)
      || (v.out.preflightPodsGone && if s.detachmentStarted then DetachedFault(v, s) else !PinsSet(s))
  }

  predicate Fails(n: Status) {
    FailureNeedsCleanup(n.cond)
  }

  predicate ByDeadline(v: View, n: Status) {
    n.cond == Condition(false, TimedOut) ==>
      v.k.job.Looked? && v.k.job.what.Job? && v.k.job.what.failed && v.out.deadlineExceeded
  }

  /** Ends and waits say so in the condition. */
  lemma Endings(n: Status)
    ensures forall s, reason :: Ended(s, n, reason) ==> n.cond == Condition(false, reason)
    ensures forall s, reason :: n == Says(s, reason) ==> n.cond == Condition(false, reason)
    ensures forall out, s :: n == Recorded(out, s) ==> n.cond == Condition(true, Completed)
    ensures forall cfg, s :: n == Accepted(cfg, s) ==>
      n.cond == (if cfg.hasISO then Condition(false, BuildingISO) else Condition(true, Completed))
  {
  }

  lemma ToolsKeepLive(cfg: Config, out: Outside, s: Status)
    ensures var n := ToolsNext(cfg, out, s); n.cond == s.cond || n.cond == Condition(false, InProgress)
  {
  }

  lemma ToolsFails(v: View, s: Status, n: Status)
    requires Live(s) && ToolsDecision(v, s, n)
    ensures Fails(n) <==> v.cfg.hasISO && v.out.toolsReady && s.releaseImageDigest == NONE && v.out.digest == NONE
    ensures ByDeadline(v, n)
  {
    Endings(n);
    hide Ended, ToolsNext, Says;
    ToolsKeepLive(v.cfg, v.out, s);
  }

  lemma PreflightFails(v: View, s: Status, n: Status)
    requires Live(s) && PreflightDecision(v, s, n)
    ensures (Fails(n) <==> PreflightFault(v, s)) && ByDeadline(v, n)
  {
    Endings(n);
    assert IdentityFault(v.reach, v.out, Frozen(v.out, s)) == IdentityFault(v.reach, v.out, s);
    var t, p := Pinned(v.reach, v.out, Frozen(v.out, s)), Pinned(v.reach, v.out, s);
    assert t.cond == s.cond && t.releaseImageDigest == s.releaseImageDigest && t.startedAt == s.startedAt;
    assert p.clusterID == v.reach && p.managedClusterUID == v.out.managedClusterUID && p.klusterletUID == v.out.klusterletUID;
    hide Ended, ToolsDecision, Frozen, Pinned;
    if v.out.snapshotReady && !SnapshotFault(v.out, s) && !IdentityFault(v.reach, v.out, s) {
      ToolsFails(v, t, n);
    }
  }

  lemma ObservedFails(v: View, result: LcaResult, s: Status, n: Status)
    requires Live(s) && Observed(v.cfg, result, s, n) && !Blank(v.cfg.seedImage)
    ensures Fails(n) <==> result.Failure? || (result.Success? && s.seedImage != NONE && s.seedImage != v.cfg.seedImage)
    ensures ByDeadline(v, n)
  {
    Endings(n);
    hide Ended, Says, Accepted;
  }

  lemma SubmitFails(v: View, s: Status, n: Status)
    requires Live(s) && SubmitDecision(v, s, n) && v.k.generator == Looked(NoGenerator) && !s.seedGeneratorSubmitted
    ensures (Fails(n) <==> SecretFault(v, s)) && ByDeadline(v, n)
  {
    Endings(n);
    hide Ended;
  }

  lemma GeneratorFails(v: View, s: Status, n: Status)
    requires Live(s) && GeneratorDecision(v, s, n)
    ensures Fails(n) <==>
      v.cfg.seedImage == NONE || s.clusterID == NONE || v.reach != s.clusterID || GeneratorFault(v, s) || SecretFault(v, s)
    ensures ByDeadline(v, n)
  {
    Endings(n);
    hide Ended;
    if !Blank(v.cfg.seedImage) && !SpokeFault(v.reach, s) {
      var g := v.k.generator.what;
      if g.Generator? {
        if g.owned && g.specMatches && !g.deleting {
          ObservedFails(v, g.result, s, n);
        }
      } else if !s.seedGeneratorSubmitted {
        SubmitFails(v, s, n);
      }
      hide Observed, SubmitDecision;
    }
  }

  lemma AgentsFails(v: View, s: Status, n: Status)
    requires Live(s) && AgentsDecision(v, s, n)
    ensures Fails(n) <==>
      || s.clusterID == NONE || v.reach != s.clusterID
      || ((s.agentDetachmentCompleted || v.k.agentsGone) &&
          (v.cfg.seedImage == NONE || GeneratorFault(v, s) || SecretFault(v, s)))
    ensures ByDeadline(v, n)
  {
    Endings(n);
    hide Ended;
    hide GeneratorDecision;
    if s.agentDetachmentCompleted {
      GeneratorFails(v, s, n);
    } else if !SpokeFault(v.reach, s) && v.k.agentsGone {
      GeneratorFails(v, AgentsDetached(s), n);
    }
  }

  lemma JobEndedFails(v: View, s: Status, n: Status, reason: Reason)
    requires Live(s) && v.since == v.until < Deadline(s) && FailureReason(reason) && JobEnded(v, s, n, reason)
    ensures (Fails(n) <==> !LogsOpen(v, s)) && (Fails(n) ==> n.cond == Condition(false, reason))
  {
    Endings(n);
    hide Ended;
  }

  lemma JudgedFails(v: View, job: Job, s: Status, n: Status)
    requires Live(s) && v.since == v.until < Deadline(s) && v.k.job == Looked(job) && job.Job? && Judged(v, job, s, n)
    ensures Fails(n) <==>
      || (!LogsOpen(v, s) && (if job.succeeded then !v.out.resultValid else job.failed))
      || (job.succeeded && v.out.resultValid && v.out.resultReady &&
          ((s.isoURL != NONE && s.isoURL != v.out.isoURL) || (s.isoDigest != NONE && s.isoDigest != v.out.isoDigest)))
    ensures ByDeadline(v, n)
  {
    Endings(n);
    hide Ended, JobEnded, Says, Recorded;
    if !job.succeeded && job.failed {
      JobEndedFails(v, s, n, if v.out.deadlineExceeded then TimedOut else Failed);
    } else if job.succeeded && !v.out.resultValid {
      JobEndedFails(v, s, n, Failed);
    }
  }

  /** What LCA reports decides: a success brings the image, a failure ends the run. */
  lemma ObservedMeans(cfg: Config, result: LcaResult, s: Status, n: Status)
    requires Observed(cfg, result, s, n) && cfg.seedImage != NONE
    ensures result.Unfinished? ==> n == s.(cond := Condition(false, InProgress))
    ensures result.Failure? ==> n.seedGeneratorFinished && n.cond == Condition(false, Failed) && n.seedImage == s.seedImage
    ensures result.Success? && (s.seedImage == NONE || s.seedImage == cfg.seedImage) ==>
      && n.seedGeneratorFinished && n.seedImage == cfg.seedImage
      && n.cond == (if cfg.hasISO then Condition(false, BuildingISO) else Condition(true, Completed))
  {
  }

  /** A Job that succeeded with a good result never fails the run, whatever else happened to it. */
  lemma SucceededNeverFails(v: View, job: Job, s: Status, n: Status)
    requires Live(s) && job.Job? && job.succeeded && v.out.resultValid && !ResultFault(v.out, s) && Judged(v, job, s, n)
    ensures if v.out.resultReady then n.cond == Condition(true, Completed) else n == s
  {
  }

  lemma JobDecisionFails(v: View, s: Status, n: Status)
    requires Live(s) && v.since == v.until < Deadline(s) && v.k.job.Looked? && s.isoJobSubmittedAt.Some?
    requires JobDecision(v, v.k.job.what, s, n)
    ensures (Fails(n) <==> JobFails(v, s)) && ByDeadline(v, n)
  {
    Endings(n);
    hide Ended;
    var job := v.k.job.what;
    if job.Job? && job.owned && !job.deleting && !JobFault(job, s) && s.isoJobUID != NONE {
      JudgedFails(v, job, s, n);
    }
    hide Judged;
  }

  lemma ISOFails(v: View, s: Status, n: Status)
    requires Live(s) && v.since == v.until < Deadline(s) && ISODecision(v, s, n)
    ensures Fails(n) <==>
      || !v.out.inputsValid
      || (if s.isoJobSubmitted then JobFails(v, s) else v.out.workspaceReady && (!v.out.buildable || v.out.jobHash == NONE))
    ensures ByDeadline(v, n)
  {
    Endings(n);
    hide Ended;
    hide JobFails, JobDecision;
    if v.out.inputsValid && s.isoJobSubmitted {
      JobDecisionFails(v, s, n);
    }
  }

  lemma CleanupFails(v: View, s: Status, n: Status)
    requires Live(s) && v.since == v.until < Deadline(s) && CleanupDecision(v, s, n)
    ensures (Fails(n) <==> ISOFault(v, s)) && ByDeadline(v, n)
  {
    Endings(n);
    hide Ended;
    hide ISODecision;
    var t := s.(detachedCleanupCompleted := true);
    assert JobFails(v, t) == JobFails(v, s);
    if s.detachedCleanupCompleted {
      ISOFails(v, s, n);
    } else if !SpokeFault(v.reach, s) && SawNoOwnedGenerator(v.k) && SawNoOwnedSecret(v.k) {
      ISOFails(v, t, n);
    }
    hide JobFails;
  }

  lemma SnapshotFails(v: View, s: Status, n: Status)
    requires Live(s) && v.since == v.until < Deadline(s) && SnapshotDecision(v, s, n)
    ensures Fails(n) <==>
      || s.snapshotUIDs == NONE || (v.cfg.hasISO && s.releaseImageDigest == NONE)
      || (v.out.preflightPodsGone && if s.detachmentStarted then DetachedFault(v, s) else !PinsSet(s))
    ensures ByDeadline(v, n)
  {
    Endings(n);
    hide Ended;
    hide CleanupDecision, AgentsDecision, ISOFault, GeneratorFault, SecretFault;
    if !FrozenFault(v.cfg, s) && v.out.preflightPodsGone && s.detachmentStarted {
      if s.seedGeneratorFinished && v.cfg.hasISO {
        CleanupFails(v, s, n);
      } else {
        AgentsFails(v, s, n);
      }
    }
  }

  /** A reconcile gives up a live run exactly at its deadline or for one of the faults it sees
      or is told of, and as timed out only at the deadline of the run or of its Job. */
  lemma FailsExactly(v: View, s: Status, n: Status)
    requires Started(s) && Live(s) && v.since == v.until && Decision(v, s, n)
    ensures FailureNeedsCleanup(n.cond) <==> v.until >= Deadline(s) || Fault(v, s)
    ensures n.cond == Condition(false, TimedOut) ==>
      v.until >= Deadline(s) || (v.k.job.Looked? && v.k.job.what.Job? && v.k.job.what.failed && v.out.deadlineExceeded)
  {
    Endings(n);
    hide Ended;
    hide PreflightDecision, SnapshotDecision, PreflightFault, DetachedFault;
    if v.until < Deadline(s) {
      if s.detachmentStarted || !s.cond.reason.Validating? {
        SnapshotFails(v, s, n);
      } else {
        PreflightFails(v, s, n);
      }
    }
  }

  // ---------------------------------------------------------------- what a run says

  /** The condition of a live run tells how far it is. */
  predicate SaysStage(s: Status) {
    && s.cond.Condition? && !s.cond.status
    && if !s.detachmentStarted then s.cond.reason.Validating? || s.cond.reason.InProgress?
       else if !s.agentDetachmentCompleted then s.cond.reason.CleaningACMResources?
       else if !s.seedGeneratorFinished then s.cond.reason.InProgress?
       else s.cond.reason.BuildingISO?
  }

  lemma GeneratorSaysStage(v: View, s: Status, n: Status)
    requires Live(s) && SaysStage(s) && s.detachmentStarted && s.agentDetachmentCompleted && !s.seedGeneratorFinished
    requires GeneratorDecision(v, s, n) && Live(n)
    ensures SaysStage(n)
  {
    Endings(n);
    hide Ended;
  }

  lemma SpokeSaysStage(v: View, s: Status, n: Status)
    requires Live(s) && SaysStage(s) && s.detachmentStarted && !s.seedGeneratorFinished && AgentsDecision(v, s, n) && Live(n)
    ensures SaysStage(n)
  {
    Endings(n);
    hide Ended, GeneratorDecision;
    if s.agentDetachmentCompleted {
      GeneratorSaysStage(v, s, n);
    } else if !SpokeFault(v.reach, s) && v.k.agentsGone {
      GeneratorSaysStage(v, AgentsDetached(s), n);
    }
  }

  lemma ISOSaysStage(v: View, s: Status, n: Status)
    requires Live(s) && SaysStage(s) && s.detachmentStarted && s.agentDetachmentCompleted && s.seedGeneratorFinished
    requires CleanupDecision(v, s, n) && Live(n)
    ensures SaysStage(n)
  {
    Endings(n);
    LogEndings(v, n);
    hide Ended, LogsEnded;
  }

  lemma LogEndings(v: View, n: Status)
    ensures forall s, reason :: LogsEnded(v, s, n, reason) ==> n.cond == Condition(false, reason)
  {
    Endings(n);
    hide Ended;
  }

  /** Whatever a reconcile decides, the condition goes on telling how far the run is. */
  lemma DecisionSaysStage(v: View, s: Status, n: Status)
    requires Started(s) && Live(s) && Ordered(v.cfg, s) && SaysStage(s) && Decision(v, s, n) && Live(n)
    ensures SaysStage(n)
  {
    Endings(n);
    LogEndings(v, n);
    hide Ended, LogsEnded, AgentsDecision, CleanupDecision;
    if s.detachmentStarted {
      if s.seedGeneratorFinished && n != s {
        assert Ended(s, n, PreconditionChecksFailed) || CleanupDecision(v, s, n);
        ISOSaysStage(v, s, n);
      } else if n != s {
        assert AgentsDecision(v, s, n);
        SpokeSaysStage(v, s, n);
      }
    }
  }

  predicate GoodResult(v: View, s: Status, n: Status) {
    && v.k.job.Looked? && OwnedJob(v.k.job.what) && v.k.job.what.uid == s.isoJobUID == n.isoJobUID != NONE
    && v.k.job.what.hash == s.isoJobSpecHash && v.k.job.what.succeeded && v.out.resultValid && v.out.resultReady
    && n.isoURL == v.out.isoURL && n.isoDigest == v.out.isoDigest
  }

  predicate GoodImage(v: View, n: Status) {
    v.k.generator == Looked(Generator(true, true, false, Success)) && n.seedImage == v.cfg.seedImage != NONE
  }

  lemma JudgeCompletes(v: View, job: Job, s: Status, n: Status)
    requires Live(s) && job.Job? && Judged(v, job, s, n) && IsCompleted(n.cond)
    ensures job.succeeded && v.out.resultValid && v.out.resultReady && n == Recorded(v.out, s)
  {
    Endings(n);
    LogEndings(v, n);
    hide Ended, LogsEnded, Says, Recorded;
  }

  lemma ISOCompletes(v: View, s: Status, n: Status)
    requires Live(s) && ISODecision(v, s, n) && IsCompleted(n.cond)
    ensures
      && v.k.job.Looked? && OwnedJob(v.k.job.what) && !JobFault(v.k.job.what, s) && s.isoJobUID != NONE
      && v.k.job.what.succeeded && v.out.resultValid && v.out.resultReady && n == Recorded(v.out, s)
  {
    Endings(n);
    assert Submitted(v, s, n) ==> n.cond == Condition(false, BuildingISO);
    hide Ended, Judged, JobFault, Says, Recorded, Submitted;
    var job := v.k.job.what;
    if s.isoJobSubmitted && job.Job? && s.isoJobUID != NONE && Judged(v, job, s, n) {
      JudgeCompletes(v, job, s, n);
    }
  }

  lemma BuildCompletes(v: View, s: Status, n: Status)
    requires Live(s) && CleanupDecision(v, s, n) && IsCompleted(n.cond)
    ensures GoodResult(v, s, n)
  {
    Endings(n);
    hide Ended, ISODecision;
    ISOCompletes(v, if s.detachedCleanupCompleted then s else s.(detachedCleanupCompleted := true), n);
  }

  lemma SubmissionIsLive(v: View, s: Status, n: Status)
    requires Live(s) && SubmitDecision(v, s, n)
    ensures !IsCompleted(n.cond)
  {
    Endings(n);
    hide Ended;
  }

  lemma ObservedCompletes(cfg: Config, result: LcaResult, s: Status, n: Status)
    requires Live(s) && Observed(cfg, result, s, n) && IsCompleted(n.cond)
    ensures result.Success? && !cfg.hasISO && n.seedImage == cfg.seedImage
  {
    Endings(n);
    assert n == Accepted(cfg, s) ==> n.seedImage == cfg.seedImage;
    hide Ended, Says, Accepted;
  }

  lemma GeneratorCompletes(v: View, s: Status, n: Status)
    requires Live(s) && GeneratorDecision(v, s, n) && IsCompleted(n.cond)
    ensures !v.cfg.hasISO && GoodImage(v, n)
  {
    Endings(n);
    hide Ended, Says, Observed, SubmitDecision;
    assert v.k.generator.Looked?;
    var g := v.k.generator.what;
    if g.NoGenerator? {
      if !s.seedGeneratorSubmitted {
        SubmissionIsLive(v, s, n);
      }
    } else {
      ObservedCompletes(v.cfg, g.result, s, n);
    }
  }

  lemma SeedCompletes(v: View, s: Status, n: Status)
    requires Live(s) && AgentsDecision(v, s, n) && IsCompleted(n.cond)
    ensures !v.cfg.hasISO && GoodImage(v, n)
  {
    Endings(n);
    hide Ended, GeneratorDecision, GoodImage;
    GeneratorCompletes(v, if s.agentDetachmentCompleted then s else AgentsDetached(s), n);
  }

  /** A run is completed only on a good end: the pinned Job of the run succeeded and its
      verified result is recorded or, without an ISO, LCA succeeded with the configured image. */
  lemma CompletedMeans(v: View, s: Status, n: Status)
    requires Started(s) && Live(s) && Ordered(v.cfg, s) && Decision(v, s, n) && IsCompleted(n.cond)
    ensures if v.cfg.hasISO then GoodResult(v, s, n) else GoodImage(v, n)
  {
    Endings(n);
    LogEndings(v, n);
    hide Ended, LogsEnded, CleanupDecision, AgentsDecision, GoodResult, GoodImage;
    assert StageDecision(v, s, n) && s.detachmentStarted && DetachedDecision(v, s, n);
    if s.seedGeneratorFinished {
      BuildCompletes(v, s, n);
    } else {
      SeedCompletes(v, s, n);
    }
  }

  // ---------------------------------------------------------------- a run completes

  /** How far a live run has come. */
  function Stage(s: Status): nat {
    if IsCompleted(s.cond) then 10
    else if s.isoJobUID != NONE then 9
    else if s.isoJobSubmitted then 8
    else if s.detachedCleanupCompleted then 7
    else if s.seedGeneratorFinished then 6
    else if s.seedGeneratorSubmitted then 5
    else if s.agentDetachmentCompleted then 4
    else if s.detachmentStarted then 3
    else if s.cond == Condition(false, InProgress) then 2
    else if s.releaseImageDigest != NONE then 1
    else 0
  }

  /** The checkpoints of a live run were reached in order. */
  predicate Ordered(cfg: Config, s: Status) {
    && (s.isoJobUID != NONE ==> s.isoJobSubmitted)
    && (s.isoJobSubmitted ==> s.detachedCleanupCompleted && s.isoJobSubmittedAt.Some?)
    && (s.detachedCleanupCompleted ==> s.seedGeneratorFinished)
    && (s.seedGeneratorFinished ==> s.seedGeneratorSubmitted && cfg.hasISO)
    && (s.seedGeneratorSubmitted ==> s.agentDetachmentCompleted)
    && (s.agentDetachmentCompleted ==> s.detachmentStarted)
    && (!s.detachmentStarted ==> s.cond == Condition(false, Validating) || s.cond == Condition(false, InProgress))
  }

  /** The reconcile sees what the run waits for at this point. */
  predicate GeneratorReady(v: View, s: Status) {
    if s.seedGeneratorSubmitted then v.k.generator == Looked(Generator(true, true, false, Success)) && !ImageFault(v.cfg, s)
    else v.k.generator == Looked(NoGenerator) && v.k.secret == Looked(SeedSecret(true, true, false))
  }

  predicate ISOReady(v: View, s: Status) {
    && (s.detachedCleanupCompleted || (SawNoOwnedGenerator(v.k) && SawNoOwnedSecret(v.k)))
    && v.out.inputsValid
    && if !s.isoJobSubmitted then v.out.workspaceReady && !BuildFault(v.out)
       else
         && v.k.job.Looked? && OwnedJob(v.k.job.what) && !v.k.job.what.deleting && !JobFault(v.k.job.what, s)
         && v.k.job.what.uid != NONE
         && (s.isoJobUID != NONE ==>
               v.k.job.what.succeeded && v.out.resultValid && v.out.resultReady && !ResultFault(v.out, s))
  }

  predicate PreflightReady(v: View, s: Status) {
    v.out.snapshotReady && !PreflightFault(v, s) && (v.cfg.hasISO ==> v.out.toolsReady)
  }

  /** In time, no fault, and what the run waits for is there. */
  predicate Helpful(v: View, s: Status)
    requires s.startedAt.Some? && s.cond.Condition?
  {
    && v.until < Deadline(s)
    && if !s.detachmentStarted && s.cond.reason.Validating? then PreflightReady(v, s)
       else
         && !FrozenFault(v.cfg, s) && v.out.preflightPodsGone && PinsSet(s)
         && (s.detachmentStarted ==>
               && !SpokeFault(v.reach, s) && !Blank(v.cfg.seedImage)
               && if s.seedGeneratorFinished then ISOReady(v, s)
                  else (s.agentDetachmentCompleted || v.k.agentsGone) && GeneratorReady(v, s))
  }

  /** The run goes on, or is complete, within the same time. */
  predicate GoesOn(cfg: Config, s: Status, n: Status) {
    && Stage(n) > Stage(s) && n.startedAt == s.startedAt && n.timeoutSeconds == s.timeoutSeconds
    && (IsCompleted(n.cond) || (Live(n) && Ordered(cfg, n)))
  }

  lemma PreflightGoesOn(v: View, s: Status, n: Status)
    requires Live(s) && Ordered(v.cfg, s) && !s.detachmentStarted && s.cond.reason.Validating?
    requires PreflightReady(v, s) && PreflightDecision(v, s, n)
    ensures GoesOn(v.cfg, s, n)
  {
    hide Ended;
    assert IdentityFault(v.reach, v.out, Frozen(v.out, s)) == IdentityFault(v.reach, v.out, s);
    var t := Pinned(v.reach, v.out, Frozen(v.out, s));
    assert Stage(t) == Stage(s) && Ordered(v.cfg, t) && Live(t);
    if v.cfg.hasISO && s.releaseImageDigest == NONE {
      assert n == t.(releaseImageDigest := v.out.digest);
    } else {
      assert n == Says(t, InProgress);
    }
  }

  lemma GeneratorGoesOn(v: View, s: Status, n: Status)
    requires Live(s) && Ordered(v.cfg, s) && s.detachmentStarted && s.agentDetachmentCompleted && !s.seedGeneratorFinished
    requires !SpokeFault(v.reach, s) && !Blank(v.cfg.seedImage) && GeneratorReady(v, s) && GeneratorDecision(v, s, n)
    ensures GoesOn(v.cfg, s, n)
  {
    hide Ended;
    if s.seedGeneratorSubmitted {
      assert Observed(v.cfg, Success, s, n);
    } else {
      assert n == s.(seedGeneratorSubmitted := true, cond := Condition(false, InProgress));
    }
  }

  lemma AgentsGoOn(v: View, s: Status, n: Status)
    requires Live(s) && Ordered(v.cfg, s) && s.detachmentStarted && !s.seedGeneratorFinished
    requires !SpokeFault(v.reach, s) && !Blank(v.cfg.seedImage) && (s.agentDetachmentCompleted || v.k.agentsGone)
    requires GeneratorReady(v, s) && AgentsDecision(v, s, n)
    ensures GoesOn(v.cfg, s, n)
  {
    hide Ended, GeneratorDecision;
    if s.agentDetachmentCompleted {
      GeneratorGoesOn(v, s, n);
    } else {
      GeneratorGoesOn(v, AgentsDetached(s), n);
    }
  }

  lemma ISOGoesOn(v: View, s: Status, n: Status)
    requires Live(s) && Ordered(v.cfg, s) && s.detachedCleanupCompleted && v.until < Deadline(s)
    requires ISOReady(v, s) && ISODecision(v, s, n)
    ensures GoesOn(v.cfg, s, n)
  {
    hide Ended;
    if !s.isoJobSubmitted {
      assert Submitted(v, s, n);
    } else {
      assert JobDecision(v, v.k.job.what, s, n);
    }
  }

  lemma CleanupGoesOn(v: View, s: Status, n: Status)
    requires Live(s) && Ordered(v.cfg, s) && s.seedGeneratorFinished && v.until < Deadline(s) && !SpokeFault(v.reach, s)
    requires ISOReady(v, s) && CleanupDecision(v, s, n)
    ensures GoesOn(v.cfg, s, n)
  {
    hide Ended, ISODecision;
    var t := s.(detachedCleanupCompleted := true);
    if s.detachedCleanupCompleted {
      ISOGoesOn(v, s, n);
    } else {
      ISOGoesOn(v, t, n);
    }
  }

  /** Every helpful reconcile brings the run to a later checkpoint. */
  lemma HelpfulGoesOn(v: View, s: Status, n: Status)
    requires Started(s) && Live(s) && Ordered(v.cfg, s) && Helpful(v, s) && Decision(v, s, n)
    ensures GoesOn(v.cfg, s, n)
  {
    hide Ended, PreflightDecision, CleanupDecision, AgentsDecision, PreflightReady, ISOReady, GeneratorReady;
    assert v.since < Deadline(s) && StageDecision(v, s, n);
    if !s.detachmentStarted && s.cond.reason.Validating? {
      PreflightGoesOn(v, s, n);
    } else if !s.detachmentStarted {
      assert n == s.(detachmentStarted := true, cond := Condition(false, CleaningACMResources));
    } else if s.seedGeneratorFinished {
      CleanupGoesOn(v, s, n);
    } else {
      AgentsGoOn(v, s, n);
    }
  }

  /** A history of reconciles: each is a decision on a live run, and a run that has ended stays. */
  predicate Reconciles(vs: seq<View>, ss: seq<Status>) {
    && |ss| == |vs| + 1
    && forall i :: 0 <= i < |vs| ==> ReconcileAt(vs[i], ss[i], ss[i + 1])
  }

  predicate ReconcileAt(v: View, s: Status, n: Status) {
    if IsCompleted(s.cond) then n == s else Started(s) && Live(s) && Helpful(v, s) && Decision(v, s, n)
  }

  /** Ten helpful reconciles complete a run from anywhere, with or without an ISO. */
  lemma {:induction false} HelpfulRunCompletes(cfg: Config, vs: seq<View>, ss: seq<Status>)
    requires Reconciles(vs, ss) && Ordered(cfg, ss[0]) && forall i :: 0 <= i < |vs| ==> vs[i].cfg == cfg
    requires |vs| >= 10 - Stage(ss[0]) && (IsCompleted(ss[0].cond) || Live(ss[0]))
    ensures IsCompleted(ss[|vs|].cond)
    decreases |vs|
  {
    if |vs| > 0 {
      var s, n := ss[0], ss[1];
      assert ReconcileAt(vs[0], ss[0], ss[0 + 1]);
      hide Decision, Helpful;
      if !IsCompleted(s.cond) {
        HelpfulGoesOn(vs[0], s, n);
      }
      if IsCompleted(n.cond) {
        CompletedStays(vs[1..], ss[1..]);
      } else {
        assert forall i :: 0 <= i < |vs| - 1 ==> vs[1..][i] == vs[i + 1] && ss[1..][i] == ss[i + 1];
        HelpfulRunCompletes(cfg, vs[1..], ss[1..]);
      }
    }
  }

  lemma {:induction false} CompletedStays(vs: seq<View>, ss: seq<Status>)
    requires Reconciles(vs, ss) && IsCompleted(ss[0].cond)
    ensures IsCompleted(ss[|vs|].cond)
    decreases |vs|
  {
    hide Decision, Helpful;
    if |vs| > 0 {
      assert ReconcileAt(vs[0], ss[0], ss[0 + 1]);
      CompletedStays(vs[1..], ss[1..]);
    }
  }

  // ---------------------------------------------------------------- reachable states

  lemma LiveIsOrdered(w: World)
    requires Inv(w) && Live(w.stored)
    ensures Started(w.stored) && Ordered(w.cfg, w.stored)
    ensures w.stored.detachmentStarted ==> PinsSet(w.stored) && !FrozenFault(w.cfg, w.stored)
    ensures w.stored.seedGeneratorFinished ==> w.stored.seedImage == w.cfg.seedImage
  {
  }

  /** In every state that a run can reach, whatever happened before, a helpful reconcile brings
      it to a later checkpoint. */
  lemma ReachableGoesOn(h: seq<Entry>, v: View, n: Status)
    requires IsRun(h) && Live(Last(h).stored) && v.cfg == Last(h).cfg
    requires Helpful(v, Last(h).stored) && Started(Last(h).stored) && Decision(v, Last(h).stored, n)
    ensures GoesOn(v.cfg, Last(h).stored, n)
  {
    hide Inv, Decision, Helpful;
    RunInv(h);
    LiveIsOrdered(Last(h));
    HelpfulGoesOn(v, Last(h).stored, n);
  }

  /** Identities that preflight has recorded, or could record. */
  predicate Identifiable(s: Status) {
    s.clusterID != NONE ==> PinsSet(s)
  }

  function Help(cfg: Config, s: Status, now: int): View {
    var job := Job(if s.isoJobUID == NONE then 1 else s.isoJobUID, s.isoJobSpecHash, 1, true, false, true, false);
    var out := Outside(
      true, s.snapshotUIDs, if s.clusterID == NONE then 1 else s.managedClusterUID,
      if s.clusterID == NONE then 1 else s.klusterletUID, true, 1, true, true, true, true, true, 1, false, true, true,
      s.isoURL, s.isoDigest, false, false, false, true, true, true);
    var k := Fresh(s).(
      agentsGone := true, job := Looked(job),
      generator := Looked(if s.seedGeneratorFinished || !s.seedGeneratorSubmitted then NoGenerator else Generator(true, true, false, Success)),
      secret := Looked(if s.seedGeneratorFinished then NoSecret else SeedSecret(true, true, false)));
    View(cfg, if s.clusterID == NONE then 1 else s.clusterID, out, k, now, now)
  }

  /** Such a reconcile is possible in time, from every live state in which the pins are whole
      and what must have been frozen is. */
  lemma HelpIsPossible(h: seq<Entry>, now: int)
    requires IsRun(h) && Live(Last(h).stored) && !Blank(Last(h).cfg.seedImage)
    requires var s := Last(h).stored; now < Deadline(s) && Identifiable(s) && !ImageFault(Last(h).cfg, s)
    requires var s := Last(h).stored;
      s.cond.reason.Validating? || (PinsSet(s) && !FrozenFault(Last(h).cfg, s))
    ensures Helpful(Help(Last(h).cfg, Last(h).stored, now), Last(h).stored)
  {
    RunInv(h);
    LiveIsOrdered(Last(h));
  }
}
