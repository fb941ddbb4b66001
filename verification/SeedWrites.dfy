/** Why each status write of the controller keeps the write discipline, one lemma per kind
    of write. */
module SeedWrites {
  import opened Wrappers
  import opened SeedStatus
  import opened SeedProtocol
  import opened SeedInvariant

  predicate FailureReason(r: Reason) {
    r.Failed? || r.TimedOut? || r.PreconditionChecksFailed?
  }

  function Failing(m: Status, r: Reason): Status {
    m.(cond := Condition(false, r))
  }

  /** The run may be failed, for any reason, from memory `m`. */
  predicate Failable(w: World, m: Status) {
    WriteOk(w, Failing(m, Failed)) && WriteOk(w, Failing(m, TimedOut)) && WriteOk(w, Failing(m, PreconditionChecksFailed))
  }

  predicate Live(s: Status) {
    s.startedAt.Some? && s.cond.Condition? && !Terminal(s.cond)
  }

  /** Memory `m` sets no guard that the stored status does not have. */
  predicate NoNewIntent(s: Status, m: Status) {
    (m.seedGeneratorSubmitted ==> s.seedGeneratorSubmitted) && (m.isoJobSubmitted ==> s.isoJobSubmitted)
  }

  lemma LiveIsFailable(w: World)
    requires Inv(w) && Live(w.stored)
    ensures Failable(w, w.stored)
  {
  }

  lemma UnstartedIsFailable(w: World)
    requires Inv(w) && w.stored.cond.NoCondition?
    ensures WriteOk(w, Failing(w.stored, PreconditionChecksFailed))
  {
  }

  /** A write changes nothing of what the reconcile has seen. */
  predicate SameSights(k: Knowledge, n: Knowledge) {
    && n.read == k.read && n.verified == k.verified && n.agentsGone == k.agentsGone
    && n.generator == k.generator && n.secret == k.secret && n.rejectedGenerator == k.rejectedGenerator
    && n.job == k.job && n.jobAbsent == k.jobAbsent && n.jobsGone == k.jobsGone
    && n.workspaceGone == k.workspaceGone && n.snapshotGone == k.snapshotGone
    && n.rejectedJob == k.rejectedJob && n.createdUID == k.createdUID
  }

  /** A write depends only on what the controller read and has seen. */
  lemma WriteOkStays(v: World, w: World, n: Status)
    requires WriteOk(v, n) && v.cfg == w.cfg && v.stored == w.stored && v.reach == w.reach
    requires SameSights(v.know, w.know) && v.now <= w.now
    ensures WriteOk(w, n)
  {
  }

  lemma UnwrittenIsFailable(w: World, m: Status)
    requires Inv(w) && WriteOk(w, m) && Live(m) && Live(w.stored) && NoNewIntent(w.stored, m)
    ensures Failable(w, m)
  {
  }

  lemma AfterWriteSeesTheSame(w: World, m: Status)
    ensures SameSights(w.know, AfterWrite(w, m, false))
  {
  }

  /** After a write that reported failure the memory may already be stored or not. Failing
      the run from it is right in both cases. */
  lemma FailedWriteIsFailable(w: World, m: Status, v: World)
    requires Inv(w) && WriteOk(w, m) && Live(m) && Live(w.stored) && NoNewIntent(w.stored, m)
    requires Inv(v) && v.cfg == w.cfg && v.reach == w.reach && w.now <= v.now
    requires v.stored == w.stored || v.stored == m
    requires v.know == AfterWrite(w, m, false)
    ensures Failable(v, m)
  {
    hide WriteOk, Inv, AfterWrite, SameSights;
    if v.stored == m {
      LiveIsFailable(v);
    } else {
      AfterWriteSeesTheSame(w, m);
      UnwrittenIsFailable(w, m);
      WriteOkStays(w, v, Failing(m, Failed));
      WriteOkStays(w, v, Failing(m, TimedOut));
      WriteOkStays(w, v, Failing(m, PreconditionChecksFailed));
    }
  }

  predicate ProgressReason(s: Status, r: Reason) {
    r.InProgress? || (s.detachmentStarted && (r.CleaningACMResources? || r.BuildingISO?))
  }

  lemma ProgressOk(w: World, r: Reason)
    requires Inv(w) && Live(w.stored) && ProgressReason(w.stored, r)
    ensures WriteOk(w, w.stored.(cond := Condition(false, r)))
  {
  }

  lemma StartOk(w: World, startedAt: int, timeoutSeconds: int)
    requires Inv(w) && w.stored.cond.NoCondition? && startedAt <= w.now && timeoutSeconds >= 1
    ensures WriteOk(w, w.stored.(startedAt := Some(startedAt), timeoutSeconds := timeoutSeconds,
                                 cond := Condition(false, Validating)))
  {
  }

  lemma PreflightOk(w: World, n: Status)
    requires Inv(w) && Live(w.stored) && !w.stored.detachmentStarted
    requires n == w.stored.(clusterID := n.clusterID, managedClusterUID := n.managedClusterUID,
                            klusterletUID := n.klusterletUID, snapshotUIDs := n.snapshotUIDs,
                            releaseImageDigest := n.releaseImageDigest)
    requires SamePins(w.stored, n) || (w.stored.clusterID == NONE && PinsSet(n) && n.clusterID == w.reach)
    requires n.snapshotUIDs == w.stored.snapshotUIDs || (w.stored.snapshotUIDs == NONE && n.snapshotUIDs != NONE)
    requires n.releaseImageDigest == w.stored.releaseImageDigest ||
             (w.stored.releaseImageDigest == NONE && n.releaseImageDigest != NONE)
    ensures WriteOk(w, n)
  {
  }

  lemma DetachOk(w: World)
    requires Inv(w) && Live(w.stored) && !w.stored.detachmentStarted && w.stored.cond.reason.InProgress?
    requires PinsSet(w.stored) && w.stored.snapshotUIDs != NONE && (w.cfg.hasISO ==> w.stored.releaseImageDigest != NONE)
    ensures WriteOk(w, w.stored.(detachmentStarted := true, cond := Condition(false, CleaningACMResources)))
  {
  }

  lemma DetachedOk(w: World)
    requires Inv(w) && Live(w.stored) && w.stored.detachmentStarted && w.know.agentsGone
    ensures WriteOk(w, w.stored.(agentDetachmentCompleted := true, cond := Condition(false, InProgress)))
  {
  }

  lemma SubmitOk(w: World)
    requires Inv(w) && Live(w.stored) && w.stored.agentDetachmentCompleted && !w.stored.seedGeneratorSubmitted
    ensures !w.stored.detachedCleanupCompleted
    ensures WriteOk(w, w.stored.(seedGeneratorSubmitted := true, cond := Condition(false, InProgress)))
  {
  }

  lemma UnsubmitOk(w: World)
    requires Inv(w) && Live(w.stored) && w.stored.seedGeneratorSubmitted && w.know.rejectedGenerator
    ensures WriteOk(w, w.stored.(seedGeneratorSubmitted := false, cond := Condition(false, InProgress)))
    ensures Failable(w, w.stored.(seedGeneratorSubmitted := false))
  {
  }

  lemma LcaFailedOk(w: World)
    requires Inv(w) && Live(w.stored) && SawFinished(w.know) && w.know.secret.NotLooked?
    ensures Failable(w, w.stored.(seedGeneratorFinished := true))
  {
  }

  lemma SeedImageOk(w: World)
    requires Inv(w) && Live(w.stored) && SawSuccess(w.know) && w.know.secret.NotLooked? && !Blank(w.cfg.seedImage)
    ensures var n := w.stored.(seedGeneratorFinished := true, seedImage := w.cfg.seedImage);
      WriteOk(w, n.(cond := if w.cfg.hasISO then Condition(false, BuildingISO) else Condition(true, Completed)))
  {
    assert w.stored.detachmentStarted;
  }

  lemma LcaEndedOk(w: World)
    requires Inv(w) && Terminal(w.stored.cond) && SawFinished(w.know) && w.know.secret.NotLooked?
    requires !w.stored.detachedCleanupCompleted
    ensures WriteOk(w, w.stored.(seedGeneratorFinished := true))
  {
  }

  lemma CleanedOk(w: World)
    requires Inv(w) && w.stored.detachmentStarted && SawNoOwnedGenerator(w.know) && SawNoOwnedSecret(w.know)
    requires LcaSettled(w) && (Terminal(w.stored.cond) || (Live(w.stored) && w.stored.seedGeneratorFinished))
    ensures WriteOk(w, w.stored.(detachedCleanupCompleted := true))
  {
  }

  lemma JobIntentOk(w: World, submittedAt: int, hash: Name)
    requires Inv(w) && Live(w.stored) && !w.stored.isoJobSubmitted && hash != NONE
    requires w.stored.seedGeneratorFinished && w.stored.detachedCleanupCompleted
    ensures WriteOk(w, w.stored.(isoJobSubmitted := true, isoJobSubmittedAt := Some(submittedAt),
                                 isoJobSpecHash := hash, cond := Condition(false, BuildingISO)))
  {
  }

  lemma JobUnintentOk(w: World)
    requires Inv(w) && Live(w.stored) && w.stored.isoJobSubmitted && w.know.rejectedJob
    ensures WriteOk(w, w.stored.(isoJobSubmitted := false, isoJobSubmittedAt := None, isoJobSpecHash := NONE,
                                 cond := Condition(false, BuildingISO)))
  {
  }

  lemma JobPinOk(w: World, uid: Name)
    requires Inv(w) && w.stored.cond.Condition? && w.stored.isoJobUID == NONE && uid != NONE
    requires (w.know.job.Looked? && OwnedJob(w.know.job.what) && uid == w.know.job.what.uid) || w.know.createdUID == uid
    ensures WriteOk(w, w.stored.(isoJobUID := uid))
  {
  }

  lemma JobDoneOk(w: World, url: Name, digest: Name)
    requires Inv(w) && Live(w.stored) && w.stored.isoJobSubmitted
    requires Finishes(w, w.stored)
    ensures WriteOk(w, w.stored.(isoURL := url, isoDigest := digest, cond := Condition(true, Completed)))
  {
  }

  lemma DiagnosticsOk(w: World, expireAt: int)
    requires Inv(w) && Live(w.stored) && w.stored.isoJobSubmitted
    ensures Failable(w, w.stored.(diagnosticsExpireAt := Some(expireAt)))
  {
  }

  lemma UploadDeadlineOk(w: World, deadline: int)
    requires Inv(w) && Terminal(w.stored.cond) && w.stored.isoJobSubmitted && w.stored.isoUploadCleanupDeadline.None?
    ensures WriteOk(w, w.stored.(isoUploadCleanupDeadline := Some(deadline)))
  {
  }

  lemma UploadCleanedOk(w: World)
    requires Inv(w) && Terminal(w.stored.cond) && w.stored.isoJobSubmitted && w.know.jobsGone
    ensures WriteOk(w, w.stored.(isoUploadCleanupCompleted := true))
  {
  }
}
