/** The inductive invariant of the seed-generation protocol. */
module SeedInvariant {
  import opened Wrappers
  import opened SeedStatus
  import opened SeedProtocol

  /** Order of the checkpoints, and what a run that is not over always has. */
  predicate StatusInv(cfg: Config, s: Status, now: int) {
    var live := !Terminal(s.cond);
    && WellFormed(s.cond)
    && (s.cond.NoCondition? ==> s == Initial)
    && (s.startedAt.None? ==> s == Initial.(cond := s.cond) && (s.cond.Condition? ==> Terminal(s.cond)))
    && (s.startedAt.Some? ==> s.startedAt.value <= now && s.timeoutSeconds >= 1)
    && (s.clusterID == NONE || PinsSet(s))
    && (s.detachmentStarted ==> PinsSet(s) && s.snapshotUIDs != NONE && (cfg.hasISO ==> s.releaseImageDigest != NONE))
    && (s.agentDetachmentCompleted ==> s.detachmentStarted)
    && (s.seedGeneratorSubmitted ==> s.agentDetachmentCompleted)
    && (s.detachedCleanupCompleted ==> s.detachmentStarted)
    && (s.isoJobSubmitted ==>
          s.seedGeneratorFinished && s.detachedCleanupCompleted && cfg.hasISO &&
          s.isoJobSpecHash != NONE && s.isoJobSubmittedAt.Some?)
    && (!s.isoJobSubmitted ==>
          s.isoJobSpecHash == NONE && s.isoJobSubmittedAt.None? && s.isoJobUID == NONE)
    && (s.isoUploadCleanupDeadline.Some? || s.isoUploadCleanupCompleted ==> s.isoJobSubmitted && !live)
    && (live && s.startedAt.Some? && !s.detachmentStarted ==> s.cond.reason.Validating? || s.cond.reason.InProgress?)
    && (live && s.seedGeneratorFinished ==> cfg.hasISO && s.seedImage == cfg.seedImage && !Blank(cfg.seedImage))
    && (live && s.detachedCleanupCompleted ==> s.seedGeneratorFinished)
  }

  /** The one-shot guard of the SeedGenerator against what really happened on the spoke. */
  predicate GeneratorInv(w: World) {
    var s, k := w.stored, w.know;
    && w.generatorCreates <= 1
    && (w.generatorCreates == 1 ==> s.seedGeneratorSubmitted)
    && (k.armedGenerator ==>
          s.seedGeneratorSubmitted && w.generatorCreates == 0 && !Terminal(s.cond) && !s.detachedCleanupCompleted)
    && (k.rejectedGenerator ==> w.generatorCreates == 0 && !w.underway)
    && (k.armedGenerator ==> !w.underway)
    && (w.underway ==> s.seedGeneratorSubmitted && w.generatorCreates == 0)
    && (!w.spoke.lca.Waiting? || OwnedGenerator(w.spoke.generator) ==> w.generatorCreates == 1)
    && (k.generator.Looked? && OwnedGenerator(k.generator.what) ==> w.generatorCreates == 1)
    && (OwnedGenerator(w.spoke.generator) && !w.spoke.generator.result.Unfinished? ==> w.spoke.lca.Finished?)
    && (SawFinished(k) ==> w.spoke.lca.Finished?)
    && (s.seedGeneratorFinished ==> w.spoke.lca.Finished?)
  }

  /** The LCA run is over or never began, as far as the status tells. */
  predicate Settled(s: Status) {
    s.seedGeneratorFinished || !s.seedGeneratorSubmitted
  }

  /** Absence of the SeedGenerator, once seen by a reconcile or recorded, is still the truth. */
  predicate CleanupInv(w: World) {
    var s, k := w.stored, w.know;
    && (SawNoOwnedGenerator(k) && s.seedGeneratorFinished ==> !OwnedGenerator(w.spoke.generator))
    && (s.detachedCleanupCompleted && Settled(s) ==> !OwnedGenerator(w.spoke.generator))
  }

  /** A Job with the fingerprint of the persisted intent and a deadline within policy. */
  predicate AsSubmitted(job: Job, s: Status)
    requires job.Job?
  {
    job.uid != NONE && job.hash == s.isoJobSpecHash && DeadlinePolicy(job.activeDeadline, s.timeoutSeconds)
  }

  /** The one-shot guard of the ISO Job against what really happened on the hub. */
  predicate JobInv(w: World) {
    var s, k := w.stored, w.know;
    && w.jobCreates <= 1
    && (w.jobCreates == 1 ==> s.isoJobSubmitted)
    && (k.armedJob ==> s.isoJobSubmitted && w.jobCreates == 0 && w.underwayJob.NoJob? && !Terminal(s.cond))
    && (k.rejectedJob ==> w.jobCreates == 0 && w.underwayJob.NoJob?)
    && (w.underwayJob.Job? ==>
          s.isoJobSubmitted && w.jobCreates == 0 && w.underwayJob.owned && AsSubmitted(w.underwayJob, s))
    && (OwnedJob(w.hub.job) || w.hub.pods > 0 || s.isoJobUID != NONE || k.createdUID != NONE ==> w.jobCreates == 1)
    && (OwnedJob(w.hub.job) ==> AsSubmitted(w.hub.job, s))
    && (k.job.Looked? && OwnedJob(k.job.what) ==> w.jobCreates == 1 && AsSubmitted(k.job.what, s))
    && (k.jobsGone ==> k.jobAbsent)
    && (k.read.isoJobUID != NONE ==> w.jobCreates == 1)
    && (k.jobAbsent && k.read.isoJobUID != NONE ==> !OwnedJob(w.hub.job))
    && (k.jobsGone && k.read.isoJobUID != NONE ==> w.hub.pods == 0)
    && (k.verified ==> w.reach == s.clusterID && s.clusterID != NONE)
  }

  predicate Inv(w: World) {
    StatusInv(w.cfg, w.stored, w.now) && GeneratorInv(w) && CleanupInv(w) && JobInv(w)
  }

  lemma WriteKeepsStatusInv(w: World, n: Status)
    requires Inv(w) && WriteOk(w, n)
    ensures StatusInv(w.cfg, n, w.now)
  {
  }

  lemma WriteKeepsInv(w: World, n: Status, acked: bool)
    requires Inv(w) && WriteOk(w, n)
    ensures Inv(w.(stored := n, know := AfterWrite(w, n, acked)))
  {
    WriteKeepsStatusInv(w, n);
  }

  lemma LandingKeepsInv(w: World, e: Event, w': World)
    requires Inv(w) && SpokeChange(w, e, w') && (e.GeneratorLands? || e.SecretLands?)
    ensures Inv(w')
  {
  }

  lemma SpokeChangeKeepsInv(w: World, e: Event, w': World)
    requires Inv(w) && SpokeChange(w, e, w')
    ensures Inv(w')
  {
    hide Landed, SecretLanded;
    if e.GeneratorLands? || e.SecretLands? {
      LandingKeepsInv(w, e, w');
    }
  }

  lemma JobLandingKeepsInv(w: World, w': World)
    requires Inv(w) && HubChange(w, JobLands, w')
    ensures Inv(w')
  {
  }

  lemma HubChangeKeepsInv(w: World, e: Event, w': World)
    requires Inv(w) && HubChange(w, e, w')
    ensures Inv(w')
  {
    hide JobLanded;
    if e.JobLands? {
      JobLandingKeepsInv(w, w');
    }
  }

  lemma EnvironmentKeepsInv(w: World, e: Event, w': World)
    requires Inv(w) && EnvironmentStep(w, e, w')
    ensures Inv(w')
  {
    hide Inv, HubChange, SpokeChange;
    if OnHub(e) {
      HubChangeKeepsInv(w, e, w');
    } else {
      SpokeChangeKeepsInv(w, e, w');
    }
  }

  lemma StatusStepKeepsInv(w: World, e: Event, w': World)
    requires Inv(w) && StatusStep(w, e, w')
    ensures Inv(w')
  {
    if e.WriteStatus? && e.applied {
      WriteKeepsInv(w, e.status, e.acked);
    }
  }

  lemma CreateSecretKeepsInv(w: World, response: Response, effective: bool)
    requires Inv(w)
    ensures Inv(SecretAnswered(w, response, effective))
  {
  }

  lemma CreateGeneratorKeepsInv(w: World, e: Event, w': World)
    requires Inv(w) && SpokeStep(w, e, w') && e.CreateGenerator?
    ensures Inv(w')
  {
    hide SecretAnswered;
  }

  lemma SpokeStepKeepsInv(w: World, e: Event, w': World)
    requires Inv(w) && SpokeStep(w, e, w')
    ensures Inv(w')
  {
    hide SecretAnswered, GeneratorAnswered;
    if e.CreateSecret? {
      CreateSecretKeepsInv(w, e.response, e.effective);
    } else if e.CreateGenerator? {
      CreateGeneratorKeepsInv(w, e, w');
    }
  }

  lemma CreateJobKeepsInv(w: World, e: Event, w': World)
    requires Inv(w) && JobStep(w, e, w') && e.CreateJob?
    ensures Inv(w')
  {
  }

  lemma JobStepKeepsInv(w: World, e: Event, w': World)
    requires Inv(w) && JobStep(w, e, w')
    ensures Inv(w')
  {
    hide JobAnswered;
    if e.CreateJob? {
      CreateJobKeepsInv(w, e, w');
    }
  }

  lemma StepKeepsInv(w: World, e: Event, w': World)
    requires Inv(w) && Step(w, e, w')
    ensures Inv(w')
  {
    hide Inv, StatusStep, SpokeStep, JobStep, EnvironmentStep;
    if AboutStatus(e) {
      StatusStepKeepsInv(w, e, w');
    } else if AboutSpoke(e) {
      SpokeStepKeepsInv(w, e, w');
    } else if AboutJob(e) {
      JobStepKeepsInv(w, e, w');
    } else {
      EnvironmentKeepsInv(w, e, w');
    }
  }

  lemma InitHasInv(w: World)
    requires Init(w)
    ensures Inv(w)
  {
  }

  lemma {:induction false} RunInvAt(h: seq<Entry>, i: nat)
    requires IsRun(h) && i < |h|
    ensures Inv(h[i].world)
  {
    hide Inv, Step, Init;
    if i == 0 {
      InitHasInv(h[0].world);
    } else {
      RunInvAt(h, i - 1);
      assert StepAt(h, i);
      StepKeepsInv(h[i - 1].world, h[i].event, h[i].world);
    }
  }

  lemma RunInv(h: seq<Entry>)
    requires IsRun(h)
    ensures Inv(Last(h))
  {
    RunInvAt(h, |h| - 1);
  }
}
