/** What holds over every run of the seed-generation protocol, however reconciles are
    interrupted, status writes fail or lie, responses are lost and LCA acts. */
module SeedTheorems {
  import opened Wrappers
  import opened SeedStatus
  import opened SeedProtocol
  import opened SeedInvariant

  // ---------------------------------------------------------------- what one step may change

  function One(b: bool): nat { if b then 1 else 0 }

  /** A Create of the SeedGenerator takes effect, at once or late. */
  predicate GeneratorAppears(e: Event) {
    (e.CreateGenerator? && e.effective) || e.GeneratorLands?
  }

  predicate JobAppears(e: Event) {
    (e.CreateJob? && e.effective) || e.JobLands?
  }

  /** The fields the history arguments follow, and which events touch them. */
  predicate Frame(w: World, e: Event, w': World) {
    && w'.cfg == w.cfg
    && w'.stored == (if e.WriteStatus? && e.applied then e.status else w.stored)
    && (e.WriteStatus? ==> WriteOk(w, e.status))
    && w'.know.read == (if e.Begin? then w.stored else w.know.read)
    && w'.generatorCreates == w.generatorCreates + One(GeneratorAppears(e))
    && w'.jobCreates == w.jobCreates + One(JobAppears(e))
    && (w'.know.rejectedGenerator ==>
          if e.CreateGenerator? then Disproves(e.response) else w.know.rejectedGenerator && !e.Begin?)
    && (w'.know.rejectedJob ==>
          if e.CreateJob? then Disproves(e.response) else w.know.rejectedJob && !e.Begin?)
  }

  lemma StatusFrame(w: World, e: Event, w': World)
    requires StatusStep(w, e, w')
    ensures Frame(w, e, w')
  {
    hide WriteOk;
  }

  lemma CreateFrame(w: World, response: Response, effective: bool)
    ensures Frame(w, CreateGenerator(response, effective), GeneratorAnswered(w, response, effective))
  {
  }

  lemma SecretFrame(w: World, response: Response, effective: bool)
    ensures Frame(w, CreateSecret(response, effective), SecretAnswered(w, response, effective))
  {
  }

  lemma SpokeFrame(w: World, e: Event, w': World)
    requires SpokeStep(w, e, w')
    ensures Frame(w, e, w')
  {
    hide WriteOk, GeneratorAnswered, SecretAnswered;
    if e.CreateGenerator? {
      CreateFrame(w, e.response, e.effective);
    } else if e.CreateSecret? {
      SecretFrame(w, e.response, e.effective);
    }
  }

  lemma JobFrame(w: World, e: Event, w': World)
    requires JobStep(w, e, w')
    ensures Frame(w, e, w')
  {
    hide WriteOk;
  }

  lemma EnvironmentFrame(w: World, e: Event, w': World)
    requires EnvironmentStep(w, e, w')
    ensures Frame(w, e, w')
  {
    hide WriteOk;
  }

  lemma FrameAt(h: seq<Entry>, i: nat)
    requires IsRun(h) && 0 < i < |h|
    ensures Frame(h[i - 1].world, h[i].event, h[i].world)
  {
    hide StatusStep, SpokeStep, JobStep, EnvironmentStep, Frame;
    var w, e, w' := h[i - 1].world, h[i].event, h[i].world;
    assert StepAt(h, i);
    if AboutStatus(e) {
      StatusFrame(w, e, w');
    } else if AboutSpoke(e) {
      SpokeFrame(w, e, w');
    } else if AboutJob(e) {
      JobFrame(w, e, w');
    } else {
      EnvironmentFrame(w, e, w');
    }
  }

  // ---------------------------------------------------------------- answers that were lost

  /** The answer to the Create of a Secret was lost. */
  predicate LostSecret(e: Event) {
    e.CreateSecret? && e.response.Ambiguous? && !e.effective
  }

  predicate NothingForeign(w: World) {
    !ForeignGenerator(w.spoke.generator) && !SawForeignGenerator(w.know)
  }

  /** The reconcile listed no Job, and yet there is one, or a Pod of one that it did not list. */
  predicate Overlooked(w: World) {
    w.know.jobAbsent && (OwnedJob(w.hub.job) || (w.know.jobsGone && w.hub.pods > 0))
  }

  predicate NoJobComes(w: World) {
    !w.know.armedJob && w.underwayJob.NoJob? && !OwnedJob(w.hub.job)
  }

  /** What a step leaves behind of lost answers, other parties and listed Jobs. */
  predicate Traces(w: World, e: Event, w': World) {
    && w'.underwaySecrets == w.underwaySecrets + One(LostSecret(e)) - One(e.SecretLands?)
    && (e.SecretLands? ==> w.underwaySecrets > 0)
    && (e.CreateSecret? ==> !w.stored.detachedCleanupCompleted)
    && (NothingForeign(w) && !e.OtherCreatesGenerator? ==> NothingForeign(w'))
    && (NoJobComes(w) ==> w'.underwayJob.NoJob? && !OwnedJob(w'.hub.job))
    && (w'.know.jobAbsent ==> e.ListJobs? || (w.know.jobAbsent && !e.Begin?))
    && (Overlooked(w') && (w.know.jobsGone ==> w.know.jobAbsent) ==>
          (e.JobLands? && w.know.jobAbsent) || (Overlooked(w) && !e.Begin?))
  }

  lemma StatusTraces(w: World, e: Event, w': World)
    requires StatusStep(w, e, w')
    ensures Traces(w, e, w')
  {
    hide WriteOk;
  }

  lemma SecretTraces(w: World, response: Response, effective: bool)
    requires CreateAnswer(response, effective) && !w.stored.detachedCleanupCompleted
    ensures Traces(w, CreateSecret(response, effective), SecretAnswered(w, response, effective))
  {
  }

  lemma GeneratorTraces(w: World, response: Response, effective: bool)
    ensures Traces(w, CreateGenerator(response, effective), GeneratorAnswered(w, response, effective))
  {
  }

  lemma SpokeTraces(w: World, e: Event, w': World)
    requires SpokeStep(w, e, w')
    ensures Traces(w, e, w')
  {
    hide SecretAnswered, GeneratorAnswered;
    if e.CreateSecret? {
      SecretTraces(w, e.response, e.effective);
    } else if e.CreateGenerator? {
      GeneratorTraces(w, e.response, e.effective);
    }
  }

  lemma CreateJobTraces(w: World, response: Response, effective: bool, uid: Name, activeDeadline: int)
    requires w.know.armedJob
    ensures Traces(w, CreateJob(response, effective, uid, activeDeadline),
                   JobAnswered(w, response, effective, uid, activeDeadline))
  {
  }

  lemma JobTraces(w: World, e: Event, w': World)
    requires JobStep(w, e, w')
    ensures Traces(w, e, w')
  {
    hide JobAnswered;
    if e.CreateJob? {
      CreateJobTraces(w, e.response, e.effective, e.uid, e.activeDeadline);
    }
  }

  lemma JobLandingTraces(w: World)
    requires w.underwayJob.Job?
    ensures Traces(w, JobLands, JobLanded(w))
  {
  }

  lemma HubTraces(w: World, e: Event, w': World)
    requires HubChange(w, e, w')
    ensures Traces(w, e, w')
  {
    hide JobLanded;
    if e.JobLands? {
      JobLandingTraces(w);
    }
  }

  lemma LandingTraces(w: World)
    ensures Traces(w, GeneratorLands, Landed(w))
    ensures w.underwaySecrets > 0 ==> Traces(w, SecretLands, SecretLanded(w))
  {
  }

  lemma SpokeChangeTraces(w: World, e: Event, w': World)
    requires SpokeChange(w, e, w')
    ensures Traces(w, e, w')
  {
    hide Landed, SecretLanded;
    LandingTraces(w);
  }

  lemma TracesAt(h: seq<Entry>, i: nat)
    requires IsRun(h) && 0 < i < |h|
    ensures Traces(h[i - 1].world, h[i].event, h[i].world)
  {
    hide StatusStep, SpokeStep, JobStep, HubChange, SpokeChange, Traces;
    var w, e, w' := h[i - 1].world, h[i].event, h[i].world;
    assert StepAt(h, i);
    if AboutStatus(e) {
      StatusTraces(w, e, w');
    } else if AboutSpoke(e) {
      SpokeTraces(w, e, w');
    } else if AboutJob(e) {
      JobTraces(w, e, w');
    } else if OnHub(e) {
      HubTraces(w, e, w');
    } else {
      SpokeChangeTraces(w, e, w');
    }
  }

  /** At the beginning nothing was listed, lost or claimed. */
  lemma Beginning(h: seq<Entry>)
    requires IsRun(h)
    ensures !h[0].world.know.jobAbsent && h[0].world.underwaySecrets == 0 && SecretInv(h[0].world)
  {
  }

  // ---------------------------------------------------------------- counting effects

  /** Creates of the SeedGenerator that took effect in the first `n` entries. */
  function GeneratorCreates(h: seq<Entry>, n: nat): nat
    requires n <= |h|
  {
    if n <= 1 then 0
    else GeneratorCreates(h, n - 1) + One(GeneratorAppears(h[n - 1].event))
  }

  function JobCreates(h: seq<Entry>, n: nat): nat
    requires n <= |h|
  {
    if n <= 1 then 0
    else JobCreates(h, n - 1) + One(JobAppears(h[n - 1].event))
  }

  lemma {:induction false} CountsAgree(h: seq<Entry>, n: nat)
    requires IsRun(h) && 0 < n <= |h|
    ensures GeneratorCreates(h, n) == h[n - 1].world.generatorCreates
    ensures JobCreates(h, n) == h[n - 1].world.jobCreates
  {
    if n > 1 {
      CountsAgree(h, n - 1);
      FrameAt(h, n - 1);
    }
  }

  /** The controller's Create of the SeedGenerator takes effect at most once. */
  lemma GeneratorCreatedAtMostOnce(h: seq<Entry>)
    requires IsRun(h)
    ensures GeneratorCreates(h, |h|) <= 1
  {
    CountsAgree(h, |h|);
    RunInv(h);
  }

  /** At most one ISO build Job is ever created. */
  lemma JobCreatedAtMostOnce(h: seq<Entry>)
    requires IsRun(h)
    ensures JobCreates(h, |h|) <= 1
  {
    CountsAgree(h, |h|);
    RunInv(h);
  }

  // ---------------------------------------------------------------- clearing the guards

  /** Entry `j` belongs to the same reconcile as entry `i`. */
  predicate SameReconcile(h: seq<Entry>, j: int, i: int) {
    0 <= j <= i < |h| && forall m :: j < m <= i ==> !h[m].event.Begin?
  }

  /** The Create whose answer the reconcile at entry `i` knows about. */
  lemma {:induction false} RejectedGeneratorCreate(h: seq<Entry>, i: nat) returns (j: nat)
    requires IsRun(h) && i < |h| && h[i].world.know.rejectedGenerator
    ensures SameReconcile(h, j, i) && h[j].event.CreateGenerator? && Disproves(h[j].event.response)
  {
    FrameAt(h, i);
    j := i;
    if !h[i].event.CreateGenerator? {
      j := RejectedGeneratorCreate(h, i - 1);
    }
  }

  lemma {:induction false} RejectedJobCreate(h: seq<Entry>, i: nat) returns (j: nat)
    requires IsRun(h) && i < |h| && h[i].world.know.rejectedJob
    ensures SameReconcile(h, j, i) && h[j].event.CreateJob? && Disproves(h[j].event.response)
  {
    FrameAt(h, i);
    j := i;
    if !h[i].event.CreateJob? {
      j := RejectedJobCreate(h, i - 1);
    }
  }

  /** The persisted guard of the SeedGenerator is cleared only in a reconcile that received
      a response proving that its Create did nothing. */
  lemma GuardClearedOnlyAfterProof(h: seq<Entry>, i: nat) returns (j: nat)
    requires IsRun(h) && 0 < i < |h|
    requires h[i - 1].world.stored.seedGeneratorSubmitted && !h[i].world.stored.seedGeneratorSubmitted
    ensures j < i && SameReconcile(h, j, i) && h[j].event.CreateGenerator? && Disproves(h[j].event.response)
  {
    FrameAt(h, i);
    j := RejectedGeneratorCreate(h, i - 1);
  }

  /** The same for the guard of the ISO Job. */
  lemma JobGuardClearedOnlyAfterProof(h: seq<Entry>, i: nat) returns (j: nat)
    requires IsRun(h) && 0 < i < |h|
    requires h[i - 1].world.stored.isoJobSubmitted && !h[i].world.stored.isoJobSubmitted
    ensures j < i && SameReconcile(h, j, i) && h[j].event.CreateJob? && Disproves(h[j].event.response)
  {
    FrameAt(h, i);
    j := RejectedJobCreate(h, i - 1);
  }

  // ---------------------------------------------------------------- what never changes again

  predicate Later(s: Status, n: Status) {
    && (Terminal(s.cond) ==> n.cond == s.cond && n.isoJobSubmitted == s.isoJobSubmitted)
    && (s.startedAt.Some? ==> n.startedAt == s.startedAt && n.timeoutSeconds == s.timeoutSeconds)
    && (s.clusterID != NONE ==> SamePins(s, n))
    && (s.detachmentStarted ==> n.detachmentStarted && n.snapshotUIDs == s.snapshotUIDs)
    && (s.agentDetachmentCompleted ==> n.agentDetachmentCompleted)
    && (s.seedGeneratorFinished ==> n.seedGeneratorFinished)
    && (s.detachedCleanupCompleted ==> n.detachedCleanupCompleted)
    && (s.isoUploadCleanupCompleted ==> n.isoUploadCleanupCompleted)
    && (s.isoJobUID != NONE ==> n.isoJobUID == s.isoJobUID)
    && (Terminal(s.cond) && !s.detachmentStarted ==> !n.detachmentStarted)
  }

  lemma WriteIsLater(w: World, n: Status)
    requires Inv(w) && WriteOk(w, n)
    ensures Later(w.stored, n)
  {
  }

  lemma LaterAt(h: seq<Entry>, i: nat)
    requires IsRun(h) && 0 < i < |h|
    ensures Later(h[i - 1].world.stored, h[i].world.stored)
  {
    var w, e, w' := h[i - 1].world, h[i].event, h[i].world;
    RunInvAt(h, i - 1);
    FrameAt(h, i);
    if e.WriteStatus? && e.applied {
      WriteIsLater(w, e.status);
    }
  }

  /** Terminal conditions, the start of the run, the identity pins and every checkpoint of
      progress are absorbing: once set they are the same in every later state. */
  lemma {:induction false} ProgressIsKept(h: seq<Entry>, i: nat, j: nat)
    requires IsRun(h) && i <= j < |h|
    ensures Later(h[i].world.stored, h[j].world.stored)
    decreases j
  {
    if i < j {
      ProgressIsKept(h, i, j - 1);
      LaterAt(h, j);
    }
  }

  /** A run is started by at most one status write. */
  lemma StartedAtMostOnce(h: seq<Entry>, i: nat, j: nat)
    requires IsRun(h) && 0 < i < |h| && 0 < j < |h|
    requires h[i - 1].world.stored.startedAt.None? && h[i].world.stored.startedAt.Some?
    requires h[j - 1].world.stored.startedAt.None? && h[j].world.stored.startedAt.Some?
    ensures i == j
  {
    if i < j {
      ProgressIsKept(h, i, j - 1);
    } else if j < i {
      ProgressIsKept(h, j, i - 1);
    }
  }

  // ---------------------------------------------------------------- order of the checkpoints

  /** A checkpoint is never persisted before the one it depends on, and a run that is still
      going after LCA finished always has its seed image and pinned release. */
  lemma CheckpointOrder(h: seq<Entry>, i: nat)
    requires IsRun(h) && i < |h|
    ensures var s := h[i].world.stored;
      && (s.isoJobSubmitted ==> s.seedGeneratorFinished && s.detachedCleanupCompleted)
      && (s.seedGeneratorFinished ==> s.seedGeneratorSubmitted)
      && (s.seedGeneratorSubmitted ==> s.agentDetachmentCompleted)
      && (s.agentDetachmentCompleted ==> s.detachmentStarted)
      && (s.detachmentStarted ==> s.startedAt.Some? && PinsSet(s) && s.snapshotUIDs != NONE)
      && (!Terminal(s.cond) && s.seedGeneratorFinished ==>
            h[i].world.cfg.hasISO && s.seedImage != NONE && s.releaseImageDigest != NONE)
  {
    RunInvAt(h, i);
  }

  // ---------------------------------------------------------------- normal provisioning and detachment

  /** Normal provisioning phases never run again once detachment has started. */
  lemma NoProvisioningAfterDetachment(h: seq<Entry>, i: nat, j: nat)
    requires IsRun(h) && i < j < |h| && h[i].world.stored.detachmentStarted
    ensures !h[j].event.RunProvisioningPhases?
  {
    assert StepAt(h, j);
    ProgressIsKept(h, i, j - 1);
  }

  predicate TouchesSpoke(e: Event) {
    e.MutateSpoke? || e.CreateSecret? || e.CreateGenerator? || e.DeleteGenerator? || e.DeleteSecret?
  }

  /** Nothing is changed for detachment, on either cluster, before the intent and the three
      identity pins are persisted, and every change to the spoke reaches the pinned cluster:
      the one whose ID was pinned, and the same one for the whole run. */
  lemma MutationsFollowIntent(h: seq<Entry>, i: nat, j: nat)
    requires IsRun(h) && 0 < i < |h| && j < |h|
    requires h[i].event.MutateHub? || TouchesSpoke(h[i].event)
    ensures h[i - 1].world.stored.detachmentStarted && PinsSet(h[i - 1].world.stored)
    ensures TouchesSpoke(h[i].event) ==> h[i - 1].world.reach == h[i - 1].world.stored.clusterID
    ensures j >= i - 1 ==> h[j].world.stored.clusterID == h[i - 1].world.stored.clusterID
  {
    assert StepAt(h, i);
    RunInvAt(h, i - 1);
    if j >= i - 1 {
      ProgressIsKept(h, i - 1, j);
    }
  }

  // ---------------------------------------------------------------- LCA is never disturbed

  /** The owned SeedGenerator is deleted only after LCA has finished. */
  lemma GeneratorDeletedOnlyAfterLca(h: seq<Entry>, i: nat)
    requires IsRun(h) && 0 < i < |h| && h[i].event.DeleteGenerator?
    ensures h[i - 1].world.spoke.lca.Finished?
  {
    assert StepAt(h, i);
    RunInvAt(h, i - 1);
  }

  /** The owned seedgen Secret is deleted only after LCA has finished, or before anything was
      submitted or could still land, unless the deleting reconcile saw another party's object on
      the singleton name. */
  lemma SecretDeletedOnlyAfterLca(h: seq<Entry>, i: nat)
    requires IsRun(h) && 0 < i < |h| && h[i].event.DeleteSecret?
    ensures var w := h[i - 1].world;
      || w.spoke.lca.Finished?
      || (!w.stored.seedGeneratorSubmitted && w.generatorCreates == 0 && !w.underway)
      || SawForeignGenerator(w.know)
  {
    assert StepAt(h, i);
    RunInvAt(h, i - 1);
  }

  predicate NobodyElse(h: seq<Entry>, n: nat)
    requires n <= |h|
  {
    forall m :: 0 <= m < n ==> !h[m].event.OtherCreatesGenerator?
  }

  /** Another party's object is seen only if another party created one. */
  lemma {:induction false} ForeignNeedsOthers(h: seq<Entry>, i: nat)
    requires IsRun(h) && i < |h| && NobodyElse(h, i + 1)
    ensures !ForeignGenerator(h[i].world.spoke.generator) && !SawForeignGenerator(h[i].world.know)
  {
    if i > 0 {
      ForeignNeedsOthers(h, i - 1);
      TracesAt(h, i);
    }
  }

  // ---------------------------------------------------------------- the record of spoke cleanup

  /** Absence of the Secret, seen or recorded, is the truth. */
  predicate SecretInv(w: World) {
    var s, k := w.stored, w.know;
    && (SawNoOwnedSecret(k) && (s.seedGeneratorFinished || (w.generatorCreates == 0 && !w.underway)) ==>
          !OwnedSecret(w.spoke.secret))
    && (s.detachedCleanupCompleted && Settled(s) ==> !OwnedSecret(w.spoke.secret))
  }

  lemma WriteKeepsSecretInv(w: World, n: Status, acked: bool)
    requires Inv(w) && SecretInv(w) && WriteOk(w, n)
    ensures SecretInv(w.(stored := n, know := AfterWrite(w, n, acked)))
  {
  }

  lemma StatusStepKeepsSecretInv(w: World, e: Event, w': World)
    requires Inv(w) && SecretInv(w) && StatusStep(w, e, w')
    ensures SecretInv(w')
  {
    if e.WriteStatus? {
      WriteKeepsSecretInv(w, e.status, e.acked);
    }
  }

  lemma CreateSecretKeepsSecretInv(w: World, response: Response, effective: bool)
    requires !w.stored.detachedCleanupCompleted
    ensures SecretInv(SecretAnswered(w, response, effective))
  {
  }

  lemma CreateGeneratorKeepsSecretInv(w: World, e: Event, w': World)
    requires Inv(w) && SecretInv(w) && SpokeStep(w, e, w') && e.CreateGenerator?
    ensures SecretInv(w')
  {
    hide SecretAnswered;
  }

  lemma SpokeStepKeepsSecretInv(w: World, e: Event, w': World)
    requires Inv(w) && SecretInv(w) && SpokeStep(w, e, w')
    ensures SecretInv(w')
  {
    hide SecretAnswered, GeneratorAnswered;
    if e.CreateSecret? {
      CreateSecretKeepsSecretInv(w, e.response, e.effective);
    } else if e.CreateGenerator? {
      CreateGeneratorKeepsSecretInv(w, e, w');
    }
  }

  lemma OtherStepKeepsSecretInv(w: World, e: Event, w': World)
    requires Inv(w) && SecretInv(w) && (JobStep(w, e, w') || HubChange(w, e, w'))
    ensures SecretInv(w')
  {
  }

  lemma SpokeChangeKeepsSecretInv(w: World, e: Event, w': World)
    requires Inv(w) && SecretInv(w) && SpokeChange(w, e, w') && !e.SecretLands?
    ensures SecretInv(w')
  {
  }

  /** Only a Secret whose Create had lost its answer can make it untrue, by landing late. */
  lemma StepKeepsSecretInv(w: World, e: Event, w': World)
    requires Inv(w) && SecretInv(w) && Step(w, e, w') && !e.SecretLands?
    ensures SecretInv(w')
  {
    hide Inv, SecretInv, StatusStep, SpokeStep, JobStep, HubChange, SpokeChange;
    if AboutStatus(e) {
      StatusStepKeepsSecretInv(w, e, w');
    } else if AboutSpoke(e) {
      SpokeStepKeepsSecretInv(w, e, w');
    } else if AboutJob(e) || OnHub(e) {
      OtherStepKeepsSecretInv(w, e, w');
    } else {
      SpokeChangeKeepsSecretInv(w, e, w');
    }
  }

  /** If absence of the Secret is untrue, one landed after it was seen or recorded. */
  lemma {:induction false} SecretLandedLate(h: seq<Entry>, j: nat) returns (l: nat)
    requires IsRun(h) && j < |h| && !SecretInv(h[j].world)
    ensures 0 < l <= j && h[l].event.SecretLands?
    ensures h[l - 1].world.stored.detachedCleanupCompleted || SawNoOwnedSecret(h[l - 1].world.know)
  {
    hide SecretInv, Inv;
    Beginning(h);
    assert StepAt(h, j);
    RunInvAt(h, j - 1);
    if !SecretInv(h[j - 1].world) {
      l := SecretLandedLate(h, j - 1);
    } else {
      l := j;
      if !h[j].event.SecretLands? {
        StepKeepsSecretInv(h[j - 1].world, h[j].event, h[j].world);
      }
      LandingTells(h[j - 1].world, h[j].world);
    }
  }

  lemma LandingTells(w: World, w': World)
    requires SecretInv(w) && Step(w, SecretLands, w') && !SecretInv(w')
    ensures w.stored.detachedCleanupCompleted || SawNoOwnedSecret(w.know)
  {
  }

  lemma {:induction false} LostBefore(h: seq<Entry>, i: nat) returns (c: nat)
    requires IsRun(h) && i < |h| && h[i].world.underwaySecrets > 0
    ensures 0 < c <= i && LostSecret(h[c].event)
  {
    Beginning(h);
    TracesAt(h, i);
    if LostSecret(h[i].event) {
      c := i;
    } else {
      c := LostBefore(h, i - 1);
    }
  }

  /** Recorded spoke cleanup of a run that LCA had finished, or that had submitted nothing,
      means that the owned SeedGenerator is not on the spoke, at that moment and ever after, and
      that LCA is not running. */
  lemma CleanupRecordIsTrue(h: seq<Entry>, i: nat, j: nat)
    requires IsRun(h) && i <= j < |h| && h[i].world.stored.detachedCleanupCompleted && Settled(h[i].world.stored)
    ensures Settled(h[j].world.stored)
    ensures !OwnedGenerator(h[j].world.spoke.generator) && !h[j].world.spoke.lca.Running?
    ensures (forall m :: 0 < m <= j ==> !LostSecret(h[m].event)) ==> !OwnedSecret(h[j].world.spoke.secret)
  {
    SettledStays(h, i, j);
    RunInvAt(h, j);
    if OwnedSecret(h[j].world.spoke.secret) {
      var c, l := SecretAfterRecord(h, j);
    }
  }

  /** The owned Secret is there in spite of the record only if the answer to one of its Creates
      was lost and it landed after cleanup had looked or recorded. */
  lemma SecretAfterRecord(h: seq<Entry>, j: nat) returns (c: nat, l: nat)
    requires IsRun(h) && j < |h| && h[j].world.stored.detachedCleanupCompleted && Settled(h[j].world.stored)
    requires OwnedSecret(h[j].world.spoke.secret)
    ensures 0 < c < l <= j && LostSecret(h[c].event) && h[l].event.SecretLands?
    ensures h[l - 1].world.stored.detachedCleanupCompleted || SawNoOwnedSecret(h[l - 1].world.know)
  {
    l := SecretLandedLate(h, j);
    TracesAt(h, l);
    c := LostBefore(h, l - 1);
  }

  lemma WriteStaysSettled(w: World, n: Status)
    requires Inv(w) && WriteOk(w, n) && w.stored.detachedCleanupCompleted
    ensures Settled(w.stored) <==> Settled(n)
  {
  }

  lemma {:induction false} SettledStays(h: seq<Entry>, i: nat, j: nat)
    requires IsRun(h) && i <= j < |h| && h[i].world.stored.detachedCleanupCompleted
    ensures h[j].world.stored.detachedCleanupCompleted
    ensures Settled(h[j].world.stored) <==> Settled(h[i].world.stored)
    decreases j
  {
    if i < j {
      SettledStays(h, i, j - 1);
      ProgressIsKept(h, i, j);
      RunInvAt(h, j - 1);
      FrameAt(h, j);
      if h[j].event.WriteStatus? {
        WriteStaysSettled(h[j - 1].world, h[j].event.status);
      }
    }
  }

  /** A record made while something submitted was unfinished was made in sight of another
      party's object, so nobody else on the singleton name means that every record is settled. */
  lemma {:induction false} UnsettledRecord(h: seq<Entry>, i: nat)
    requires IsRun(h) && i < |h| && NobodyElse(h, i + 1)
    ensures h[i].world.stored.detachedCleanupCompleted ==> Settled(h[i].world.stored)
  {
    if i > 0 {
      UnsettledRecord(h, i - 1);
      ForeignNeedsOthers(h, i - 1);
      RunInvAt(h, i - 1);
      FrameAt(h, i);
      if h[i].event.WriteStatus? {
        RecordSettles(h[i - 1].world, h[i].event.status);
      }
    }
  }

  lemma RecordSettles(w: World, n: Status)
    requires Inv(w) && WriteOk(w, n) && !SawForeignGenerator(w.know)
    requires w.stored.detachedCleanupCompleted ==> Settled(w.stored)
    ensures n.detachedCleanupCompleted ==> Settled(n)
  {
  }

  /** The run can never see its Secret again. */
  ghost predicate NeverAgain(h: seq<Entry>) {
    forall g: seq<Entry> :: IsRun(h + g) ==> !OwnedSecret(Last(h + g).spoke.secret)
  }

  /** In a run with a settled record and no Secret, the record stays true in every continuation
      exactly if no Create of the Secret is under way. */
  lemma RecordStaysTrueExactly(h: seq<Entry>)
    requires IsRun(h) && Last(h).stored.detachedCleanupCompleted && Settled(Last(h).stored)
    requires !OwnedSecret(Last(h).spoke.secret)
    ensures NeverAgain(h) <==> Last(h).underwaySecrets == 0
  {
    if Last(h).underwaySecrets == 0 {
      forall g: seq<Entry> | IsRun(h + g)
        ensures !OwnedSecret(Last(h + g).spoke.secret)
      {
        StaysWithoutSecret(h + g, |h| - 1, |h + g| - 1);
      }
    } else {
      var g := SecretReturns(h);
      assert IsRun(h + g) && OwnedSecret(Last(h + g).spoke.secret);
    }
  }

  lemma StepWithoutSecret(h: seq<Entry>, j: nat)
    requires IsRun(h) && 0 < j < |h| && h[j - 1].world.underwaySecrets == 0 && !OwnedSecret(h[j - 1].world.spoke.secret)
    requires h[j - 1].world.stored.detachedCleanupCompleted
    requires h[j].world.stored.detachedCleanupCompleted && Settled(h[j].world.stored)
    ensures h[j].world.underwaySecrets == 0 && !OwnedSecret(h[j].world.spoke.secret)
  {
    hide Inv, Step;
    RunInvAt(h, j - 1);
    TracesAt(h, j);
    assert StepAt(h, j);
    StepKeepsSecretInv(h[j - 1].world, h[j].event, h[j].world);
  }

  lemma {:induction false} StaysWithoutSecret(h: seq<Entry>, i: nat, j: nat)
    requires IsRun(h) && i <= j < |h| && h[i].world.stored.detachedCleanupCompleted && Settled(h[i].world.stored)
    requires h[i].world.underwaySecrets == 0 && !OwnedSecret(h[i].world.spoke.secret)
    ensures h[j].world.underwaySecrets == 0 && !OwnedSecret(h[j].world.spoke.secret)
    decreases j
  {
    if i < j {
      StaysWithoutSecret(h, i, j - 1);
      SettledStays(h, i, j - 1);
      SettledStays(h, i, j);
      StepWithoutSecret(h, j);
    }
  }

  lemma SecretReturns(h: seq<Entry>) returns (g: seq<Entry>)
    requires IsRun(h) && Last(h).underwaySecrets > 0
    ensures IsRun(h + g) && OwnedSecret(Last(h + g).spoke.secret)
  {
    var v := Last(h).(spoke := Last(h).spoke.(secret := NoSecret));
    RunExtends(h, SecretVanishes, v);
    RunExtends(h + [Entry(SecretVanishes, v)], SecretLands, SecretLanded(v));
    g := [Entry(SecretVanishes, v), Entry(SecretLands, SecretLanded(v))];
    assert h + g == h + [Entry(SecretVanishes, v)] + [Entry(SecretLands, SecretLanded(v))];
  }

  // ---------------------------------------------------------------- the frozen credentials

  /** The snapshot is deleted only when the run is over, spoke cleanup is recorded or
      detachment never began, and the upload is settled. No ISO Job or Pod of the run exists if
      the UID of the Job was persisted when the reconcile began, or no Job was submitted. */
  lemma SnapshotDeletedLast(h: seq<Entry>, i: nat)
    requires IsRun(h) && 0 < i < |h| && h[i].event.DeleteSnapshot?
    ensures var w := h[i - 1].world;
      && Terminal(w.stored.cond)
      && (w.stored.detachedCleanupCompleted || !w.stored.detachmentStarted)
      && (w.stored.isoUploadCleanupCompleted || !w.stored.isoJobSubmitted || IsCompleted(w.stored.cond))
      && (w.know.read.isoJobUID != NONE || !w.stored.isoJobSubmitted ==> !OwnedJob(w.hub.job) && w.hub.pods == 0)
  {
    assert StepAt(h, i);
    RunInvAt(h, i - 1);
  }

  lemma {:induction false} ListedAbsent(h: seq<Entry>, i: nat) returns (l: nat)
    requires IsRun(h) && i < |h| && h[i].world.know.jobAbsent
    ensures SameReconcile(h, l, i) && h[l].event.ListJobs?
  {
    Beginning(h);
    TracesAt(h, i);
    l := i;
    if !h[i].event.ListJobs? {
      l := ListedAbsent(h, i - 1);
    }
  }

  lemma {:induction false} OverlookedLandedLate(h: seq<Entry>, i: nat) returns (l: nat, j: nat)
    requires IsRun(h) && i < |h| && Overlooked(h[i].world)
    ensures SameReconcile(h, l, i) && l < j <= i && h[l].event.ListJobs? && h[j].event.JobLands?
  {
    Beginning(h);
    RunInvAt(h, i - 1);
    TracesAt(h, i);
    hide Inv;
    if Overlooked(h[i - 1].world) && !h[i].event.Begin? {
      l, j := OverlookedLandedLate(h, i - 1);
    } else {
      j := i;
      l := ListedAbsent(h, i - 1);
    }
  }

  /** Otherwise a Job or Pod is left only if the Job's Create had lost its answer and landed
      after the deleting reconcile had listed the Jobs. */
  lemma LeftJobLandedLate(h: seq<Entry>, i: nat) returns (l: nat, j: nat)
    requires IsRun(h) && 0 < i < |h| && h[i].event.DeleteSnapshot?
    requires OwnedJob(h[i - 1].world.hub.job) || h[i - 1].world.hub.pods > 0
    ensures l < j < i && SameReconcile(h, l, i) && h[l].event.ListJobs? && h[j].event.JobLands?
    ensures h[i - 1].world.know.read.isoJobUID == NONE
  {
    assert StepAt(h, i);
    RunInvAt(h, i - 1);
    SnapshotDeletedLast(h, i);
    l, j := OverlookedLandedLate(h, i - 1);
  }

  /** The run can never see a Job of its own again. */
  ghost predicate NoJobAgain(h: seq<Entry>) {
    forall g: seq<Entry> :: IsRun(h + g) ==> !OwnedJob(Last(h + g).hub.job)
  }

  /** A finished run without a Job stays without one in every continuation exactly if no Create of
      the Job is under way. */
  lemma JobStaysAwayExactly(h: seq<Entry>)
    requires IsRun(h) && Terminal(Last(h).stored.cond) && !OwnedJob(Last(h).hub.job)
    ensures NoJobAgain(h) <==> Last(h).underwayJob.NoJob?
  {
    if Last(h).underwayJob.NoJob? {
      forall g: seq<Entry> | IsRun(h + g)
        ensures !OwnedJob(Last(h + g).hub.job)
      {
        StaysWithoutJob(h + g, |h| - 1, |h + g| - 1);
      }
    } else {
      var g := JobReturns(h);
      assert IsRun(h + g) && OwnedJob(Last(h + g).hub.job);
    }
  }

  lemma {:induction false} StaysWithoutJob(h: seq<Entry>, i: nat, j: nat)
    requires IsRun(h) && i <= j < |h| && Terminal(h[i].world.stored.cond)
    requires h[i].world.underwayJob.NoJob? && !OwnedJob(h[i].world.hub.job)
    ensures h[j].world.underwayJob.NoJob? && !OwnedJob(h[j].world.hub.job)
    decreases j
  {
    if i < j {
      StaysWithoutJob(h, i, j - 1);
      ProgressIsKept(h, i, j - 1);
      RunInvAt(h, j - 1);
      TracesAt(h, j);
    }
  }

  lemma JobReturns(h: seq<Entry>) returns (g: seq<Entry>)
    requires IsRun(h) && Last(h).underwayJob.Job?
    ensures IsRun(h + g) && OwnedJob(Last(h + g).hub.job)
  {
    RunInv(h);
    var v := Last(h).(hub := Last(h).hub.(job := NoJob));
    RunExtends(h, JobGone, v);
    RunExtends(h + [Entry(JobGone, v)], JobLands, JobLanded(v));
    g := [Entry(JobGone, v), Entry(JobLands, JobLanded(v))];
    assert h + g == h + [Entry(JobGone, v)] + [Entry(JobLands, JobLanded(v))];
  }

  /** After that, no step loads it again. */
  lemma SnapshotNeverLoadedAfterDeletion(h: seq<Entry>, i: nat, j: nat)
    requires IsRun(h) && 0 < i < j < |h| && h[i].event.DeleteSnapshot?
    ensures !h[j].event.LoadSnapshot?
  {
    assert StepAt(h, i) && StepAt(h, j);
    ProgressIsKept(h, i - 1, j - 1);
  }

  // ---------------------------------------------------------------- accepting the result

  /** The status a reconcile works from is the one that was persisted when it began. */
  lemma {:induction false} BeginningOf(h: seq<Entry>, i: nat) returns (b: nat)
    requires IsRun(h) && i < |h|
    ensures SameReconcile(h, b, i) && (b == 0 || h[b].event.Begin?)
    ensures h[i].world.know.read == if b == 0 then Initial else h[b - 1].world.stored
  {
    b := i;
    if i > 0 {
      FrameAt(h, i);
      if !h[i].event.Begin? {
        b := BeginningOf(h, i - 1);
      }
    }
  }

  lemma WriteAccepts(w: World, n: Status)
    requires Inv(w) && WriteOk(w, n) && w.cfg.hasISO && !IsCompleted(w.stored.cond) && IsCompleted(n.cond)
    ensures Finishes(w, n) && n.isoJobSpecHash == w.stored.isoJobSpecHash && n.isoJobUID == w.stored.isoJobUID
  {
  }

  /** The Job this run created always passes the checks made before it is observed: its
      fingerprint is the persisted one and rounding never put its deadline out of policy. */
  lemma OwnJobPassesValidation(h: seq<Entry>, i: nat)
    requires IsRun(h) && i < |h| && OwnedJob(h[i].world.hub.job)
    ensures var job, s := h[i].world.hub.job, h[i].world.stored;
      s.isoJobSubmitted && job.hash == s.isoJobSpecHash && DeadlinePolicy(job.activeDeadline, s.timeoutSeconds)
  {
    RunInvAt(h, i);
  }

  /** A run with a live ISO completes only on a Job it owns, whose UID was already persisted
      when the accepting reconcile began and whose fingerprint is the submission intent. */
  lemma ResultAcceptedOnlyFromPinnedJob(h: seq<Entry>, i: nat) returns (b: nat)
    requires IsRun(h) && 0 < i < |h| && h[i].world.cfg.hasISO
    requires !IsCompleted(h[i - 1].world.stored.cond) && IsCompleted(h[i].world.stored.cond)
    ensures 0 < b < i && h[b].event.Begin? && SameReconcile(h, b, i)
    ensures h[b - 1].world.stored.isoJobUID != NONE
    ensures var k := h[i - 1].world.know;
      && k.job.Looked? && OwnedJob(k.job.what) && k.job.what.succeeded
      && k.job.what.uid == h[b - 1].world.stored.isoJobUID == h[i].world.stored.isoJobUID
      && k.job.what.hash == h[i].world.stored.isoJobSpecHash
  {
    RunInvAt(h, i - 1);
    FrameAt(h, i);
    WriteAccepts(h[i - 1].world, h[i].event.status);
    b := BeginningOf(h, i - 1);
  }
}
