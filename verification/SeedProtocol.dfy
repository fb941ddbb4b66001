/** The seed-generation protocol as a transition system. A world holds the persisted
    status, the hub and spoke objects the run touches, the clock and what the running
    reconcile has learnt. Controller events carry the guard the controller must have
    established; environment events are LCA, the Job controller, other users and time. */
module SeedProtocol {
  import opened Wrappers
  import opened SeedStatus

  /** Frozen inputs of the run. */
  datatype Config = Config(hasISO: bool, seedImage: Name)

  predicate Blank(image: Name) { image == NONE }

  datatype LcaResult = Unfinished | Success | Failure
  datatype Generator = NoGenerator | Generator(owned: bool, specMatches: bool, deleting: bool, result: LcaResult)
  datatype SeedSecret = NoSecret | SeedSecret(owned: bool, dataMatches: bool, deleting: bool)
  datatype Lca = Waiting | Running | Finished(success: bool)
  datatype Job =
    | NoJob
    | Job(uid: Name, hash: Name, activeDeadline: int, owned: bool, deleting: bool, succeeded: bool, failed: bool)

  datatype Spoke = Spoke(generator: Generator, secret: SeedSecret, lca: Lca, agentsGone: bool)
  /** `workspace` and `snapshot` count the objects of the ISO build, and of the frozen inputs
      and preflight Pods, that are still to be removed. */
  datatype Hub = Hub(job: Job, pods: nat, workspace: nat, snapshot: nat)

  datatype Seen<T> = NotLooked | Looked(what: T)

  /** What the running reconcile knows. `read` is the status it started from. */
  datatype Knowledge = Knowledge(
    read: Status,
    verified: bool,
    agentsGone: bool,
    generator: Seen<Generator>,
    secret: Seen<SeedSecret>,
    job: Seen<Job>,
    jobAbsent: bool,
    jobsGone: bool,
    workspaceGone: bool,
    snapshotGone: bool,
    armedGenerator: bool,
    rejectedGenerator: bool,
    armedJob: bool,
    rejectedJob: bool,
    createdUID: Name)

  function Fresh(s: Status): Knowledge {
    Knowledge(s, false, false, NotLooked, NotLooked, NotLooked, false, false, false, false, false, false, false, false, NONE)
  }

  /** `reach` is the ID of the cluster the frozen kubeconfig leads to during the running
      reconcile. `underway` is a Create of the SeedGenerator without an answer that may still
      take effect, `underwayJob` the Job of such a Create, `underwaySecrets` the number of such
      Creates of the Secret. The two counters record history. */
  datatype World = World(
    cfg: Config,
    stored: Status,
    now: int,
    reach: Name,
    hub: Hub,
    spoke: Spoke,
    know: Knowledge,
    underway: bool,
    underwayJob: Job,
    underwaySecrets: nat,
    generatorCreates: nat,
    jobCreates: nat)

  datatype Response = Created | AlreadyExists | Rejected | Throttled | Ambiguous

  datatype Event =
    // controller
    | Begin(reach: Name)
    | VerifySpoke
    | RunProvisioningPhases
    | WriteStatus(status: Status, applied: bool, acked: bool)
    | LoadSnapshot
    | DeleteSnapshot
    | MutateHub
    | MutateSpoke
    | LookAtAgents
    | LookAtGenerator
    | LookAtSecret
    | CreateSecret(response: Response, effective: bool)
    | CreateGenerator(response: Response, effective: bool)
    | DeleteGenerator(gone: bool)
    | DeleteSecret(gone: bool)
    | LookAtJob
    | ListJobs
    | ListPods
    | CreateJob(response: Response, effective: bool, uid: Name, activeDeadline: int)
    | DeleteJob
    | DeletePods
    | ListWorkspace
    | ListSnapshot
    // environment
    | Tick(now: int)
    | AgentsChange(gone: bool)
    | GeneratorLands
    | LcaStarts
    | LcaRestores(restored: Generator, secret: SeedSecret)
    | LcaFinishes(success: bool, secret: SeedSecret)
    | GeneratorVanishes
    | SecretVanishes
    | SecretLands
    | OtherCreatesGenerator(result: LcaResult)
    | OtherCreatesSecret
    | JobLands
    | JobProgresses(succeeded: bool, failed: bool)
    | JobGone
    | PodsChange(pods: nat)
    | OtherCreatesJob(uid: Name)
    | ObjectsChange(workspace: nat, snapshot: nat)

  predicate OwnedGenerator(g: Generator) { g.Generator? && g.owned }
  predicate ForeignGenerator(g: Generator) { g.Generator? && !g.owned }
  predicate OwnedSecret(s: SeedSecret) { s.SeedSecret? && s.owned }
  predicate OwnedJob(j: Job) { j.Job? && j.owned }

  predicate SawNoOwnedGenerator(k: Knowledge) { k.generator.Looked? && !OwnedGenerator(k.generator.what) }
  predicate SawForeignGenerator(k: Knowledge) { k.generator.Looked? && ForeignGenerator(k.generator.what) }
  predicate SawNoOwnedSecret(k: Knowledge) { k.secret.Looked? && !OwnedSecret(k.secret.what) }
  predicate SawFinished(k: Knowledge) {
    k.generator.Looked? && OwnedGenerator(k.generator.what) && !k.generator.what.result.Unfinished?
  }
  predicate SawSuccess(k: Knowledge) { SawFinished(k) && k.generator.what.result.Success? }

  /** The LCA run is known to be over, never began, or is hidden by somebody else's object. */
  predicate LcaSettled(w: World) {
    w.stored.seedGeneratorFinished || !w.stored.seedGeneratorSubmitted || SawForeignGenerator(w.know)
  }

  // ---------------------------------------------------------------- status writes

  predicate WellFormed(c: Condition) {
    c.Condition? ==> (c.status <==> c.reason.Completed?)
  }

  predicate ConditionWrite(w: World, n: Status) {
    var s := w.stored;
    && n.cond.Condition? && WellFormed(n.cond)
    && (Terminal(s.cond) ==> n.cond == s.cond)
    && (s.cond.NoCondition? ==> n.cond.reason.Validating? || n.cond.reason.PreconditionChecksFailed?)
    && (n.cond.reason.Validating? ==> s.cond.NoCondition? || s.cond.reason.Validating?)
    && (!Terminal(n.cond) ==> n.startedAt.Some?)
    && (!Terminal(n.cond) && !n.detachmentStarted ==> n.cond.reason.Validating? || n.cond.reason.InProgress?)
    && (IsCompleted(n.cond) && !Terminal(s.cond) ==> Finishes(w, n))
  }

  /** What must be known before the run is declared complete. */
  predicate Finishes(w: World, n: Status) {
    var s, k := w.stored, w.know;
    if w.cfg.hasISO then
      && s.isoJobSubmitted && s.isoJobUID != NONE
      && k.read.isoJobUID == s.isoJobUID
      && k.job.Looked? && OwnedJob(k.job.what)
      && k.job.what.uid == s.isoJobUID && k.job.what.hash == s.isoJobSpecHash && k.job.what.succeeded
    else
      n.seedGeneratorFinished && SawSuccess(k) && n.seedImage == w.cfg.seedImage
  }

  predicate StartWrite(w: World, n: Status) {
    var s := w.stored;
    || (n.startedAt == s.startedAt && n.timeoutSeconds == s.timeoutSeconds)
    || (s == Initial && n.startedAt.Some? && n.startedAt.value <= w.now && n.timeoutSeconds >= 1 &&
        n.cond == Condition(false, Validating))
  }

  predicate PreflightWrite(w: World, n: Status) {
    var s := w.stored;
    var open := s.startedAt.Some? && !s.detachmentStarted;
    && (SamePins(s, n) || (open && s.clusterID == NONE && PinsSet(n) && n.clusterID == w.reach))
    && (n.snapshotUIDs == s.snapshotUIDs || (open && s.snapshotUIDs == NONE && n.snapshotUIDs != NONE))
    && (n.releaseImageDigest == s.releaseImageDigest ||
        (open && s.releaseImageDigest == NONE && n.releaseImageDigest != NONE))
  }

  predicate DetachmentWrite(w: World, n: Status) {
    var s, k := w.stored, w.know;
    && (s.detachmentStarted ==> n.detachmentStarted)
    && (!s.detachmentStarted && n.detachmentStarted ==>
          PinsSet(s) && s.snapshotUIDs != NONE && (w.cfg.hasISO ==> s.releaseImageDigest != NONE) &&
          s.cond == Condition(false, InProgress) && s.startedAt.Some?)
    && (s.agentDetachmentCompleted ==> n.agentDetachmentCompleted)
    && (!s.agentDetachmentCompleted && n.agentDetachmentCompleted ==> s.detachmentStarted && k.agentsGone)
  }

  predicate GeneratorWrite(w: World, n: Status) {
    var s, k := w.stored, w.know;
    && (!s.seedGeneratorSubmitted && n.seedGeneratorSubmitted ==>
          s.agentDetachmentCompleted && !s.detachedCleanupCompleted && !n.detachedCleanupCompleted && !Terminal(n.cond))
    && (s.seedGeneratorSubmitted && !n.seedGeneratorSubmitted ==> k.rejectedGenerator && !s.detachedCleanupCompleted)
    && (s.seedGeneratorFinished ==> n.seedGeneratorFinished)
    && (!s.seedGeneratorFinished && n.seedGeneratorFinished ==>
          SawFinished(k) && k.secret.NotLooked? && !s.detachedCleanupCompleted)
    && (n.seedGeneratorFinished && !Terminal(n.cond) ==>
          w.cfg.hasISO && n.seedImage == w.cfg.seedImage && !Blank(w.cfg.seedImage))
    && (n.seedImage == s.seedImage || (n.seedImage == w.cfg.seedImage && SawSuccess(k) && n.seedGeneratorFinished))
    && (s.detachedCleanupCompleted ==> n.detachedCleanupCompleted)
    && (!s.detachedCleanupCompleted && n.detachedCleanupCompleted ==>
          && s.detachmentStarted && SawNoOwnedGenerator(k) && SawNoOwnedSecret(k) && LcaSettled(w)
          && n.seedGeneratorSubmitted == s.seedGeneratorSubmitted
          && (Terminal(n.cond) || s.seedGeneratorFinished))
  }

  predicate JobWrite(w: World, n: Status) {
    var s, k := w.stored, w.know;
    && (!s.isoJobSubmitted && n.isoJobSubmitted ==>
          s.seedGeneratorFinished && s.detachedCleanupCompleted && !Terminal(n.cond) && w.cfg.hasISO &&
          n.isoJobSpecHash != NONE && n.isoJobSubmittedAt.Some?)
    && (s.isoJobSubmitted && !n.isoJobSubmitted ==> k.rejectedJob && !Terminal(s.cond) && n.isoJobUID == NONE)
    && (s.isoJobSubmitted && n.isoJobSubmitted ==>
          n.isoJobSpecHash == s.isoJobSpecHash && n.isoJobSubmittedAt == s.isoJobSubmittedAt)
    && (!n.isoJobSubmitted ==> n.isoJobSpecHash == NONE && n.isoJobSubmittedAt.None?)
    && (n.isoJobUID == s.isoJobUID ||
        (s.isoJobUID == NONE && s.isoJobSubmitted && n.isoJobSubmitted &&
         ((k.job.Looked? && OwnedJob(k.job.what) && n.isoJobUID == k.job.what.uid) ||
          (k.createdUID != NONE && n.isoJobUID == k.createdUID))))
    && (n.isoUploadCleanupDeadline == s.isoUploadCleanupDeadline ||
        (s.isoUploadCleanupDeadline.None? && Terminal(s.cond) && s.isoJobSubmitted))
    && (s.isoUploadCleanupCompleted ==> n.isoUploadCleanupCompleted)
    && (!s.isoUploadCleanupCompleted && n.isoUploadCleanupCompleted ==>
          Terminal(s.cond) && s.isoJobSubmitted && k.jobsGone)
    && ((n.isoURL == s.isoURL && n.isoDigest == s.isoDigest) || (IsCompleted(n.cond) && s.isoJobSubmitted))
    && (n.diagnosticsExpireAt == s.diagnosticsExpireAt || s.isoJobSubmitted)
  }

  /** The discipline every status write of the controller keeps. */
  predicate WriteOk(w: World, n: Status) {
    ConditionWrite(w, n) && StartWrite(w, n) && PreflightWrite(w, n) && DetachmentWrite(w, n) &&
    GeneratorWrite(w, n) && JobWrite(w, n)
  }

  function AfterWrite(w: World, n: Status, acked: bool): Knowledge {
    w.know.(
      armedGenerator := acked && !w.stored.seedGeneratorSubmitted && n.seedGeneratorSubmitted &&
                        w.know.generator == Looked(NoGenerator),
      armedJob := acked && !w.stored.isoJobSubmitted && n.isoJobSubmitted)
  }

  // ---------------------------------------------------------------- guards of the other actions

  predicate ActiveDetachment(s: Status) {
    s.detachmentStarted && PinsSet(s) && !s.agentDetachmentCompleted && !Terminal(s.cond)
  }

  /** The frozen credentials may be discarded. */
  predicate SnapshotReleasable(w: World) {
    Terminal(w.stored.cond) && SpokeSettled(w.stored) && UploadSettled(w.stored) &&
    (w.know.jobsGone || !w.stored.detachmentStarted)
  }

  /** A step that still needs the frozen inputs. */
  predicate SnapshotNeeded(s: Status) {
    !Terminal(s.cond) || !SpokeSettled(s) || !UploadSettled(s)
  }

  predicate CreateAnswer(response: Response, effective: bool) {
    && (response.Created? ==> effective)
    && (response.AlreadyExists? || response.Rejected? || response.Throttled? ==> !effective)
  }

  predicate Disproves(response: Response) {
    response.Rejected? || response.Throttled?
  }

  function Written(w: World, n: Status, applied: bool, acked: bool): World {
    w.(stored := if applied then n else w.stored, know := AfterWrite(w, n, acked))
  }

  function SecretAnswered(w: World, response: Response, effective: bool): World {
    var v := w.(know := w.know.(secret := if response.Created? then Looked(SeedSecret(true, true, false)) else NotLooked));
    if effective then v.(spoke := w.spoke.(secret := SeedSecret(true, true, false)))
    else if response.Ambiguous? then v.(underwaySecrets := w.underwaySecrets + 1)
    else v
  }

  function GeneratorAnswered(w: World, response: Response, effective: bool): World {
    var v := w.(know := w.know.(armedGenerator := false, rejectedGenerator := Disproves(response)),
                underway := response.Ambiguous? && !effective);
    if !effective then v
    else v.(generatorCreates := w.generatorCreates + 1,
            spoke := w.spoke.(generator := Generator(true, true, false, Unfinished)))
  }

  function JobAnswered(w: World, response: Response, effective: bool, uid: Name, activeDeadline: int): World {
    var v := w.(know := w.know.(armedJob := false, rejectedJob := Disproves(response), jobAbsent := false,
                                jobsGone := false, createdUID := if response.Created? then uid else NONE));
    var job := Job(uid, w.stored.isoJobSpecHash, activeDeadline, true, false, false, false);
    if !effective then v.(underwayJob := if response.Ambiguous? then job else NoJob)
    else v.(underwayJob := NoJob, jobCreates := w.jobCreates + 1, hub := w.hub.(job := job))
  }

  predicate StatusStep(w: World, e: Event, w': World) {
    var s, k := w.stored, w.know;
    match e
    case Begin(reach) => w' == w.(reach := reach, know := Fresh(s))
    case RunProvisioningPhases => !NeedsFastPath(s) && w' == w
    case WriteStatus(n, applied, acked) =>
      WriteOk(w, n) && (acked ==> applied) && w' == Written(w, n, applied, acked)
    case LoadSnapshot => SnapshotNeeded(s) && w' == w
    case DeleteSnapshot => SnapshotReleasable(w) && w' == w
    case _ => false
  }

  /** Detachment, the SeedGenerator and the seedgen Secret. */
  predicate SpokeStep(w: World, e: Event, w': World) {
    var s, k := w.stored, w.know;
    match e
    case VerifySpoke => s.clusterID != NONE && w.reach == s.clusterID && w' == w.(know := k.(verified := true))
    case MutateHub => ActiveDetachment(s) && k.verified && w' == w
    case MutateSpoke => ActiveDetachment(s) && k.verified && w' == w
    case LookAtAgents => k.verified && w' == w.(know := k.(agentsGone := w.spoke.agentsGone))
    case LookAtGenerator =>
      k.verified && w' == w.(know := k.(generator := Looked(w.spoke.generator), secret := NotLooked))
    case LookAtSecret => k.verified && w' == w.(know := k.(secret := Looked(w.spoke.secret)))
    case CreateSecret(response, effective) =>
      && k.verified && s.agentDetachmentCompleted && !s.seedGeneratorSubmitted && !Terminal(s.cond)
      && !s.detachedCleanupCompleted
      && CreateAnswer(response, effective) && (effective ==> w.spoke.secret.NoSecret?)
      && w' == SecretAnswered(w, response, effective)
    case CreateGenerator(response, effective) =>
      && k.verified && k.armedGenerator
      && CreateAnswer(response, effective) && (effective ==> w.spoke.generator.NoGenerator?)
      && w' == GeneratorAnswered(w, response, effective)
    case DeleteGenerator(gone) =>
      && k.verified && s.detachmentStarted && s.seedGeneratorFinished
      && k.generator.Looked? && OwnedGenerator(k.generator.what)
      && w' == w.(spoke := w.spoke.(generator := Deleted(w.spoke.generator, gone)))
    case DeleteSecret(gone) =>
      && k.verified && s.detachmentStarted && LcaSettled(w)
      && k.generator.Looked? && k.secret.Looked? && OwnedSecret(k.secret.what)
      && w' == w.(spoke := w.spoke.(secret := DeletedSecret(w.spoke.secret, gone)))
    case _ => false
  }

  /** The ISO build Job and its Pods. */
  predicate JobStep(w: World, e: Event, w': World) {
    var s, k := w.stored, w.know;
    match e
    case LookAtJob => w' == w.(know := k.(job := Looked(w.hub.job)))
    case ListJobs =>
      w' == w.(know := k.(job := Looked(w.hub.job), jobAbsent := !OwnedJob(w.hub.job), jobsGone := false))
    case ListPods => w' == w.(know := k.(jobsGone := k.jobAbsent && w.hub.pods == 0))
    case CreateJob(response, effective, uid, activeDeadline) =>
      && k.armedJob && uid != NONE && DeadlinePolicy(activeDeadline, s.timeoutSeconds)
      && CreateAnswer(response, effective) && (effective ==> w.hub.job.NoJob?)
      && w' == JobAnswered(w, response, effective, uid, activeDeadline)
    case DeleteJob =>
      && Terminal(s.cond) && k.job.Looked? && OwnedJob(k.job.what) && s.isoJobUID == k.job.what.uid
      && w' == w.(hub := if OwnedJob(w.hub.job) then w.hub.(job := w.hub.job.(deleting := true)) else w.hub)
    case DeletePods => Terminal(s.cond) && w' == w
    case ListWorkspace => w' == w.(know := k.(workspaceGone := w.hub.workspace == 0))
    case ListSnapshot => w' == w.(know := k.(snapshotGone := w.hub.snapshot == 0))
    case _ => false
  }

  function Landed(w: World): World {
    w.(underway := false, generatorCreates := w.generatorCreates + 1,
       spoke := w.spoke.(generator := Generator(true, true, false, Unfinished)))
  }

  function SecretLanded(w: World): World
    requires w.underwaySecrets > 0
  {
    w.(underwaySecrets := w.underwaySecrets - 1, spoke := w.spoke.(secret := SeedSecret(true, true, false)))
  }

  function JobLanded(w: World): World {
    w.(underwayJob := NoJob, jobCreates := w.jobCreates + 1, hub := w.hub.(job := w.underwayJob))
  }

  function Deleted(g: Generator, gone: bool): Generator {
    if !OwnedGenerator(g) then g else if gone then NoGenerator else g.(deleting := true)
  }

  function DeletedSecret(s: SeedSecret, gone: bool): SeedSecret {
    if !OwnedSecret(s) then s else if gone then NoSecret else s.(deleting := true)
  }

  /** LCA and others on the spoke. */
  predicate SpokeChange(w: World, e: Event, w': World) {
    match e
    case AgentsChange(gone) => w' == w.(spoke := w.spoke.(agentsGone := gone))
    case GeneratorLands =>
      // A Create whose answer was lost takes effect late.
      w.underway && w.spoke.generator.NoGenerator? && w' == Landed(w)
    case SecretLands => w.underwaySecrets > 0 && w.spoke.secret.NoSecret? && w' == SecretLanded(w)
    case LcaStarts =>
      OwnedGenerator(w.spoke.generator) && w.spoke.lca.Waiting? && w' == w.(spoke := w.spoke.(lca := Running))
    case LcaRestores(restored, secret) =>
      // While it works, LCA removes its CR and credentials and puts them back.
      && w.spoke.lca.Running? && !ForeignGenerator(w.spoke.generator) && !ForeignGenerator(restored)
      && (OwnedGenerator(restored) ==> restored.result.Unfinished?)
      && w' == w.(spoke := w.spoke.(generator := restored, secret := secret))
    case LcaFinishes(success, secret) =>
      && w.spoke.lca.Running?
      && w' == w.(spoke := w.spoke.(
             lca := Finished(success), secret := secret,
             generator := if ForeignGenerator(w.spoke.generator) then w.spoke.generator
                          else Generator(true, true, false, if success then Success else Failure)))
    case GeneratorVanishes => w' == w.(spoke := w.spoke.(generator := NoGenerator))
    case SecretVanishes => w' == w.(spoke := w.spoke.(secret := NoSecret))
    case OtherCreatesGenerator(result) =>
      w.spoke.generator.NoGenerator? &&
      w' == w.(spoke := w.spoke.(generator := Generator(false, false, false, result)))
    case OtherCreatesSecret =>
      w.spoke.secret.NoSecret? && w' == w.(spoke := w.spoke.(secret := SeedSecret(false, false, false)))
    case _ => false
  }

  /** Time, the Job controller and others on the hub. */
  predicate HubChange(w: World, e: Event, w': World) {
    match e
    case Tick(now) => w.now <= now && w' == w.(now := now)
    case JobLands => w.underwayJob.Job? && w.hub.job.NoJob? && w' == JobLanded(w)
    case JobProgresses(succeeded, failed) =>
      w.hub.job.Job? && w' == w.(hub := w.hub.(job := w.hub.job.(succeeded := succeeded, failed := failed)))
    case JobGone => w' == w.(hub := w.hub.(job := NoJob))
    case PodsChange(pods) => (pods <= w.hub.pods || OwnedJob(w.hub.job)) && w' == w.(hub := w.hub.(pods := pods))
    case OtherCreatesJob(uid) =>
      w.hub.job.NoJob? && w' == w.(hub := w.hub.(job := Job(uid, NONE, 0, false, false, false, false)))
    case ObjectsChange(workspace, snapshot) => w' == w.(hub := w.hub.(workspace := workspace, snapshot := snapshot))
    case _ => false
  }

  predicate OnHub(e: Event) {
    e.Tick? || e.JobLands? || e.JobProgresses? || e.JobGone? || e.PodsChange? || e.OtherCreatesJob? || e.ObjectsChange?
  }

  predicate EnvironmentStep(w: World, e: Event, w': World) {
    if OnHub(e) then HubChange(w, e, w') else SpokeChange(w, e, w')
  }

  predicate AboutStatus(e: Event) {
    e.Begin? || e.RunProvisioningPhases? || e.WriteStatus? || e.LoadSnapshot? || e.DeleteSnapshot?
  }

  predicate AboutJob(e: Event) {
    e.LookAtJob? || e.ListJobs? || e.ListPods? || e.CreateJob? || e.DeleteJob? || e.DeletePods? ||
    e.ListWorkspace? || e.ListSnapshot?
  }

  predicate AboutSpoke(e: Event) {
    e.VerifySpoke? || e.MutateHub? || e.MutateSpoke? || e.LookAtAgents? || e.LookAtGenerator? || e.LookAtSecret? ||
    e.CreateSecret? || e.CreateGenerator? || e.DeleteGenerator? || e.DeleteSecret?
  }

  predicate Step(w: World, e: Event, w': World) {
    if AboutStatus(e) then StatusStep(w, e, w')
    else if AboutSpoke(e) then SpokeStep(w, e, w')
    else if AboutJob(e) then JobStep(w, e, w')
    else EnvironmentStep(w, e, w')
  }

  // ---------------------------------------------------------------- runs

  predicate Init(w: World) {
    && w.stored == Initial && w.know == Fresh(Initial)
    && w.generatorCreates == 0 && w.jobCreates == 0
    && !w.underway && w.underwayJob.NoJob? && w.underwaySecrets == 0
    && !OwnedGenerator(w.spoke.generator) && !ForeignGenerator(w.spoke.generator)
    && !OwnedSecret(w.spoke.secret) && w.spoke.lca.Waiting?
    && !OwnedJob(w.hub.job) && w.hub.pods == 0
  }

  /** One entry of a history: an event and the world it led to. */
  datatype Entry = Entry(event: Event, world: World)

  predicate StepAt(h: seq<Entry>, i: int)
    requires 0 < i < |h|
  {
    Step(h[i - 1].world, h[i].event, h[i].world)
  }

  /** A run: the first entry holds the initial world, every other one follows by a step.
      A crash needs no event of its own: the next `Begin` forgets all knowledge, so every
      prefix of a run followed by `Begin` is a run. */
  predicate IsRun(h: seq<Entry>) {
    |h| > 0 && Init(h[0].world) && forall i :: 0 < i < |h| ==> StepAt(h, i)
  }

  function Last(h: seq<Entry>): World
    requires |h| > 0
  {
    h[|h| - 1].world
  }

  lemma RunPrefix(h: seq<Entry>, n: nat)
    requires IsRun(h) && 0 < n <= |h|
    ensures IsRun(h[..n])
  {
    forall i | 0 < i < n
      ensures StepAt(h[..n], i)
    {
      assert StepAt(h, i);
    }
  }

  lemma RunExtends(h: seq<Entry>, e: Event, w: World)
    requires IsRun(h) && Step(Last(h), e, w)
    ensures IsRun(h + [Entry(e, w)])
  {
    var g := h + [Entry(e, w)];
    forall i | 0 < i < |g|
      ensures StepAt(g, i)
    {
      if i < |h| {
        assert StepAt(h, i);
      }
    }
  }
}
