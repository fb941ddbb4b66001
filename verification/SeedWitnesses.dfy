/** Runs of the seed-generation protocol in which a result needs the condition it is stated
    with: a lost answer, or another party on the singleton name. */
module SeedWitnesses {
  import opened Wrappers
  import opened SeedStatus
  import opened SeedProtocol
  import opened SeedInvariant
  import opened SeedTheorems

  // ---------------------------------------------------------------- the statuses of such a run

  function Started1(): Status {
    Initial.(startedAt := Some(0), timeoutSeconds := 60, cond := Condition(false, Validating))
  }

  function Validated(): Status {
    Started1().(clusterID := 1, managedClusterUID := 1, klusterletUID := 1, snapshotUIDs := 1, releaseImageDigest := 1,
                cond := Condition(false, InProgress))
  }

  function Intended(): Status {
    Validated().(detachmentStarted := true, cond := Condition(false, CleaningACMResources))
  }

  function Detached(): Status {
    Intended().(agentDetachmentCompleted := true, cond := Condition(false, InProgress))
  }

  function Submitted(): Status {
    Detached().(seedGeneratorSubmitted := true)
  }

  function Imaged(): Status {
    Submitted().(seedGeneratorFinished := true, seedImage := 5, cond := Condition(false, BuildingISO))
  }

  function Cleaned(): Status {
    Imaged().(detachedCleanupCompleted := true)
  }

  function Building(): Status {
    Cleaned().(isoJobSubmitted := true, isoJobSubmittedAt := Some(0), isoJobSpecHash := 1)
  }

  function Broken(s: Status, reason: Reason): Status {
    s.(cond := Condition(false, reason))
  }

  // ---------------------------------------------------------------- building runs

  const EMPTY_HUB: Hub := Hub(NoJob, 0, 0, 1)
  const EMPTY_SPOKE: Spoke := Spoke(NoGenerator, NoSecret, Waiting, true)
  const SECRET: SeedSecret := SeedSecret(true, true, false)
  const CREATED_GENERATOR: Generator := Generator(true, true, false, Unfinished)

  /** A world of a run with a live ISO whose kubeconfig leads to cluster 1. */
  function At(s: Status, spoke: Spoke, k: Knowledge, creates: nat): World {
    World(Config(true, 5), s, 0, 1, EMPTY_HUB, spoke, k, false, NoJob, 0, creates, 0)
  }

  function Knows(read: Status): Knowledge {
    Fresh(read).(verified := true)
  }

  lemma Go(h: seq<Entry>, e: Event, w: World) returns (g: seq<Entry>)
    requires IsRun(h) && Step(Last(h), e, w)
    ensures IsRun(g) && Last(g) == w && |g| > 1 && g[|g| - 1].event == e && g[|g| - 2].world == Last(h)
  {
    hide Step;
    RunExtends(h, e, w);
    g := h + [Entry(e, w)];
  }

  /** The next reconcile. */
  lemma Next(h: seq<Entry>) returns (g: seq<Entry>)
    requires IsRun(h) && Last(h).reach == 1
    ensures IsRun(g) && Last(g) == Last(h).(know := Fresh(Last(h).stored))
  {
    var w := Last(h).(know := Fresh(Last(h).stored));
    g := Go(h, Begin(1), w);
  }

  /** A status write that succeeds. */
  lemma Save(h: seq<Entry>, n: Status) returns (g: seq<Entry>)
    requires IsRun(h) && WriteOk(Last(h), n)
    ensures IsRun(g) && Last(g) == Written(Last(h), n, true, true)
  {
    hide WriteOk;
    var w := Last(h);
    assert Step(w, WriteStatus(n, true, true), Written(w, n, true, true));
    g := Go(h, WriteStatus(n, true, true), Written(w, n, true, true));
  }

  lemma Preflight() returns (h: seq<Entry>)
    ensures IsRun(h) && Last(h) == At(Validated(), EMPTY_SPOKE, Fresh(Started1()), 0)
  {
    var start := At(Initial, EMPTY_SPOKE, Fresh(Initial), 0);
    h := [Entry(Tick(0), start)];
    h := Save(h, Started1());
    h := Next(h);
    h := Save(h, Validated());
  }

  lemma IntendedRun() returns (h: seq<Entry>)
    ensures IsRun(h) && Last(h) == At(Intended(), EMPTY_SPOKE, Fresh(Intended()), 0)
  {
    h := Preflight();
    h := Next(h);
    h := Save(h, Intended());
    h := Next(h);
  }

  /** Agents are detached and the next reconcile has begun. */
  lemma DetachedRun() returns (h: seq<Entry>)
    ensures IsRun(h) && Last(h) == At(Detached(), EMPTY_SPOKE, Knows(Detached()), 0)
  {
    h := IntendedRun();
    h := Go(h, VerifySpoke, At(Intended(), EMPTY_SPOKE, Knows(Intended()), 0));
    h := Go(h, LookAtAgents, At(Intended(), EMPTY_SPOKE, Knows(Intended()).(agentsGone := true), 0));
    h := Save(h, Detached());
    h := Next(h);
    h := Go(h, VerifySpoke, At(Detached(), EMPTY_SPOKE, Knows(Detached()), 0));
  }

  /** Nothing is on the spoke: both lookups say so. */
  lemma LooksAround(h: seq<Entry>) returns (g: seq<Entry>)
    requires IsRun(h) && Last(h).know.verified
    ensures IsRun(g)
    ensures var w := Last(h);
      Last(g) == w.(know := w.know.(generator := Looked(w.spoke.generator), secret := Looked(w.spoke.secret)))
  {
    var w := Last(h);
    var v := w.(know := w.know.(generator := Looked(w.spoke.generator), secret := NotLooked));
    g := Go(h, LookAtGenerator, v);
    hide Step, IsRun;
    g := LooksAtSecret(g);
  }

  lemma LooksAtSecret(h: seq<Entry>) returns (g: seq<Entry>)
    requires IsRun(h) && Last(h).know.verified
    ensures IsRun(g)
    ensures Last(g) == Last(h).(know := Last(h).know.(secret := Looked(Last(h).spoke.secret)))
  {
    var w := Last(h);
    g := Go(h, LookAtSecret, w.(know := w.know.(secret := Looked(w.spoke.secret))));
  }

  // ---------------------------------------------------------------- a lost Secret

  /** The Secret's Create loses its answer, the run times out, cleanup finds nothing on the spoke
      and records that. Then the Secret lands. */
  lemma LostSecretOutlivesRecord() returns (h: seq<Entry>)
    ensures IsRun(h) && Last(h).stored.detachedCleanupCompleted && Settled(Last(h).stored)
    ensures OwnedSecret(Last(h).spoke.secret)
  {
    h := SecretLost();
    h := TimesOut(h);
    h := LooksAround(h);
    h := Save(h, Broken(Detached(), TimedOut).(detachedCleanupCompleted := true));
    h := Go(h, SecretLands, SecretLanded(Last(h)));
  }

  lemma SecretLost() returns (h: seq<Entry>)
    ensures IsRun(h) && Last(h) == At(Detached(), EMPTY_SPOKE, Last(h).know, 0).(underwaySecrets := 1)
  {
    h := DetachedRun();
    h := LooksAround(h);
    h := Go(h, CreateSecret(Ambiguous, false), SecretAnswered(Last(h), Ambiguous, false));
  }

  lemma TimesOut(h: seq<Entry>) returns (g: seq<Entry>)
    requires IsRun(h) && Last(h) == At(Detached(), EMPTY_SPOKE, Last(h).know, 0).(underwaySecrets := 1)
    ensures IsRun(g)
    ensures Last(g) == At(Broken(Detached(), TimedOut), EMPTY_SPOKE, Knows(Detached()), 0).(
                         underwaySecrets := 1, now := 60 * SECOND)
  {
    g := Next(h);
    g := Go(g, Tick(60 * SECOND), Last(g).(now := 60 * SECOND));
    g := Save(g, Broken(Detached(), TimedOut));
    g := Go(g, VerifySpoke, Last(g).(know := Last(g).know.(verified := true)));
  }

  // ---------------------------------------------------------------- another party's SeedGenerator

  /** The Secret is on the spoke and the intent to create the SeedGenerator is persisted. */
  lemma IntentRun() returns (h: seq<Entry>)
    ensures IsRun(h) && Last(h).know.verified && Last(h).know.armedGenerator
    ensures Last(h) == At(Submitted(), EMPTY_SPOKE.(secret := SECRET), Last(h).know, 0)
  {
    h := DetachedRun();
    h := LooksAround(h);
    h := Go(h, CreateSecret(Created, true), SecretAnswered(Last(h), Created, true));
    h := Save(h, Submitted());
  }

  /** The SeedGenerator is created and LCA runs. */
  lemma LcaRun() returns (h: seq<Entry>)
    ensures IsRun(h) && Last(h).know.verified
    ensures Last(h) == At(Submitted(), EMPTY_SPOKE.(generator := CREATED_GENERATOR, secret := SECRET, lca := Running), Last(h).know, 1)
  {
    h := IntentRun();
    hide Submitted;
    h := Go(h, CreateGenerator(Created, true), GeneratorAnswered(Last(h), Created, true));
    h := Go(h, LcaStarts, Last(h).(spoke := Last(h).spoke.(lca := Running)));
  }

  /** While LCA works, its object is away and another party takes the name. The reconcile that
      sees it fails the run, cleans up and removes the Secret under the running LCA. */
  lemma SecretDeletedUnderLca() returns (h: seq<Entry>)
    ensures IsRun(h) && |h| > 1 && h[|h| - 1].event == DeleteSecret(true)
    ensures h[|h| - 2].world.spoke.lca.Running? && SawForeignGenerator(h[|h| - 2].world.know)
    ensures Last(h) == At(Broken(Submitted(), Failed), TAKEN_SPOKE, Last(h).know, 1) && Last(h).know.verified
  {
    h := NameTaken();
    h := LooksAround(h);
    var w := Last(h);
    h := Go(h, DeleteSecret(true), w.(spoke := w.spoke.(secret := DeletedSecret(w.spoke.secret, true))));
  }

  const TAKEN_SPOKE: Spoke := EMPTY_SPOKE.(generator := Generator(false, false, false, Unfinished), lca := Running)

  lemma NameGiven() returns (h: seq<Entry>)
    ensures IsRun(h) && Last(h) == At(Submitted(), TAKEN_SPOKE.(secret := SECRET), Last(h).know, 1)
  {
    h := LcaRun();
    hide Submitted;
    h := Go(h, LcaRestores(NoGenerator, SECRET), Last(h).(spoke := Last(h).spoke.(generator := NoGenerator)));
    h := Go(h, OtherCreatesGenerator(Unfinished), Last(h).(spoke := TAKEN_SPOKE.(secret := SECRET)));
  }

  lemma NameTaken() returns (h: seq<Entry>)
    ensures IsRun(h) && Last(h) == At(Broken(Submitted(), Failed), TAKEN_SPOKE.(secret := SECRET), Last(h).know, 1)
    ensures Last(h).know.verified
  {
    h := NameGiven();
    h := Next(h);
    h := Go(h, VerifySpoke, Last(h).(know := Knows(Submitted())));
    h := Save(h, Broken(Submitted(), Failed));
  }

  /** The cleanup of that run is even recorded while LCA is still running. */
  lemma RecordUnderLca() returns (h: seq<Entry>)
    ensures IsRun(h) && Last(h).stored.detachedCleanupCompleted && Last(h).spoke.lca.Running?
  {
    h := SecretDeletedUnderLca();
    h := LooksAround(h);
    h := Save(h, Broken(Submitted(), Failed).(detachedCleanupCompleted := true));
  }

  // ---------------------------------------------------------------- a lost Job

  /** The image is pushed and the spoke is clean. */
  lemma CleanedRun() returns (h: seq<Entry>)
    ensures IsRun(h) && Last(h) == At(Cleaned(), EMPTY_SPOKE.(lca := Finished(true)), Last(h).know, 1)
    ensures !Last(h).know.jobAbsent && Last(h).know.read.isoJobUID == NONE
  {
    h := ImagedRun();
    h := LooksAround(h);
    var w := Last(h);
    h := Go(h, DeleteGenerator(true), w.(spoke := w.spoke.(generator := NoGenerator)));
    h := LooksAround(h);
    h := Save(h, Cleaned());
  }

  const DONE_SPOKE: Spoke := EMPTY_SPOKE.(generator := CREATED_GENERATOR.(result := Success), lca := Finished(true))

  lemma FinishedRun() returns (h: seq<Entry>)
    ensures IsRun(h) && Last(h) == At(Submitted(), DONE_SPOKE, Fresh(Submitted()), 1)
  {
    h := LcaRun();
    hide Submitted;
    h := Go(h, LcaFinishes(true, NoSecret), Last(h).(spoke := DONE_SPOKE));
    h := Next(h);
  }

  lemma ImagedRun() returns (h: seq<Entry>)
    ensures IsRun(h) && Last(h).know.verified && Last(h).know.read.isoJobUID == NONE && !Last(h).know.jobAbsent
    ensures Last(h) == At(Imaged(), DONE_SPOKE, Last(h).know, 1)
  {
    h := FinishedRun();
    h := Go(h, VerifySpoke, Last(h).(know := Knows(Submitted())));
    h := Go(h, LookAtGenerator, Last(h).(know := Knows(Submitted()).(generator := Looked(DONE_SPOKE.generator))));
    h := Save(h, Imaged());
  }

  lemma JobLost() returns (h: seq<Entry>)
    ensures IsRun(h)
    ensures Last(h) == At(Broken(Building(), Failed), EMPTY_SPOKE.(lca := Finished(true)), Last(h).know, 1).(
                         underwayJob := Job(1, 1, 1, true, false, false, false))
  {
    h := CleanedRun();
    h := Save(h, Building());
    h := Go(h, CreateJob(Ambiguous, false, 1, 1), JobAnswered(Last(h), Ambiguous, false, 1, 1));
    h := Save(h, Broken(Building(), Failed));
  }

  lemma NoJobListed() returns (h: seq<Entry>)
    ensures IsRun(h) && Last(h).know.jobsGone
    ensures Last(h) == At(Broken(Building(), Failed), EMPTY_SPOKE.(lca := Finished(true)), Last(h).know, 1).(
                         underwayJob := Job(1, 1, 1, true, false, false, false))
  {
    h := JobLost();
    hide Building, Broken;
    var w := Last(h);
    h := Go(h, ListJobs, w.(know := w.know.(job := Looked(NoJob), jobAbsent := true, jobsGone := false)));
    w := Last(h);
    h := Go(h, ListPods, w.(know := w.know.(jobsGone := true)));
  }

  function Budgeted(): Status {
    Broken(Building(), Failed).(isoUploadCleanupDeadline := Some(UPLOAD_CLEANUP_TIMEOUT))
  }

  /** The time budget of upload cleanup is persisted, then its completion. */
  lemma UploadSettledRun() returns (h: seq<Entry>)
    ensures IsRun(h) && Last(h).know.jobsGone
    ensures Last(h) == At(Budgeted().(isoUploadCleanupCompleted := true), EMPTY_SPOKE.(lca := Finished(true)), Last(h).know, 1).(
                         underwayJob := Job(1, 1, 1, true, false, false, false))
  {
    h := NoJobListed();
    h := Save(h, Budgeted());
    h := Save(h, Budgeted().(isoUploadCleanupCompleted := true));
  }

  /** The Job's Create loses its answer, the run fails, cleanup lists no Job and no Pod and settles
      the upload. Then the Job lands, and the snapshot is deleted while it exists. */
  lemma LostJobOutlivesSnapshot() returns (h: seq<Entry>)
    ensures IsRun(h) && |h| > 1 && h[|h| - 1].event.DeleteSnapshot? && OwnedJob(h[|h| - 2].world.hub.job)
  {
    h := UploadSettledRun();
    h := Lands(h);
    h := Go(h, DeleteSnapshot, Last(h));
  }

  lemma Lands(h: seq<Entry>) returns (g: seq<Entry>)
    requires IsRun(h) && Last(h).underwayJob.Job? && Last(h).hub.job.NoJob?
    ensures IsRun(g) && Last(g) == JobLanded(Last(h))
  {
    g := Go(h, JobLands, JobLanded(Last(h)));
  }
}
