/** The seed-generation part of the ProvisioningRequest reconciler, method by method. Every
    method extends a run of the protocol: each status write and each action on the hub or
    the spoke meets its guard, whatever the environment does in between. */
module SeedTask {
  import opened Wrappers
  import opened SeedStatus
  import opened SeedProtocol
  import opened SeedInvariant
  import opened SeedWrites
  import opened SeedDecisions

  datatype Error = NoError | Transient | Permanent
  datatype Outcome = Requeue | RetryWithError | Done

  const CREATED: int := 201

  /** Client errors that prove that the SeedGenerator was not created. */
  predicate DefinitelyRejected(code: int) {
    400 <= code < 500 && code != 408 && code != 409 && code != 429
  }

  /** What the API's answer proves about a Create; code 0 is an error without API status. */
  function ApiResponse(code: int): Response {
    if code == CREATED then Created
    else if code == 409 then AlreadyExists
    else if code == 429 then Throttled
    else if DefinitelyRejected(code) then Rejected
    else Ambiguous
  }

  function JobResponse(code: int): Response {
    if code == CREATED then Created
    else if code == 409 then AlreadyExists
    else if code == 429 then Throttled
    else if code in {400, 403, 422} then Rejected
    else Ambiguous
  }

  lemma LiveFacts(w: World)
    requires Inv(w) && Live(w.stored)
    ensures Started(w.stored) && w.stored.startedAt.value <= w.now
    ensures !w.stored.detachmentStarted ==> w.stored.cond.reason.Validating? || w.stored.cond.reason.InProgress?
    ensures w.stored.detachmentStarted ==> PinsSet(w.stored)
    ensures w.stored.agentDetachmentCompleted ==> w.stored.detachmentStarted
    ensures w.stored.seedGeneratorFinished ==>
      w.stored.agentDetachmentCompleted && w.stored.seedImage != NONE && w.cfg.hasISO && w.stored.releaseImageDigest != NONE
    ensures w.stored.isoJobSubmitted ==> w.stored.isoJobSubmittedAt.Some? && w.cfg.hasISO && w.stored.detachedCleanupCompleted
  {
  }

  /** What the rest of a reconcile may rely on after any environment step. */
  predicate Calm(v: World, w: World) {
    w.cfg == v.cfg && w.stored == v.stored && w.reach == v.reach && w.know == v.know && v.now <= w.now
  }

  lemma EnvironmentIsCalm(v: World, e: Event, w: World)
    requires EnvironmentStep(v, e, w)
    ensures Calm(v, w) && Step(v, e, w)
  {
  }

  /** Nothing of the run needs its inputs any more, and the objects it used were seen gone. */
  predicate Clean(w: World) {
    SnapshotReleasable(w) && w.know.workspaceGone && w.know.snapshotGone
  }

  lemma OwnedIsSubmitted(w: World)
    requires Inv(w) && w.know.generator.Looked? && OwnedGenerator(w.know.generator.what)
    ensures w.stored.seedGeneratorSubmitted
  {
  }

  lemma ArmedHasNoJob(w: World)
    requires Inv(w) && w.know.armedJob
    ensures w.stored.isoJobUID == NONE
  {
  }

  lemma SeenJobHasUID(w: World)
    requires Inv(w) && w.know.job.Looked? && OwnedJob(w.know.job.what)
    ensures w.know.job.what.uid != NONE
  {
  }

  lemma RoutedIsLive(w: World)
    requires Inv(w) && NeedsFastPath(w.stored) && !Terminal(w.stored.cond)
    ensures Live(w.stored)
    ensures w.stored.isoJobSubmitted ==> w.stored.detachmentStarted
  {
  }

  lemma UndetachedIsReleasable(w: World)
    requires Inv(w) && !NeedsFastPath(w.stored) && FailureNeedsCleanup(w.stored.cond)
    ensures SnapshotReleasable(w)
  {
  }

  predicate Opens(w: World) {
    Inv(w) && Live(w.stored) && !w.stored.detachmentStarted
  }

  /** A preflight result may be written, and the run failed if that does not work. */
  predicate Recordable(w: World, n: Status) {
    WriteOk(w, n) && Live(n) && NoNewIntent(w.stored, n) && !n.detachmentStarted
  }

  lemma FrozenOk(w: World, out: Outside)
    requires Opens(w) && w.stored.snapshotUIDs == NONE
    ensures Recordable(w, Frozen(out, w.stored))
  {
    PreflightOk(w, Frozen(out, w.stored));
    hide WriteOk, Inv;
  }

  lemma PinnedOk(w: World, out: Outside)
    requires Opens(w) && !IdentityFault(w.reach, out, w.stored)
    ensures Recordable(w, Pinned(w.reach, out, w.stored))
  {
    PreflightOk(w, Pinned(w.reach, out, w.stored));
    hide WriteOk, Inv;
  }

  lemma DigestOk(w: World, digest: Name)
    requires Opens(w) && w.stored.releaseImageDigest == NONE && digest != NONE
    ensures Recordable(w, w.stored.(releaseImageDigest := digest))
  {
    PreflightOk(w, w.stored.(releaseImageDigest := digest));
    hide WriteOk, Inv;
  }

  lemma ReadyOk(w: World)
    requires Opens(w)
    ensures Recordable(w, Says(w.stored, InProgress))
  {
    ProgressOk(w, InProgress);
    hide WriteOk, Inv;
  }

  lemma CleanedTwice(s: Status, m: Status, n: Status)
    requires Cleaned(s, m) && Cleaned(m, n)
    ensures Cleaned(s, n)
  {
  }

  /** A Secret on the spoke that does not do, or none and no credentials to create it. */
  predicate SecretRefused(out: Outside, s: SeedSecret) {
    match s
    case NoSecret => !out.credentials
    case SeedSecret(owned, dataMatches, deleting) => !owned || (!deleting && !dataMatches)
  }

  lemma RefusalDecides(v: View, s: Status, n: Status)
    requires v.k.secret.Looked? && SecretRefused(v.out, v.k.secret.what) && Ended(s, n, Failed) && !s.seedGeneratorSubmitted
    ensures SubmitDecision(v, s, n) && !n.seedGeneratorSubmitted
  {
    EndedKeepsIntent(s, n, Failed);
    hide Ended;
  }

  lemma WaitDecides(v: View, s: Status)
    requires v.k.secret.Looked? && OwnedSecret(v.k.secret.what) && v.k.secret.what.deleting
    ensures SubmitDecision(v, s, s)
  {
    hide Ended;
  }

  lemma SubmissionDecides(v: View, s: Status)
    requires v.k.secret == Looked(SeedSecret(true, true, false))
    ensures SubmitDecision(v, s, Sent(s))
  {
    hide Ended;
  }

  function Intended(s: Status, now: int, hash: Name): Status {
    s.(isoJobSubmitted := true, isoJobSubmittedAt := Some(now), isoJobSpecHash := hash, cond := Condition(false, BuildingISO))
  }

  function Withdrawn(s: Status): Status {
    s.(isoJobSubmitted := false, isoJobSubmittedAt := None, isoJobSpecHash := NONE, cond := Condition(false, BuildingISO))
  }

  lemma IntentKeeps(s: Status, now: int, hash: Name)
    ensures var n := Intended(s, now, hash);
      n.isoJobSubmitted && n.detachmentStarted == s.detachmentStarted && n.timeoutSeconds == s.timeoutSeconds &&
      (s.startedAt.Some? ==> Live(n))
  {
  }

  lemma IntentSubmits(v: View, s: Status, now: int)
    requires v.since <= now <= v.until && v.k.createdUID != NONE
    ensures Submitted(v, s, Intended(s, now, v.out.jobHash).(isoJobUID := v.k.createdUID))
  {
  }

  lemma EndedKeepsLogs(s: Status, n: Status, reason: Reason)
    ensures Ended(s, n, reason) ==> n.diagnosticsExpireAt == s.diagnosticsExpireAt
  {
  }

  predicate KeepsLogs(out: Outside, s: Status) {
    s.diagnosticsExpireAt.None? && out.hasLogs && out.logsKept
  }

  function Keeping(s: Status, at: int): Status {
    s.(diagnosticsExpireAt := Some(at))
  }

  lemma KeptLogsEnd(v: View, s: Status, n: Status, reason: Reason, at: int)
    requires KeepsLogs(v.out, s) && v.since + DIAGNOSTICS_RETENTION <= at <= v.until + DIAGNOSTICS_RETENTION
    ensures Ended(Keeping(s, at), n, reason) ==> LogsEnded(v, s, n, reason)
  {
    EndedKeepsLogs(Keeping(s, at), n, reason);
    hide Ended;
  }

  lemma NoLogsEnd(v: View, s: Status, n: Status, reason: Reason)
    requires !KeepsLogs(v.out, s)
    ensures Ended(s, n, reason) ==> LogsEnded(v, s, n, reason)
  {
    hide Ended;
  }

  lemma SaysKeepsLogs(out: Outside, s: Status, reason: Reason)
    ensures LogsRetried(out, Says(s, reason)) == LogsRetried(out, s)
  {
  }

  lemma RetryDecides(v: View, s: Status, reason: Reason)
    requires s.startedAt.Some? && LogsRetried(v.out, s) && v.since < Deadline(s)
    ensures JobEnded(v, s, Says(s, BuildingISO), reason)
  {
    hide Ended;
  }

  lemma EndDecides(v: View, s: Status, n: Status, reason: Reason)
    requires s.startedAt.Some? && LogsEnded(v, s, n, reason) && (LogsRetried(v.out, s) ==> v.until >= Deadline(s))
    ensures JobEnded(v, s, n, reason)
  {
    if LogsRetried(v.out, s) {
      LogsNotKept(v, s, n, reason);
    }
    hide Ended;
  }

  lemma LogsNotKept(v: View, s: Status, n: Status, reason: Reason)
    requires LogsRetried(v.out, s)
    ensures LogsEnded(v, s, n, reason) == Ended(s, n, reason)
  {
    hide Ended;
  }

  lemma LogsEndedAs(v: View, s: Status, n: Status, reason: Reason)
    ensures LogsEnded(v, s, n, reason) ==> n.cond == Condition(false, reason)
  {
    Endings(n);
    hide Ended;
  }

  lemma AcceptedOk(w: World)
    requires Inv(w) && Live(w.stored) && SawSuccess(w.know) && w.know.secret.NotLooked? && !Blank(w.cfg.seedImage)
    ensures WriteOk(w, Accepted(w.cfg, w.stored))
  {
    SeedImageOk(w);
    hide WriteOk, Inv;
  }

  lemma EndedKeepsIntent(s: Status, n: Status, reason: Reason)
    ensures Ended(s, n, reason) ==> n.seedGeneratorSubmitted == s.seedGeneratorSubmitted
  {
  }

  lemma CleanedAlready(s: Status)
    ensures Cleaned(s, s)
  {
  }

  lemma SameCourse(s: Status, n: Status)
    requires Cleaned(s, n)
    ensures n.cond == s.cond && n.startedAt == s.startedAt && n.timeoutSeconds == s.timeoutSeconds
    ensures n.detachmentStarted == s.detachmentStarted && n.isoJobSubmitted == s.isoJobSubmitted
    ensures n.seedGeneratorSubmitted == s.seedGeneratorSubmitted && (s.seedGeneratorFinished ==> n.seedGeneratorFinished)
  {
  }

  lemma FinishedIsCleaned(s: Status)
    ensures Cleaned(s, s.(seedGeneratorFinished := true))
  {
  }

  lemma RecordIsCleaned(s: Status)
    ensures Cleaned(s, s.(detachedCleanupCompleted := true))
  {
  }

  lemma PinIsCleaned(s: Status, uid: Name)
    requires s.isoJobUID == NONE
    ensures Cleaned(s, s.(isoJobUID := uid)) && s.(isoJobUID := uid).(isoJobUID := NONE) == s
  {
  }

  lemma DeadlineIsCleaned(s: Status, at: int)
    requires s.isoUploadCleanupDeadline.None?
    ensures Cleaned(s, s.(isoUploadCleanupDeadline := Some(at)))
  {
  }

  lemma UploadIsCleaned(s: Status)
    ensures Cleaned(s, s.(isoUploadCleanupCompleted := true))
  {
  }

  lemma SettledStays(s: Status, n: Status)
    requires Cleaned(s, n) && SpokeSettled(s)
    ensures SpokeSettled(n) && n.cond == s.cond
  {
  }

  /** A run has started: its clock, in whole seconds, and its timeout are persisted. */
  predicate HasStarted(s: Status, n: Status, timeout: int, since: int, until: int)
    requires timeout > 0
  {
    && n == s.(startedAt := n.startedAt, timeoutSeconds := TimeoutSeconds(timeout), cond := Condition(false, Validating))
    && n.startedAt.Some? && since - SECOND < n.startedAt.value <= until
  }

  /** Which route a run takes. */
  lemma RouteOfRun(w: World)
    requires Inv(w)
    ensures Live(w.stored) ==> NeedsFastPath(w.stored) && Started(w.stored)
    ensures w.stored.cond.NoCondition? ==> !NeedsFastPath(w.stored) && !Started(w.stored)
    ensures !NeedsFastPath(w.stored) ==> w.stored.cond.NoCondition? || Terminal(w.stored.cond)
  {
  }

  lemma SameSightings(k: Knowledge, n: Knowledge)
    ensures SameSpokeSights(k, n) ==>
      SawNoOwnedGenerator(n) == SawNoOwnedGenerator(k) && SawNoOwnedSecret(n) == SawNoOwnedSecret(k)
  {
  }

  lemma SameClean(v: World, w: World)
    requires Calm(v, w)
    ensures Clean(v) == Clean(w)
  {
  }

  /** Actions that a reconcile may owe. */
  datatype Deed =
    | CreatesGenerator | DeletesGenerator | DeletesSecret | CreatesJob | DeletesJob | DeletesPods | DeletesSnapshot | Provisions

  predicate Is(e: Event, d: Deed) {
    match d
    case CreatesGenerator => e.CreateGenerator?
    case DeletesGenerator => e.DeleteGenerator?
    case DeletesSecret => e.DeleteSecret?
    case CreatesJob => e.CreateJob?
    case DeletesJob => e.DeleteJob?
    case DeletesPods => e.DeletePods?
    case DeletesSnapshot => e.DeleteSnapshot?
    case Provisions => e.RunProvisioningPhases?
  }

  predicate Happened(h: seq<Entry>, from: nat, d: Deed) {
    exists i :: from <= i < |h| && Is(h[i].event, d)
  }

  lemma HappenedWithin(h: seq<Entry>, from: nat, g: seq<Entry>, to: nat, d: Deed)
    requires Happened(h, from, d) && h <= g && to <= from
    ensures Happened(g, to, d)
  {
    var i :| from <= i < |h| && Is(h[i].event, d);
    assert g[i] == h[i];
  }

  lemma WriteIsStep(w: World, n: Status, applied: bool, acked: bool)
    requires WriteOk(w, n) && (acked ==> applied)
    ensures Step(w, WriteStatus(n, applied, acked), Written(w, n, applied, acked))
  {
    hide WriteOk;
  }

  lemma SameAfterWrite(v: World, w: World, n: Status, acked: bool)
    requires Calm(v, w)
    ensures AfterWrite(v, n, acked) == AfterWrite(w, n, acked)
  {
  }

  predicate Answered(v: World, w: World) {
    w.cfg == v.cfg && w.stored == v.stored && w.reach == v.reach && w.know.read == v.know.read && v.now == w.now
  }

  predicate SameSpokeSights(k: Knowledge, n: Knowledge) {
    n.generator == k.generator && n.secret == k.secret && n.agentsGone == k.agentsGone
  }

  lemma VerifyIsStep(w: World)
    requires w.stored.clusterID != NONE && w.reach == w.stored.clusterID
    ensures Step(w, VerifySpoke, w.(know := w.know.(verified := true)))
  {
    hide WriteOk;
  }

  lemma AgentsLookIsStep(w: World)
    requires w.know.verified
    ensures Step(w, LookAtAgents, w.(know := w.know.(agentsGone := w.spoke.agentsGone)))
  {
    hide WriteOk;
  }

  lemma GeneratorLookIsStep(w: World)
    requires w.know.verified
    ensures Step(w, LookAtGenerator, w.(know := w.know.(generator := Looked(w.spoke.generator), secret := NotLooked)))
  {
    hide WriteOk;
  }

  lemma SecretLookIsStep(w: World)
    requires w.know.verified
    ensures Step(w, LookAtSecret, w.(know := w.know.(secret := Looked(w.spoke.secret))))
  {
    hide WriteOk;
  }

  lemma JobLookIsStep(w: World)
    ensures Step(w, LookAtJob, w.(know := w.know.(job := Looked(w.hub.job))))
  {
    hide WriteOk;
  }

  lemma JobListIsStep(w: World)
    ensures Step(w, ListJobs, w.(know := w.know.(job := Looked(w.hub.job), jobAbsent := !OwnedJob(w.hub.job), jobsGone := false)))
  {
    hide WriteOk;
  }

  lemma PodListIsStep(w: World)
    ensures Step(w, ListPods, w.(know := w.know.(jobsGone := w.know.jobAbsent && w.hub.pods == 0)))
  {
    hide WriteOk;
  }

  lemma WorkspaceListIsStep(w: World)
    ensures Step(w, ListWorkspace, w.(know := w.know.(workspaceGone := w.hub.workspace == 0)))
  {
    hide WriteOk;
  }

  lemma SnapshotListIsStep(w: World)
    ensures Step(w, ListSnapshot, w.(know := w.know.(snapshotGone := w.hub.snapshot == 0)))
  {
    hide WriteOk;
  }

  lemma GeneratorCreateIsStep(w: World, response: Response, effective: bool)
    requires w.know.verified && w.know.armedGenerator
    requires CreateAnswer(response, effective) && (effective ==> w.spoke.generator.NoGenerator?)
    ensures Step(w, CreateGenerator(response, effective), GeneratorAnswered(w, response, effective))
    ensures Answered(w, GeneratorAnswered(w, response, effective))
    ensures GeneratorAnswered(w, response, effective).know.rejectedGenerator == Disproves(response)
    ensures SameSpokeSights(w.know, GeneratorAnswered(w, response, effective).know)
  {
    hide WriteOk;
  }

  lemma SecretCreateIsStep(w: World, response: Response, effective: bool)
    requires w.know.verified && w.stored.agentDetachmentCompleted && !w.stored.seedGeneratorSubmitted
    requires !Terminal(w.stored.cond) && !w.stored.detachedCleanupCompleted
    requires CreateAnswer(response, effective) && (effective ==> w.spoke.secret.NoSecret?)
    ensures Step(w, CreateSecret(response, effective), SecretAnswered(w, response, effective))
    ensures Answered(w, SecretAnswered(w, response, effective))
    ensures var k := SecretAnswered(w, response, effective).know;
      && k.verified && k.generator == w.know.generator && k.agentsGone == w.know.agentsGone
      && (response.Created? ==> k.secret == Looked(SeedSecret(true, true, false)))
  {
    hide WriteOk;
  }

  lemma JobCreateIsStep(w: World, response: Response, effective: bool, uid: Name, activeDeadline: int)
    requires w.know.armedJob && uid != NONE && DeadlinePolicy(activeDeadline, w.stored.timeoutSeconds)
    requires CreateAnswer(response, effective) && (effective ==> w.hub.job.NoJob?)
    ensures Step(w, CreateJob(response, effective, uid, activeDeadline),
                 JobAnswered(w, response, effective, uid, activeDeadline))
    ensures Answered(w, JobAnswered(w, response, effective, uid, activeDeadline))
    ensures var k := JobAnswered(w, response, effective, uid, activeDeadline).know;
      && k.rejectedJob == Disproves(response) && (k.createdUID == if response.Created? then uid else NONE)
      && SameSpokeSights(w.know, k)
  {
    hide WriteOk;
  }

  class Task {
    /** What this reconcile is told from outside. */
    const outside: Outside
    var obj: Status
    var w: World
    /** Ghosts: when the reconcile began, the history, whether a status write or another call
        failed in it, and what it knew when it gave up the run, if it did. */
    ghost const began: int
    ghost var hist: seq<Entry>
    ghost var writeFailed: bool
    ghost var callFailed: bool
    ghost var basis: Option<Knowledge>

    ghost predicate Valid()
      reads this
    {
      IsRun(hist) && Last(hist) == w && began <= w.now
    }

    /** The object in memory is the persisted one. */
    ghost predicate Synced()
      reads this
    {
      Valid() && obj == w.stored
    }

    /** The run is live and this reconcile has not given it up. */
    ghost predicate Going()
      reads this
    {
      Synced() && Live(obj) && basis.None?
    }

    /** Neither a status write nor another call has failed. */
    ghost predicate Smooth()
      reads this
    {
      !writeFailed && !callFailed
    }

    /** What the decision of this reconcile rests on. */
    ghost function Basis(): Knowledge
      reads this
    {
      if basis.Some? then basis.value else w.know
    }

    ghost function Sees(): View
      reads this
    {
      View(w.cfg, w.reach, outside, Basis(), began, w.now)
    }

    /** The run goes on within the same reconcile. */
    twostate predicate Continues()
      reads this
    {
      && Valid() && old(hist) <= hist
      && w.cfg == old(w.cfg) && w.reach == old(w.reach) && w.know.read == old(w.know.read) && old(w.now) <= w.now
      && (old(writeFailed) ==> writeFailed) && (old(callFailed) ==> callFailed)
      && (old(basis).Some? ==> basis == old(basis))
    }

    /** As `Continues`, with nothing written. */
    twostate predicate Watches()
      reads this
    {
      Continues() && obj == old(obj) && w.stored == old(w.stored) && writeFailed == old(writeFailed) && basis == old(basis)
    }

    /** As `Watches`, and no call failed. */
    twostate predicate Rests()
      reads this
    {
      Watches() && callFailed == old(callFailed)
    }

    /** As `Watches`, with one call that may fail. */
    twostate predicate Tries(err: Error)
      reads this
    {
      Watches() && callFailed == (old(callFailed) || !err.NoError?)
    }

    /** Cleanup goes on; it never changes the outcome or the course of the run. */
    twostate predicate Tidies()
      reads this
    {
      Continues() && basis == old(basis) && Cleaned(old(obj), obj) && Cleaned(old(obj), w.stored)
    }

    /** An error is due to a failed call or write, or is permanent and due to the fault; and a
        fault leads to an error. */
    ghost predicate Blames(err: Error, fault: bool)
      reads this
    {
      (err.NoError? ==> !fault) && (!err.NoError? ==> callFailed || writeFailed || (fault && err.Permanent?))
    }

    /** Unless the run has ended, a reconcile in which nothing failed asks for the next one; if
        logs could not be kept, as an error. */
    ghost predicate ComesBack(r: Outcome)
      reads this
    {
      Smooth() && !FailureNeedsCleanup(w.stored.cond) ==>
        r.Requeue? || (r.RetryWithError? && LogsRetried(outside, w.stored))
    }

    twostate predicate Did(d: Deed)
      reads this
    {
      Happened(hist, |old(hist)|, d)
    }

    /** What was seen on the spoke before still is what the decision rests on. */
    twostate predicate SameSpoke()
      reads this
    {
      SameSpokeSights(old(w.know), Basis())
    }

    /** A reconcile begins on the persisted status, after any earlier history: a first start,
        a requeue or a restart of the manager at any point. */
    constructor (ghost h: seq<Entry>, world: World, reach: Name, outside: Outside)
      requires IsRun(h) && Last(h) == world
      ensures Synced() && Smooth() && basis.None? && hist == h + [Entry(Begin(reach), w)]
      ensures w == world.(reach := reach, know := Fresh(world.stored)) && this.outside == outside && began == w.now
    {
      this.outside := outside;
      obj := world.stored;
      w := world.(reach := reach, know := Fresh(world.stored));
      hist := h + [Entry(Begin(reach), world.(reach := reach, know := Fresh(world.stored)))];
      writeFailed, callFailed, basis, began := false, false, None, world.now;
      new;
      RunExtends(h, Begin(reach), w);
    }

    // -------------------------------------------------------------- steps of the protocol

    method Emit(e: Event, next: World)
      requires Valid() && Step(w, e, next) && w.now <= next.now
      modifies this
      ensures Valid() && w == next && hist == old(hist) + [Entry(e, next)]
      ensures obj == old(obj) && writeFailed == old(writeFailed) && callFailed == old(callFailed) && basis == old(basis)
    {
      hide Step;
      RunExtends(hist, e, next);
      w := next;
      hist := hist + [Entry(e, next)];
    }

    /** The other parties act, any number of times. */
    method Interfere()
      requires Valid()
      modifies this
      ensures Rests() && Calm(old(w), w)
    {
      hide Step, EnvironmentStep, IsRun;
      var n: nat := *;
      while n > 0
        invariant Rests() && Calm(old(w), w)
      {
        var e: Event := *;
        var next: World := *;
        if EnvironmentStep(w, e, next) {
          EnvironmentIsCalm(w, e, next);
          Emit(e, next);
        }
        n := n - 1;
      }
    }

    method Now() returns (now: int)
      requires Valid()
      modifies this
      ensures Rests() && w.know == old(w.know) && now == w.now
    {
      hide IsRun;
      Interfere();
      now := w.now;
    }

    /** Sends the object to the API. The write may fail, and may take effect although it is
        reported as failed. */
    method Send() returns (ok: bool)
      requires Valid() && WriteOk(w, obj)
      modifies this
      ensures Valid() && old(hist) <= hist && obj == old(obj) && writeFailed == old(writeFailed)
      ensures callFailed == old(callFailed) && basis == old(basis)
      ensures w.cfg == old(w.cfg) && w.reach == old(w.reach) && old(w.now) <= w.now
      ensures w.know == AfterWrite(old(w), obj, ok)
      ensures w.stored == obj || (!ok && w.stored == old(w.stored))
    {
      hide WriteOk, IsRun, Step, AfterWrite;
      Interfere();
      WriteOkStays(old(w), w, obj);
      var applied: bool := *;
      ok := *;
      ok := ok && applied;
      WriteIsStep(w, obj, applied, ok);
      assert AfterWrite(w, obj, ok) == AfterWrite(old(w), obj, ok) by { SameAfterWrite(old(w), w, obj, ok); }
      Emit(WriteStatus(obj, applied, ok), Written(w, obj, applied, ok));
    }

    /** Persists the object. A run whose write failed can still be failed from memory. */
    method UpdateStatus() returns (ok: bool)
      requires Valid() && WriteOk(w, obj)
      modifies this
      ensures Continues() && obj == old(obj) && SameSights(old(w.know), w.know)
      ensures callFailed == old(callFailed) && basis == old(basis)
      ensures ok && !old(w.stored.seedGeneratorSubmitted) && obj.seedGeneratorSubmitted ==>
        w.know.generator == Looked(NoGenerator) ==> w.know.armedGenerator
      ensures ok && !old(w.stored.isoJobSubmitted) && obj.isoJobSubmitted ==> w.know.armedJob
      ensures ok ==> w.stored == obj && writeFailed == old(writeFailed)
      ensures !ok ==> (w.stored == old(w.stored) || w.stored == obj) && writeFailed
      ensures !ok && Live(obj) && Live(old(w.stored)) && NoNewIntent(old(w.stored), obj) ==> Failable(w, obj)
    {
      hide WriteOk, Inv, IsRun, Failable;
      RunInv(hist);
      ok := Send();
      writeFailed := writeFailed || !ok;
      RunInv(hist);
      if !ok && Live(obj) && Live(old(w.stored)) && NoNewIntent(old(w.stored), obj) {
        FailedWriteIsFailable(old(w), obj, w);
      }
    }

    method AnyError() returns (err: Error)
      modifies this`callFailed
      ensures callFailed == (old(callFailed) || !err.NoError?)
    {
      err := *;
      callFailed := callFailed || !err.NoError?;
    }

    method LoadSnapshot() returns (err: Error)
      requires Valid() && SnapshotNeeded(w.stored)
      modifies this
      ensures Tries(err) && w.know == old(w.know)
    {
      hide IsRun;
      Interfere();
      Emit(Event.LoadSnapshot, w);
      err := AnyError();
    }

    /** Checks that the frozen kubeconfig still leads to the pinned cluster. */
    method VerifySpoke() returns (err: Error)
      requires Synced()
      modifies this
      ensures Watches() && (err.NoError? ==> w.know.verified && callFailed == old(callFailed))
      ensures Blames(err, SpokeFault(w.reach, obj)) && SameSpokeSights(old(w.know), w.know) && w.know.job == old(w.know.job)
    {
      hide IsRun, Step;
      if obj.clusterID == NONE {
        return Permanent;
      }
      Interfere();
      err := AnyError();
      if err.NoError? {
        if w.reach != obj.clusterID {
          return Permanent;
        }
        VerifyIsStep(w);
        Emit(Event.VerifySpoke, w.(know := w.know.(verified := true)));
      }
    }

    method MutateHub()
      requires Valid() && ActiveDetachment(w.stored) && w.know.verified
      modifies this
      ensures Rests() && w.know == old(w.know)
    {
      hide IsRun;
      Interfere();
      Emit(Event.MutateHub, w);
    }

    method MutateSpoke()
      requires Valid() && ActiveDetachment(w.stored) && w.know.verified
      modifies this
      ensures Rests() && w.know == old(w.know)
    {
      hide IsRun;
      Interfere();
      Emit(Event.MutateSpoke, w);
    }

    method LookAtAgents() returns (gone: bool)
      requires Valid() && w.know.verified
      modifies this
      ensures Rests() && w.know.agentsGone == gone
    {
      hide IsRun, Step;
      Interfere();
      gone := w.spoke.agentsGone;
      AgentsLookIsStep(w);
      Emit(Event.LookAtAgents, w.(know := w.know.(agentsGone := w.spoke.agentsGone)));
    }

    method GetGenerator() returns (g: Generator, err: Error)
      requires Valid() && w.know.verified
      modifies this
      ensures Tries(err) && w.know.verified && w.know.agentsGone == old(w.know.agentsGone)
      ensures err.NoError? ==> w.know.generator == Looked(g) && w.know.secret.NotLooked?
    {
      hide IsRun, Step;
      Interfere();
      GeneratorLookIsStep(w);
      g := w.spoke.generator;
      err := AnyError();
      if err.NoError? {
        Emit(LookAtGenerator, w.(know := w.know.(generator := Looked(w.spoke.generator), secret := NotLooked)));
      }
    }

    method GetSecret() returns (s: SeedSecret, err: Error)
      requires Valid() && w.know.verified
      modifies this
      ensures Tries(err) && w.know.verified && w.know.generator == old(w.know.generator)
      ensures w.know.agentsGone == old(w.know.agentsGone)
      ensures err.NoError? ==> w.know.secret == Looked(s)
    {
      hide IsRun, Step;
      Interfere();
      SecretLookIsStep(w);
      s := w.spoke.secret;
      err := AnyError();
      if err.NoError? {
        Emit(LookAtSecret, w.(know := w.know.(secret := Looked(w.spoke.secret))));
      }
    }

    /** Creates the seedgen Secret. A lost answer leaves it open whether the Secret was or will
        be created. */
    method CreateSecret() returns (code: int, transient: bool)
      requires Valid() && w.know.verified && w.stored.agentDetachmentCompleted && !w.stored.seedGeneratorSubmitted
      requires !Terminal(w.stored.cond) && !w.stored.detachedCleanupCompleted
      modifies this
      ensures Watches() && callFailed == (old(callFailed) || code != CREATED)
      ensures w.know.verified && w.know.generator == old(w.know.generator) && w.know.agentsGone == old(w.know.agentsGone)
      ensures code == CREATED ==> w.know.secret == Looked(SeedSecret(true, true, false))
    {
      hide IsRun, Step, SecretAnswered;
      Interfere();
      code, transient := *, *;
      var effective: bool := *;
      effective := effective && w.spoke.secret.NoSecret?;
      if !CreateAnswer(ApiResponse(code), effective) {
        code := 0;
      }
      callFailed := callFailed || code != CREATED;
      var response := ApiResponse(code);
      SecretCreateIsStep(w, response, effective);
      Emit(Event.CreateSecret(response, effective), SecretAnswered(w, response, effective));
    }

    /** The one Create of the SeedGenerator. Any answer may come back; only a lost or
        unspecific one leaves it open whether the Create took effect. */
    method CreateGenerator() returns (code: int, transient: bool)
      requires Valid() && w.know.verified && w.know.armedGenerator
      modifies this
      ensures Watches() && callFailed == (old(callFailed) || code != CREATED) && (code == 429 ==> transient)
      ensures w.know.rejectedGenerator == Disproves(ApiResponse(code)) && Did(CreatesGenerator)
      ensures SameSpokeSights(old(w.know), w.know)
    {
      hide IsRun, Step, GeneratorAnswered, JobAnswered;
      Interfere();
      code, transient := *, *;
      transient := transient || code == 429;
      var effective: bool := *;
      effective := effective && w.spoke.generator.NoGenerator?;
      if !CreateAnswer(ApiResponse(code), effective) {
        code := 0;
      }
      callFailed := callFailed || code != CREATED;
      var response := ApiResponse(code);
      GeneratorCreateIsStep(w, response, effective);
      Emit(Event.CreateGenerator(response, effective), GeneratorAnswered(w, response, effective));
      assert Is(hist[|hist| - 1].event, CreatesGenerator);
    }

    method DeleteGenerator() returns (err: Error)
      requires Valid() && w.know.verified && w.stored.detachmentStarted && w.stored.seedGeneratorFinished
      requires w.know.generator.Looked? && OwnedGenerator(w.know.generator.what)
      modifies this
      ensures Tries(err) && w.know == old(w.know) && Did(DeletesGenerator)
    {
      hide IsRun;
      Interfere();
      var gone: bool := *;
      Emit(Event.DeleteGenerator(gone), w.(spoke := w.spoke.(generator := Deleted(w.spoke.generator, gone))));
      assert Is(hist[|hist| - 1].event, DeletesGenerator);
      err := AnyError();
    }

    method DeleteSecret() returns (err: Error)
      requires Valid() && w.know.verified && w.stored.detachmentStarted && LcaSettled(w)
      requires w.know.generator.Looked? && w.know.secret.Looked? && OwnedSecret(w.know.secret.what)
      modifies this
      ensures Tries(err) && w.know == old(w.know) && Did(DeletesSecret)
    {
      hide IsRun;
      Interfere();
      var gone: bool := *;
      Emit(Event.DeleteSecret(gone), w.(spoke := w.spoke.(secret := DeletedSecret(w.spoke.secret, gone))));
      assert Is(hist[|hist| - 1].event, DeletesSecret);
      err := AnyError();
    }

    method GetJob() returns (job: Job, err: Error)
      requires Valid()
      modifies this
      ensures Tries(err) && (err.NoError? ==> w.know.job == Looked(job))
      ensures SameSpokeSights(old(w.know), w.know)
    {
      hide IsRun, Step;
      Interfere();
      JobLookIsStep(w);
      job := w.hub.job;
      err := AnyError();
      if err.NoError? {
        Emit(LookAtJob, w.(know := w.know.(job := Looked(w.hub.job))));
      }
    }

    /** Lists the Jobs that carry the labels of this run. */
    method ListJobs() returns (job: Job, err: Error)
      requires Valid()
      modifies this
      ensures Tries(err) && (err.NoError? ==> w.know.job == Looked(job) && w.know.jobAbsent == !OwnedJob(job))
    {
      hide IsRun, Step;
      Interfere();
      JobListIsStep(w);
      job := w.hub.job;
      err := AnyError();
      if err.NoError? {
        Emit(Event.ListJobs,
             w.(know := w.know.(job := Looked(w.hub.job), jobAbsent := !OwnedJob(w.hub.job), jobsGone := false)));
      }
    }

    method ListPods() returns (pods: nat, err: Error)
      requires Valid()
      modifies this
      ensures Tries(err) && w.know.job == old(w.know.job) && w.know.jobAbsent == old(w.know.jobAbsent)
      ensures err.NoError? ==> w.know.jobsGone == (old(w.know.jobAbsent) && pods == 0)
    {
      hide IsRun, Step;
      Interfere();
      PodListIsStep(w);
      pods := w.hub.pods;
      err := AnyError();
      if err.NoError? {
        Emit(Event.ListPods, w.(know := w.know.(jobsGone := w.know.jobAbsent && w.hub.pods == 0)));
      }
    }

    /** The one Create of the ISO build Job. The UID is known only if it was accepted. */
    method CreateJob(activeDeadline: int) returns (code: int, transient: bool, uid: Name)
      requires Valid() && w.know.armedJob && DeadlinePolicy(activeDeadline, w.stored.timeoutSeconds)
      modifies this
      ensures Watches() && callFailed == (old(callFailed) || code != CREATED) && (code == CREATED <==> uid != NONE)
      ensures w.know.rejectedJob == Disproves(JobResponse(code)) && w.know.createdUID == uid
      ensures SameSpokeSights(old(w.know), w.know) && Did(CreatesJob)
    {
      hide IsRun, Step, GeneratorAnswered, JobAnswered;
      Interfere();
      code, transient, uid := *, *, *;
      var effective: bool := *;
      effective := effective && w.hub.job.NoJob?;
      if uid == NONE {
        uid := 1;
      }
      if !CreateAnswer(JobResponse(code), effective) {
        code := 0;
      }
      callFailed := callFailed || code != CREATED;
      var response := JobResponse(code);
      var known := if response.Created? then uid else NONE;
      JobCreateIsStep(w, response, effective, uid, activeDeadline);
      Emit(Event.CreateJob(response, effective, uid, activeDeadline),
           JobAnswered(w, response, effective, uid, activeDeadline));
      assert Is(hist[|hist| - 1].event, CreatesJob);
      uid := known;
    }

    method DeleteJob() returns (err: Error)
      requires Valid() && Terminal(w.stored.cond) && w.know.job.Looked? && OwnedJob(w.know.job.what)
      requires w.stored.isoJobUID == w.know.job.what.uid
      modifies this
      ensures Tries(err) && w.know == old(w.know) && Did(DeletesJob)
    {
      hide IsRun;
      Interfere();
      var hub := if OwnedJob(w.hub.job) then w.hub.(job := w.hub.job.(deleting := true)) else w.hub;
      Emit(Event.DeleteJob, w.(hub := hub));
      assert Is(hist[|hist| - 1].event, DeletesJob);
      err := AnyError();
    }

    method DeletePods() returns (err: Error)
      requires Valid() && Terminal(w.stored.cond)
      modifies this
      ensures Tries(err) && w.know == old(w.know) && Did(DeletesPods)
    {
      hide IsRun;
      Interfere();
      Emit(Event.DeletePods, w);
      assert Is(hist[|hist| - 1].event, DeletesPods);
      err := AnyError();
    }

    method DeleteSnapshot() returns (err: Error)
      requires Valid() && SnapshotReleasable(w)
      modifies this
      ensures Tries(err) && w.know == old(w.know) && Did(DeletesSnapshot)
    {
      hide IsRun;
      Interfere();
      Emit(Event.DeleteSnapshot, w);
      assert Is(hist[|hist| - 1].event, DeletesSnapshot);
      err := AnyError();
    }

    method ListWorkspace() returns (objects: nat, err: Error)
      requires Valid()
      modifies this
      ensures Tries(err) && w.know.jobsGone == old(w.know.jobsGone)
      ensures err.NoError? ==> w.know.workspaceGone == (objects == 0)
    {
      hide IsRun, Step;
      Interfere();
      WorkspaceListIsStep(w);
      objects := w.hub.workspace;
      err := AnyError();
      if err.NoError? {
        Emit(Event.ListWorkspace, w.(know := w.know.(workspaceGone := w.hub.workspace == 0)));
      }
    }

    method ListSnapshot() returns (objects: nat, err: Error)
      requires Valid()
      modifies this
      ensures Tries(err) && w.know.jobsGone == old(w.know.jobsGone) && w.know.workspaceGone == old(w.know.workspaceGone)
      ensures err.NoError? ==> w.know.snapshotGone == (objects == 0)
    {
      hide IsRun, Step;
      Interfere();
      SnapshotListIsStep(w);
      objects := w.hub.snapshot;
      err := AnyError();
      if err.NoError? {
        Emit(Event.ListSnapshot, w.(know := w.know.(snapshotGone := w.hub.snapshot == 0)));
      }
    }

    // -------------------------------------------------------------- failing and progress

    /** A live run can be failed at any moment. */
    lemma CanFail()
      requires Synced() && Live(obj)
      ensures Failable(w, obj)
    {
      RunInv(hist);
      LiveIsFailable(w);
    }

    /** Gives up the run, on what is known now. */
    method Fail(reason: Reason) returns (r: Outcome)
      requires Valid() && basis.None? && FailureReason(reason) && WriteOk(w, Failing(obj, reason))
      modifies this
      ensures r.Done? ==> Clean(w)
      ensures Continues() && basis == Some(old(w.know))
      ensures Ended(old(obj), w.stored, reason) || (writeFailed && r.RetryWithError?)
      ensures ComesBack(r)
    {
      hide WriteOk, IsRun, Cleaned;
      basis := Some(w.know);
      obj := Failing(obj, reason);
      var ok := UpdateStatus();
      if !ok {
        return RetryWithError;
      }
      r := FinishCleanup();
      Endings(w.stored);
    }

    /** Cleans up and comes back as long as something is pending or build logs are retained. */
    method FinishCleanup() returns (r: Outcome)
      requires Synced() && Terminal(obj.cond)
      modifies this
      ensures Continues() && basis == old(basis) && Cleaned(old(obj), w.stored)
      ensures r.Done? ==> Clean(w) && (old(obj.diagnosticsExpireAt).Some? ==> old(obj.diagnosticsExpireAt).value <= w.now)
      ensures r.Requeue? ==>
        !Clean(w) || !w.know.jobsGone ||
        (old(obj.diagnosticsExpireAt).Some? && old(w.now) < old(obj.diagnosticsExpireAt).value)
      ensures r.RetryWithError? ==> callFailed || writeFailed || CleanupFault(old(obj))
    {
      hide IsRun, Clean;
      var pending, err := CleanupRunResources();
      if !err.NoError? {
        return RetryWithError;
      }
      if pending {
        return Requeue;
      }
      ghost var cleaned := w;
      var now := Now();
      SameClean(cleaned, w);
      r := if obj.diagnosticsExpireAt.Some? && obj.diagnosticsExpireAt.value > now then Requeue else Done;
    }

    /** Cleanup finds something that is not of this run. */
    ghost predicate CleanupFault(s: Status)
      reads this
    {
      || (s.detachmentStarted && !s.detachedCleanupCompleted && SpokeFault(w.reach, s))
      || (!outside.podsValid && !w.know.jobsGone)
      || (w.know.job.Looked? && OwnedJob(w.know.job.what) &&
          (w.know.job.what.uid == NONE || (s.isoJobUID != NONE && s.isoJobUID != w.know.job.what.uid)))
    }

    method LifecycleError(err: Error) returns (r: Outcome)
      requires Valid() && basis.None? && !err.NoError? && (err.Permanent? ==> Failable(w, obj))
      modifies this
      ensures r.Done? ==> Clean(w)
      ensures Continues() && SameSpoke() && Basis().job == old(w.know.job)
      ensures err.Transient? ==> Rests() && w.know == old(w.know) && r.RetryWithError?
      ensures err.Permanent? ==> (Ended(old(obj), w.stored, Failed) || writeFailed) && ComesBack(r)
    {
      hide WriteOk, IsRun, Ended;
      if err.Transient? {
        return RetryWithError;
      }
      r := Fail(Failed);
    }

    method PreflightError(err: Error) returns (r: Outcome)
      requires Valid() && basis.None? && !err.NoError? && (err.Permanent? ==> Failable(w, obj))
      modifies this
      ensures r.Done? ==> Clean(w)
      ensures Continues()
      ensures err.Transient? ==> Rests() && r.RetryWithError?
      ensures err.Permanent? ==> (Ended(old(obj), w.stored, PreconditionChecksFailed) || writeFailed) && ComesBack(r)
    {
      hide WriteOk, IsRun, Ended;
      if err.Transient? {
        return RetryWithError;
      }
      r := Fail(PreconditionChecksFailed);
    }

    method UpdateProgress(reason: Reason) returns (ok: bool)
      requires Synced() && Live(obj) && ProgressReason(obj, reason)
      modifies this
      ensures Continues() && callFailed == old(callFailed) && basis == old(basis)
      ensures obj == Says(old(obj), reason) && Live(obj)
      ensures if ok then Synced() && writeFailed == old(writeFailed) else Failable(w, obj) && writeFailed
      ensures SameSights(old(w.know), w.know)
    {
      hide WriteOk, IsRun, Inv, Failable;
      var sameMessage: bool := *;
      if obj.cond == Condition(false, reason) && sameMessage {
        return true;
      }
      RunInv(hist);
      ProgressOk(w, reason);
      obj := obj.(cond := Condition(false, reason));
      ok := UpdateStatus();
    }

    method SomeError() returns (err: Error)
      ensures !err.NoError?
    {
      var transient: bool := *;
      err := if transient then Transient else Permanent;
    }

    /** Writes a cleanup result, which never changes the outcome of the run. */
    method RecordCleanup(n: Status) returns (err: Error)
      requires Synced() && Terminal(obj.cond) && Cleaned(obj, n) && WriteOk(w, n)
      modifies this
      ensures Tidies() && obj == n && SameSights(old(w.know), w.know) && callFailed == old(callFailed)
      ensures w.stored == n || w.stored == old(w.stored)
      ensures if err.NoError? then Synced() else writeFailed
    {
      hide WriteOk, IsRun, Failable, NoNewIntent, Live, Cleaned;
      CleanedAlready(n);
      CleanedAlready(obj);
      obj := n;
      var ok := UpdateStatus();
      err := NoError;
      if !ok {
        err := SomeError();
      }
    }

    // -------------------------------------------------------------- preflight

    /** Freezes the inputs and records the UIDs of the objects that hold them. */
    method EnsureSnapshot() returns (retry: bool, err: Error)
      requires Going() && !obj.detachmentStarted
      modifies this
      ensures Continues() && basis.None?
      ensures err.NoError? ==>
        Synced() && (retry <==> !outside.snapshotReady) && obj == if retry then old(obj) else Frozen(outside, old(obj))
      ensures !err.NoError? ==> Failable(w, obj) && (!writeFailed ==> obj == old(obj))
      ensures Blames(err, outside.snapshotReady && SnapshotFault(outside, old(obj)))
    {
      hide WriteOk, IsRun, Inv, Failable;
      err := LoadSnapshot();
      CanFail();
      retry := !outside.snapshotReady;
      if !err.NoError? || retry {
        return;
      }
      if SnapshotFault(outside, obj) {
        return false, Permanent;
      }
      if obj.snapshotUIDs == NONE {
        RunInv(hist);
        FrozenOk(w, outside);
        hide Frozen, Recordable, Opens;
        err := RecordPreflight(Frozen(outside, obj));
      }
    }

    /** Writes a preflight result; the run can be failed if that does not work. */
    method RecordPreflight(n: Status) returns (err: Error)
      requires Going() && Recordable(w, n)
      modifies this
      ensures Continues() && basis.None? && callFailed == old(callFailed) && obj == n && Live(obj) && !obj.detachmentStarted
      ensures if err.NoError? then Synced() else Failable(w, obj) && writeFailed
    {
      hide WriteOk, IsRun, Failable;
      obj := n;
      var ok := UpdateStatus();
      err := NoError;
      if !ok {
        err := SomeError();
      }
    }

    /** Records the identities that must stay the same for the rest of the run. */
    method PinIdentity() returns (err: Error)
      requires Going() && !obj.detachmentStarted
      modifies this
      ensures Continues() && basis.None?
      ensures err.NoError? ==> Synced() && obj == Pinned(w.reach, outside, old(obj))
      ensures !err.NoError? ==> Failable(w, obj) && (!writeFailed ==> obj == old(obj))
      ensures Blames(err, IdentityFault(w.reach, outside, old(obj)))
    {
      hide WriteOk, IsRun, Inv, Failable, Pinned, IdentityFault, Recordable;
      Interfere();
      err := AnyError();
      CanFail();
      if !err.NoError? {
        return;
      }
      if IdentityFault(w.reach, outside, obj) {
        return Permanent;
      }
      RunInv(hist);
      PinnedOk(w, outside);
      err := RecordPreflight(Pinned(w.reach, outside, obj));
    }

    method PinDigest() returns (err: Error)
      requires Going() && !obj.detachmentStarted && obj.releaseImageDigest == NONE
      modifies this
      ensures Continues() && basis.None? && callFailed == old(callFailed)
      ensures err.NoError? ==> Synced() && Live(obj) && obj == old(obj).(releaseImageDigest := outside.digest)
      ensures !err.NoError? ==> Failable(w, obj) && (!writeFailed ==> obj == old(obj))
      ensures Blames(err, outside.digest == NONE)
    {
      hide WriteOk, IsRun, Inv, Failable, Recordable;
      CanFail();
      if outside.digest == NONE {
        return Permanent;
      }
      RunInv(hist);
      DigestOk(w, outside.digest);
      err := RecordPreflight(obj.(releaseImageDigest := outside.digest));
    }

    method CheckInstaller() returns (complete: bool, err: Error)
      requires Going() && !obj.detachmentStarted
      modifies this
      ensures Continues() && basis.None?
      ensures err.NoError? ==> Synced() && Live(obj) && obj == Says(old(obj), InProgress)
      ensures !err.NoError? ==> Failable(w, obj) && !Smooth()
    {
      hide WriteOk, IsRun, Inv, Failable, Recordable;
      complete := false;
      RunInv(hist);
      ReadyOk(w);
      err := RecordPreflight(Says(obj, InProgress));
      if err.NoError? {
        CanFail();
        err := AnyError();
        complete := *;
      }
    }

    /** Pins the release digest in one reconcile and checks the installer in a later one. */
    method ToolsPreflight() returns (complete: bool, err: Error)
      requires Going() && !obj.detachmentStarted
      modifies this
      ensures Continues() && basis.None?
      ensures err.NoError? ==> Synced() && Live(obj) && obj == ToolsNext(w.cfg, outside, old(obj))
      ensures err.NoError? && complete && w.cfg.hasISO ==> old(obj.releaseImageDigest) != NONE && obj.cond.reason.InProgress?
      ensures err.NoError? && !w.cfg.hasISO ==> complete
      ensures !err.NoError? ==> Failable(w, obj) && (Smooth() ==> obj == old(obj))
      ensures Blames(err, ToolsFault(w.cfg, outside, old(obj)))
    {
      hide WriteOk, IsRun, Inv, Failable;
      CanFail();
      if !w.cfg.hasISO {
        return true, NoError;
      }
      complete := false;
      err := AnyError();
      if !err.NoError? || !outside.toolsReady {
        return;
      }
      if obj.releaseImageDigest == NONE {
        err := PinDigest();
      } else {
        complete, err := CheckInstaller();
      }
    }

    method Preflight() returns (r: Outcome)
      requires Going() && !obj.detachmentStarted && obj.cond.reason.Validating?
      modifies this
      ensures r.Done? ==> Clean(w)
      ensures Continues()
      ensures Smooth() ==> PreflightDecision(Sees(), old(obj), w.stored)
      ensures ComesBack(r)
    {
      hide WriteOk, IsRun, Inv, Failable, Ended, SnapshotFault, IdentityFault;
      var retry, err := EnsureSnapshot();
      if !err.NoError? {
        r := PreflightError(err);
        return;
      }
      if retry {
        return Requeue;
      }
      err := PinIdentity();
      if !err.NoError? {
        r := PreflightError(err);
        return;
      }
      var complete;
      complete, err := ToolsPreflight();
      if !err.NoError? {
        r := PreflightError(err);
        return;
      }
      if !complete {
        return Requeue;
      }
      if obj.cond.reason.Validating? {
        var ok := UpdateProgress(InProgress);
        if !ok {
          return RetryWithError;
        }
      }
      return Requeue;
    }

    // -------------------------------------------------------------- detachment and SeedGenerator

    /** Changes on the hub and the spoke. Their order is the subject of module `Detachment`;
        here it counts that they follow the persisted intent. */
    method ChangeAgents()
      requires Going() && w.know.verified && ActiveDetachment(obj)
      modifies this
      ensures Rests() && w.know == old(w.know)
    {
      hide IsRun;
      var changes: nat := *;
      while changes > 0
        invariant Rests() && w.know == old(w.know)
      {
        var onHub: bool := *;
        if onHub {
          MutateHub();
        } else {
          MutateSpoke();
        }
        changes := changes - 1;
      }
    }

    /** Records that the agents are gone. */
    method RecordDetached() returns (err: Error)
      requires Going() && obj.detachmentStarted && w.know.agentsGone
      modifies this
      ensures Continues() && basis.None? && callFailed == old(callFailed) && w.know.agentsGone
      ensures obj == AgentsDetached(old(obj))
      ensures if err.NoError? then Synced() && Live(obj) else Failable(w, obj) && writeFailed
    {
      hide WriteOk, IsRun, Inv, Failable;
      RunInv(hist);
      DetachedOk(w);
      obj := AgentsDetached(obj);
      var ok := UpdateStatus();
      err := NoError;
      if !ok {
        err := SomeError();
      }
    }

    /** Detaches the ACM agents. */
    method DetachAgents() returns (pending: bool, err: Error)
      requires Going() && obj.detachmentStarted
      modifies this
      ensures Continues() && basis.None?
      ensures err.NoError? && !pending ==> Synced() && Live(obj)
      ensures err.NoError? && !pending ==>
        if old(obj.agentDetachmentCompleted) then obj == old(obj)
        else obj == AgentsDetached(old(obj)) && w.know.agentsGone
      ensures err.NoError? && pending ==> !old(obj.agentDetachmentCompleted) && !w.know.agentsGone
      ensures err.NoError? && pending ==> w.stored == Says(old(obj), CleaningACMResources)
      ensures !err.NoError? ==> Failable(w, obj) && (Smooth() ==> obj == old(obj))
      ensures Blames(err, !old(obj.agentDetachmentCompleted) && SpokeFault(w.reach, old(obj)))
    {
      hide WriteOk, IsRun, Inv, Failable;
      pending := false;
      if obj.agentDetachmentCompleted {
        return false, NoError;
      }
      err := VerifySpoke();
      CanFail();
      if !err.NoError? {
        return;
      }
      RunInv(hist);
      LiveFacts(w);
      ChangeAgents();
      err := AnyError();
      if !err.NoError? {
        CanFail();
        return;
      }
      var gone := LookAtAgents();
      if gone {
        err := RecordDetached();
      } else {
        pending := true;
        var ok := UpdateProgress(CleaningACMResources);
        if !ok {
          err := SomeError();
        }
      }
    }

    method ReconcileSeedGenerator() returns (r: Outcome)
      requires Going() && obj.agentDetachmentCompleted && obj.detachmentStarted
      modifies this
      ensures r.Done? ==> Clean(w)
      ensures Continues() && Basis().agentsGone == old(w.know.agentsGone)
      ensures Smooth() ==> GeneratorDecision(Sees(), old(obj), w.stored)
      ensures ComesBack(r)
    {
      hide WriteOk, IsRun, Inv, Failable, Ended, Observed, SubmitDecision;
      CanFail();
      if Blank(w.cfg.seedImage) {
        FailableAs(Failed);
        r := Fail(Failed);
        return;
      }
      var err := VerifySpoke();
      if !err.NoError? {
        r := ObservationError(err);
        return;
      }
      var g;
      g, err := GetGenerator();
      if !err.NoError? {
        r := ObservationError(err);
        return;
      }
      if g.Generator? {
        r := ReconcileExisting(g);
      } else if obj.seedGeneratorSubmitted {
        r := WaitForStatus();
      } else {
        r := SubmitSeedGenerator();
      }
    }

    /** A SeedGenerator exists. */
    method ReconcileExisting(g: Generator) returns (r: Outcome)
      requires Going() && g.Generator? && w.know.generator == Looked(g) && w.know.secret.NotLooked?
      modifies this
      ensures r.Done? ==> Clean(w)
      ensures Continues() && SameSpoke()
      ensures !writeFailed ==>
        if !g.owned || !g.specMatches then Ended(old(obj), w.stored, Failed)
        else if g.deleting then w.stored == Says(old(obj), InProgress)
        else Observed(w.cfg, g.result, old(obj), w.stored)
      ensures ComesBack(r)
    {
      hide WriteOk, IsRun, Inv, Failable, Ended, Observed;
      if !g.owned || !g.specMatches {
        CanFail();
        FailableAs(Failed);
        r := Fail(Failed);
        return;
      }
      if g.deleting {
        r := WaitForStatus();
        return;
      }
      if !obj.seedGeneratorSubmitted {
        // An owned SeedGenerator exists only after its intent was persisted.
        RunInv(hist);
        OwnedIsSubmitted(w);
        assert false;
      }
      r := ObserveSeedGenerator(g);
    }

    lemma FailableAs(reason: Reason)
      requires Failable(w, obj) && FailureReason(reason)
      ensures WriteOk(w, Failing(obj, reason))
    {
    }

    /** Puts the frozen credentials on the spoke; `wait` asks for another reconcile. */
    method EnsureSeedSecret() returns (wait: bool, err: Error)
      requires Going() && obj.agentDetachmentCompleted && !obj.seedGeneratorSubmitted
      requires w.know.verified
      modifies this
      ensures Watches() && w.know.generator == old(w.know.generator) && w.know.verified
      ensures w.know.agentsGone == old(w.know.agentsGone)
      ensures err.NoError? && !wait ==> w.know.secret == Looked(SeedSecret(true, true, false))
      ensures err.NoError? && wait ==>
        callFailed || (w.know.secret.Looked? && OwnedSecret(w.know.secret.what) && w.know.secret.what.deleting)
      ensures !err.NoError? ==>
        callFailed || (err.Permanent? && w.know.secret.Looked? && SecretRefused(outside, w.know.secret.what))
    {
      hide WriteOk, IsRun, Inv, Failable;
      wait := false;
      var secret;
      secret, err := GetSecret();
      if !err.NoError? {
        return;
      }
      if secret.NoSecret? {
        if !outside.credentials {
          return false, Permanent;
        }
        RunInv(hist);
        SubmitOk(w);
        var code, transient := CreateSecret();
        if code == 409 {
          return true, NoError;
        }
        if code != CREATED {
          err := if transient then Transient else Permanent;
        }
      } else if SecretRefused(outside, secret) {
        err := Permanent;
      } else {
        wait := secret.deleting;
      }
    }

    /** Persists the intent to create the SeedGenerator, and only then creates it: a lost
        answer must never lead to a second one. */
    method SubmitSeedGenerator() returns (r: Outcome)
      requires Going() && obj.agentDetachmentCompleted && !obj.seedGeneratorSubmitted
      requires w.know.verified && w.know.generator == Looked(NoGenerator)
      modifies this
      ensures r.Done? ==> Clean(w)
      ensures Continues() && Basis().generator == old(w.know.generator) && Basis().agentsGone == old(w.know.agentsGone)
      ensures Smooth() ==> SubmitDecision(Sees(), old(obj), w.stored)
      ensures Smooth() && w.stored.seedGeneratorSubmitted ==> Did(CreatesGenerator)
      ensures ComesBack(r)
    {
      hide WriteOk, IsRun, Inv, Failable, Ended, SubmitDecision, SecretRefused, Happened, Clean, SameSights, Sent;
      var wait, err := EnsureSeedSecret();
      if !err.NoError? {
        r := RefuseSecret(err);
        return;
      }
      if wait {
        if Smooth() {
          WaitDecides(Sees(), old(obj));
        }
        return Requeue;
      }
      ghost var before := hist;
      r := CreateWithIntent();
      if Smooth() {
        SubmissionDecides(Sees(), old(obj));
        HappenedWithin(hist, |before|, hist, |old(hist)|, CreatesGenerator);
      }
    }

    method RefuseSecret(err: Error) returns (r: Outcome)
      requires Going() && !err.NoError? && !obj.seedGeneratorSubmitted
      requires callFailed || (err.Permanent? && w.know.secret.Looked? && SecretRefused(outside, w.know.secret.what))
      modifies this
      ensures r.Done? ==> Clean(w)
      ensures Continues() && SameSpoke() && ComesBack(r)
      ensures Smooth() ==> SubmitDecision(Sees(), old(obj), w.stored) && !w.stored.seedGeneratorSubmitted
    {
      hide WriteOk, IsRun, Inv, Failable, Ended, SubmitDecision, SecretRefused;
      CanFail();
      r := LifecycleError(err);
      if Smooth() {
        RefusalDecides(Sees(), old(obj), w.stored);
      }
    }

    method CreateWithIntent() returns (r: Outcome)
      requires Going() && obj.agentDetachmentCompleted && !obj.seedGeneratorSubmitted
      requires w.know.verified && w.know.generator == Looked(NoGenerator)
      modifies this
      ensures r.Done? ==> Clean(w)
      ensures Continues() && SameSpoke()
      ensures Smooth() ==> w.stored == Sent(old(obj))
      ensures !old(writeFailed) ==> writeFailed || Did(CreatesGenerator)
      ensures ComesBack(r)
    {
      hide WriteOk, IsRun, Inv, Failable, Ended;
      RunInv(hist);
      SubmitOk(w);
      obj := Sent(obj);
      var ok := UpdateStatus();
      if !ok {
        return RetryWithError;
      }
      ghost var before := hist;
      var code, transient := CreateGenerator();
      HappenedWithin(hist, |before|, hist, |old(hist)|, CreatesGenerator);
      if code == CREATED {
        return Requeue;
      }
      ghost var created := hist;
      r := SubmissionError(code, transient);
      HappenedWithin(created, |old(hist)|, hist, |old(hist)|, CreatesGenerator);
    }

    /** The answer decides what becomes of the guard: it falls only if it proves that the
        Create did nothing. */
    method SubmissionError(code: int, transient: bool) returns (r: Outcome)
      requires Going() && obj.seedGeneratorSubmitted && (code == 429 ==> transient)
      requires w.know.rejectedGenerator == Disproves(ApiResponse(code)) && code != CREATED
      modifies this
      ensures r.Done? ==> Clean(w)
      ensures Continues() && SameSpoke()
      ensures code == 409 ==> Rests() && r.Requeue?
      ensures code == 429 && !writeFailed ==>
        w.stored == old(obj).(seedGeneratorSubmitted := false, cond := Condition(false, InProgress)) && r.RetryWithError?
      ensures code != 409 && code != 429 && transient ==> w.stored == old(obj) && r.RetryWithError?
      ensures code != 409 && code != 429 && !transient && !writeFailed ==>
        Ended(if DefinitelyRejected(code) then old(obj).(seedGeneratorSubmitted := false) else old(obj), w.stored, Failed)
    {
      hide WriteOk, IsRun, Inv, Failable, Ended;
      if code == 409 {
        return Requeue;
      }
      RunInv(hist);
      if code == 429 {
        UnsubmitOk(w);
        obj := obj.(seedGeneratorSubmitted := false, cond := Condition(false, InProgress));
        var ok := UpdateStatus();
        if !ok {
          return RetryWithError;
        }
      } else {
        CanFail();
      }
      if DefinitelyRejected(code) {
        UnsubmitOk(w);
        obj := obj.(seedGeneratorSubmitted := false);
      }
      r := LifecycleError(if transient then Transient else Permanent);
    }

    method ObservationError(err: Error) returns (r: Outcome)
      requires Going() && !err.NoError?
      modifies this
      ensures r.Done? ==> Clean(w)
      ensures Continues() && SameSpoke()
      ensures err.Transient? && !writeFailed ==>
        r.RetryWithError? && w.stored == if old(obj.seedGeneratorSubmitted) then Says(old(obj), InProgress) else old(obj)
      ensures err.Permanent? ==> (Ended(old(obj), w.stored, Failed) || writeFailed) && ComesBack(r)
    {
      hide WriteOk, IsRun, Inv, Failable, Ended;
      if obj.seedGeneratorSubmitted && err.Transient? {
        var ok := UpdateProgress(InProgress);
        if !ok {
          return RetryWithError;
        }
      }
      CanFail();
      r := LifecycleError(err);
    }

    method WaitForStatus() returns (r: Outcome)
      requires Going()
      modifies this
      ensures r.Done? ==> Clean(w)
      ensures Continues() && SameSpoke() && callFailed == old(callFailed)
      ensures !writeFailed ==> r.Requeue? && w.stored == Says(old(obj), InProgress)
      ensures ComesBack(r)
    {
      hide WriteOk, IsRun, Inv, Failable;
      var ok := UpdateProgress(InProgress);
      return if ok then Requeue else RetryWithError;
    }

    /** Acts on what LCA reports: a success brings the seed image and the next step, a failure
        ends the run, and otherwise it waits. */
    method ObserveSeedGenerator(g: Generator) returns (r: Outcome)
      requires Going() && OwnedGenerator(g)
      requires w.know.generator == Looked(g) && w.know.secret.NotLooked?
      modifies this
      ensures r.Done? ==> Clean(w)
      ensures Continues() && SameSpoke()
      ensures !writeFailed ==> Observed(w.cfg, g.result, old(obj), w.stored)
      ensures ComesBack(r)
    {
      hide WriteOk, IsRun, Inv, Failable, Ended;
      RunInv(hist);
      if g.result.Failure? {
        LcaFailedOk(w);
        obj := obj.(seedGeneratorFinished := true);
        FailableAs(Failed);
        r := Fail(Failed);
      } else if g.result.Unfinished? {
        r := WaitForStatus();
      } else if Blank(w.cfg.seedImage) {
        CanFail();
        FailableAs(Failed);
        r := Fail(Failed);
      } else {
        r := AcceptSeedImage();
      }
    }

    method AcceptSeedImage() returns (r: Outcome)
      requires Going() && SawSuccess(w.know) && w.know.secret.NotLooked? && !Blank(w.cfg.seedImage)
      modifies this
      ensures r.Done? ==> Clean(w)
      ensures Continues() && SameSpoke()
      ensures !writeFailed ==> Observed(w.cfg, Success, old(obj), w.stored)
      ensures ComesBack(r)
    {
      hide WriteOk, IsRun, Inv, Failable, Ended;
      RunInv(hist);
      if ImageFault(w.cfg, obj) {
        LcaFailedOk(w);
        obj := obj.(seedGeneratorFinished := true);
        FailableAs(Failed);
        r := Fail(Failed);
        return;
      }
      AcceptedOk(w);
      obj := Accepted(w.cfg, obj);
      hide Accepted;
      var ok := UpdateStatus();
      return if ok then Requeue else RetryWithError;
    }

    method ReconcileDetached() returns (r: Outcome)
      requires Going() && obj.detachmentStarted && w.know.read.isoJobUID == obj.isoJobUID
      modifies this
      ensures r.Done? ==> Clean(w)
      ensures Continues()
      ensures Smooth() ==> DetachedDecision(Sees(), old(obj), w.stored)
      ensures ComesBack(r)
    {
      hide WriteOk, IsRun, Inv, Failable, Ended, GeneratorDecision, ISODecision;
      var pending, err;
      if obj.seedGeneratorFinished && w.cfg.hasISO {
        r := CleanAndBuild();
        return;
      }
      pending, err := DetachAgents();
      if !err.NoError? {
        r := LifecycleError(err);
      } else if pending {
        r := Requeue;
      } else {
        r := ReconcileSeedGenerator();
      }
    }

    /** The seed image is there: the spoke is cleaned before the ISO is built. */
    method CleanAndBuild() returns (r: Outcome)
      requires Going() && obj.detachmentStarted && obj.seedGeneratorFinished && w.cfg.hasISO
      requires w.know.read.isoJobUID == obj.isoJobUID
      modifies this
      ensures r.Done? ==> Clean(w)
      ensures Continues()
      ensures Smooth() ==> CleanupDecision(Sees(), old(obj), w.stored)
      ensures ComesBack(r)
    {
      hide WriteOk, IsRun, Inv, Failable, Ended, ISODecision, Cleaned, SawNoOwnedGenerator, SawNoOwnedSecret;
      var pending, err := CleanupDetachedAndRecord();
      if !err.NoError? {
        r := LifecycleError(err);
      } else if pending {
        r := Requeue;
      } else {
        ghost var known := w.know;
        r := ReconcileISO();
        SameSightings(known, Basis());
      }
    }

    // -------------------------------------------------------------- spoke cleanup

    predicate CleaningUp()
      reads this
    {
      Terminal(obj.cond) || (Live(obj) && obj.seedGeneratorFinished)
    }

    /** Removes the owned SeedGenerator, waiting for LCA first. */
    method RemoveGenerator() returns (pending: bool, clean: bool, err: Error)
      requires Synced() && CleaningUp() && obj.detachmentStarted && !obj.detachedCleanupCompleted && w.know.verified
      modifies this
      ensures Tidies() && (old(Live(obj)) ==> obj == old(obj) && Synced())
      ensures !obj.detachedCleanupCompleted && !w.stored.detachedCleanupCompleted && obj.isoJobUID == old(obj.isoJobUID)
      ensures err.NoError? ==> w.know.verified && w.know.generator.Looked? && w.know.secret.NotLooked?
      ensures err.NoError? && !pending ==> Synced() && LcaSettled(w) && (clean <==> SawNoOwnedGenerator(w.know))
      ensures err.NoError? && pending ==> !LcaSettled(w)
      ensures err.NoError? && !pending && !clean && !w.know.generator.what.deleting ==> Did(DeletesGenerator)
      ensures !err.NoError? ==> callFailed || writeFailed
    {
      hide WriteOk, IsRun, Inv, Failable, NoNewIntent, Cleaned, Happened;
      CleanedAlready(obj);
      pending, clean := false, true;
      var g;
      g, err := GetGenerator();
      if !err.NoError? {
        return;
      }
      if !OwnedGenerator(g) {
        pending := g.NoGenerator? && obj.seedGeneratorSubmitted && !obj.seedGeneratorFinished;
        return;
      }
      clean := false;
      RunInv(hist);
      OwnedIsSubmitted(w);
      if !obj.seedGeneratorFinished {
        if g.result.Unfinished? {
          // Deleting the object would not stop LCA, which restores it when it ends.
          return true, false, NoError;
        }
        LcaEndedOk(w);
        FinishedIsCleaned(obj);
        err := RecordCleanup(obj.(seedGeneratorFinished := true));
        if !err.NoError? {
          return;
        }
      }
      if !g.deleting {
        ghost var before := hist;
        err := DeleteGenerator();
        HappenedWithin(hist, |before|, hist, |old(hist)|, DeletesGenerator);
      }
    }

    /** Removes the owned Secret, once LCA has finished with it. */
    method RemoveSecret() returns (clean: bool, err: Error)
      requires Valid() && w.know.verified && w.stored.detachmentStarted && LcaSettled(w) && w.know.generator.Looked?
      modifies this
      ensures Tries(err) && w.know.generator == old(w.know.generator)
      ensures err.NoError? ==> w.know.secret.Looked? && (clean <==> SawNoOwnedSecret(w.know))
      ensures err.NoError? && !clean && !w.know.secret.what.deleting ==> Did(DeletesSecret)
    {
      hide IsRun, Happened;
      var secret;
      secret, err := GetSecret();
      clean := !OwnedSecret(secret);
      if err.NoError? && OwnedSecret(secret) && !secret.deleting {
        ghost var before := hist;
        err := DeleteSecret();
        HappenedWithin(hist, |before|, hist, |old(hist)|, DeletesSecret);
      }
    }

    /** Removes the owned objects from the spoke once LCA has finished with them. */
    method CleanupDetached() returns (pending: bool, err: Error)
      requires Synced() && CleaningUp() && obj.detachmentStarted && !obj.detachedCleanupCompleted
      modifies this
      ensures Tidies() && (old(Live(obj)) ==> obj == old(obj) && Synced())
      ensures !obj.detachedCleanupCompleted && !w.stored.detachedCleanupCompleted && obj.isoJobUID == old(obj.isoJobUID)
      ensures err.NoError? && !pending ==> Synced() && LcaSettled(w)
      ensures err.NoError? ==> (pending <==> !(SawNoOwnedGenerator(w.know) && SawNoOwnedSecret(w.know) && LcaSettled(w)))
      ensures Blames(err, SpokeFault(w.reach, old(obj)))
    {
      hide WriteOk, IsRun, Inv, Failable, NoNewIntent, Cleaned, Happened;
      CleanedAlready(obj);
      pending := false;
      err := LoadSnapshot();
      if !err.NoError? {
        return;
      }
      err := VerifySpoke();
      if !err.NoError? {
        return;
      }
      var clean;
      pending, clean, err := RemoveGenerator();
      SameCourse(old(obj), w.stored);
      if !err.NoError? || pending {
        return;
      }
      var secretClean;
      secretClean, err := RemoveSecret();
      pending := !clean || !secretClean;
    }

    method CleanupDetachedAndRecord() returns (pending: bool, err: Error)
      requires Synced() && CleaningUp()
      modifies this
      ensures Tidies() && obj.isoJobUID == old(obj.isoJobUID)
      ensures err.NoError? && !pending ==> Synced() && SpokeSettled(obj)
      ensures err.NoError? ==> (pending <==> !SpokeSettled(w.stored))
      ensures err.NoError? && !SpokeSettled(old(obj)) ==>
        (pending <==> !(SawNoOwnedGenerator(w.know) && SawNoOwnedSecret(w.know) && LcaSettled(w)))
      ensures SpokeSettled(old(obj)) ==> Rests() && err.NoError? && !pending && w.know == old(w.know)
      ensures Blames(err, !SpokeSettled(old(obj)) && SpokeFault(w.reach, old(obj)))
      ensures old(Live(obj)) ==> obj == old(obj) || obj == old(obj).(detachedCleanupCompleted := true)
      ensures old(Live(obj)) && err.NoError? ==> w.stored == obj
      ensures old(Live(obj)) && !err.NoError? ==> Failable(w, obj) && (!writeFailed ==> obj == old(obj))
    {
      hide WriteOk, IsRun, Inv, Failable, Cleaned;
      CleanedAlready(obj);
      if SpokeSettled(obj) {
        return false, NoError;
      }
      pending, err := CleanupDetached();
      SameCourse(old(obj), obj);
      SameCourse(old(obj), w.stored);
      if !err.NoError? || pending {
        if Live(obj) {
          CanFail();
        }
        return;
      }
      ghost var before := obj;
      err := RecordCleaned();
      CleanedTwice(old(obj), before, obj);
      CleanedTwice(old(obj), before, w.stored);
    }

    method RecordCleaned() returns (err: Error)
      requires Synced() && CleaningUp() && obj.detachmentStarted
      requires SawNoOwnedGenerator(w.know) && SawNoOwnedSecret(w.know) && LcaSettled(w)
      modifies this
      ensures Tidies() && callFailed == old(callFailed) && obj == old(obj).(detachedCleanupCompleted := true)
      ensures if err.NoError? then Synced() else writeFailed
      ensures SameSights(old(w.know), w.know) && (old(Live(obj)) && !err.NoError? ==> Failable(w, obj))
    {
      hide WriteOk, IsRun, Inv, Failable, Cleaned;
      CleanedAlready(obj);
      RunInv(hist);
      CleanedOk(w);
      RecordIsCleaned(obj);
      obj := obj.(detachedCleanupCompleted := true);
      CleanedAlready(obj);
      var ok := UpdateStatus();
      err := NoError;
      if !ok {
        err := SomeError();
      }
    }

    // -------------------------------------------------------------- the ISO Job

    method ReconcileISO() returns (r: Outcome)
      requires Going() && obj.detachmentStarted && obj.seedGeneratorFinished
      requires obj.detachedCleanupCompleted && w.know.read.isoJobUID == obj.isoJobUID
      modifies this
      ensures r.Done? ==> Clean(w)
      ensures Continues() && SameSpoke()
      ensures Smooth() ==> ISODecision(Sees(), old(obj), w.stored)
      ensures ComesBack(r)
    {
      hide WriteOk, IsRun, Inv, Failable, Ended, JobDecision, SubmitJobDecision;
      RunInv(hist);
      LiveFacts(w);
      if !obj.detachedCleanupCompleted || obj.seedImage == NONE || obj.releaseImageDigest == NONE {
        assert false;
      }
      if !outside.inputsValid {
        CanFail();
        FailableAs(Failed);
        r := Fail(Failed);
        return;
      }
      if !obj.isoJobSubmitted {
        r := SubmitISOJob();
      } else {
        r := ObserveISOJob();
      }
    }

    method SubmitISOJob() returns (r: Outcome)
      requires Going() && Started(obj) && obj.detachmentStarted && obj.seedGeneratorFinished
      requires obj.detachedCleanupCompleted && !obj.isoJobSubmitted
      modifies this
      ensures r.Done? ==> Clean(w)
      ensures Continues() && SameSpoke()
      ensures Smooth() ==> SubmitJobDecision(Sees(), old(obj), w.stored)
      ensures ComesBack(r)
    {
      hide WriteOk, IsRun, Inv, Failable, Deadline, Ended, Submitted;
      CanFail();
      var err := AnyError();
      if !err.NoError? {
        r := LifecycleError(err);
        return;
      }
      if !outside.workspaceReady {
        var ok := UpdateProgress(BuildingISO);
        return if ok then Requeue else RetryWithError;
      }
      var now := Now();
      CanFail();
      var remaining := Deadline(obj) - now;
      if remaining <= 0 {
        FailableAs(TimedOut);
        r := Fail(TimedOut);
        return;
      }
      if BuildFault(outside) {
        FailableAs(Failed);
        r := Fail(Failed);
        return;
      }
      RunInv(hist);
      LiveFacts(w);
      JobDeadlinePassesPolicy(obj, now);
      r := SubmitWithIntent(ActiveDeadlineSeconds(remaining));
    }

    /** Persists the intent, with fingerprint and time, and only then creates the Job. */
    method SubmitWithIntent(activeDeadline: int) returns (r: Outcome)
      requires Going() && Started(obj) && obj.detachmentStarted && obj.seedGeneratorFinished
      requires obj.detachedCleanupCompleted && !obj.isoJobSubmitted && !BuildFault(outside)
      requires DeadlinePolicy(activeDeadline, obj.timeoutSeconds)
      modifies this
      ensures r.Done? ==> Clean(w)
      ensures Continues() && SameSpoke()
      ensures Smooth() ==> Submitted(Sees(), old(obj), w.stored)
      ensures ComesBack(r)
    {
      hide WriteOk, IsRun, Inv, Failable, Deadline, Ended;
      var now := Now();
      RunInv(hist);
      JobIntentOk(w, now, outside.jobHash);
      obj := Intended(obj, now, outside.jobHash);
      IntentKeeps(old(obj), now, outside.jobHash);
      hide Intended;
      var ok := UpdateStatus();
      if !ok {
        obj := obj.(isoJobSubmitted := false, isoJobSubmittedAt := None, isoJobSpecHash := NONE);
        return RetryWithError;
      }
      r := CreateISOJob(activeDeadline);
      if Smooth() {
        IntentSubmits(Sees(), old(obj), now);
      }
    }

    method CreateISOJob(activeDeadline: int) returns (r: Outcome)
      requires Going() && obj.detachmentStarted && obj.isoJobSubmitted && w.know.armedJob
      requires DeadlinePolicy(activeDeadline, obj.timeoutSeconds)
      modifies this
      ensures r.Done? ==> Clean(w)
      ensures Continues() && SameSpoke() && Did(CreatesJob)
      ensures Smooth() ==> Basis().createdUID != NONE && w.stored == old(obj).(isoJobUID := Basis().createdUID)
      ensures ComesBack(r)
    {
      hide WriteOk, IsRun, Inv, Failable, Ended, Happened;
      RunInv(hist);
      ArmedHasNoJob(w);
      var code, transient, uid := CreateJob(activeDeadline);
      ghost var created := hist;
      if uid != NONE {
        r := PinCreatedJob(uid);
      } else {
        r := JobCreateError(code, transient);
      }
      HappenedWithin(created, |old(hist)|, hist, |old(hist)|, CreatesJob);
    }

    method PinCreatedJob(uid: Name) returns (r: Outcome)
      requires Going() && obj.isoJobUID == NONE && uid != NONE && w.know.createdUID == uid
      modifies this
      ensures Continues() && SameSpoke() && basis.None? && w.know.createdUID == uid && !r.Done?
      ensures !writeFailed ==> w.stored == old(obj).(isoJobUID := uid)
      ensures ComesBack(r)
    {
      hide WriteOk, IsRun, Inv, Failable;
      RunInv(hist);
      JobPinOk(w, uid);
      obj := obj.(isoJobUID := uid);
      var ok := UpdateStatus();
      r := if ok then Requeue else RetryWithError;
    }

    /** A Job that is there already is left for the next reconcile. An answer that proves that
        nothing was created withdraws the intent, so that the Create is tried again. */
    method JobCreateError(code: int, transient: bool) returns (r: Outcome)
      requires Going() && obj.isoJobSubmitted && code != CREATED && w.know.rejectedJob == Disproves(JobResponse(code))
      modifies this
      ensures r.Done? ==> Clean(w)
      ensures Continues() && SameSpoke()
      ensures code == 409 && !transient ==> Rests() && r.Requeue?
      ensures code in {400, 403, 422, 429} ==> r.RetryWithError? && (w.stored == Withdrawn(old(obj)) || writeFailed)
      ensures code !in {400, 403, 422, 429} && transient ==> w.stored == old(obj) && r.RetryWithError?
      ensures code !in {400, 403, 409, 422, 429} && !transient ==> Ended(old(obj), w.stored, Failed) || writeFailed
    {
      hide WriteOk, IsRun, Inv, Failable, Ended;
      if code == 409 && !transient {
        return Requeue;
      }
      if code in {400, 403, 422, 429} {
        RunInv(hist);
        JobUnintentOk(w);
        obj := Withdrawn(obj);
        var _ := UpdateStatus();
        return RetryWithError;
      }
      CanFail();
      r := LifecycleError(if transient then Transient else Permanent);
    }

    method ObserveISOJob() returns (r: Outcome)
      requires Going() && Started(obj) && obj.detachmentStarted && obj.isoJobSubmitted
      requires obj.isoJobSubmittedAt.Some? && w.know.read.isoJobUID == obj.isoJobUID && w.cfg.hasISO
      modifies this
      ensures r.Done? ==> Clean(w)
      ensures Continues() && SameSpoke()
      ensures Smooth() ==> Basis().job.Looked? && JobDecision(Sees(), Basis().job.what, old(obj), w.stored)
      ensures ComesBack(r)
    {
      hide WriteOk, IsRun, Inv, Failable, Deadline, Ended, Judged, JobFault;
      var job, err := GetJob();
      if !err.NoError? {
        return RetryWithError;
      }
      CanFail();
      FailableAs(Failed);
      if job.NoJob? {
        r := MissingISOJob();
      } else if !job.owned {
        r := Fail(Failed);
      } else if job.deleting {
        r := Requeue;
      } else if JobFault(job, obj) {
        r := Fail(Failed);
      } else {
        r := ObserveOwnJob(job);
      }
    }

    /** A submitted Job that is not there may still turn up for a while. */
    method MissingISOJob() returns (r: Outcome)
      requires Going() && obj.isoJobSubmittedAt.Some?
      modifies this
      ensures r.Done? ==> Clean(w)
      ensures Continues() && SameSpoke() && Basis().job == old(w.know.job)
      ensures !writeFailed ==>
        || (w.stored == old(obj) && r.Requeue? && began - old(obj.isoJobSubmittedAt.value) < ADOPTION_WINDOW)
        || (Ended(old(obj), w.stored, Failed) && w.now - old(obj.isoJobSubmittedAt.value) >= ADOPTION_WINDOW)
      ensures old(w.now) - old(obj.isoJobSubmittedAt.value) >= ADOPTION_WINDOW ==>
        Ended(old(obj), w.stored, Failed) || writeFailed
      ensures ComesBack(r)
    {
      hide WriteOk, IsRun, Inv, Failable, Ended;
      var now := Now();
      if now - obj.isoJobSubmittedAt.value < ADOPTION_WINDOW {
        return Requeue;
      }
      CanFail();
      FailableAs(Failed);
      r := Fail(Failed);
    }

    /** The Job is the one that was submitted: its UID is pinned before its state counts. */
    method ObserveOwnJob(job: Job) returns (r: Outcome)
      requires Going() && Started(obj) && obj.detachmentStarted && obj.isoJobSubmitted && w.cfg.hasISO
      requires w.know.job == Looked(job) && OwnedJob(job) && !JobFault(job, obj) && w.know.read.isoJobUID == obj.isoJobUID
      modifies this
      ensures r.Done? ==> Clean(w)
      ensures Continues() && SameSpoke() && Basis().job == old(w.know.job)
      ensures Smooth() ==>
        if old(obj.isoJobUID) == NONE then w.stored == old(obj).(isoJobUID := job.uid)
        else Judged(Sees(), job, old(obj), w.stored)
      ensures ComesBack(r)
    {
      hide WriteOk, IsRun, Inv, Failable, Deadline, Ended, Judged;
      var err := LoadSnapshot();
      if !err.NoError? {
        CanFail();
        r := LifecycleError(err);
        return;
      }
      if obj.isoJobUID == NONE {
        RunInv(hist);
        SeenJobHasUID(w);
        JobPinOk(w, job.uid);
        obj := obj.(isoJobUID := job.uid);
        var ok := UpdateStatus();
        return if ok then Requeue else RetryWithError;
      }
      r := JudgeISOJob(job);
    }

    /** Acts on the state of the pinned Job. A Job that succeeded never fails the run because
        of Pods that failed. */
    method JudgeISOJob(job: Job) returns (r: Outcome)
      requires Going() && Started(obj) && obj.detachmentStarted && obj.isoJobSubmitted
      requires w.know.job == Looked(job) && OwnedJob(job) && job.hash == obj.isoJobSpecHash
      requires obj.isoJobUID != NONE && job.uid == obj.isoJobUID && w.know.read.isoJobUID == obj.isoJobUID && w.cfg.hasISO
      modifies this
      ensures r.Done? ==> Clean(w)
      ensures Continues() && SameSpoke() && Basis().job == old(w.know.job)
      ensures Smooth() ==> Judged(Sees(), job, old(obj), w.stored)
      ensures ComesBack(r)
    {
      hide WriteOk, IsRun, Inv, Failable, Deadline, Ended, JobEnded;
      if !job.succeeded && job.failed {
        r := FailISOJob(if outside.deadlineExceeded then TimedOut else Failed);
        return;
      }
      if !job.succeeded {
        var err := AnyError();
        if !err.NoError? {
          return RetryWithError;
        }
        var ok := UpdateProgress(BuildingISO);
        return if ok then Requeue else RetryWithError;
      }
      if !outside.resultValid {
        r := FailISOJob(Failed);
        return;
      }
      if !outside.resultReady {
        return Requeue;
      }
      r := CompleteISO();
    }

    method CompleteISO() returns (r: Outcome)
      requires Going() && obj.isoJobSubmitted && w.cfg.hasISO && Finishes(w, obj)
      modifies this
      ensures r.Done? ==> Clean(w)
      ensures Continues() && SameSpoke() && Basis().job == old(w.know.job)
      ensures Smooth() ==>
        if ResultFault(outside, old(obj)) then Ended(old(obj), w.stored, Failed)
        else w.stored == old(obj).(isoURL := outside.isoURL, isoDigest := outside.isoDigest, cond := Condition(true, Completed))
      ensures ComesBack(r)
    {
      hide WriteOk, IsRun, Inv, Failable, Ended;
      CanFail();
      FailableAs(Failed);
      if ResultFault(outside, obj) {
        r := Fail(Failed);
        return;
      }
      var err := AnyError();
      if !err.NoError? {
        r := LifecycleError(err);
        return;
      }
      RunInv(hist);
      JobDoneOk(w, outside.isoURL, outside.isoDigest);
      obj := obj.(isoURL := outside.isoURL, isoDigest := outside.isoDigest, cond := Condition(true, Completed));
      var ok := UpdateStatus();
      return if ok then Requeue else RetryWithError;
    }

    /** Fails the run after keeping the build logs. Keeping them is retried, but never past
        the deadline of the run. */
    method FailISOJob(reason: Reason) returns (r: Outcome)
      requires Going() && Started(obj) && obj.detachmentStarted && obj.isoJobSubmitted
      requires FailureReason(reason)
      modifies this
      ensures r.Done? ==> Clean(w)
      ensures Continues() && SameSpoke() && Basis().job == old(w.know.job)
      ensures !writeFailed ==> JobEnded(Sees(), old(obj), w.stored, reason)
      ensures old(w.now) >= Deadline(old(obj)) ==> LogsEnded(Sees(), old(obj), w.stored, reason) || writeFailed
      ensures ComesBack(r)
    {
      hide WriteOk, IsRun, Inv, Failable, Deadline, Ended, LogsEnded, JobEnded, LogsRetried, Says;
      var now := Now();
      if LogsRetried(outside, obj) && now < Deadline(obj) {
        SaysKeepsLogs(outside, obj, BuildingISO);
        var _ := UpdateProgress(BuildingISO);
        RetryDecides(Sees(), old(obj), reason);
        return RetryWithError;
      }
      r := KeepLogsAndFail(now, reason);
      if !writeFailed {
        EndDecides(Sees(), old(obj), w.stored, reason);
      }
    }

    method KeepLogsAndFail(now: int, reason: Reason) returns (r: Outcome)
      requires Going() && obj.isoJobSubmitted && FailureReason(reason) && began <= now <= w.now
      modifies this
      ensures r.Done? ==> Clean(w)
      ensures Continues() && SameSpoke() && Basis().job == old(w.know.job)
      ensures (LogsEnded(Sees(), old(obj), w.stored, reason) || writeFailed) && ComesBack(r)
    {
      hide WriteOk, IsRun, Inv, Failable, Ended, LogsEnded;
      if KeepsLogs(outside, obj) {
        RunInv(hist);
        DiagnosticsOk(w, now + DIAGNOSTICS_RETENTION);
        obj := Keeping(obj, now + DIAGNOSTICS_RETENTION);
        hide Keeping;
        FailableAs(reason);
        r := Fail(reason);
        KeptLogsEnd(Sees(), old(obj), w.stored, reason, now + DIAGNOSTICS_RETENTION);
        return;
      }
      CanFail();
      FailableAs(reason);
      r := Fail(reason);
      NoLogsEnd(Sees(), old(obj), w.stored, reason);
    }

    method FailISOTimeout() returns (r: Outcome)
      requires Going() && Started(obj) && (obj.isoJobSubmitted ==> obj.detachmentStarted) && w.now >= Deadline(obj)
      modifies this
      ensures r.Done? ==> Clean(w)
      ensures Continues()
      ensures w.stored.cond == Condition(false, TimedOut) || writeFailed
      ensures Smooth() && old(w.know.job).NotLooked? ==> TimeoutDecision(Sees(), old(obj), w.stored)
    {
      hide WriteOk, IsRun, Inv, Failable, Deadline, Ended;
      if obj.isoJobSubmitted {
        var job, err := GetJob();
        if err.NoError? && OwnedJob(job) && (obj.isoJobUID == NONE || obj.isoJobUID == job.uid) {
          err := LoadSnapshot();
          if err.NoError? {
            r := FailISOJob(TimedOut);
            LogsEndedAs(Sees(), old(obj), w.stored, TimedOut);
            return;
          }
        }
      }
      CanFail();
      FailableAs(TimedOut);
      r := Fail(TimedOut);
      Endings(w.stored);
    }

    // -------------------------------------------------------------- cleanup on the hub

    /** Cleanup may begin before the answer to the Create was saved. */
    method PinJobForCleanup(job: Job) returns (err: Error)
      requires Synced() && Terminal(obj.cond) && w.know.job == Looked(job) && OwnedJob(job) && job.uid != NONE
      requires obj.isoJobUID == NONE || obj.isoJobUID == job.uid
      modifies this
      ensures Tidies() && SameSights(old(w.know), w.know) && callFailed == old(callFailed)
      ensures if err.NoError? then Synced() && obj == old(obj).(isoJobUID := job.uid) else writeFailed
    {
      hide WriteOk, IsRun, Inv, Failable, Live, NoNewIntent, Cleaned;
      CleanedAlready(obj);
      if obj.isoJobUID == job.uid {
        return NoError;
      }
      RunInv(hist);
      JobPinOk(w, job.uid);
      PinIsCleaned(obj, job.uid);
      err := RecordCleanup(obj.(isoJobUID := job.uid));
      if !err.NoError? {
        obj := obj.(isoJobUID := NONE);
      }
    }

    /** Deletes the owned Job, with its UID pinned first. */
    method RemoveJob(job: Job) returns (err: Error)
      requires Synced() && Terminal(obj.cond) && w.know.job == Looked(job) && OwnedJob(job) && job.uid != NONE
      requires obj.isoJobUID == NONE || obj.isoJobUID == job.uid
      modifies this
      ensures Tidies() && SameSights(old(w.know), w.know)
      ensures if err.NoError? then Synced() else callFailed || writeFailed
      ensures err.NoError? && !job.deleting ==> Did(DeletesJob)
    {
      hide WriteOk, IsRun, Inv, Failable, Live, NoNewIntent, Cleaned, Happened;
      err := PinJobForCleanup(job);
      SameCourse(old(obj), w.stored);
      if err.NoError? && !job.deleting {
        ghost var before := hist;
        err := DeleteJob();
        HappenedWithin(hist, |before|, hist, |old(hist)|, DeletesJob);
      }
    }

    /** Deletes the Job before its Pods. */
    method DeleteJobAndPods() returns (pending: bool, err: Error)
      requires Synced() && Terminal(obj.cond)
      modifies this
      ensures Tidies() && (err.NoError? ==> Synced() && (pending <==> !w.know.jobsGone))
      ensures err.NoError? && w.know.job.Looked? && OwnedJob(w.know.job.what) && !w.know.job.what.deleting ==> Did(DeletesJob)
      ensures err.NoError? && pending && w.know.jobAbsent ==> Did(DeletesPods)
      ensures !err.NoError? ==> callFailed || writeFailed || CleanupFault(old(obj))
    {
      hide WriteOk, IsRun, Inv, Failable, Live, NoNewIntent, Cleaned, Happened, SpokeFault;
      CleanedAlready(obj);
      pending := false;
      var job, pods;
      job, err := ListJobs();
      if !err.NoError? {
        return;
      }
      pods, err := ListPods();
      if !err.NoError? {
        return;
      }
      if OwnedJob(job) && (job.uid == NONE || (obj.isoJobUID != NONE && obj.isoJobUID != job.uid)) {
        return false, Permanent;
      }
      if pods > 0 && !outside.podsValid {
        return false, Permanent;
      }
      pending := OwnedJob(job) || pods > 0;
      hide CleanupFault;
      ghost var before := hist;
      err := RemoveJobAndPods(job, pods);
      if err.NoError? {
        if OwnedJob(job) && !job.deleting {
          HappenedWithin(hist, |before|, hist, |old(hist)|, DeletesJob);
        }
        if pods > 0 {
          HappenedWithin(hist, |before|, hist, |old(hist)|, DeletesPods);
        }
      }
    }

    method RemoveJobAndPods(job: Job, pods: nat) returns (err: Error)
      requires Synced() && Terminal(obj.cond) && w.know.job == Looked(job)
      requires OwnedJob(job) ==> job.uid != NONE && (obj.isoJobUID == NONE || obj.isoJobUID == job.uid)
      modifies this
      ensures Tidies() && SameSights(old(w.know), w.know)
      ensures if err.NoError? then Synced() else callFailed || writeFailed
      ensures err.NoError? && OwnedJob(job) && !job.deleting ==> Did(DeletesJob)
      ensures err.NoError? && pods > 0 ==> Did(DeletesPods)
    {
      hide WriteOk, IsRun, Inv, Failable, Live, NoNewIntent, Cleaned, Happened;
      CleanedAlready(obj);
      err := NoError;
      if OwnedJob(job) {
        err := RemoveJob(job);
        if !err.NoError? {
          return;
        }
      }
      SameCourse(old(obj), w.stored);
      ghost var removed := hist;
      if pods > 0 {
        err := DeletePods();
        HappenedWithin(hist, |removed|, hist, |old(hist)|, DeletesPods);
        if OwnedJob(job) && !job.deleting {
          HappenedWithin(removed, |old(hist)|, hist, |old(hist)|, DeletesJob);
        }
      }
    }

    /** Fixes when the attempts to remove an incomplete upload end. */
    method EnsureUploadDeadline() returns (err: Error)
      requires Synced() && Terminal(obj.cond) && obj.isoJobSubmitted
      modifies this
      ensures Tidies() && callFailed == old(callFailed) && SameSights(old(w.know), w.know)
      ensures obj == old(obj).(isoUploadCleanupDeadline := obj.isoUploadCleanupDeadline)
      ensures err.NoError? ==> Synced() && obj.isoUploadCleanupDeadline.Some?
      ensures old(obj.isoUploadCleanupDeadline).None? && err.NoError? ==>
        old(w.now) + UPLOAD_CLEANUP_TIMEOUT <= obj.isoUploadCleanupDeadline.value <= w.now + UPLOAD_CLEANUP_TIMEOUT
      ensures old(obj.isoUploadCleanupDeadline).Some? ==> obj == old(obj)
      ensures !err.NoError? ==> writeFailed
    {
      hide WriteOk, IsRun, Inv, Failable, Live, NoNewIntent, Cleaned;
      CleanedAlready(obj);
      err := NoError;
      if obj.isoUploadCleanupDeadline.None? {
        var now := Now();
        RunInv(hist);
        UploadDeadlineOk(w, now + UPLOAD_CLEANUP_TIMEOUT);
        DeadlineIsCleaned(obj, now + UPLOAD_CLEANUP_TIMEOUT);
        err := RecordCleanup(obj.(isoUploadCleanupDeadline := Some(now + UPLOAD_CLEANUP_TIMEOUT)));
      }
    }

    method CompleteUploadCleanup() returns (err: Error)
      requires Synced() && Terminal(obj.cond) && obj.isoJobSubmitted && w.know.jobsGone
      modifies this
      ensures Tidies() && callFailed == old(callFailed) && SameSights(old(w.know), w.know)
      ensures obj == old(obj).(isoUploadCleanupCompleted := true)
      ensures if err.NoError? then Synced() else writeFailed
    {
      hide WriteOk, IsRun, Inv, Failable, Live, NoNewIntent, Cleaned;
      RunInv(hist);
      UploadCleanedOk(w);
      UploadIsCleaned(obj);
      err := RecordCleanup(obj.(isoUploadCleanupCompleted := true));
    }

    /** Removes an incomplete upload within a persisted time budget: pending only in time. */
    method CleanupISOUpload() returns (pending: bool, err: Error)
      requires Synced() && Terminal(obj.cond) && w.know.jobsGone
      modifies this
      ensures Tidies() && w.know.jobsGone
      ensures err.NoError? ==> Synced() && (pending <==> !UploadSettled(w.stored))
      ensures err.NoError? && pending ==>
        && w.stored.isoUploadCleanupDeadline.Some? && old(w.now) < w.stored.isoUploadCleanupDeadline.value
        && (callFailed || (outside.artifactValid && !outside.uploadReached))
      ensures err.NoError? && !pending && !UploadSettled(old(obj)) && w.stored.isoUploadCleanupDeadline.Some? ==>
        w.now >= w.stored.isoUploadCleanupDeadline.value || !outside.artifactValid || outside.uploadReached
      ensures !err.NoError? ==> writeFailed
    {
      hide WriteOk, IsRun, Inv, Failable, Live, NoNewIntent, Cleaned;
      CleanedAlready(obj);
      pending, err := false, NoError;
      if UploadSettled(obj) {
        return;
      }
      err := EnsureUploadDeadline();
      if !err.NoError? {
        return;
      }
      ghost var budgeted := obj;
      pending, err := RemoveUpload();
      CleanedTwice(old(obj), budgeted, obj);
      CleanedTwice(old(obj), budgeted, w.stored);
    }

    /** Removes the upload, or gives up on it at its deadline. */
    method RemoveUpload() returns (pending: bool, err: Error)
      requires Synced() && Terminal(obj.cond) && w.know.jobsGone && !UploadSettled(obj) && obj.isoUploadCleanupDeadline.Some?
      modifies this
      ensures Tidies() && w.know.jobsGone && obj.isoUploadCleanupDeadline == old(obj.isoUploadCleanupDeadline)
      ensures err.NoError? ==> Synced() && (pending <==> !UploadSettled(obj))
      ensures err.NoError? && pending ==>
        && old(w.now) < obj.isoUploadCleanupDeadline.value
        && (callFailed || (outside.artifactValid && !outside.uploadReached))
      ensures err.NoError? && !pending ==>
        w.now >= obj.isoUploadCleanupDeadline.value || !outside.artifactValid || outside.uploadReached
      ensures !err.NoError? ==> writeFailed
    {
      hide WriteOk, IsRun, Inv, Failable, Live, NoNewIntent, Cleaned;
      CleanedAlready(obj);
      pending := false;
      var now := Now();
      if now < obj.isoUploadCleanupDeadline.value {
        err := LoadSnapshot();
        if !err.NoError? || (outside.artifactValid && !outside.uploadReached) {
          return true, NoError;
        }
      }
      err := CompleteUploadCleanup();
    }

    method CleanupISOResources() returns (pending: bool, err: Error)
      requires Synced() && Terminal(obj.cond) && SpokeSettled(obj)
      modifies this
      ensures Tidies()
      ensures err.NoError? ==>
        Synced() && (pending <==> !(SnapshotReleasable(w) && w.know.jobsGone && w.know.workspaceGone))
      ensures !err.NoError? ==> callFailed || writeFailed || CleanupFault(old(obj))
    {
      hide WriteOk, IsRun, Inv, Failable, Live, NoNewIntent, Cleaned, CleanupFault;
      pending, err := DeleteJobAndPods();
      SettledStays(old(obj), w.stored);
      if !err.NoError? || pending {
        return;
      }
      ghost var gone := obj;
      SameCourse(old(obj), obj);
      pending, err := CleanupISOUpload();
      CleanedTwice(old(obj), gone, obj);
      CleanedTwice(old(obj), gone, w.stored);
      SettledStays(old(obj), w.stored);
      if !err.NoError? || pending {
        return;
      }
      var objects;
      objects, err := ListWorkspace();
      pending := objects > 0;
    }

    /** Deletes the frozen inputs, object by object; not pending means that none was left. */
    method CleanupPreflightResources() returns (pending: bool, err: Error)
      requires Valid() && SnapshotReleasable(w)
      modifies this
      ensures Tries(err) && SnapshotReleasable(w)
      ensures w.know.workspaceGone == old(w.know.workspaceGone) && w.know.jobsGone == old(w.know.jobsGone)
      ensures err.NoError? ==> (pending <==> !w.know.snapshotGone)
      ensures err.NoError? && pending ==> Did(DeletesSnapshot)
    {
      hide WriteOk, IsRun, Inv, Failable, Live, NoNewIntent, Happened;
      var objects;
      objects, err := ListSnapshot();
      pending := objects > 0;
      ghost var known := w.know;
      var left := objects;
      while left > 0 && err.NoError?
        invariant Tries(err) && w.know == known && left <= objects
        invariant left < objects ==> Did(DeletesSnapshot)
        invariant err.NoError? ==> known.snapshotGone == (objects == 0)
      {
        ghost var before := hist;
        err := DeleteSnapshot();
        HappenedWithin(hist, |before|, hist, |old(hist)|, DeletesSnapshot);
        left := left - 1;
      }
    }

    /** Spoke, ISO and snapshot, in this order. */
    method CleanupRunResources() returns (pending: bool, err: Error)
      requires Synced() && Terminal(obj.cond)
      modifies this
      ensures Tidies() && (err.NoError? ==> (pending <==> !(Clean(w) && w.know.jobsGone)))
      ensures !err.NoError? ==> callFailed || writeFailed || CleanupFault(old(obj))
    {
      hide WriteOk, IsRun, Inv, Failable, Live, NoNewIntent, Cleaned;
      pending, err := CleanupDetachedAndRecord();
      if !err.NoError? || pending {
        return;
      }
      ghost var spokeClean := obj;
      SameCourse(old(obj), obj);
      pending, err := CleanupISOResources();
      CleanedTwice(old(obj), spokeClean, obj);
      CleanedTwice(old(obj), spokeClean, w.stored);
      if CleanupFault(spokeClean) {
        FaultFromStart(old(obj), spokeClean);
      }
      if !err.NoError? || pending {
        return;
      }
      pending, err := CleanupPreflightResources();
    }

    lemma FaultFromStart(s: Status, n: Status)
      requires Cleaned(s, n) && CleanupFault(n) && n.isoJobUID == s.isoJobUID
      ensures CleanupFault(s)
    {
    }

    // -------------------------------------------------------------- dispatch

    method ReconcileSnapshot() returns (r: Outcome)
      requires Going() && w.know.read == obj
      requires obj.detachmentStarted || obj.cond.reason.InProgress?
      modifies this
      ensures r.Done? ==> Clean(w)
      ensures Continues()
      ensures Smooth() ==> SnapshotDecision(Sees(), old(obj), w.stored)
      ensures ComesBack(r)
    {
      hide WriteOk, IsRun, Inv, Failable, Ended, DetachedDecision;
      CanFail();
      FailableAs(PreconditionChecksFailed);
      if obj.snapshotUIDs == NONE {
        r := Fail(PreconditionChecksFailed);
        return;
      }
      var err := LoadSnapshot();
      CanFail();
      FailableAs(PreconditionChecksFailed);
      if !err.NoError? {
        r := PreflightError(err);
        return;
      }
      if w.cfg.hasISO && obj.releaseImageDigest == NONE {
        r := Fail(PreconditionChecksFailed);
        return;
      }
      err := AnyError();
      if !err.NoError? {
        r := PreflightError(err);
        return;
      }
      if !outside.preflightPodsGone {
        return Requeue;
      }
      if obj.detachmentStarted {
        r := ReconcileDetached();
      } else {
        r := StartDetachment();
      }
    }

    /** The intent to change the cluster is persisted before any change. */
    method StartDetachment() returns (r: Outcome)
      requires Going() && !obj.detachmentStarted && obj.cond.reason.InProgress? && !FrozenFault(w.cfg, obj)
      modifies this
      ensures r.Done? ==> Clean(w)
      ensures Continues()
      ensures !writeFailed ==>
        if !PinsSet(old(obj)) then Ended(old(obj), w.stored, PreconditionChecksFailed)
        else w.stored == old(obj).(detachmentStarted := true, cond := Condition(false, CleaningACMResources))
      ensures ComesBack(r)
    {
      hide WriteOk, IsRun, Inv, Failable, Ended;
      if !PinsSet(obj) {
        CanFail();
        FailableAs(PreconditionChecksFailed);
        r := Fail(PreconditionChecksFailed);
        return;
      }
      RunInv(hist);
      DetachOk(w);
      obj := obj.(detachmentStarted := true, cond := Condition(false, CleaningACMResources));
      var ok := UpdateStatus();
      if !ok {
        obj := obj.(detachmentStarted := false);
        return RetryWithError;
      }
      return Requeue;
    }

    /** The early route of a run that has started. At or after the deadline it ends the run
        unless a status write fails. */
    method ReconcileSeedGeneration() returns (r: Outcome)
      requires Synced() && NeedsFastPath(obj) && w.know == Fresh(obj) && basis.None?
      modifies this
      ensures r.Done? ==> Clean(w)
      ensures Continues()
      ensures old(Terminal(obj.cond)) ==> Cleaned(old(obj), w.stored)
      ensures old(Live(obj)) ==> old(Started(obj)) && (Smooth() ==> Decision(Sees(), old(obj), w.stored))
      ensures old(Live(obj)) && old(w.now) >= Deadline(old(obj)) ==> w.stored.cond == Condition(false, TimedOut) || writeFailed
      ensures old(Started(obj)) && old(w.now) >= Deadline(old(obj)) ==> Terminal(w.stored.cond) || writeFailed
      ensures old(Live(obj)) ==> ComesBack(r)
    {
      hide WriteOk, IsRun, Inv, Failable, Deadline, Ended, PreflightDecision, SnapshotDecision, TimeoutDecision, Cleaned;
      if Terminal(obj.cond) {
        r := FinishCleanup();
        SameCourse(old(obj), w.stored);
        return;
      }
      RunInv(hist);
      RoutedIsLive(w);
      LiveFacts(w);
      var now := Now();
      if now >= Deadline(obj) {
        r := FailISOTimeout();
        return;
      }
      if obj.detachmentStarted {
        r := ReconcileSnapshot();
      } else if obj.cond.reason.Validating? {
        r := Preflight();
      } else if obj.cond.reason.InProgress? {
        r := ReconcileSnapshot();
      } else {
        assert false;
      }
    }

    /** Starts a run once, from a configuration that may be invalid (`timeout` absent). */
    method StartOrResume(timeout: Option<int>) returns (r: Outcome)
      requires Synced() && (Terminal(obj.cond) || w.know == Fresh(obj)) && basis.None?
      requires timeout.Some? ==> timeout.value > 0
      modifies this
      ensures Continues()
      ensures old(Terminal(obj.cond)) ==> Rests() && w.know == old(w.know) && r.Done?
      ensures old(obj.cond).NoCondition? && timeout.None? ==> Ended(old(obj), w.stored, PreconditionChecksFailed) || writeFailed
      ensures old(obj.cond).NoCondition? && timeout.Some? && !writeFailed ==>
        HasStarted(old(obj), w.stored, timeout.value, began, w.now) && r.Requeue?
    {
      hide WriteOk, IsRun, Inv, Failable, Ended, Decision, Deadline;
      if Terminal(obj.cond) {
        return Done;
      }
      if obj.cond.NoCondition? {
        RunInv(hist);
        if timeout.None? {
          UnstartedIsFailable(w);
          r := Fail(PreconditionChecksFailed);
          return;
        }
        var now := Now();
        RunInv(hist);
        var whole := now / SECOND * SECOND;
        StartOk(w, whole, TimeoutSeconds(timeout.value));
        obj := obj.(startedAt := Some(whole), timeoutSeconds := TimeoutSeconds(timeout.value),
                    cond := Condition(false, Validating));
        var ok := UpdateStatus();
        return if ok then Requeue else RetryWithError;
      }
      r := ReconcileSeedGeneration();
    }

    /** One reconcile: the seed workflow, or normal provisioning which may end in a start. A
        run that the workflow owns is left alone only when all of it has been cleaned up. */
    method Run(seedRequested: bool, timeout: Option<int>) returns (r: Outcome)
      requires Synced() && w.know == Fresh(obj) && basis.None? && (timeout.Some? ==> timeout.value > 0)
      modifies this
      ensures Continues()
      ensures old(Live(obj)) ==> old(Started(obj)) && (Smooth() ==> Decision(Sees(), old(obj), w.stored))
      ensures old(Live(obj)) && old(w.now) >= Deadline(old(obj)) ==> w.stored.cond == Condition(false, TimedOut) || writeFailed
      ensures old(Started(obj)) && old(w.now) >= Deadline(old(obj)) ==> Terminal(w.stored.cond) || writeFailed
      ensures old(NeedsFastPath(obj)) && r.Done? ==> Clean(w)
      ensures old(Terminal(obj.cond)) ==> Cleaned(old(obj), w.stored)
      ensures old(obj.cond).NoCondition? ==> Did(Provisions)
      ensures old(obj.cond).NoCondition? && !seedRequested ==> w.stored == old(obj)
      ensures old(obj.cond).NoCondition? && seedRequested && timeout.Some? && !writeFailed ==>
        HasStarted(old(obj), w.stored, timeout.value, began, w.now) && r.Requeue?
      ensures !old(NeedsFastPath(obj)) && old(FailureNeedsCleanup(obj.cond)) && Smooth() ==>
        if w.know.snapshotGone then r.Done? && Did(Provisions) else r.Requeue?
      ensures !old(NeedsFastPath(obj)) && old(FailureNeedsCleanup(obj.cond)) && r.Done? ==> w.know.snapshotGone
      ensures old(obj.cond).NoCondition? && seedRequested && timeout.None? ==>
        Ended(old(obj), w.stored, PreconditionChecksFailed) || writeFailed
      ensures old(Live(obj)) ==> ComesBack(r)
    {
      hide WriteOk, IsRun, Inv, Failable, Deadline, Ended, Decision, Cleaned, Happened;
      RunInv(hist);
      RouteOfRun(w);
      CleanedAlready(obj);
      if NeedsFastPath(obj) {
        r := ReconcileSeedGeneration();
        return;
      }
      if FailureNeedsCleanup(obj.cond) {
        UndetachedIsReleasable(w);
        var pending, err := CleanupPreflightResources();
        if !err.NoError? {
          return RetryWithError;
        }
        if pending {
          return Requeue;
        }
      }
      ghost var before := hist;
      Provision();
      HappenedWithin(hist, |before|, hist, |old(hist)|, Provisions);
      if seedRequested {
        ghost var provisioned := hist;
        r := StartOrResume(timeout);
        HappenedWithin(provisioned, |old(hist)|, hist, |old(hist)|, Provisions);
      } else {
        r := Done;
      }
    }

    method Provision()
      requires Valid() && !NeedsFastPath(w.stored)
      modifies this
      ensures Rests() && w.know == old(w.know) && Did(Provisions)
    {
      hide IsRun;
      Interfere();
      Emit(RunProvisioningPhases, w);
      assert Is(hist[|hist| - 1].event, Provisions);
    }

  }
}
