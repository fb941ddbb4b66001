/** The ConfigurationApplied condition of a provisioned cluster and its timeout clock,
    `NonCompliantAt`, which different verdicts start, keep and clear. */
module PolicyConfig {
  import opened Wrappers

  datatype Reason = Missing | Completed | ClusterNotReady | OutOfDate | InProgress | TimedOut

  /** The condition is True for Missing and Completed, False for the others. */
  predicate ConditionTrue(r: Reason) {
    r.Completed? || r.Missing?
  }

  datatype Status = Status(cond: Option<Reason>, nonCompliantAt: Option<int>, ztpDone: bool)

  datatype Policy = Policy(name: string, ofTemplate: bool, compliant: bool, inform: bool)

  /** Unknown: the readiness of the cluster could not be determined. */
  datatype Readiness = Ready | NotReady | Unknown

  /** `expected` maps the names of expected policies to whether they only inform.
      `provisioned` is the status of the ClusterProvisioned condition. */
  datatype Observation = Observation(
    policies: seq<Policy>, expected: map<string, bool>, readiness: Readiness, provisioned: Option<bool>)

  const SECOND: int := 1_000_000_000

  /** Times are persisted in whole seconds. */
  function Persisted(now: int): int {
    now / SECOND * SECOND
  }

  predicate TimeoutExceeded(start: int, now: int, timeout: int) {
    now - start > timeout
  }

  // ---------------------------------------------------------------- what is observed

  predicate NoTargets(o: Observation) {
    forall p :: p in o.policies ==> !p.ofTemplate
  }

  predicate AllCompliant(o: Observation) {
    forall p :: p in o.policies && p.ofTemplate ==> p.compliant
  }

  predicate AllInform(o: Observation) {
    forall p :: p in o.policies && p.ofTemplate ==> p.inform
  }

  predicate Present(o: Observation, name: string) {
    exists p :: p in o.policies && p.ofTemplate && p.name == name
  }

  predicate SomeMissing(o: Observation) {
    exists name :: name in o.expected && !Present(o, name)
  }

  predicate ExpectedInform(o: Observation) {
    forall name :: name in o.expected ==> o.expected[name]
  }

  /** Enforced configuration that is not there or not compliant yet. */
  predicate Unconverged(o: Observation) {
    (!AllCompliant(o) && !AllInform(o)) || (SomeMissing(o) && !ExpectedInform(o))
  }

  // ---------------------------------------------------------------- the verdict and the clock

  predicate ClockExpired(s: Status, now: int, timeout: int) {
    match s.cond
    case Some(TimedOut) => true
    case Some(InProgress) => s.nonCompliantAt.Some? && TimeoutExceeded(s.nonCompliantAt.value, now, timeout)
    case Some(ClusterNotReady) => s.nonCompliantAt.Some? && TimeoutExceeded(s.nonCompliantAt.value, now, timeout)
    case _ => false
  }

  /** The clock after a verdict that depends on it. */
  function ClockAfter(s: Status, now: int): Option<int> {
    match s.cond
    case None => Some(Persisted(now))
    case Some(InProgress) => if s.nonCompliantAt.None? then Some(Persisted(now)) else s.nonCompliantAt
    case Some(OutOfDate) => Some(Persisted(now))
    case Some(Completed) => Some(Persisted(now))
    case _ => s.nonCompliantAt
  }

  datatype Verdict = Clears(reason: Reason) | Keeps(reason: Reason) | Timed | Undecided

  function Judge(o: Observation): Verdict {
    if !SomeMissing(o) && NoTargets(o) then Clears(Missing)
    else if !SomeMissing(o) && AllCompliant(o) then Clears(Completed)
    else if o.readiness.Unknown? then Undecided
    else if o.readiness.NotReady? then Keeps(ClusterNotReady)
    else if SomeMissing(o) && ExpectedInform(o) then Clears(Missing)
    else if SomeMissing(o) then Timed
    else if AllInform(o) then Clears(OutOfDate)
    else Timed
  }

  function Updated(s: Status, o: Observation, now: int, timeout: int): Status {
    match Judge(o)
    case Clears(reason) => s.(cond := Some(reason), nonCompliantAt := None)
    case Keeps(reason) => s.(cond := Some(reason))
    case Timed =>
      s.(cond := Some(if ClockExpired(s, now, timeout) then TimedOut else InProgress),
         nonCompliantAt := ClockAfter(s, now))
    case Undecided => s
  }

  function Latched(s: Status, o: Observation): Status {
    s.(ztpDone := s.ztpDone || (o.provisioned == Some(true) && AllCompliant(o)))
  }

  // ---------------------------------------------------------------- what is reported when

  /** Some policy of the template exists, every one complies and no expected one is missing. */
  predicate UpToDate(o: Observation) {
    && (exists p :: p in o.policies && p.ofTemplate)
    && (forall p :: p in o.policies && p.ofTemplate ==> p.compliant)
    && forall name :: name in o.expected ==> exists p :: p in o.policies && p.ofTemplate && p.name == name
  }

  /** There is nothing to apply: no policy of the template, none expected that is missing. */
  predicate NothingThere(o: Observation) {
    (forall p :: p in o.policies ==> !p.ofTemplate) && o.expected == map[]
  }

  /** An expected policy is missing, and all expected ones only inform. */
  predicate InformMissing(o: Observation) {
    && (exists name :: name in o.expected && forall p :: p in o.policies && p.ofTemplate ==> p.name != name)
    && forall name :: name in o.expected ==> o.expected[name]
  }

  /** Nothing is missing, something does not comply, and the policies only inform. */
  predicate InformOutdated(o: Observation) {
    && (forall name :: name in o.expected ==> exists p :: p in o.policies && p.ofTemplate && p.name == name)
    && (exists p :: p in o.policies && p.ofTemplate && !p.compliant)
    && forall p :: p in o.policies && p.ofTemplate ==> p.inform
  }

  /** Completed is reported exactly if the configuration is up to date. */
  lemma CompletedExactly(s: Status, o: Observation, now: int, timeout: int)
    requires !o.readiness.Unknown?
    ensures Updated(s, o, now, timeout).cond == Some(Completed) <==> UpToDate(o)
    ensures UpToDate(o) ==> Updated(s, o, now, timeout).nonCompliantAt.None?
  {
    MissingRaw(o);
  }

  lemma MissingRaw(o: Observation)
    ensures !SomeMissing(o) <==>
      forall name :: name in o.expected ==> exists p :: p in o.policies && p.ofTemplate && p.name == name
    ensures NoTargets(o) && !SomeMissing(o) ==> o.expected == map[]
  {
    if NoTargets(o) {
      assert forall name :: !Present(o, name);
    }
  }

  lemma MissingExactly(s: Status, o: Observation, now: int, timeout: int)
    requires !o.readiness.Unknown?
    ensures Updated(s, o, now, timeout).cond == Some(Missing) <==>
      NothingThere(o) || (o.readiness.Ready? && InformMissing(o))
    ensures Updated(s, o, now, timeout).cond == Some(Missing) ==> Updated(s, o, now, timeout).nonCompliantAt.None?
  {
    MissingRaw(o);
    assert NothingThere(o) ==> NoTargets(o) && !SomeMissing(o);
    assert InformMissing(o) ==> SomeMissing(o) && ExpectedInform(o);
    assert SomeMissing(o) && ExpectedInform(o) ==> InformMissing(o);
  }

  lemma OutOfDateExactly(s: Status, o: Observation, now: int, timeout: int)
    requires !o.readiness.Unknown?
    ensures Updated(s, o, now, timeout).cond == Some(OutOfDate) <==> o.readiness.Ready? && InformOutdated(o)
    ensures Updated(s, o, now, timeout).cond == Some(OutOfDate) ==> Updated(s, o, now, timeout).nonCompliantAt.None?
  {
    MissingRaw(o);
  }

  /** A cluster that is not ready matters only if there is something to apply. The clock of
      an earlier verdict goes on. */
  lemma ClusterNotReadyExactly(s: Status, o: Observation, now: int, timeout: int)
    requires !o.readiness.Unknown?
    ensures Updated(s, o, now, timeout).cond == Some(ClusterNotReady) <==>
      o.readiness.NotReady? && !UpToDate(o) && !NothingThere(o)
    ensures o.readiness.NotReady? && !UpToDate(o) && !NothingThere(o) ==>
      Updated(s, o, now, timeout).nonCompliantAt == s.nonCompliantAt
  {
    CompletedExactly(s, o, now, timeout);
    MissingExactly(s, o, now, timeout);
  }

  /** The cluster is ready and enforced configuration is missing or does not comply. */
  predicate Outstanding(o: Observation) {
    o.readiness.Ready? && !UpToDate(o) && !NothingThere(o) && !InformMissing(o) && !InformOutdated(o)
  }

  /** What is outstanding: with a policy missing, one expected that enforces; otherwise one
      that does not comply and one that enforces. */
  lemma OutstandingMeans(o: Observation)
    ensures
      var missing := exists name :: name in o.expected && forall p :: p in o.policies && p.ofTemplate ==> p.name != name;
      var enforced := if missing then exists name :: name in o.expected && !o.expected[name]
                      else (exists p :: p in o.policies && p.ofTemplate && !p.compliant) &&
                           (exists p :: p in o.policies && p.ofTemplate && !p.inform);
      Outstanding(o) <==> o.readiness.Ready? && enforced
    ensures Outstanding(o) <==> Judge(o).Timed?
  {
    MissingRaw(o);
    var s := Status(None, None, false);
    CompletedExactly(s, o.(readiness := Ready), 0, 0);
    MissingExactly(s, o.(readiness := Ready), 0, 0);
    OutOfDateExactly(s, o.(readiness := Ready), 0, 0);
    SameReading(o);
  }

  /** Only the last verdicts look at the readiness. */
  lemma SameReading(o: Observation)
    ensures var r := o.(readiness := Ready);
      && UpToDate(r) == UpToDate(o) && NothingThere(r) == NothingThere(o)
      && InformMissing(r) == InformMissing(o) && InformOutdated(r) == InformOutdated(o)
  {
  }

  /** Without a determined readiness nothing changes, unless it does not matter. */
  lemma UnknownReadiness(s: Status, o: Observation, now: int, timeout: int)
    requires o.readiness.Unknown?
    ensures Updated(s, o, now, timeout) ==
      if UpToDate(o) then s.(cond := Some(Completed), nonCompliantAt := None)
      else if NothingThere(o) then s.(cond := Some(Missing), nonCompliantAt := None)
      else s
  {
    MissingRaw(o);
    assert NothingThere(o) ==> NoTargets(o) && !SomeMissing(o);
  }

  // ---------------------------------------------------------------- every run

  /** A reconcile at time `now`; its writes take effect, or the first of them, or none. */
  datatype Entry = Entry(now: int, o: Observation, status: Status)

  predicate Step(s: Status, e: Entry, timeout: int) {
    var t := Updated(s, e.o, e.now, timeout);
    e.status == s || e.status == t || e.status == Latched(t, e.o)
  }

  predicate StepAt(h: seq<Entry>, i: int, timeout: int)
    requires 0 < i < |h|
  {
    Step(h[i - 1].status, h[i], timeout) && h[i - 1].now <= h[i].now
  }

  predicate IsRun(h: seq<Entry>, timeout: int) {
    |h| > 0 && h[0].status == Status(None, None, false) && forall i :: 0 < i < |h| ==> StepAt(h, i, timeout)
  }

  predicate Resets(r: Option<Reason>) {
    r == Some(Completed) || r == Some(Missing) || r == Some(OutOfDate)
  }

  predicate ClockInv(s: Status, now: int, timeout: int) {
    && (s.cond == Some(TimedOut) ==> s.nonCompliantAt.Some? && TimeoutExceeded(s.nonCompliantAt.value, now, timeout))
    && (s.cond.None? || Resets(s.cond) ==> s.nonCompliantAt.None?)
  }

  lemma {:induction false} ClockInvAt(h: seq<Entry>, i: nat, timeout: int)
    requires IsRun(h, timeout) && i < |h|
    ensures ClockInv(h[i].status, h[i].now, timeout)
  {
    if i > 0 {
      ClockInvAt(h, i - 1, timeout);
      assert StepAt(h, i, timeout);
    }
  }

  /** The clock runs without a break from entry `j` to entry `i`. */
  predicate RunsSince(h: seq<Entry>, j: int, i: int, start: int) {
    0 < j <= i < |h| &&
    forall m :: j <= m <= i ==> h[m].status.nonCompliantAt == Some(start) && !Resets(h[m].status.cond)
  }

  lemma {:induction false} ClockStart(h: seq<Entry>, i: nat, timeout: int) returns (j: nat)
    requires IsRun(h, timeout) && i < |h| && h[i].status.nonCompliantAt.Some?
    ensures RunsSince(h, j, i, h[i].status.nonCompliantAt.value)
    ensures h[i].status.nonCompliantAt.value == Persisted(h[j].now)
    ensures h[j - 1].status.nonCompliantAt.None? && h[j].status.cond == Some(InProgress)
  {
    assert StepAt(h, i, timeout);
    ClockInvAt(h, i, timeout);
    ClockInvAt(h, i - 1, timeout);
    if h[i - 1].status.nonCompliantAt.None? {
      j := i;
    } else {
      j := ClockStart(h, i - 1, timeout);
      assert h[i].status.nonCompliantAt == h[i - 1].status.nonCompliantAt;
    }
  }

  /** A configuration is reported as timed out only if the clock is set, was started by an
      earlier reconcile, has run for more than the timeout since then, and no Completed,
      Missing or OutOfDate verdict lies in between. ClusterNotReady does not reset it. */
  lemma TimedOutMeansElapsed(h: seq<Entry>, i: nat, timeout: int) returns (j: nat)
    requires IsRun(h, timeout) && i < |h| && h[i].status.cond == Some(TimedOut)
    ensures j <= i && h[i].status.nonCompliantAt == Some(Persisted(h[j].now)) && RunsSince(h, j, i, Persisted(h[j].now))
    ensures TimeoutExceeded(Persisted(h[j].now), h[i].now, timeout)
    ensures h[j].status.cond == Some(InProgress)
  {
    ClockInvAt(h, i, timeout);
    j := ClockStart(h, i, timeout);
  }

  /** And the other way round: with enforced configuration outstanding, a reconcile whose write
      takes effect reports TimedOut exactly if the clock was running and has exceeded the
      timeout, and InProgress otherwise. */
  lemma TimedOutExactly(h: seq<Entry>, i: nat, timeout: int)
    requires IsRun(h, timeout) && 0 < i < |h| && Outstanding(h[i].o)
    requires var t := Updated(h[i - 1].status, h[i].o, h[i].now, timeout); h[i].status == t || h[i].status == Latched(t, h[i].o)
    ensures var c := h[i - 1].status.nonCompliantAt;
      h[i].status.cond == Some(if c.Some? && h[i].now - c.value > timeout then TimedOut else InProgress)
  {
    ClockInvAt(h, i - 1, timeout);
    assert StepAt(h, i, timeout);
    OutstandingMeans(h[i].o);
  }

  /** While enforced configuration is outstanding on a ready cluster, the clock runs at the
      latest after the second reconcile: after Missing or ClusterNotReady the first one only
      reports InProgress. */
  lemma ClockRunsAfterTwo(s: Status, o: Observation, now: int, o': Observation, now': int, timeout: int)
    requires Outstanding(o) && Outstanding(o') && (s.cond == Some(TimedOut) ==> s.nonCompliantAt.Some?)
    ensures var t := Updated(s, o, now, timeout);
      && Updated(t, o', now', timeout).nonCompliantAt.Some?
      && (t.nonCompliantAt.None? <==> s.nonCompliantAt.None? && (s.cond == Some(Missing) || s.cond == Some(ClusterNotReady)))
  {
    OutstandingMeans(o);
    OutstandingMeans(o');
  }

  /** ZTP Done is a latch, set only when provisioning finished and all policies comply. */
  lemma {:induction false} ZtpDoneStays(h: seq<Entry>, i: nat, j: nat, timeout: int)
    requires IsRun(h, timeout) && i <= j < |h| && h[i].status.ztpDone
    ensures h[j].status.ztpDone
    decreases j
  {
    if i < j {
      ZtpDoneStays(h, i, j - 1, timeout);
      assert StepAt(h, j, timeout);
    }
  }

  /** It was set by a reconcile that found the cluster provisioned and all policies compliant. */
  lemma {:induction false} ZtpDoneMeans(h: seq<Entry>, i: nat, timeout: int) returns (j: nat)
    requires IsRun(h, timeout) && i < |h| && h[i].status.ztpDone
    ensures 0 < j <= i && !h[j - 1].status.ztpDone && h[j].o.provisioned == Some(true)
    ensures forall p :: p in h[j].o.policies && p.ofTemplate ==> p.compliant
  {
    assert StepAt(h, i, timeout);
    if h[i - 1].status.ztpDone {
      j := ZtpDoneMeans(h, i - 1, timeout);
    } else {
      j := i;
    }
  }

  // ---------------------------------------------------------------- requeueing

  function RequeueFor(s: Status, o: Observation, now: int, timeout: int): bool {
    Unconverged(o) && !(Judge(o).Timed? && ClockExpired(s, now, timeout))
  }

  /** A reconcile comes back exactly for enforced configuration that does not comply or is
      missing, until it reports that this has timed out. */
  lemma RequeuesExactly(s: Status, o: Observation, now: int, timeout: int)
    ensures RequeueFor(s, o, now, timeout) <==>
      && (|| ((exists p :: p in o.policies && p.ofTemplate && !p.compliant) &&
              (exists p :: p in o.policies && p.ofTemplate && !p.inform))
          || ((exists name :: name in o.expected && forall p :: p in o.policies && p.ofTemplate ==> p.name != name) &&
              (exists name :: name in o.expected && !o.expected[name])))
      && !(Outstanding(o) && Updated(s, o, now, timeout).cond == Some(TimedOut))
  {
    MissingRaw(o);
    OutstandingMeans(o);
  }

  predicate Settled(r: Option<Reason>) {
    r == Some(Completed) || r == Some(OutOfDate) || r == Some(TimedOut)
  }

  /** A reconcile that reports Completed, OutOfDate or TimedOut does not requeue, except in
      one case: the readiness of the cluster could not be determined. Then the report is the
      one of an earlier reconcile, and the error itself is lost when the status is written. */
  lemma SettledRequeues(s: Status, o: Observation, now: int, timeout: int)
    ensures Settled(Updated(s, o, now, timeout).cond) && RequeueFor(s, o, now, timeout) <==>
      Judge(o).Undecided? && Settled(s.cond) && Unconverged(o)
  {
    assert !SomeMissing(o) && NoTargets(o) ==> AllCompliant(o);
  }

  /** It happens: a timed out configuration that is polled on because of a lost error. */
  lemma StaleTimeoutRequeues()
    ensures var o := Observation([Policy("p", true, false, false)], map[], Unknown, None);
      var s := Status(Some(TimedOut), Some(0), false);
      Updated(s, o, 5, 1) == s && RequeueFor(s, o, 5, 1)
  {
    var o := Observation([Policy("p", true, false, false)], map[], Unknown, None);
    assert o.policies[0] in o.policies;
    assert !AllCompliant(o) && !NoTargets(o);
  }

  // ---------------------------------------------------------------- the reconciler

  datatype Summary = Summary(targets: nat, compliant: bool, inform: bool, missing: bool, expectedInform: bool)

  predicate Summarizes(x: Summary, o: Observation) {
    && (x.targets == 0 <==> NoTargets(o)) && x.compliant == AllCompliant(o) && x.inform == AllInform(o)
    && x.missing == SomeMissing(o) && x.expectedInform == ExpectedInform(o)
  }

  method ScanPolicies(o: Observation)
    returns (targets: nat, compliant: bool, inform: bool, names: set<string>)
    ensures (targets == 0 <==> NoTargets(o)) && compliant == AllCompliant(o) && inform == AllInform(o)
    ensures forall name :: name in names <==> Present(o, name)
  {
    targets, compliant, inform, names := 0, true, true, {};
    for i := 0 to |o.policies|
      invariant targets == 0 <==> forall p :: p in o.policies[..i] ==> !p.ofTemplate
      invariant compliant <==> forall p :: p in o.policies[..i] && p.ofTemplate ==> p.compliant
      invariant inform <==> forall p :: p in o.policies[..i] && p.ofTemplate ==> p.inform
      invariant forall name :: name in names <==> exists p :: p in o.policies[..i] && p.ofTemplate && p.name == name
    {
      var p := o.policies[i];
      assert o.policies[..i + 1] == o.policies[..i] + [p];
      if !p.ofTemplate {
        continue;
      }
      targets := targets + 1;
      if !p.compliant {
        compliant := false;
      }
      if !p.inform {
        inform := false;
      }
      names := names + {p.name};
    }
    assert o.policies[..|o.policies|] == o.policies;
  }

  /** Compares the expected policies, in any order, with those that exist. */
  method ScanExpected(expected: map<string, bool>, names: set<string>) returns (missing: bool, inform: bool)
    ensures missing <==> exists name :: name in expected && name !in names
    ensures inform <==> forall name :: name in expected ==> expected[name]
  {
    missing, inform := false, true;
    var left := expected.Keys;
    while left != {}
      invariant left <= expected.Keys
      invariant missing <==> exists name :: name in expected && name !in left && name !in names
      invariant inform <==> forall name :: name in expected && name !in left ==> expected[name]
      decreases |left|
    {
      var name :| name in left;
      if name !in names {
        missing := true;
      }
      if !expected[name] {
        inform := false;
      }
      left := left - {name};
    }
  }

  method Summarize(o: Observation) returns (x: Summary)
    ensures Summarizes(x, o)
  {
    var targets, compliant, inform, names := ScanPolicies(o);
    var missing, expectedInform := ScanExpected(o.expected, names);
    x := Summary(targets, compliant, inform, missing, expectedInform);
  }

  class ConfigTask {
    /** The status in memory, and the persisted one. */
    var status: Status
    var persisted: Status
    ghost var failed: bool

    constructor (s: Status)
      ensures status == persisted == s && !failed
    {
      status, persisted, failed := s, s, false;
    }

    /** Decides on the timeout from the last condition, and starts the clock if needed. */
    method HasTimedOut(now: int, timeout: int) returns (expired: bool)
      modifies this`status
      ensures expired == ClockExpired(old(status), now, timeout)
      ensures status == old(status).(nonCompliantAt := ClockAfter(old(status), now))
    {
      expired := false;
      if status.cond.None? {
        status := status.(nonCompliantAt := Some(Persisted(now)));
        return;
      }
      var reason := status.cond.value;
      if !ConditionTrue(reason) {
        match reason {
          case InProgress =>
            if status.nonCompliantAt.None? {
              status := status.(nonCompliantAt := Some(Persisted(now)));
            } else {
              expired := TimeoutExceeded(status.nonCompliantAt.value, now, timeout);
            }
          case TimedOut => expired := true;
          case OutOfDate => status := status.(nonCompliantAt := Some(Persisted(now)));
          case ClusterNotReady =>
            if status.nonCompliantAt.Some? {
              expired := TimeoutExceeded(status.nonCompliantAt.value, now, timeout);
            }
          case _ =>
        }
      } else if reason.Completed? {
        status := status.(nonCompliantAt := Some(Persisted(now)));
      }
    }

    method Set(reason: Reason, clear: bool)
      modifies this`status
      ensures status == old(status).(cond := Some(reason),
                                     nonCompliantAt := if clear then None else old(status.nonCompliantAt))
    {
      if clear {
        status := status.(nonCompliantAt := None);
      }
      status := status.(cond := Some(reason));
    }

    method UpdateConfigurationApplied(o: Observation, x: Summary, now: int, timeout: int) returns (timedOut: bool)
      requires Summarizes(x, o)
      modifies this`status
      ensures status == Updated(old(status), o, now, timeout)
      ensures timedOut == (Judge(o).Timed? && ClockExpired(old(status), now, timeout))
    {
      timedOut := false;
      if !x.missing && x.targets == 0 {
        Set(Missing, true);
        return;
      }
      if !x.missing && x.compliant {
        Set(Completed, true);
        return;
      }
      if o.readiness.Unknown? {
        return;
      }
      if o.readiness.NotReady? {
        Set(ClusterNotReady, false);
        return;
      }
      if x.missing && x.expectedInform {
        Set(Missing, true);
        return;
      }
      if !x.missing && x.inform {
        Set(OutOfDate, true);
        return;
      }
      timedOut := HasTimedOut(now, timeout);
      Set(if timedOut then TimedOut else InProgress, false);
    }

    method Write() returns (ok: bool)
      modifies this`persisted, this`failed
      ensures ok ==> persisted == status
      ensures persisted == status || persisted == old(persisted)
      ensures failed == (old(failed) || !ok)
    {
      var applied: bool := *;
      ok := *;
      ok := ok && applied;
      failed := failed || !ok;
      if applied {
        persisted := status;
      }
    }

    /** One reconcile of the policy configuration. It is a step of the run whatever happens to
        its writes, and if they succeed it requeues exactly for unconverged configuration
        that has not timed out. */
    method HandlePolicyConfiguration(o: Observation, now: int, timeout: int) returns (requeue: bool, ok: bool)
      requires status == persisted
      modifies this
      ensures Step(old(persisted), Entry(now, o, persisted), timeout)
      ensures ok ==> persisted == Latched(Updated(old(persisted), o, now, timeout), o)
      ensures ok ==> requeue == RequeueFor(old(persisted), o, now, timeout)
      ensures ok && o.provisioned == Some(true) && (forall p :: p in o.policies && p.ofTemplate ==> p.compliant) ==>
        persisted.ztpDone
      ensures !ok ==> !requeue
      ensures failed == (old(failed) || !ok)
    {
      var x := Summarize(o);
      var timedOut := UpdateConfigurationApplied(o, x, now, timeout);
      ok := Write();
      if !ok {
        return false, false;
      }
      if o.provisioned.Some? && !status.ztpDone && o.provisioned.value && x.compliant {
        status := status.(ztpDone := true);
      }
      ok := Write();
      if !ok {
        return false, false;
      }
      requeue := ((!x.compliant && !x.inform) || (x.missing && !x.expectedInform)) && !timedOut;
    }
  }
}
