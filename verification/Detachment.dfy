/** Detachment of the ACM agents from the seed cluster: in which order objects on the hub
    and the spoke are paused and removed, and why the work ends. */
module Detachment {
  import opened Wrappers

  /** What the detachment handles. An AddonConfig produces add-ons, an ImportWork keeps the
      Klusterlet in place, an AppliedWork is the agent's record on the spoke. */
  datatype Kind = AddonConfig | AddOn | ImportWork | Crd | Klusterlet | AppliedWork | AgentNamespace | Observability

  /** `owner` is the UID of a Klusterlet and the agent of an applied work. */
  datatype Ref = Ref(kind: Kind, name: string, owner: nat)

  /** Fresh: nothing was asked of it. Requested: being deleted, or patched and not yet
      acknowledged at its generation; for a namespace, left to the operator. Settled: paused,
      or read-only and acknowledged. Held: carries finalizers of the agent. */
  datatype Phase = Held | Fresh | Requested | Settled

  type Objects = map<Ref, Phase>

  datatype State = State(clusterUID: nat, clusterDeleting: bool, conflictingTaint: bool, fenced: bool, objects: Objects)

  datatype Pins = Pins(clusterUID: nat, klusterletUID: nat)

  /** How a reconcile ends. Refused: the clusters are not as pinned. Error: a call failed. */
  datatype Outcome = Pending | Detached | Refused | Error

  const KLUSTERLET: string := "klusterlet"

  function Of(s: State, kind: Kind): Objects {
    map r | r in s.objects && r.kind == kind :: s.objects[r]
  }

  predicate WellFormed(s: State) {
    && (forall r :: r in s.objects && r.kind.Klusterlet? ==> Of(s, Crd) != map[])
    && (forall r :: r in s.objects && s.objects[r].Held? ==> r.kind.AppliedWork?)
    && (forall r :: r in s.objects && s.objects[r].Settled? ==> r.kind.AddonConfig? || r.kind.ImportWork?)
    && (forall r :: r in s.objects && r.kind.AgentNamespace? ==> s.objects[r].Requested?)
  }

  predicate AllSettled(o: Objects) {
    forall r :: r in o ==> o[r].Settled?
  }

  /** A list with anything in it keeps the detachment waiting. */
  predicate Stage(kind: Kind, o: Objects) {
    if kind.AddonConfig? || kind.ImportWork? then !AllSettled(o) else o != map[]
  }

  function Asked(kind: Kind): Phase {
    if kind.AddonConfig? then Settled else Requested
  }

  // ---------------------------------------------------------------- one round, undisturbed

  predicate SameCluster(s: State, s': State) {
    s'.clusterUID == s.clusterUID && s'.clusterDeleting == s.clusterDeleting && s'.conflictingTaint == s.conflictingTaint
  }

  /** Some fresh objects of one kind were asked to change, and nothing else happened. */
  predicate Asks(s: State, s': State, kind: Kind) {
    && SameCluster(s, s') && s'.fenced == s.fenced && s'.objects.Keys == s.objects.Keys
    && forall r :: r in s.objects ==>
         s'.objects[r] == s.objects[r] || (r.kind == kind && s.objects[r].Fresh? && s'.objects[r] == Asked(kind))
  }

  predicate AllAsked(s: State, kind: Kind) {
    forall r :: r in s.objects && r.kind == kind ==> !s.objects[r].Fresh?
  }

  predicate Foreign(pins: Pins, r: Ref) {
    r.kind.AppliedWork? && r.owner != pins.klusterletUID
  }

  predicate HasForeign(pins: Pins, s: State) {
    exists r :: r in s.objects && Foreign(pins, r)
  }

  predicate HasHeld(s: State) {
    exists r :: r in s.objects && s.objects[r].Held?
  }

  /** The first stage that is not finished. The Klusterlet is touched only when the import
      works no longer keep it in place. */
  function Current(s: State): Option<Kind> {
    if Stage(AddonConfig, Of(s, AddonConfig)) then Some(AddonConfig)
    else if Stage(AddOn, Of(s, AddOn)) then Some(AddOn)
    else if Stage(Klusterlet, Of(s, Klusterlet)) then
      if Stage(ImportWork, Of(s, ImportWork)) then Some(ImportWork) else Some(Klusterlet)
    else if Stage(AppliedWork, Of(s, AppliedWork)) then Some(AppliedWork)
    else if Stage(Crd, Of(s, Crd)) then Some(Crd)
    else if Stage(AgentNamespace, Of(s, AgentNamespace)) then Some(AgentNamespace)
    else if Stage(Observability, Of(s, Observability)) then Some(Observability)
    else None
  }

  /** What one reconcile does when nobody interferes: it works on the current stage, and is
      done when there is none. Works of another agent are never touched, and works after one
      with finalizers may be left for later. */
  predicate Round(pins: Pins, s: State, s': State, done: bool) {
    match Current(s)
    case None => done && SameCluster(s, s') && s'.fenced == s.fenced && s'.objects == s.objects
    case Some(kind) =>
      && !done && Asks(s, s', kind)
      && (AllAsked(s', kind) || (kind.AppliedWork? && (HasForeign(pins, s) || HasHeld(s))))
      && (kind.AppliedWork? && HasForeign(pins, s) ==> s'.objects == s.objects)
  }

  predicate BadCluster(pins: Pins, s: State) {
    s.clusterUID != pins.clusterUID || s.clusterDeleting || s.conflictingTaint
  }

  predicate Pinned(pins: Pins, r: Ref) {
    r.name == KLUSTERLET && r.owner == pins.klusterletUID
  }

  predicate OtherKlusterlet(pins: Pins, s: State) {
    exists r :: r in s.objects && r.kind.Klusterlet? && !Pinned(pins, r)
  }

  /** The stages of a reconcile: another Klusterlet is an error once its turn has come. */
  predicate Stages(pins: Pins, s: State, s': State, outcome: Outcome) {
    if OtherKlusterlet(pins, s) && (Current(s) == Some(ImportWork) || Current(s) == Some(Klusterlet)) then
      outcome.Refused? && SameCluster(s, s') && s'.fenced == s.fenced && s'.objects == s.objects
    else
      (outcome.Pending? || outcome.Detached?) && Round(pins, s, s', outcome.Detached?)
  }

  /** A whole reconcile when nobody interferes and no call fails: the cluster is fenced before
      anything else changes. */
  predicate Pass(pins: Pins, s: State, s': State, outcome: Outcome) {
    if BadCluster(pins, s) then outcome.Refused? && SameCluster(s, s') && s'.objects == s.objects
    else Stages(pins, s.(fenced := true), s', outcome)
  }

  /** The stages of the Klusterlet, which is there. */
  predicate Removes(pins: Pins, s: State, s': State, outcome: Outcome) {
    if OtherKlusterlet(pins, s) then outcome.Refused? && s' == s
    else
      var kind := if Stage(ImportWork, Of(s, ImportWork)) then ImportWork else Klusterlet;
      outcome.Pending? && Asks(s, s', kind) && AllAsked(s', kind)
  }

  predicate AddOnsGone(s: State) {
    !Stage(AddonConfig, Of(s, AddonConfig)) && !Stage(AddOn, Of(s, AddOn))
  }

  lemma RemovalIsStage(pins: Pins, s: State, s': State, outcome: Outcome)
    requires AddOnsGone(s) && Of(s, Klusterlet) != map[] && Removes(pins, s, s', outcome)
    ensures Stages(pins, s, s', outcome)
  {
  }

  lemma NoOtherKlusterlet(pins: Pins, s: State)
    requires Of(s, Klusterlet) == map[]
    ensures !OtherKlusterlet(pins, s)
  {
    assert forall r :: r in s.objects && r.kind.Klusterlet? ==> r in Of(s, Klusterlet);
  }

  lemma CleanupIsStage(pins: Pins, s: State, s': State, outcome: Outcome)
    requires (outcome.Pending? || outcome.Detached?) && Round(pins, s, s', outcome.Detached?)
    requires !OtherKlusterlet(pins, s)
    ensures Stages(pins, s, s', outcome)
  {
  }

  lemma NoCrdNoKlusterlet(s: State)
    requires WellFormed(s) && Of(s, Crd) == map[]
    ensures Of(s, Klusterlet) == map[]
  {
  }

  /** What stands in the way of detachment and is not for the controller to remove. */
  predicate Blocked(pins: Pins, s: State) {
    BadCluster(pins, s) || OtherKlusterlet(pins, s) || HasForeign(pins, s)
  }

  // ---------------------------------------------------------------- the measure

  function Rank(p: Phase): nat {
    match p case Held => 3 case Fresh => 2 case Requested => 1 case Settled => 0
  }

  ghost function Pick(o: Objects): Ref
    requires |o| > 0
    ensures Pick(o) in o
  {
    var r :| r in o; r
  }

  ghost function Measure(o: Objects): nat
    decreases |o|
  {
    if |o| == 0 then 0 else Rank(o[Pick(o)]) + Measure(o - {Pick(o)})
  }

  lemma {:induction false} MeasureWithout(o: Objects, r: Ref)
    requires r in o
    ensures Measure(o) == Rank(o[r]) + Measure(o - {r})
    decreases |o|
  {
    var x := Pick(o);
    if x != r {
      MeasureWithout(o - {x}, r);
      MeasureWithout(o - {r}, x);
      assert o - {x} - {r} == o - {r} - {x};
    }
  }

  /** Nothing new appears and nothing goes back. */
  predicate NothingNew(o: Objects, n: Objects) {
    n.Keys <= o.Keys && forall r :: r in n ==> Rank(n[r]) <= Rank(o[r])
  }

  predicate Falls(o: Objects, n: Objects) {
    NothingNew(o, n) && exists r :: r in o && (if r in n then Rank(n[r]) < Rank(o[r]) else Rank(o[r]) > 0)
  }

  lemma RestNothingNew(o: Objects, n: Objects, r: Ref)
    requires NothingNew(o, n)
    ensures NothingNew(o - {r}, n - {r})
  {
  }

  lemma {:induction false} MeasureNeverGrows(o: Objects, n: Objects)
    requires NothingNew(o, n)
    ensures Measure(n) <= Measure(o)
    decreases |o|
  {
    if |o| == 0 {
      assert |n| == 0;
    } else {
      var r := Pick(o);
      RestNothingNew(o, n, r);
      MeasureNeverGrows(o - {r}, n - {r});
      if r in n {
        MeasureWithout(n, r);
      } else {
        assert n - {r} == n;
      }
    }
  }

  lemma MeasureFalls(o: Objects, n: Objects)
    requires Falls(o, n)
    ensures Measure(n) < Measure(o)
  {
    var r :| r in o && if r in n then Rank(n[r]) < Rank(o[r]) else Rank(o[r]) > 0;
    hide Measure, Falls;
    MeasureWithout(o, r);
    RestNothingNew(o, n, r);
    MeasureNeverGrows(o - {r}, n - {r});
    if r in n {
      MeasureWithout(n, r);
    } else {
      assert n - {r} == n;
    }
  }

  // ---------------------------------------------------------------- the work ends

  /** ACM owes an answer: to a request, or by the operator which removes the agent's
      finalizers once the Klusterlet is gone. */
  predicate Owed(s: State) {
    exists r :: r in s.objects && (s.objects[r].Requested? || (s.objects[r].Held? && Of(s, Klusterlet) == map[]))
  }

  /** A turn of a cooperative environment: it creates nothing, takes nothing back and gives
      at least one of the answers it owes. */
  predicate Cooperates(s: State, s': State) {
    WellFormed(s') && SameCluster(s, s') && NothingNew(s.objects, s'.objects) && (Owed(s) ==> Falls(s.objects, s'.objects))
  }

  lemma AskingFalls(s: State, s': State, kind: Kind)
    requires Asks(s, s', kind)
    ensures NothingNew(s.objects, s'.objects)
    ensures Falls(s.objects, s'.objects) || s'.objects == s.objects
  {
    if s'.objects != s.objects {
      var r :| r in s.objects && s'.objects[r] != s.objects[r];
      assert Rank(s'.objects[r]) < Rank(s.objects[r]);
    }
  }

  /** A stage with nothing left to ask waits for something of its own kind. */
  lemma StageIsOwed(s: State, kind: Kind)
    requires WellFormed(s) && Stage(kind, Of(s, kind)) && AllAsked(s, kind)
    requires kind.AppliedWork? ==> Of(s, Klusterlet) == map[]
    ensures Owed(s)
  {
    assert Of(s, kind) != map[];
    var r :| r in Of(s, kind) && (kind.AddonConfig? || kind.ImportWork? ==> !Of(s, kind)[r].Settled?);
    assert r in s.objects;
  }

  lemma HeldIsOwed(s: State)
    requires HasHeld(s) && Of(s, Klusterlet) == map[]
    ensures Owed(s)
  {
  }

  lemma CurrentIsStage(s: State)
    requires Current(s).Some?
    ensures Stage(Current(s).value, Of(s, Current(s).value))
    ensures Current(s).value.AppliedWork? ==> Of(s, Klusterlet) == map[]
  {
  }

  /** A round that is not done asks for something, or waits for an answer that is owed. */
  lemma RoundAsksOrWaits(pins: Pins, s: State, s': State)
    requires WellFormed(s) && Round(pins, s, s', false) && !HasForeign(pins, s)
    ensures NothingNew(s.objects, s'.objects) && (Falls(s.objects, s'.objects) || Owed(s'))
  {
    hide WellFormed, Stage, HasForeign, HasHeld, NothingNew, Falls, Asks, Current;
    var kind := Current(s).value;
    AskingFalls(s, s', kind);
    CurrentIsStage(s);
    if s'.objects == s.objects {
      SameObjects(s, s');
      if AllAsked(s', kind) {
        StageIsOwed(s, kind);
      } else {
        HeldIsOwed(s);
      }
    }
  }

  lemma SameObjects(s: State, s': State)
    requires s'.objects == s.objects
    ensures Owed(s') == Owed(s) && forall kind :: AllAsked(s', kind) == AllAsked(s, kind)
  {
    assert Of(s, Klusterlet) == Of(s', Klusterlet);
  }

  /** A turn: a reconcile that is not done, then the environment. */
  predicate Turn(pins: Pins, s: State, m: State, t: State) {
    WellFormed(s) && (Pass(pins, s, m, Pending) || Pass(pins, s, m, Refused)) && Cooperates(m, t)
  }

  lemma FenceKeepsObjects(pins: Pins, s: State)
    ensures var t := s.(fenced := true);
      && (forall k :: Of(t, k) == Of(s, k)) && Current(t) == Current(s) && WellFormed(t) == WellFormed(s)
      && OtherKlusterlet(pins, t) == OtherKlusterlet(pins, s) && HasForeign(pins, t) == HasForeign(pins, s)
  {
    var t := s.(fenced := true);
    assert forall k :: Of(t, k) == Of(s, k);
  }

  lemma CooperationKeepsUnblocked(pins: Pins, m: State, t: State)
    requires Cooperates(m, t) && !Blocked(pins, m)
    ensures !Blocked(pins, t)
  {
  }

  lemma TurnFalls(pins: Pins, s: State, m: State, t: State)
    requires Turn(pins, s, m, t) && !Blocked(pins, s)
    ensures Measure(t.objects) < Measure(s.objects) && !Blocked(pins, t)
  {
    PassKeepsBlocked(pins, s, m, if Pass(pins, s, m, Pending) then Pending else Refused);
    FenceKeepsObjects(pins, s);
    RoundAsksOrWaits(pins, s.(fenced := true), m);
    CooperationKeepsUnblocked(pins, m, t);
    hide Pass, Blocked, Measure, Falls, WellFormed, NothingNew;
    MeasureNeverGrows(s.objects, m.objects);
    MeasureNeverGrows(m.objects, t.objects);
    if Falls(s.objects, m.objects) {
      MeasureFalls(s.objects, m.objects);
    } else {
      MeasureFalls(m.objects, t.objects);
    }
  }

  /** With a cooperative environment detachment ends unless it is blocked: there are never
      more unfinished turns than the measure of the first state, wherever and however often
      reconciles restart. */
  lemma {:induction false} DetachmentEnds(pins: Pins, before: seq<State>, after: seq<State>)
    requires |before| == |after| + 1 && !Blocked(pins, before[0])
    requires forall i :: 0 <= i < |after| ==> Turn(pins, before[i], after[i], before[i + 1])
    ensures |after| <= Measure(before[0].objects)
  {
    if |after| > 0 {
      TurnFalls(pins, before[0], after[0], before[1]);
      DetachmentEnds(pins, before[1..], after[1..]);
    }
  }

  lemma PassKeepsObjects(pins: Pins, s: State, s': State, outcome: Outcome)
    requires Pass(pins, s, s', outcome)
    ensures SameCluster(s, s') && s'.objects.Keys == s.objects.Keys
  {
  }

  lemma PassKeepsBlocked(pins: Pins, s: State, s': State, outcome: Outcome)
    requires Pass(pins, s, s', outcome)
    ensures Blocked(pins, s') <==> Blocked(pins, s)
  {
    PassKeepsObjects(pins, s, s', outcome);
    hide Pass;
    assert HasForeign(pins, s') == HasForeign(pins, s);
    assert OtherKlusterlet(pins, s') == OtherKlusterlet(pins, s);
  }

  /** The condition is needed: reconciles never set up or remove what blocks, and are not
      done as long as it is there. */
  lemma BlockedStays(pins: Pins, s: State, s': State, outcome: Outcome)
    requires Pass(pins, s, s', outcome)
    ensures Blocked(pins, s') <==> Blocked(pins, s)
    ensures Blocked(pins, s) ==> !outcome.Detached?
  {
    PassKeepsBlocked(pins, s, s', outcome);
    FenceKeepsObjects(pins, s);
    assert forall r :: r in s.objects ==> r in Of(s, r.kind);
  }

  /** In which order kinds are touched. */
  function Order(kind: Kind): nat {
    match kind
    case AddonConfig => 0
    case AddOn => 1
    case ImportWork => 2
    case Klusterlet => 3
    case AppliedWork => 4
    case Crd => 5
    case AgentNamespace => 6
    case Observability => 7
  }

  lemma AskedIsCurrent(pins: Pins, s: State, s': State, outcome: Outcome, r: Ref)
    requires Pass(pins, s, s', outcome) && r in s.objects && s'.objects[r] != s.objects[r]
    ensures s'.fenced && !BadCluster(pins, s) && s.objects[r].Fresh? && Current(s) == Some(r.kind)
    ensures r.kind.Klusterlet? ==> !OtherKlusterlet(pins, s)
    ensures r.kind.AppliedWork? ==> !HasForeign(pins, s)
  {
    FenceKeepsObjects(pins, s);
    hide Stage, WellFormed;
  }

  lemma DoneKind(s: State, kind: Kind)
    requires !Stage(kind, Of(s, kind))
    ensures forall x :: x in s.objects && x.kind == kind ==> (kind.AddonConfig? || kind.ImportWork?) && s.objects[x].Settled?
  {
    forall x | x in s.objects && x.kind == kind
      ensures (kind.AddonConfig? || kind.ImportWork?) && s.objects[x].Settled?
    {
      assert x in Of(s, kind) && Of(s, kind)[x] == s.objects[x];
    }
  }

  lemma EarlierKindsAreDone(s: State, kind: Kind)
    requires Current(s) == Some(kind)
    ensures forall x :: x in s.objects && Order(x.kind) < Order(kind) ==>
      x.kind.ImportWork? || (x.kind.AddonConfig? && s.objects[x].Settled?)
    ensures kind.Klusterlet? ==> forall x :: x in s.objects && x.kind.ImportWork? ==> s.objects[x].Settled?
  {
    hide Stage;
    forall x | x in s.objects && !Stage(x.kind, Of(s, x.kind))
      ensures (x.kind.AddonConfig? || x.kind.ImportWork?) && s.objects[x].Settled?
    {
      DoneKind(s, x.kind);
    }
  }

  /** An object is touched only on the fenced, pinned cluster, and when nothing is left of the
      earlier kinds but paused configs and import works. The Klusterlet is the pinned one and
      all import works have let go of it; no record is touched while another agent has one. */
  lemma TouchedInOrder(pins: Pins, s: State, s': State, outcome: Outcome, r: Ref)
    requires Pass(pins, s, s', outcome) && r in s.objects && s'.objects[r] != s.objects[r]
    ensures s'.fenced && s.clusterUID == pins.clusterUID && !s.clusterDeleting && !s.conflictingTaint
    ensures forall x :: x in s.objects && Order(x.kind) < Order(r.kind) ==>
      x.kind.ImportWork? || (x.kind.AddonConfig? && s.objects[x].Settled?)
    ensures r.kind.Klusterlet? ==>
      && r.name == KLUSTERLET && r.owner == pins.klusterletUID
      && forall x :: x in s.objects && x.kind.ImportWork? ==> s.objects[x].Settled?
    ensures r.kind.AppliedWork? ==> forall x :: x in s.objects && x.kind.AppliedWork? ==> x.owner == pins.klusterletUID
  {
    AskedIsCurrent(pins, s, s', outcome, r);
    EarlierKindsAreDone(s, r.kind);
    hide Pass, Current;
  }

  /** When a round is done, no agent, record, CRD, namespace or add-on is left, and what
      could bring them back is paused. */
  lemma DoneMeansDetached(pins: Pins, s: State, s': State)
    requires WellFormed(s) && Pass(pins, s, s', Detached)
    ensures forall r :: r in s'.objects ==>
      r.kind.ImportWork? || (r.kind.AddonConfig? && s'.objects[r].Settled?)
    ensures s'.fenced
  {
    FenceKeepsObjects(pins, s);
    forall r | r in s.objects
      ensures r.kind.ImportWork? || (r.kind.AddonConfig? && s.objects[r].Settled?)
    {
      assert r in Of(s, r.kind);
    }
  }

  // ---------------------------------------------------------------- the reconciler

  /** What one reconcile has read, kind by kind. */
  type Sights = map<Kind, Objects>

  /** What must have been seen before the Klusterlet is deleted. */
  predicate SafeToDelete(pins: Pins, seen: Sights, r: Ref) {
    && r.kind.Klusterlet? && r.owner == pins.klusterletUID
    && Klusterlet in seen && (forall k :: k in seen[Klusterlet] ==> Pinned(pins, k))
    && AddonConfig in seen && AllSettled(seen[AddonConfig])
    && AddOn in seen && seen[AddOn] == map[]
    && ImportWork in seen && AllSettled(seen[ImportWork])
  }

  datatype Deletion = Deletion(ref: Ref, seen: Sights)

  class Detacher {
    const pins: Pins
    var state: State
    /** Ghosts: whether somebody else changed anything during this reconcile, whether a call
        failed, whether it found or left the cluster fenced, what it has read, and every deletion of a Klusterlet so far. */
    ghost var disturbed: bool
    ghost var failed: bool
    ghost var marked: bool
    ghost var seen: Sights
    ghost var deletions: seq<Deletion>

    constructor (pins: Pins, state: State)
      requires WellFormed(state)
      ensures Valid() && this.pins == pins && this.state == state && deletions == []
    {
      this.pins, this.state := pins, state;
      disturbed, failed, marked, seen, deletions := false, false, false, map[], [];
    }

    ghost predicate Valid()
      reads this
    {
      WellFormed(state) && forall i :: 0 <= i < |deletions| ==> SafeToDelete(pins, deletions[i].seen, deletions[i].ref)
    }

    /** The reconcile goes on. Unless somebody interfered, the state is the expected one. */
    twostate predicate Goes(expected: State)
      reads this
    {
      && Valid() && old(deletions) <= deletions && (old(disturbed) ==> disturbed) && (old(marked) ==> marked)
      && (!disturbed ==> state == expected)
    }

    method Interfere()
      requires Valid()
      modifies this
      ensures Goes(old(state)) && seen == old(seen) && deletions == old(deletions) && failed == old(failed)
    {
      var s: State := *;
      if WellFormed(s) && s != state {
        state := s;
        disturbed := true;
      }
    }

    method List(kind: Kind) returns (items: Objects, ok: bool)
      requires Valid()
      modifies this
      ensures Goes(old(state)) && deletions == old(deletions)
      ensures ok ==> seen == old(seen)[kind := items] && (!disturbed ==> items == Of(state, kind))
      ensures forall r :: r in items ==> r.kind == kind
      ensures !ok ==> seen == old(seen)
      ensures failed == (old(failed) || !ok)
    {
      Interfere();
      ok := *;
      failed := failed || !ok;
      items := Of(state, kind);
      if ok {
        seen := seen[kind := items];
      }
    }

    /** Patches or deletes one object; the API accepts it or reports an error. */
    method Ask(r: Ref) returns (ok: bool)
      requires Valid() && marked && !r.kind.Klusterlet? && !r.kind.AgentNamespace?
      modifies this
      ensures Valid() && deletions == old(deletions) && seen == old(seen) && (old(disturbed) ==> disturbed) && (old(marked) ==> marked)
      ensures ok && !disturbed ==> state == After(old(state), r)
      ensures failed == (old(failed) || !ok)
    {
      Interfere();
      ok := *;
      failed := failed || !ok;
      if ok {
        AskKeepsWellFormed(state, r);
        state := After(state, r);
      }
    }

    method DeleteKlusterlet(r: Ref) returns (ok: bool)
      requires Valid() && marked && SafeToDelete(pins, seen, r)
      modifies this
      ensures Valid() && deletions == old(deletions) + [Deletion(r, seen)] && seen == old(seen)
      ensures (old(disturbed) ==> disturbed) && (old(marked) ==> marked)
      ensures ok && !disturbed ==> state == After(old(state), r)
      ensures failed == (old(failed) || !ok)
    {
      Interfere();
      ok := *;
      failed := failed || !ok;
      deletions := deletions + [Deletion(r, seen)];
      if ok {
        AskKeepsWellFormed(state, r);
        state := After(state, r);
      }
    }

    /** Asks every listed object that is still fresh, in any order. With `stopAtHeld` it
        stops at the first one that carries finalizers. */
    method AskAll(kind: Kind, items: Objects, stopAtHeld: bool) returns (ok: bool)
      requires Valid() && marked && !kind.Klusterlet? && !kind.AgentNamespace? && forall r :: r in items ==> r.kind == kind
      modifies this
      ensures Valid() && deletions == old(deletions) && (old(disturbed) ==> disturbed) && (old(marked) ==> marked)
      ensures ok && !disturbed && items == Of(old(state), kind) ==> Asks(old(state), state, kind)
      ensures ok && !disturbed && items == Of(old(state), kind) ==>
        AllAsked(state, kind) || (stopAtHeld && exists r :: r in items && items[r].Held?)
      ensures failed == (old(failed) || !ok)
    {
      var left := items.Keys;
      ok := true;
      assert Asks(state, state, kind) && AskedBut(state, items, left);
      hide WellFormed, SafeToDelete, Asks, AskedBut, After;
      while left != {}
        invariant left <= items.Keys && Valid() && deletions == old(deletions) && (old(disturbed) ==> disturbed) && (old(marked) ==> marked)
        invariant ok && failed == old(failed) && (!disturbed ==> Asks(old(state), state, kind))
        invariant !disturbed && items == Of(old(state), kind) ==> AskedBut(state, items, left)
        decreases |left|
      {
        var r :| r in left;
        if stopAtHeld && items[r].Held? {
          return;
        }
        if !disturbed {
          AsksOneMore(old(state), state, kind, items, left, r);
        }
        if items[r].Fresh? {
          ok := Ask(r);
          if !ok {
            return;
          }
        }
        left := left - {r};
      }
      if !disturbed && items == Of(old(state), kind) {
        NoneLeft(old(state), state, kind);
      }
    }

    /** Deletes the one Klusterlet unless that was done before. */
    method ReleaseKlusterlet(k: Ref, phase: Phase) returns (ok: bool)
      requires Valid() && marked && SafeToDelete(pins, seen, k)
      requires !disturbed ==> Of(state, Klusterlet) == map[k := phase]
      modifies this
      ensures Valid() && old(deletions) <= deletions && (old(disturbed) ==> disturbed) && (old(marked) ==> marked)
      ensures failed == (old(failed) || !ok)
      ensures ok && !disturbed ==> Asks(old(state), state, Klusterlet) && AllAsked(state, Klusterlet)
    {
      ok := true;
      if !disturbed {
        KlusterletAsked(state, k);
        assert state.objects[k] == Of(state, Klusterlet)[k];
      }
      hide Asks, AllAsked, After, WellFormed, SafeToDelete;
      if phase.Fresh? {
        ok := DeleteKlusterlet(k);
      }
    }

    /** Removes the Klusterlet, but no other agent and not before the import works let go.
        `Detached` means that there is none. */
    method RemoveKlusterlet() returns (outcome: Outcome)
      requires Valid() && marked && AddonConfig in seen && AllSettled(seen[AddonConfig]) && AddOn in seen && seen[AddOn] == map[]
      modifies this
      ensures Valid() && old(deletions) <= deletions && (old(disturbed) ==> disturbed) && (old(marked) ==> marked)
      ensures !disturbed && !outcome.Error? ==>
        if Of(old(state), Klusterlet) == map[] then outcome.Detached? && state == old(state)
        else !outcome.Detached? && Removes(pins, old(state), state, outcome)
      ensures failed == (old(failed) || outcome.Error?)
    {
      hide Asks, AllAsked, WellFormed;
      var klusterlets, ok := List(Klusterlet);
      if !ok {
        return Error;
      }
      if exists k :: k in klusterlets && !Pinned(pins, k) {
        return Refused;
      }
      if klusterlets == map[] {
        return Detached;
      }
      var works;
      works, ok := List(ImportWork);
      if !ok {
        return Error;
      }
      if Stage(ImportWork, works) {
        ok := AskAll(ImportWork, works, false);
      } else {
        var k := Ref(Klusterlet, KLUSTERLET, pins.klusterletUID);
        OnlyKlusterlet(klusterlets, k);
        assert klusterlets == map[k := klusterlets[k]];
        ok := ReleaseKlusterlet(k, klusterlets[k]);
      }
      return if ok then Pending else Error;
    }

    /** One stage that only asks: `Detached` means that it is finished. */
    method WorkOn(kind: Kind) returns (outcome: Outcome)
      requires Valid() && marked && !kind.Klusterlet? && !kind.AgentNamespace?
      modifies this
      ensures Valid() && deletions == old(deletions) && (old(disturbed) ==> disturbed) && (old(marked) ==> marked)
      ensures !outcome.Refused?
      ensures outcome.Detached? ==>
        exists items :: !Stage(kind, items) && seen == old(seen)[kind := items]
      ensures !disturbed && !outcome.Error? ==>
        if Stage(kind, Of(old(state), kind)) then outcome.Pending? && Asks(old(state), state, kind) && AllAsked(state, kind)
        else outcome.Detached? && state == old(state)
      ensures failed == (old(failed) || outcome.Error?)
    {
      var items, ok := List(kind);
      if !ok {
        return Error;
      }
      if !Stage(kind, items) {
        return Detached;
      }
      ok := AskAll(kind, items, false);
      return if ok then Pending else Error;
    }

    /** Removes the agent's work records, unless another agent has one too. */
    method CleanupAppliedWorks() returns (outcome: Outcome)
      requires Valid() && marked
      modifies this
      ensures !outcome.Refused?
      ensures Valid() && deletions == old(deletions) && (old(disturbed) ==> disturbed) && (old(marked) ==> marked)
      ensures !disturbed && !outcome.Error? ==>
        if Of(old(state), AppliedWork) == map[] then outcome.Detached? && state == old(state)
        else
          && outcome.Pending? && Asks(old(state), state, AppliedWork)
          && (AllAsked(state, AppliedWork) || HasForeign(pins, old(state)) || HasHeld(old(state)))
          && (HasForeign(pins, old(state)) ==> state == old(state))
      ensures failed == (old(failed) || outcome.Error?)
    {
      var works, ok := List(AppliedWork);
      if !ok {
        return Error;
      }
      if exists r :: r in works && Foreign(pins, r) {
        return Pending;
      }
      if works == map[] {
        return Detached;
      }
      ok := AskAll(AppliedWork, works, true);
      return if ok then Pending else Error;
    }

    /** What is left once no agent can come back. */
    method CleanupSpoke(crds: Objects) returns (outcome: Outcome)
      requires Valid() && marked
      modifies this
      ensures Valid() && deletions == old(deletions) && (old(disturbed) ==> disturbed) && (old(marked) ==> marked)
      ensures !outcome.Refused?
      ensures !disturbed && !outcome.Error? && crds == Of(old(state), Crd) && Of(old(state), Klusterlet) == map[] &&
              AddOnsGone(old(state)) ==>
        Round(pins, old(state), state, outcome.Detached?)
      ensures failed == (old(failed) || outcome.Error?)
    {
      hide Asks, AllAsked, HasForeign, HasHeld, Valid;
      outcome := CleanupAppliedWorks();
      if !outcome.Detached? {
        return;
      }
      if crds != map[] {
        outcome := WorkOn(Crd);
        return if outcome.Detached? then Pending else outcome;
      }
      var namespaces, ok := List(AgentNamespace);
      if !ok {
        return Error;
      }
      if namespaces != map[] {
        if !disturbed {
          NamespacesAreAsked(state);
        }
        return Pending;
      }
      outcome := WorkOn(Observability);
    }

    /** One reconcile of the detachment, on its own reading of the two clusters. */
    method Reconcile() returns (outcome: Outcome)
      requires Valid()
      modifies this
      ensures Valid() && old(deletions) <= deletions
      ensures !disturbed && !outcome.Error? ==> Pass(pins, old(state), state, outcome)
      ensures failed == outcome.Error?
    {
      seen, disturbed, failed, marked := map[], false, false, false;
      outcome := Fence();
      if !outcome.Detached? {
        return;
      }
      ghost var fenced := state;
      outcome := WorkThroughStages();
      if !disturbed && !outcome.Error? {
        StagesReadObjects(pins, fenced, old(state), state, outcome);
      }
    }

    method WorkThroughStages() returns (outcome: Outcome)
      requires Valid() && marked
      modifies this
      ensures Valid() && old(deletions) <= deletions && (old(disturbed) ==> disturbed) && (old(marked) ==> marked)
      ensures !disturbed && !outcome.Error? ==> Stages(pins, old(state), state, outcome)
      ensures failed == (old(failed) || outcome.Error?)
    {
      hide Asks, AllAsked, HasForeign, HasHeld;
      outcome := WorkOn(AddonConfig);
      if !outcome.Detached? {
        return;
      }
      outcome := WorkOn(AddOn);
      if outcome.Detached? {
        outcome := RemoveAgent();
      }
    }

    /** The stages on the spoke. */
    method RemoveAgent() returns (outcome: Outcome)
      requires Valid() && marked && AddonConfig in seen && AllSettled(seen[AddonConfig]) && AddOn in seen && seen[AddOn] == map[]
      modifies this
      ensures Valid() && old(deletions) <= deletions && (old(disturbed) ==> disturbed) && (old(marked) ==> marked)
      ensures !disturbed && !outcome.Error? && AddOnsGone(old(state)) ==> Stages(pins, old(state), state, outcome)
      ensures failed == (old(failed) || outcome.Error?)
    {
      hide Round, Stages, Removes, AddOnsGone, AllSettled, WellFormed;
      var crds, ok := List(Crd);
      if !ok {
        return Error;
      }
      if crds != map[] {
        outcome := RemoveKlusterlet();
        if !outcome.Detached? {
          if !disturbed && !outcome.Error? && AddOnsGone(old(state)) {
            RemovalIsStage(pins, old(state), state, outcome);
          }
          return;
        }
      }
      ghost var cleared := state;
      if !disturbed && crds == map[] {
        NoCrdNoKlusterlet(state);
      }
      outcome := CleanupSpoke(crds);
      if !disturbed && !outcome.Error? && AddOnsGone(old(state)) {
        NoOtherKlusterlet(pins, cleared);
        CleanupIsStage(pins, cleared, state, outcome);
      }
    }

    /** Marks the ManagedCluster so that nothing is placed or imported again. `Detached`
        means that it is marked. */
    method Fence() returns (outcome: Outcome)
      requires Valid()
      modifies this
      ensures Valid() && deletions == old(deletions) && seen == old(seen) && (old(disturbed) ==> disturbed) && (old(marked) ==> marked)
      ensures !disturbed && !outcome.Error? ==>
        && SameCluster(old(state), state) && state.objects == old(state.objects)
        && outcome == if BadCluster(pins, old(state)) then Refused else Detached
      ensures outcome.Detached? ==> marked && (!disturbed ==> state.fenced)
      ensures !outcome.Pending?
      ensures failed == (old(failed) || outcome.Error?)
    {
      Interfere();
      var ok := *;
      if !ok {
        failed := true;
        return Error;
      }
      if BadCluster(pins, state) {
        return Refused;
      }
      if !state.fenced {
        ok := *;
        if !ok {
          failed := true;
          return Error;
        }
        assert forall k :: Of(state.(fenced := true), k) == Of(state, k);
        state := state.(fenced := true);
      }
      marked := true;
      return Detached;
    }
  }

  lemma StagesReadObjects(pins: Pins, s: State, t: State, s': State, outcome: Outcome)
    requires Stages(pins, s, s', outcome) && s.fenced && SameCluster(t, s) && s.objects == t.objects
    ensures Stages(pins, t.(fenced := true), s', outcome)
  {
    assert forall k :: Of(s, k) == Of(t, k);
    assert Current(s) == Current(t);
  }

  lemma NamespacesAreAsked(s: State)
    requires WellFormed(s)
    ensures Asks(s, s, AgentNamespace) && AllAsked(s, AgentNamespace)
  {
  }

  lemma OnlyKlusterlet(items: Objects, k: Ref)
    requires items != map[] && k == Ref(Klusterlet, k.name, k.owner)
    requires forall r :: r in items ==> r.kind.Klusterlet? && r.name == k.name && r.owner == k.owner
    ensures items.Keys == {k}
  {
    var r :| r in items;
    assert r == k;
  }

  predicate AskedBut(s: State, items: Objects, left: set<Ref>) {
    forall r :: r in items && r !in left ==> r in s.objects && !s.objects[r].Fresh?
  }

  lemma AsksOneMore(s: State, m: State, kind: Kind, items: Objects, left: set<Ref>, r: Ref)
    requires Asks(s, m, kind) && r in items && r.kind == kind
    ensures Asks(s, After(m, r), kind)
    ensures AskedBut(m, items, left) && items == Of(s, kind) ==>
      AskedBut(if items[r].Fresh? then After(m, r) else m, items, left - {r})
  {
    AsksAfter(s, m, kind, r);
  }

  lemma NoneLeft(s: State, s': State, kind: Kind)
    requires Asks(s, s', kind) && AskedBut(s', Of(s, kind), {})
    ensures AllAsked(s', kind)
  {
    assert forall r :: r in s.objects && r.kind == kind ==> r in Of(s, kind);
  }

  lemma KlusterletAsked(s: State, k: Ref)
    requires Of(s, Klusterlet).Keys == {k}
    ensures Asks(s, After(s, k), Klusterlet) && AllAsked(After(s, k), Klusterlet)
    ensures !s.objects[k].Fresh? ==> After(s, k) == s
  {
    assert forall r :: r in s.objects && r.kind.Klusterlet? ==> r in Of(s, Klusterlet);
    assert k in Of(s, Klusterlet);
  }

  lemma AsksAfter(s: State, m: State, kind: Kind, r: Ref)
    requires Asks(s, m, kind) && r.kind == kind
    ensures Asks(s, After(m, r), kind)
    ensures r in After(m, r).objects ==> !After(m, r).objects[r].Fresh?
    ensures forall x :: x in m.objects && !m.objects[x].Fresh? ==> !After(m, r).objects[x].Fresh?
  {
  }

  function After(s: State, r: Ref): State {
    if r in s.objects && s.objects[r].Fresh? then s.(objects := s.objects[r := Asked(r.kind)]) else s
  }

  lemma AskKeepsWellFormed(s: State, r: Ref)
    requires WellFormed(s) && !r.kind.AgentNamespace?
    ensures WellFormed(After(s, r))
  {
    var t := After(s, r);
    assert forall k :: Of(t, k).Keys == Of(s, k).Keys;
    assert Of(s, Crd) != map[] ==> Of(s, Crd).Keys != {};
  }
}
