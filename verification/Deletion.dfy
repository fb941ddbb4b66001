/** Deletion of a ProvisioningRequest: its dependents go in a fixed order before the finalizer
    is removed. Each reconcile looks again and continues where the world stands. */
module Deletion {
  import opened Wrappers

  /** Dependents are absent, present or being deleted. `cluster` holds hubAcceptsClient of the
      ManagedCluster, `details` whether the cluster was recorded in the status. */
  datatype World = World(
    details: bool,
    skipCleanup: bool,
    seedObjects: map<string, bool>,
    cluster: Option<bool>,
    nodeAllocation: Option<bool>,
    instance: Option<bool>,
    namespaces: map<string, bool>,
    finalizer: bool)

  /** The namespace of the ClusterInstance, which carries the label of the request. */
  const HOME: string := "cluster"

  /** ACM would still try to reach the spoke when the cluster is detached. */
  predicate Accepts(cluster: Option<bool>) {
    cluster.Some? && cluster.value
  }

  predicate WellFormed(w: World) {
    w.instance.Some? ==> HOME in w.namespaces
  }

  datatype Action =
    | DeleteSeedObject(name: string)
    | EnableForceDetach
    | DeleteNodeAllocation
    | DeleteInstance
    | DeleteNamespace(name: string)
    | RemoveFinalizer

  /** What must hold of the world at the moment of each action. */
  predicate InOrder(w: World, a: Action) {
    match a
    case DeleteSeedObject(name) => name in w.seedObjects
    case EnableForceDetach => w.seedObjects == map[] && !w.skipCleanup && w.details && Accepts(w.cluster)
    case DeleteNodeAllocation => Released(w) && w.nodeAllocation.Some?
    case DeleteInstance => Released(w) && w.nodeAllocation.None? && w.details && w.instance.Some?
    case DeleteNamespace(name) =>
      Released(w) && w.nodeAllocation.None? && (w.details ==> w.instance.None?) && name in w.namespaces
    case RemoveFinalizer => Released(w) && w.nodeAllocation.None? && w.instance.None? && w.namespaces == map[]
  }

  /** Seed objects are gone and force-detach is enabled, if there is anything to detach. */
  predicate Released(w: World) {
    w.seedObjects == map[] && (w.skipCleanup || !w.details || !Accepts(w.cluster))
  }

  /** The other parties while the request is being deleted: objects go away or begin to, none
      is created and force-detach is not taken back. */
  predicate Fades(w: World, w': World) {
    && WellFormed(w') && w'.details == w.details && w'.skipCleanup == w.skipCleanup
    && w'.seedObjects.Keys <= w.seedObjects.Keys && w'.namespaces.Keys <= w.namespaces.Keys
    && FadesTo(w.nodeAllocation, w'.nodeAllocation) && FadesTo(w.instance, w'.instance)
    && (Accepts(w'.cluster) ==> Accepts(w.cluster))
  }

  predicate FadesTo(a: Option<bool>, b: Option<bool>) {
    b.None? || b == a || (a.Some? && b == Some(true))
  }

  datatype Entry = Entry(action: Action, world: World)

  /** A history of deletion up to the world `w`: each action in its place, and nothing
      created in between. */
  predicate IsRun(h: seq<Entry>, w: World) {
    && WellFormed(w)
    && (forall i :: 0 <= i < |h| ==> InOrder(h[i].world, h[i].action) && Fades(h[i].world, w))
    && (forall i, j :: 0 <= i < j < |h| ==> Fades(h[i].world, h[j].world))
  }

  lemma FadesTransitively(a: World, b: World, c: World)
    requires Fades(a, b) && Fades(b, c)
    ensures Fades(a, c)
  {
  }

  lemma RunFades(h: seq<Entry>, w: World, w': World)
    requires IsRun(h, w) && Fades(w, w')
    ensures IsRun(h, w')
  {
    forall i | 0 <= i < |h|
      ensures Fades(h[i].world, w')
    {
      FadesTransitively(h[i].world, w, w');
    }
  }

  lemma RunActs(h: seq<Entry>, w: World, a: Action)
    requires IsRun(h, w) && InOrder(w, a)
    ensures IsRun(h + [Entry(a, w)], w)
  {
    assert Fades(w, w);
  }

  function StageOf(a: Action): nat {
    match a
    case DeleteSeedObject(_) => 0
    case EnableForceDetach => 1
    case DeleteNodeAllocation => 2
    case DeleteInstance => 3
    case DeleteNamespace(_) => 4
    case RemoveFinalizer => 5
  }

  /** On every deletion run the stages follow each other, however often the reconciler is
      interrupted: no action of an earlier stage comes after one of a later stage. */
  lemma StagesNeverGoBack(h: seq<Entry>, w: World, i: nat, j: nat)
    requires IsRun(h, w) && i < j < |h|
    ensures StageOf(h[i].action) <= StageOf(h[j].action)
  {
    var v, u := h[i].world, h[j].world;
    assert InOrder(v, h[i].action) && InOrder(u, h[j].action) && Fades(v, u);
    assert v.seedObjects == map[] ==> u.seedObjects.Keys == {};
    assert v.namespaces == map[] ==> u.namespaces.Keys == {};
  }

  /** A namespace is deleted while the ClusterInstance still exists only if the cluster was
      never recorded in the status. */
  lemma NamespaceAfterInstance(h: seq<Entry>, w: World, i: nat)
    requires IsRun(h, w) && i < |h| && h[i].action.DeleteNamespace?
    ensures h[i].world.nodeAllocation.None? && (h[i].world.instance.Some? ==> !h[i].world.details)
  {
  }

  /** With the hardware gone, a run can go on with the delete of a namespace exactly if the
      ClusterInstance is gone or was never recorded. */
  lemma NamespaceDeletedExactly(h: seq<Entry>, w: World, n: string)
    requires IsRun(h, w) && Released(w) && w.nodeAllocation.None? && n in w.namespaces
    ensures IsRun(h + [Entry(DeleteNamespace(n), w)], w) <==> (w.details ==> w.instance.None?)
  {
    var g := h + [Entry(DeleteNamespace(n), w)];
    if w.details ==> w.instance.None? {
      RunActs(h, w, DeleteNamespace(n));
    }
    if IsRun(g, w) {
      assert InOrder(g[|h|].world, g[|h|].action);
    }
  }

  /** It happens when the ClusterInstance was applied but recording it failed: the hardware request
      is deleted and goes away, and then the namespace around the ClusterInstance is deleted. */
  lemma UnrecordedInstanceRun() returns (h: seq<Entry>, w: World)
    ensures IsRun(h, w) && |h| > 1 && h[0].action.DeleteNodeAllocation?
    ensures var last := h[|h| - 1]; last.action == DeleteNamespace(HOME) && last.world.instance.Some? && w.instance.Some?
  {
    var w0 := World(false, false, map[], None, Some(false), Some(false), map[HOME := false], true);
    var w1 := w0.(nodeAllocation := None);
    w := w1.(namespaces := map[HOME := true]);
    RunActs([], w0, DeleteNodeAllocation);
    h := [Entry(DeleteNodeAllocation, w0)];
    assert [] + h == h;
    RunFades(h, w0, w1);
    RunActs(h, w1, DeleteNamespace(HOME));
    h := h + [Entry(DeleteNamespace(HOME), w1)];
    RunFades(h, w1, w);
  }

  // ---------------------------------------------------------------- passes that nobody disturbs

  /** The world after a pass in which nobody interferes and no call fails: the first kind that
      is left is being deleted, all of it. */
  function Passed(w: World): World {
    if w.seedObjects != map[] then w.(seedObjects := Marked(w.seedObjects, {}))
    else
      var d := if Released(w) then w else w.(cluster := Some(false));
      if w.nodeAllocation.Some? then d.(nodeAllocation := Some(true))
      else if w.details && w.instance.Some? then d.(instance := Some(true))
      else d.(namespaces := Marked(w.namespaces, {}))
  }

  predicate AllGone(w: World) {
    w.seedObjects == map[] && w.nodeAllocation.None? && w.instance.None? && w.namespaces == map[]
  }

  /** Fresh objects count twice, those being deleted once. */
  function Count(m: map<string, bool>): nat {
    |m.Keys| + |set n | n in m && !m[n]|
  }

  function Weight(o: Option<bool>): nat {
    if o.None? then 0 else if o.value then 1 else 2
  }

  function Measure(w: World): nat {
    Count(w.seedObjects) + Weight(w.nodeAllocation) + Weight(w.instance) + Count(w.namespaces)
  }

  /** Something is being deleted and will be gone some time. */
  predicate Owed(w: World) {
    || (exists n :: n in w.seedObjects && w.seedObjects[n])
    || w.nodeAllocation == Some(true) || w.instance == Some(true)
    || (exists n :: n in w.namespaces && w.namespaces[n])
  }

  predicate Keeps(m: map<string, bool>, n: map<string, bool>) {
    n.Keys <= m.Keys && forall x :: x in n && m[x] ==> n[x]
  }

  /** A turn of the other parties: nothing is created, nothing recovers, and of the objects
      that are being deleted at least one is gone. */
  predicate Settles(w: World, w': World) {
    && Fades(w, w') && Keeps(w.seedObjects, w'.seedObjects) && Keeps(w.namespaces, w'.namespaces)
    && (Owed(w) ==>
          || w'.seedObjects.Keys != w.seedObjects.Keys || w'.namespaces.Keys != w.namespaces.Keys
          || (w.nodeAllocation.Some? && w'.nodeAllocation.None?) || (w.instance.Some? && w'.instance.None?))
  }

  lemma Cardinality<T>(a: set<T>, b: set<T>)
    requires a <= b
    ensures |a| <= |b| && (a != b ==> |a| < |b|)
  {
    assert |b - a| == |b| - |a|;
  }

  lemma CountFalls(m: map<string, bool>, n: map<string, bool>)
    requires Keeps(m, n)
    ensures Count(n) <= Count(m) && (n.Keys != m.Keys ==> Count(n) < Count(m))
  {
    Cardinality(n.Keys, m.Keys);
    Cardinality(set x | x in n && !n[x], set x | x in m && !m[x]);
  }

  lemma MarkingFalls(m: map<string, bool>)
    ensures Marked(m, {}).Keys == m.Keys && Keeps(m, Marked(m, {})) && (Marked(m, {}) == m || Count(Marked(m, {})) < Count(m))
    ensures m != map[] ==> exists n :: n in Marked(m, {}) && Marked(m, {})[n]
  {
    var n := Marked(m, {});
    CountFalls(m, n);
    if m != map[] {
      var x :| x in m.Keys;
      assert n[x];
    }
    if n != m {
      var x :| x in m && n[x] != m[x];
      assert (set y | y in n && !n[y]) == {};
      assert x in set y | y in m && !m[y];
    }
  }

  /** A pass that leaves something asks for something new, or waits for what is being deleted. */
  lemma PassAsksOrWaits(w: World)
    requires WellFormed(w) && !AllGone(w)
    ensures Measure(Passed(w)) < Measure(w) || (Measure(Passed(w)) == Measure(w) && Owed(Passed(w)))
    ensures WellFormed(Passed(w))
  {
    MarkingFalls(w.seedObjects);
    MarkingFalls(w.namespaces);
    hide Marked, Count, Released;
    var p := Passed(w);
    assert p.seedObjects.Keys == w.seedObjects.Keys && p.namespaces.Keys == w.namespaces.Keys;
    if w.seedObjects != map[] {
      assert p == w.(seedObjects := Marked(w.seedObjects, {}));
    } else if w.nodeAllocation.Some? {
      assert p.nodeAllocation == Some(true);
    } else if w.details && w.instance.Some? {
      assert p.instance == Some(true);
    } else {
      assert p.namespaces == Marked(w.namespaces, {}) && w.namespaces != map[];
    }
  }

  lemma SettlingFalls(w: World, w': World)
    requires Settles(w, w')
    ensures Measure(w') <= Measure(w) && (Owed(w) ==> Measure(w') < Measure(w))
  {
    CountFalls(w.seedObjects, w'.seedObjects);
    CountFalls(w.namespaces, w'.namespaces);
  }

  /** Deletion ends: there are never more unfinished passes than the measure of the first
      world, for any number of seed objects and namespaces. */
  lemma {:induction false} DeletionEnds(worlds: seq<World>)
    requires |worlds| > 0 && forall i :: 0 <= i < |worlds| ==> WellFormed(worlds[i])
    requires forall i :: 0 <= i < |worlds| - 1 ==> !AllGone(worlds[i]) && Settles(Passed(worlds[i]), worlds[i + 1])
    ensures |worlds| - 1 <= Measure(worlds[0])
  {
    if |worlds| > 1 {
      PassAsksOrWaits(worlds[0]);
      SettlingFalls(Passed(worlds[0]), worlds[1]);
      DeletionEnds(worlds[1..]);
    }
  }

  predicate AllDeleting(namespaces: map<string, bool>) {
    forall n :: n in namespaces ==> namespaces[n]
  }

  /** Nothing but the state of namespaces changed. */
  predicate OnlyNamespaces(w: World, w': World) {
    w' == w.(namespaces := w'.namespaces) && w'.namespaces.Keys == w.namespaces.Keys
  }

  /** With the hardware gone: namespaces are left alone if a recorded ClusterInstance exists, and
      otherwise all of them are being deleted while the instance is as it was. */
  predicate NamespacesInTurn(w: World, w': World) {
    if w.details && w.instance.Some? then w'.namespaces == w.namespaces
    else w'.instance == w.instance && w'.namespaces.Keys == w.namespaces.Keys && AllDeleting(w'.namespaces)
  }

  lemma TurnStartsEarlier(w: World, v: World, w': World)
    requires NamespacesInTurn(v, w') && v == w.(cluster := v.cluster)
    ensures NamespacesInTurn(w, w')
  {
  }

  function Marked(list: map<string, bool>, left: set<string>): map<string, bool> {
    map n | n in list :: n !in left || list[n]
  }

  lemma NoneMarked(list: map<string, bool>)
    ensures Marked(list, list.Keys) == list
  {
  }

  lemma OneMarked(list: map<string, bool>, left: set<string>, n: string)
    requires n in left && n in list
    ensures n in Marked(list, left)
    ensures Marked(list, left - {n}) == if list[n] then Marked(list, left) else Marked(list, left)[n := true]
  {
  }

  lemma PassFromReleased(w: World, released: World)
    requires w.seedObjects == map[]
    requires released == if Released(w) then w else w.(cluster := Some(false))
    ensures Passed(released) == Passed(w) && AllGone(released) == AllGone(w)
  {
  }

  lemma FadesToItself(w: World)
    requires WellFormed(w)
    ensures Fades(w, w)
  {
  }

  /** Nothing but namespaces is left that the status tells of. */
  predicate NamespacesAreNext(w: World) {
    Released(w) && w.nodeAllocation.None? && (w.details ==> w.instance.None?)
  }

  lemma NamespacesStayNext(w: World, m: map<string, bool>)
    ensures NamespacesAreNext(w.(namespaces := m)) == NamespacesAreNext(w)
  {
  }

  lemma AllMarked(list: map<string, bool>)
    ensures Marked(list, {}).Keys == list.Keys && AllDeleting(Marked(list, {}))
    ensures forall left :: Marked(list, left).Keys == list.Keys
  {
  }

  lemma SeedMarkingFades(w: World, left: set<string>)
    requires WellFormed(w)
    ensures Fades(w, w.(seedObjects := Marked(w.seedObjects, left)))
  {
  }

  lemma NamespaceMarkingFades(w: World, left: set<string>)
    requires WellFormed(w)
    ensures Fades(w, w.(namespaces := Marked(w.namespaces, left)))
  {
  }

  lemma MarkingFadesOn(w: World, n: string)
    requires WellFormed(w) && n in w.seedObjects
    ensures Fades(w, w.(seedObjects := w.seedObjects[n := true]))
  {
  }

  lemma MarkingFades(w: World, n: string)
    requires WellFormed(w) && n in w.namespaces
    ensures Fades(w, w.(namespaces := w.namespaces[n := true]))
  {
  }

  class Finalizer {
    var w: World
    /** Every action so far, with the world in which it was taken. */
    ghost var log: seq<Entry>
    ghost var disturbed: bool
    ghost var failed: bool

    constructor (world: World)
      requires WellFormed(world)
      ensures Valid() && w == world && log == [] && !failed
    {
      w, log, disturbed, failed := world, [], false, false;
    }

    ghost predicate Valid()
      reads this
    {
      IsRun(log, w)
    }

    twostate predicate Continues()
      reads this
    {
      Valid() && old(log) <= log && Fades(old(w), w) && w.finalizer == old(w.finalizer) &&
      (old(disturbed) ==> disturbed)
    }

    method Interfere()
      requires Valid()
      modifies this
      ensures Continues() && log == old(log) && (!disturbed ==> w == old(w)) && failed == old(failed)
    {
      var next: World := *;
      assert Fades(w, w);
      if Fades(w, next) && next.finalizer == w.finalizer && next != w {
        RunFades(log, w, next);
        w := next;
        disturbed := true;
      }
    }

    /** Takes an action; `next` is the world in which it has begun to act. */
    method Act(a: Action, next: World) returns (ok: bool)
      requires Valid() && InOrder(w, a) && Fades(w, next) && next.finalizer == w.finalizer
      modifies this
      ensures Continues() && disturbed == old(disturbed) && log == old(log) + [Entry(a, old(w))]
      ensures w == next || (!ok && w == old(w))
      ensures failed == (old(failed) || !ok)
    {
      assert Fades(w, w);
      RunActs(log, w, a);
      log := log + [Entry(a, w)];
      RunFades(log, w, next);
      var applied: bool := *;
      ok := *;
      ok := ok && applied;
      failed := failed || !ok;
      if applied {
        w := next;
      }
    }

    method MarkSeedObject(ghost w0: World, list: map<string, bool>, left: set<string>, n: string) returns (ok: bool)
      requires Valid() && list == w0.seedObjects && n in left && n in list && w == w0.(seedObjects := Marked(list, left))
      modifies this
      ensures Valid() && old(log) <= log && disturbed == old(disturbed) && failed == (old(failed) || !ok)
      ensures w == w0.(seedObjects := Marked(list, left - {n})) || (!ok && w == old(w))
    {
      OneMarked(list, left, n);
      ok := true;
      if !list[n] {
        MarkingFadesOn(w, n);
        hide IsRun, Marked, Fades;
        ok := Act(DeleteSeedObject(n), w.(seedObjects := w.seedObjects[n := true]));
      }
    }

    /** The loop over the seed objects. */
    method MarkSeedObjects() returns (ok: bool)
      requires Valid()
      modifies this
      ensures Continues() && disturbed == old(disturbed) && failed == (old(failed) || !ok)
      ensures ok ==> w == old(w).(seedObjects := Marked(old(w.seedObjects), {}))
    {
      ghost var w0 := w;
      var list := w.seedObjects;
      var left := list.Keys;
      NoneMarked(list);
      forall l
        ensures Fades(w0, w0.(seedObjects := Marked(list, l)))
      {
        SeedMarkingFades(w0, l);
      }
      hide IsRun, Fades, Marked;
      ok := true;
      while left != {}
        invariant Valid() && old(log) <= log && disturbed == old(disturbed) && left <= list.Keys
        invariant w == w0.(seedObjects := Marked(list, left)) && ok && failed == old(failed)
        decreases |left|
      {
        var n :| n in left;
        ok := MarkSeedObject(w0, list, left, n);
        if !ok {
          return;
        }
        left := left - {n};
      }
    }

    method CleanupSeedObjects() returns (clean: bool, ok: bool)
      requires Valid()
      modifies this
      ensures Continues() && (clean ==> ok && w.seedObjects == map[])
      ensures clean && !disturbed ==> w == old(w)
      ensures ok && !disturbed ==> clean == (old(w.seedObjects) == map[])
      ensures ok && !clean && !disturbed ==> w == Passed(old(w))
      ensures failed == (old(failed) || !ok)
    {
      hide IsRun;
      Interfere();
      ok := true;
      if w.seedObjects == map[] {
        return true, true;
      }
      clean := false;
      ok := MarkSeedObjects();
    }

    method ForceDetach() returns (ok: bool)
      requires Valid() && w.seedObjects == map[]
      modifies this
      ensures Continues()
      ensures ok ==> Released(w)
      ensures ok && !disturbed ==> w == if Released(old(w)) then old(w) else old(w).(cluster := Some(false))
      ensures failed == (old(failed) || !ok)
    {
      if w.skipCleanup || !w.details {
        return true;
      }
      Interfere();
      if Accepts(w.cluster) {
        ok := Act(EnableForceDetach, w.(cluster := Some(false)));
        return;
      }
      ok := *;
      failed := failed || !ok;
    }

    method MarkNamespace(ghost w0: World, list: map<string, bool>, left: set<string>, n: string) returns (ok: bool)
      requires Valid() && NamespacesAreNext(w)
      requires list == w0.namespaces && n in left && n in list && w == w0.(namespaces := Marked(list, left))
      modifies this
      ensures Valid() && old(log) <= log && disturbed == old(disturbed) && failed == (old(failed) || !ok)
      ensures w == w0.(namespaces := Marked(list, left - {n})) || (!ok && w == old(w))
    {
      OneMarked(list, left, n);
      ok := true;
      if !list[n] {
        MarkingFades(w, n);
        hide IsRun, Marked, Fades;
        ok := Act(DeleteNamespace(n), w.(namespaces := w.namespaces[n := true]));
      }
    }

    /** The loop over the listed namespaces. */
    method MarkNamespaces() returns (ok: bool)
      requires Valid() && NamespacesAreNext(w)
      modifies this
      ensures Continues() && disturbed == old(disturbed) && OnlyNamespaces(old(w), w)
      ensures ok ==> w.namespaces == Marked(old(w.namespaces), {}) && AllDeleting(w.namespaces)
      ensures failed == (old(failed) || !ok)
    {
      ghost var w0 := w;
      var list := w.namespaces;
      var left := list.Keys;
      NoneMarked(list);
      AllMarked(list);
      forall l
        ensures Fades(w0, w0.(namespaces := Marked(list, l)))
      {
        NamespaceMarkingFades(w0, l);
      }
      hide IsRun, Fades, Marked, AllDeleting, NamespacesAreNext;
      ok := true;
      while left != {}
        invariant Valid() && old(log) <= log && disturbed == old(disturbed) && left <= list.Keys
        invariant w == w0.(namespaces := Marked(list, left)) && ok && failed == old(failed)
        decreases |left|
      {
        var n :| n in left;
        NamespacesStayNext(w0, Marked(list, left));
        ok := MarkNamespace(w0, list, left, n);
        if !ok {
          return;
        }
        left := left - {n};
      }
    }

    /** Deletes every namespace of the request; there may be none left. */
    method DeleteNamespaces() returns (complete: bool, ok: bool)
      requires Valid() && NamespacesAreNext(w)
      modifies this
      ensures Continues() && (complete ==> ok && w.namespaces == map[])
      ensures !disturbed ==> OnlyNamespaces(old(w), w)
      ensures ok && !disturbed ==> w.namespaces == Marked(old(w.namespaces), {}) && AllDeleting(w.namespaces)
      ensures ok && !disturbed ==> complete == (old(w.namespaces) == map[])
      ensures failed == (old(failed) || !ok)
    {
      hide IsRun;
      Interfere();
      if w.namespaces == map[] {
        return true, true;
      }
      complete := false;
      ok := MarkNamespaces();
    }

    /** The hardware, then the cluster, then its namespaces. */
    method DeleteDependents() returns (complete: bool, ok: bool)
      requires Valid() && Released(w)
      modifies this
      ensures Continues() && (complete ==> ok && InOrder(w, RemoveFinalizer))
      ensures ok && !disturbed && old(w.nodeAllocation).None? ==> NamespacesInTurn(old(w), w)
      ensures ok && !disturbed ==> w == Passed(old(w)) && (complete == AllGone(old(w)))
      ensures failed == (old(failed) || !ok)
    {
      hide IsRun;
      complete, ok := false, true;
      Interfere();
      if w.nodeAllocation.Some? {
        if !w.nodeAllocation.value {
          ok := Act(DeleteNodeAllocation, w.(nodeAllocation := Some(true)));
        }
        return;
      }
      if w.details {
        Interfere();
        if w.instance.Some? {
          if !w.instance.value {
            ok := Act(DeleteInstance, w.(instance := Some(true)));
          }
          return;
        }
      }
      complete, ok := DeleteNamespaces();
    }

    /** One pass over the dependents: true when none is left. Once the hardware is gone, it leaves
        the namespaces alone exactly as long as a recorded ClusterInstance exists; one that was
        never recorded does not hold them back. */
    method HandleDeletion() returns (complete: bool, ok: bool)
      requires Valid()
      modifies this
      ensures Continues() && (complete ==> ok && InOrder(w, RemoveFinalizer))
      ensures ok && !disturbed && old(w.seedObjects) == map[] && old(w.nodeAllocation).None? ==>
        NamespacesInTurn(old(w), w)
      ensures ok && !disturbed ==> w == Passed(old(w)) && (complete == AllGone(old(w)))
      ensures failed == (old(failed) || !ok)
    {
      hide IsRun, Released, NamespacesInTurn, Passed;
      complete := false;
      var clean;
      clean, ok := CleanupSeedObjects();
      if !clean {
        return;
      }
      ghost var cleaned := w;
      ok := ForceDetach();
      if !ok {
        return;
      }
      ghost var released := w;
      complete, ok := DeleteDependents();
      if ok && !disturbed && old(w.seedObjects) == map[] && old(w.nodeAllocation).None? {
        TurnStartsEarlier(old(w), released, w);
      }
      if ok && !disturbed {
        PassFromReleased(old(w), released);
      }
    }

    /** Removes the finalizer once the dependents are gone. */
    method HandleFinalizer() returns (done: bool, ok: bool)
      requires Valid() && w.finalizer
      modifies this
      ensures Valid() && old(log) <= log
      ensures !w.finalizer ==>
        w.seedObjects == map[] && w.nodeAllocation.None? && w.instance.None? && w.namespaces == map[]
      ensures done ==> ok && !w.finalizer
      ensures !w.finalizer ==> |log| > |old(log)| && log[|log| - 1].action.RemoveFinalizer?
      ensures ok && !disturbed ==> done == AllGone(old(w)) && (!done ==> w == Passed(old(w)))
      ensures failed == (old(failed) || !ok)
    {
      hide IsRun, Passed;
      var complete;
      complete, ok := HandleDeletion();
      done := false;
      if !complete {
        return;
      }
      RunActs(log, w, RemoveFinalizer);
      log := log + [Entry(RemoveFinalizer, w)];
      RunFades(log, w, w.(finalizer := false));
      var applied: bool := *;
      done := *;
      done := done && applied;
      ok := done;
      failed := failed || !ok;
      if applied {
        w := w.(finalizer := false);
      }
    }
  }

  /** The reconciler itself on such a world: unless it is disturbed or fails, it deletes the
      namespace around the ClusterInstance. */
  method UnrecordedInstance() returns (f: Finalizer, ok: bool)
    ensures f.Valid()
    ensures !f.failed && !f.disturbed ==> f.w.instance == Some(false) && HOME in f.w.namespaces && f.w.namespaces[HOME]
  {
    var w := World(false, false, map[], None, None, Some(false), map[HOME := false], true);
    f := new Finalizer(w);
    var complete;
    complete, ok := f.HandleDeletion();
  }
}
