/** Accounting of nodes over scale-out, scale-in and swap. `fulfilled` is the node count of
    the last fulfilled state; the reconciler detects scaling by comparing it with the
    rendered cluster and with the hosts that hold hardware. */
module NodeScaling {
  import Wrappers
  import opened HardwareMatching

  datatype Status = Status(hostMap: HostMap, fulfilled: int, completed: bool)

  /** `applied` holds the hosts of the ClusterInstance on the hub. */
  datatype World = World(status: Status, applied: set<string>)

  function Removed(m: HostMap, rendered: set<string>): set<string> {
    set id | id in m && m[id] !in rendered
  }

  function Kept(m: HostMap, rendered: set<string>): HostMap {
    map id | id in m && m[id] in rendered :: m[id]
  }

  datatype Event =
    | Match(pool: Pool, lay: Layout, nodes: seq<Node>, done: nat)
    | ApplyIntermediate(rendered: set<string>, leaving: set<string>)
    | ApplyRendered(rendered: set<string>)
    | SetCondition(completed: bool)
    | ScaleOutDone(rendered: set<string>)
    | ScaleInDone(rendered: set<string>, base: int)
    | Finalize(rendered: set<string>)
    | FinalizeFromApplied

  /** Matching may stop after any node. The installation phase is reached only after every
      rendered host has hardware. The
      base of a scale-in is the count read when the phase began, which a scale-out
      completed in the same pass may have raised meanwhile. */
  predicate Step(w: World, e: Event, w': World) {
    var s := w.status;
    match e
    case Match(pool, lay, nodes, done) =>
      done <= |nodes| && DistinctHosts(nodes) && AtHome(s.hostMap, pool, lay, nodes) &&
      w' == AfterMatch(w, pool, lay, nodes[..done])
    case ApplyIntermediate(rendered, leaving) =>
      leaving <= w.applied * s.hostMap.Values - rendered && w' == w.(applied := rendered * w.applied + leaving)
    case ApplyRendered(rendered) => rendered <= s.hostMap.Values && w' == w.(applied := rendered)
    case SetCondition(completed) => w' == w.(status := s.(completed := completed))
    case ScaleOutDone(rendered) =>
      rendered == w.applied && 0 < s.fulfilled < |rendered| &&
      w' == w.(status := s.(fulfilled := |rendered|, completed := true))
    case ScaleInDone(rendered, base) =>
      && rendered == w.applied && 0 < base <= s.fulfilled && Removed(s.hostMap, rendered) != {}
      && w' == w.(status := ScaledIn(s, rendered, base))
    case Finalize(rendered) => rendered == w.applied && w' == w.(status := s.(fulfilled := |rendered|))
    case FinalizeFromApplied => w' == w.(status := s.(fulfilled := |w.applied|))
  }

  function AfterMatch(w: World, pool: Pool, lay: Layout, nodes: seq<Node>): World {
    w.(status := w.status.(hostMap := MatchAll(w.status.hostMap, pool, lay, nodes)))
  }

  /** Hardware of removed hosts is forgotten. If rendered hosts are still missing, the pass
      was the first half of a swap and the cluster stays in progress. */
  function ScaledIn(s: Status, rendered: set<string>, base: int): Status {
    var left := base - |Removed(s.hostMap, rendered)|;
    Status(Kept(s.hostMap, rendered), left, if |rendered| > left then s.completed else true)
  }

  predicate Inv(w: World) {
    Injective(w.status.hostMap) && w.status.fulfilled <= |w.status.hostMap| && w.applied <= w.status.hostMap.Values
  }

  // ---------------------------------------------------------------- counting

  lemma WithoutOne(m: HostMap, id: string)
    requires Injective(m) && id in m
    ensures var rest := m - {id};
      |m| == |rest| + 1 && m.Values == rest.Values + {m[id]} && m[id] !in rest.Values && Injective(rest)
  {
    var rest := m - {id};
    assert m.Keys == rest.Keys + {id};
    forall h | h in m.Values
      ensures h in rest.Values || h == m[id]
    {
      var k :| k in m && m[k] == h;
      if k != id {
        assert rest[k] == h;
      }
    }
    forall h | h in rest.Values
      ensures h in m.Values && h != m[id]
    {
      var k :| k in rest && rest[k] == h;
      assert m[k] == h;
    }
  }

  lemma {:induction false} ValuesOfInjective(m: HostMap)
    requires Injective(m)
    ensures |m.Values| == |m|
  {
    if |m| > 0 {
      var id :| id in m;
      WithoutOne(m, id);
      ValuesOfInjective(m - {id});
    }
  }

  lemma KeptAndRemoved(m: HostMap, rendered: set<string>)
    ensures |m| == |Kept(m, rendered)| + |Removed(m, rendered)|
  {
    assert m.Keys == Kept(m, rendered).Keys + Removed(m, rendered);
  }

  /** With one hardware node per host, what is kept are exactly the rendered hosts. */
  lemma KeptAreRendered(m: HostMap, rendered: set<string>)
    requires Injective(m) && rendered <= m.Values
    ensures Injective(Kept(m, rendered)) && Kept(m, rendered).Values == rendered
    ensures |Kept(m, rendered)| == |rendered|
  {
    var kept := Kept(m, rendered);
    forall h | h in rendered
      ensures h in kept.Values
    {
      var id :| id in m && m[id] == h;
      assert kept[id] == h;
    }
    ValuesOfInjective(kept);
  }

  // ---------------------------------------------------------------- every run

  lemma StepKeepsInv(w: World, e: Event, w': World)
    requires Inv(w) && Step(w, e, w')
    ensures Inv(w')
  {
    var m := w.status.hostMap;
    ValuesOfInjective(m);
    match e
    case Match(pool, lay, nodes, done) =>
      var n := w'.status.hostMap;
      MatchingKeepsAssignments(m, pool, lay, nodes[..done]);
      MatchingUpToStaysInjective(m, pool, lay, nodes, done);
      Cardinality(m.Keys, n.Keys);
      forall h | h in m.Values
        ensures h in n.Values
      {
        var id :| id in m && m[id] == h;
        assert n[id] == h;
      }
    case ScaleInDone(rendered, base) =>
      KeptAndRemoved(m, rendered);
      KeptAreRendered(m, rendered);
    case ScaleOutDone(rendered) => Cardinality(rendered, m.Values);
    case Finalize(rendered) => Cardinality(rendered, m.Values);
    case FinalizeFromApplied => Cardinality(w.applied, m.Values);
    case _ =>
  }

  datatype Entry = Entry(event: Event, world: World)

  predicate StepAt(h: seq<Entry>, i: int)
    requires 0 < i < |h|
  {
    Step(h[i - 1].world, h[i].event, h[i].world)
  }

  predicate IsRun(h: seq<Entry>) {
    |h| > 0 && h[0].world == World(Status(map[], 0, false), {}) && forall i :: 0 < i < |h| ==> StepAt(h, i)
  }

  /** In every state of every run the host map is injective, the fulfilled count does not
      exceed it, and every applied host holds hardware. */
  lemma {:induction false} AccountingHolds(h: seq<Entry>, i: nat)
    requires IsRun(h) && i < |h|
    ensures Inv(h[i].world)
  {
    if i > 0 {
      AccountingHolds(h, i - 1);
      assert StepAt(h, i);
      StepKeepsInv(h[i - 1].world, h[i].event, h[i].world);
    }
  }

  lemma ScaleInAt(h: seq<Entry>, i: nat)
    requires IsRun(h) && 0 < i < |h| && h[i].event.ScaleInDone?
    ensures var w, e := h[i - 1].world, h[i].event;
      && Inv(w) && e.rendered == w.applied && 0 < e.base <= w.status.fulfilled
      && h[i].world.status == ScaledIn(w.status, e.rendered, e.base)
  {
    AccountingHolds(h, i - 1);
    hide Inv, ScaledIn, Removed, AtHome, DistinctHosts, AfterMatch;
    assert StepAt(h, i);
  }

  /** When a scale-in marks provisioning completed, the fulfilled count is the number of
      rendered nodes and of nodes that hold hardware. Otherwise it is smaller than both. */
  lemma ScaleInCountsRenderedNodes(h: seq<Entry>, i: nat)
    requires IsRun(h) && 0 < i < |h| && h[i].event.ScaleInDone?
    ensures var s, n := h[i].world.status, |h[i].event.rendered|;
      |s.hostMap| == n && (if s.fulfilled >= n then s.completed && s.fulfilled == n else s.fulfilled < n)
  {
    hide IsRun, Inv, ScaledIn;
    ScaleInAt(h, i);
    ScaledInCounts(h[i - 1].world, h[i].event.rendered, h[i].event.base);
  }

  lemma ScaledInCounts(w: World, rendered: set<string>, base: int)
    requires Inv(w) && rendered == w.applied && base <= w.status.fulfilled
    ensures var s, n := ScaledIn(w.status, rendered, base), |rendered|;
      && |s.hostMap| == n && (if s.fulfilled >= n then s.completed && s.fulfilled == n else s.fulfilled < n)
      && base <= |w.status.hostMap| && s.fulfilled == n - (|w.status.hostMap| - base)
  {
    KeptAndRemoved(w.status.hostMap, rendered);
    KeptAreRendered(w.status.hostMap, rendered);
  }

  /** A scale-in undercounts the rendered nodes by exactly the hosts that had hardware without
      being fulfilled. So it counts them right exactly if every host with hardware had been
      fulfilled, and falls below zero exactly if more had not than remain. */
  lemma ScaleInMissesUnfulfilled(h: seq<Entry>, i: nat)
    requires IsRun(h) && 0 < i < |h| && h[i].event.ScaleInDone?
    ensures var e, unfulfilled := h[i].event, |h[i - 1].world.status.hostMap| - h[i].event.base;
      && unfulfilled >= 0
      && h[i].world.status.fulfilled == |e.rendered| - unfulfilled
  {
    hide IsRun, Inv, ScaledIn;
    ScaleInAt(h, i);
    ScaledInCounts(h[i - 1].world, h[i].event.rendered, h[i].event.base);
  }

  lemma {:induction false} NothingDetectedUntilFinalized(h: seq<Entry>, i: nat, j: nat)
    requires IsRun(h) && i <= j < |h| && h[i].world.status.fulfilled <= 0
    requires forall m :: i < m <= j ==> !h[m].event.Finalize? && !h[m].event.FinalizeFromApplied?
    ensures h[j].world.status.fulfilled == h[i].world.status.fulfilled
    ensures forall m :: i < m <= j ==> !h[m].event.ScaleOutDone? && !h[m].event.ScaleInDone?
    decreases j
  {
    if i < j {
      NothingDetectedUntilFinalized(h, i, j - 1);
      assert StepAt(h, j);
    }
  }

  // ---------------------------------------------------------------- runs that undercount

  function Id(i: nat): string { seq(i + 1, _ => 'n') }

  function HostName(i: nat): string { seq(i + 1, _ => 'h') }

  /** Workers of one group, as many as asked for, and hardware for each. */
  function Workers(n: nat): seq<Node> {
    seq(n, (i: nat) => Node(HostName(i), "worker"))
  }

  function Machines(n: nat): seq<Hardware> {
    seq(n, (i: nat) => Hardware(Id(i), "g", true, true))
  }

  const ONE_GROUP: Layout := Layout(map[], [NodeGroup("g", "worker")])

  function Delivery(n: nat): Pool {
    map["g" := Machines(n)]
  }

  function Zip(n: nat): HostMap {
    if n == 0 then map[] else Zip(n - 1)[Id(n - 1) := HostName(n - 1)]
  }

  function HostNames(n: nat): set<string> {
    if n == 0 then {} else HostNames(n - 1) + {HostName(n - 1)}
  }

  lemma NamesDiffer(i: nat, j: nat)
    ensures Id(i) == Id(j) <==> i == j
    ensures HostName(i) == HostName(j) <==> i == j
  {
    assert |Id(i)| == i + 1 && |HostName(i)| == i + 1;
    assert |Id(j)| == j + 1 && |HostName(j)| == j + 1;
  }

  lemma {:induction false} ZipAt(n: nat, i: nat)
    ensures Id(i) in Zip(n) <==> i < n
    ensures i < n ==> Zip(n)[Id(i)] == HostName(i)
  {
    if n > 0 {
      ZipAt(n - 1, i);
      NamesDiffer(n - 1, i);
    }
  }

  lemma {:induction false} ZipKeys(n: nat, id: string) returns (i: nat)
    requires id in Zip(n)
    ensures i < n && id == Id(i) && Zip(n)[id] == HostName(i)
  {
    if id == Id(n - 1) {
      i := n - 1;
    } else {
      i := ZipKeys(n - 1, id);
    }
  }

  lemma ZipInjective(n: nat)
    ensures Injective(Zip(n))
  {
    forall a, b | a in Zip(n) && b in Zip(n) && Zip(n)[a] == Zip(n)[b]
      ensures a == b
    {
      var i := ZipKeys(n, a);
      var j := ZipKeys(n, b);
      NamesDiffer(i, j);
    }
  }

  lemma {:induction false} ZipValues(n: nat)
    ensures Zip(n).Values == HostNames(n) && |HostNames(n)| == n && |Zip(n)| == n
  {
    if n > 0 {
      ZipValues(n - 1);
      ZipAt(n - 1, n - 1);
      FreshHost(n - 1, n - 1);
      assert Zip(n).Values == Zip(n - 1).Values + {HostName(n - 1)} by {
        AddFresh(Zip(n - 1), Id(n - 1), HostName(n - 1));
      }
      assert Zip(n).Keys == Zip(n - 1).Keys + {Id(n - 1)};
    }
  }

  lemma AddFresh(m: HostMap, id: string, host: string)
    requires id !in m
    ensures m[id := host].Values == m.Values + {host}
  {
    var n := m[id := host];
    assert n[id] == host;
    forall h | h in m.Values
      ensures h in n.Values
    {
      var k :| k in m && m[k] == h;
      assert n[k] == h;
    }
  }

  lemma {:induction false} FreshHost(n: nat, i: nat)
    ensures HostName(i) in HostNames(n) <==> i < n
  {
    if n > 0 {
      FreshHost(n - 1, i);
      NamesDiffer(n - 1, i);
    }
  }

  lemma {:induction false} FirstFreeAt(ids: seq<Hardware>, m: HostMap, i: nat)
    requires i < |ids| && ids[i].id !in m && forall j :: 0 <= j < i ==> ids[j].id in m
    ensures FirstFree(ids, m) == Wrappers.Some(ids[i])
  {
    if i > 0 {
      FirstFreeAt(ids[1..], m, i - 1);
    }
  }

  lemma AssignNext(n: nat, i: nat)
    requires i < n
    ensures Assign(Zip(i), Delivery(n), ONE_GROUP, Workers(n)[i]) == Zip(i + 1)
  {
    var ids := Machines(n);
    var node := Workers(n)[i];
    assert GroupOf(ONE_GROUP, node) == "g";
    HolderHolds(ids, Zip(i), node.host);
    if Holder(ids, Zip(i), node.host).Some? {
      var j := ZipKeys(i, Holder(ids, Zip(i), node.host).value.id);
      NamesDiffer(i, j);
    }
    ZipAt(i, i);
    forall j | 0 <= j < i
      ensures ids[j].id in Zip(i)
    {
      ZipAt(i, j);
    }
    FirstFreeAt(ids, Zip(i), i);
  }

  lemma MatchNext(pool: Pool, lay: Layout, nodes: seq<Node>, i: nat, m: HostMap)
    requires i < |nodes| && MatchAll(map[], pool, lay, nodes[..i]) == m
    ensures MatchAll(map[], pool, lay, nodes[..i + 1]) == Assign(m, pool, lay, nodes[i])
  {
    hide *;
    MatchSnoc(map[], pool, lay, nodes, i);
  }

  lemma {:induction false} MatchZips(n: nat, k: nat)
    requires k <= n
    ensures MatchAll(map[], Delivery(n), ONE_GROUP, Workers(n)[..k]) == Zip(k)
  {
    hide Assign, Delivery, Zip, MatchAll;
    if k == 0 {
      NothingZipped(n);
    } else {
      MatchZips(n, k - 1);
      AssignNext(n, k - 1);
      MatchNext(Delivery(n), ONE_GROUP, Workers(n), k - 1, Zip(k - 1));
    }
  }

  lemma NothingZipped(n: nat)
    ensures MatchAll(map[], Delivery(n), ONE_GROUP, Workers(n)[..0]) == Zip(0)
  {
    hide Delivery, Workers;
    MatchNone(map[], Delivery(n), ONE_GROUP, Workers(n));
  }

  /** Matching more workers, after some of them had been matched before. */
  lemma MatchMore(p: nat, n: nat)
    requires p <= n
    ensures MatchAll(Zip(p), Delivery(n), ONE_GROUP, Workers(n)[..n]) == Zip(n)
  {
    MatchZips(n, p);
    MatchZips(n, n);
    assert Workers(n)[..n] == Workers(n);
    RerunCompletesTheMatching(map[], Delivery(n), ONE_GROUP, Workers(n), p);
  }

  lemma ZipAtHome(p: nat, n: nat)
    requires p <= n
    ensures DistinctHosts(Workers(n)) && AtHome(Zip(p), Delivery(n), ONE_GROUP, Workers(n))
  {
    forall i, j | 0 <= i < j < n
      ensures Workers(n)[i].host != Workers(n)[j].host
    {
      NamesDiffer(i, j);
    }
    forall id, i | id in Zip(p) && 0 <= i < n && Zip(p)[id] == Workers(n)[i].host
      ensures exists h :: h in At(Delivery(n), GroupOf(ONE_GROUP, Workers(n)[i])) && h.id == id
    {
      var j := ZipKeys(p, id);
      assert GroupOf(ONE_GROUP, Workers(n)[i]) == "g";
      assert Machines(n)[j] in Machines(n) && Machines(n)[j].id == id;
    }
  }

  lemma Go(h: seq<Entry>, e: Event, w: World) returns (g: seq<Entry>)
    requires IsRun(h) && Step(h[|h| - 1].world, e, w)
    ensures IsRun(g) && g[|g| - 1] == Entry(e, w)
  {
    hide Step;
    RunExtends(h, e, w);
    g := h + [Entry(e, w)];
  }

  /** `n` workers get hardware and are rendered. */
  lemma Grow(h: seq<Entry>, p: nat, n: nat) returns (g: seq<Entry>)
    requires IsRun(h) && p <= n && h[|h| - 1].world.status.hostMap == Zip(p)
    ensures IsRun(g)
    ensures g[|g| - 1].world == World(h[|h| - 1].world.status.(hostMap := Zip(n)), HostNames(n))
  {
    hide Zip, HostNames, Delivery, AtHome, DistinctHosts, MatchAll;
    var w := h[|h| - 1].world;
    assert |Workers(n)| == n;
    ZipAtHome(p, n);
    MatchMore(p, n);
    ZipValues(n);
    g := Go(h, Match(Delivery(n), ONE_GROUP, Workers(n), n), w.(status := w.status.(hostMap := Zip(n))));
    g := Go(g, ApplyRendered(HostNames(n)), World(w.status.(hostMap := Zip(n)), HostNames(n)));
  }

  predicate NotFinal(g: seq<Entry>) {
    forall i :: 0 <= i < |g| ==> !g[i].event.Finalize? && !g[i].event.FinalizeFromApplied?
  }

  /** Neither a scale-out nor a scale-in was detected, and the count is as given. */
  predicate Unscaled(e: Entry, fulfilled: int) {
    !e.event.ScaleOutDone? && !e.event.ScaleInDone? && e.world.status.fulfilled == fulfilled
  }

  /** That is so in everything that can happen before the next finalization. */
  ghost predicate Blind(h: seq<Entry>)
    requires |h| > 0
  {
    forall g: seq<Entry> :: IsRun(h + g) && NotFinal(g) ==>
      forall i :: 0 <= i < |g| ==> Unscaled(g[i], h[|h| - 1].world.status.fulfilled)
  }

  lemma NotPositiveIsBlind(h: seq<Entry>)
    requires IsRun(h) && h[|h| - 1].world.status.fulfilled <= 0
    ensures Blind(h)
  {
    forall g: seq<Entry>, i | IsRun(h + g) && NotFinal(g) && 0 <= i < |g|
      ensures Unscaled(g[i], h[|h| - 1].world.status.fulfilled)
    {
      var all := h + g;
      assert forall m :: |h| <= m < |all| ==> all[m] == g[m - |h|];
      NothingDetectedUntilFinalized(all, |h| - 1, |h| + i);
      assert g[i] == all[|h| + i];
    }
  }

  /** `p` workers are fulfilled; `q` more get hardware but are withdrawn before they are. With `q`
      greater than `p` the count becomes negative, and the controller blind to further scaling. */
  lemma CountBelowZero(p: nat, q: nat) returns (h: seq<Entry>)
    requires 2 <= p < q
    ensures IsRun(h) && h[|h| - 1].event.ScaleInDone?
    ensures h[|h| - 1].world.status.fulfilled == p - q && |h[|h| - 1].world.applied| == p
    ensures Blind(h)
  {
    h := [Entry(SetCondition(false), World(Status(map[], 0, false), {}))];
    h := Grow(h, 0, p);
    h := Go(h, SetCondition(true), World(Status(Zip(p), 0, true), HostNames(p)));
    ZipValues(p);
    h := Go(h, Finalize(HostNames(p)), World(Status(Zip(p), p, true), HostNames(p)));
    h := Grow(h, p, p + q);
    h := Go(h, SetCondition(false), World(Status(Zip(p + q), p, false), HostNames(p + q)));
    h := Withdraw(h, p, q);
    NotPositiveIsBlind(h);
  }

  lemma {:induction false} MoreHosts(p: nat, n: nat)
    requires p <= n
    ensures HostNames(p) <= HostNames(n)
    decreases n
  {
    if p < n {
      MoreHosts(p, n - 1);
    }
  }

  lemma WithdrawnHosts(p: nat, q: nat)
    ensures HostNames(p) <= Zip(p + q).Values && |HostNames(p)| == p && |Removed(Zip(p + q), HostNames(p))| == q
  {
    hide Zip, HostNames, Injective, Kept, Removed;
    MoreHosts(p, p + q);
    ZipValues(p + q);
    ZipValues(p);
    ZipInjective(p + q);
    KeptAndRemoved(Zip(p + q), HostNames(p));
    KeptAreRendered(Zip(p + q), HostNames(p));
  }

  lemma Withdraw(h: seq<Entry>, p: nat, q: nat) returns (g: seq<Entry>)
    requires 2 <= p < q && IsRun(h) && h[|h| - 1].world == World(Status(Zip(p + q), p, false), HostNames(p + q))
    ensures IsRun(g) && g[|g| - 1].event.ScaleInDone?
    ensures g[|g| - 1].world.status.fulfilled == p - q && |g[|g| - 1].world.applied| == p
  {
    hide Zip, HostNames, Removed, Kept;
    WithdrawnHosts(p, q);
    var w := World(Status(Zip(p + q), p, false), HostNames(p));
    g := Go(h, ApplyRendered(HostNames(p)), w);
    g := Go(g, ScaleInDone(HostNames(p), p), w.(status := ScaledIn(w.status, HostNames(p), p)));
  }

  // ---------------------------------------------------------------- one pass

  /** What a pass learns from outside: whether leaving nodes are drained and their manifests
      pruned, all rendered nodes ready, removed ones gone from the cluster and their hardware
      deallocated, and whether the ClusterInstance reports that it is provisioned. */
  datatype Report = Report(drained: bool, pruned: bool, ready: bool, gone: bool, deallocated: bool, installed: bool)

  const FAVOURABLE: Report := Report(true, true, true, true, true, true)

  /** The status after an installation phase in which no write fails. */
  function Passed(s: Status, rendered: set<string>, seen: Report): Status {
    if s.fulfilled <= 0 then s.(completed := seen.installed)
    else if |rendered| > s.fulfilled && !seen.ready then s.(completed := false)
    else
      var t := if |rendered| > s.fulfilled then s.(fulfilled := |rendered|) else s;
      if Removed(s.hostMap, rendered) == {} then t.(completed := seen.installed)
      else if !seen.gone || !seen.deallocated then t.(completed := false)
      else
        var u := ScaledIn(t.(completed := false), rendered, s.fulfilled);
        u.(completed := u.completed && seen.installed)
  }

  /** A cluster that was fulfilled before is reported completed only if all rendered nodes are
      counted, and nothing but them holds hardware. */
  lemma CompletedMeansCounted(s: Status, rendered: set<string>, seen: Report)
    requires s.fulfilled > 0 && Passed(s, rendered, seen).completed
    ensures Passed(s, rendered, seen).fulfilled >= |rendered| && seen.installed
    ensures forall id :: id in Passed(s, rendered, seen).hostMap ==> Passed(s, rendered, seen).hostMap[id] in rendered
  {
    var t := Passed(s, rendered, seen);
    if Removed(s.hostMap, rendered) == {} {
      forall id | id in s.hostMap
        ensures s.hostMap[id] in rendered
      {
        assert id !in Removed(s.hostMap, rendered);
      }
    }
  }

  /** More rendered nodes than were fulfilled: the cluster is in progress until they are all
      ready, and then they are counted. */
  lemma ScaleOutIsDetected(s: Status, rendered: set<string>, seen: Report)
    requires 0 < s.fulfilled < |rendered|
    ensures !seen.ready ==> Passed(s, rendered, seen) == s.(completed := false)
    ensures seen.ready && (forall id :: id in s.hostMap ==> s.hostMap[id] in rendered) ==>
      Passed(s, rendered, seen) == s.(fulfilled := |rendered|, completed := seen.installed)
  {
  }

  /** Hosts with hardware that are not rendered: the cluster is in progress until they are gone
      and deallocated, and then they are forgotten and not counted. */
  lemma ScaleInIsDetected(s: Status, rendered: set<string>, seen: Report, id: string)
    requires s.fulfilled >= |rendered| && s.fulfilled > 0 && id in s.hostMap && s.hostMap[id] !in rendered
    ensures !(seen.gone && seen.deallocated) ==> Passed(s, rendered, seen) == s.(completed := false)
    ensures seen.gone && seen.deallocated ==>
      && Passed(s, rendered, seen).fulfilled == s.fulfilled - |set x | x in s.hostMap && s.hostMap[x] !in rendered|
      && Passed(s, rendered, seen).hostMap == map x | x in s.hostMap && s.hostMap[x] in rendered :: s.hostMap[x]
  {
    assert id in Removed(s.hostMap, rendered);
  }

  lemma PassKeepsInv(w: World, rendered: set<string>, seen: Report)
    requires Inv(w) && w.applied == rendered
    ensures Inv(w.(status := Passed(w.status, rendered, seen)))
  {
    var s := w.status;
    var t := if |rendered| > s.fulfilled then s.(fulfilled := |rendered|) else s;
    ValuesOfInjective(s.hostMap);
    Cardinality(rendered, s.hostMap.Values);
    KeptAndRemoved(s.hostMap, rendered);
    KeptAreRendered(s.hostMap, rendered);
  }

  /** After one favourable pass only rendered hosts hold hardware, unless the count had been
      lost. */
  lemma OnePassForgets(w: World, rendered: set<string>)
    requires Inv(w) && w.applied == rendered && w.status.fulfilled > 0
    ensures var t := Passed(w.status, rendered, FAVOURABLE);
      Removed(t.hostMap, rendered) == {} && (t.fulfilled <= 0 || |t.hostMap| == |rendered|)
  {
    var s := w.status;
    KeptAndRemoved(s.hostMap, rendered);
    KeptAreRendered(s.hostMap, rendered);
    if Removed(s.hostMap, rendered) != {} {
      assert Removed(Kept(s.hostMap, rendered), rendered) == {};
    }
  }

  /** Scaling converges: from any state with hardware for all rendered hosts, whatever is to be
      added, removed or swapped, two favourable passes leave a completed cluster in which
      exactly the rendered hosts hold hardware. They are counted, or the count is not
      positive, which the fulfilment that follows repairs. */
  lemma TwoPassesConverge(w: World, rendered: set<string>)
    requires Inv(w) && w.applied == rendered && w.status.fulfilled > 0
    ensures var t := Passed(Passed(w.status, rendered, FAVOURABLE), rendered, FAVOURABLE);
      t.completed && t.hostMap.Values == rendered && (t.fulfilled == |rendered| || t.fulfilled <= 0)
  {
    hide Inv, Passed, Removed;
    var s := Passed(w.status, rendered, FAVOURABLE);
    PassKeepsInv(w, rendered, FAVOURABLE);
    OnePassForgets(w, rendered);
    SecondPass(w.(status := s), rendered);
  }

  lemma SecondPass(w: World, rendered: set<string>)
    requires Inv(w) && w.applied == rendered && Removed(w.status.hostMap, rendered) == {}
    requires w.status.fulfilled <= 0 || |w.status.hostMap| == |rendered|
    ensures var t := Passed(w.status, rendered, FAVOURABLE);
      t.completed && t.hostMap.Values == rendered && (t.fulfilled == |rendered| || t.fulfilled <= 0)
  {
    var m := w.status.hostMap;
    forall h | h in m.Values
      ensures h in rendered
    {
      var id :| id in m && m[id] == h;
      assert id !in Removed(m, rendered);
    }
  }

  // ---------------------------------------------------------------- the reconciler

  lemma RunExtends(h: seq<Entry>, e: Event, w: World)
    requires IsRun(h) && Step(h[|h| - 1].world, e, w)
    ensures IsRun(h + [Entry(e, w)])
  {
    var g := h + [Entry(e, w)];
    forall i | 0 < i < |g|
      ensures StepAt(g, i)
    {
      if i < |h| {
        assert StepAt(h, i);
      }
    }
  }

  /** Counts the allocated hosts that are no longer rendered, in any order. */
  method CountRemoved(m: HostMap, rendered: set<string>) returns (n: nat)
    ensures n == |Removed(m, rendered)|
  {
    n := 0;
    var left := m.Keys;
    ghost var seen: set<string> := {};
    while left != {}
      invariant left <= m.Keys && seen == Removed(m, rendered) - left && n == |seen|
      decreases |left|
    {
      var id :| id in left;
      if m[id] !in rendered {
        n := n + 1;
        seen := seen + {id};
      }
      left := left - {id};
    }
    assert seen == Removed(m, rendered);
  }

  predicate Reverses(byHost: map<string, string>, m: HostMap) {
    && (forall host :: host in byHost ==> byHost[host] in m && m[byHost[host]] == host)
    && (forall id :: id in m ==> m[id] in byHost)
  }

  method ReverseMap(m: HostMap) returns (byHost: map<string, string>)
    ensures Reverses(byHost, m)
  {
    byHost := map[];
    var left := m.Keys;
    while left != {}
      invariant left <= m.Keys
      invariant forall host :: host in byHost ==> byHost[host] in m && m[byHost[host]] == host
      invariant forall id :: id in m && id !in left ==> m[id] in byHost
      decreases |left|
    {
      var id :| id in left;
      byHost := byHost[m[id] := id];
      left := left - {id};
    }
  }

  /** Finds the hardware of removed hosts through the reversed map and forgets it. */
  method ForgetRemoved(m: HostMap, rendered: set<string>) returns (r: HostMap)
    requires Injective(m)
    ensures r == Kept(m, rendered)
  {
    var byHost := ReverseMap(m);
    r := m;
    var hosts := byHost.Keys;
    AllKept(m, byHost, rendered);
    hide Injective, Reverses, Kept;
    while hosts != {}
      invariant hosts <= byHost.Keys && r == Kept(m, rendered + hosts)
      decreases |hosts|
    {
      var host :| host in hosts;
      OneForgotten(m, byHost, rendered, hosts, host);
      if host !in rendered {
        r := r - {byHost[host]};
      }
      hosts := hosts - {host};
    }
    assert rendered + hosts == rendered;
  }

  lemma AllKept(m: HostMap, byHost: map<string, string>, rendered: set<string>)
    requires Reverses(byHost, m)
    ensures Kept(m, rendered + byHost.Keys) == m
  {
  }

  lemma KeptWithout(m: HostMap, hosts: set<string>, host: string, id: string)
    requires id in m && forall x :: x in m ==> (m[x] == host <==> x == id)
    ensures Kept(m, hosts - {host}) == Kept(m, hosts) - {id}
  {
    var a, b := Kept(m, hosts - {host}), Kept(m, hosts) - {id};
    assert a.Keys == b.Keys;
  }

  lemma OneForgotten(m: HostMap, byHost: map<string, string>, rendered: set<string>, hosts: set<string>, host: string)
    requires Injective(m) && Reverses(byHost, m) && host in byHost && host in hosts
    ensures var kept := Kept(m, rendered + hosts);
      Kept(m, rendered + (hosts - {host})) == if host in rendered then kept else kept - {byHost[host]}
  {
    OneHolder(m, byHost, host);
    hide Injective, Reverses;
    if host in rendered {
      assert rendered + (hosts - {host}) == rendered + hosts;
    } else {
      assert rendered + (hosts - {host}) == (rendered + hosts) - {host};
      KeptWithout(m, rendered + hosts, host, byHost[host]);
    }
  }

  lemma OneHolder(m: HostMap, byHost: map<string, string>, host: string)
    requires Injective(m) && Reverses(byHost, m) && host in byHost
    ensures byHost[host] in m && forall id :: id in m ==> (m[id] == host <==> id == byHost[host])
  {
  }

  function HostsIn(nodes: seq<Node>): set<string> {
    set i | 0 <= i < |nodes| :: nodes[i].host
  }

  lemma PlacedHostsHaveHardware(out: seq<Wrappers.Option<Hardware>>, pool: Pool, lay: Layout, m: HostMap, nodes: seq<Node>)
    requires Placed(out, pool, lay, m, nodes) && |out| == |nodes| && AllSome(out)
    ensures HostsIn(nodes) <= m.Values
  {
    forall i | 0 <= i < |nodes|
      ensures nodes[i].host in m.Values
    {
      HolderHolds(Ids(pool, lay, nodes[i]), m, nodes[i].host);
    }
  }

  lemma {:induction false} OneHostPerNode(nodes: seq<Node>, n: nat)
    requires n <= |nodes| && DistinctHosts(nodes)
    ensures |HostsIn(nodes[..n])| == n
  {
    if n > 0 {
      OneHostPerNode(nodes, n - 1);
      assert HostsIn(nodes[..n]) == HostsIn(nodes[..n - 1]) + {nodes[n - 1].host};
      assert nodes[n - 1].host !in HostsIn(nodes[..n - 1]);
    } else {
      assert HostsIn(nodes[..0]) == {};
    }
  }

  datatype Phase = Draining | Matching | Installing

  /** Applied hosts with hardware that are no longer rendered. */
  function Leaving(s: Status, applied: set<string>, rendered: set<string>): set<string> {
    applied * s.hostMap.Values - rendered
  }

  /** Nodes have to leave a completed cluster before anything else is done. */
  predicate Drains(s: Status, applied: set<string>, rendered: set<string>, seen: Report) {
    s.completed && Leaving(s, applied, rendered) != {} && !(seen.drained && seen.pruned)
  }

  /** The listed hardware does not do: an item without BMC, without boot interface for the
      node it is for, or none for some node. */
  predicate Short(list: seq<Hardware>, lay: Layout, nodes: seq<Node>, m: HostMap) {
    || (exists h :: h in list && !h.hasBmc)
    || (exists i :: 0 <= i < |nodes| && NoBootMac(PoolOf(list), lay, m, nodes[i]))
    || (exists i :: 0 <= i < |nodes| && !Matched(m, PoolOf(list), lay, nodes[i]))
  }

  lemma StoppedIsShort(list: seq<Hardware>, lay: Layout, m: HostMap, nodes: seq<Node>, done: nat)
    requires (exists h :: h in list && !h.hasBmc) || (done < |nodes| && NoBootMac(PoolOf(list), lay, m, nodes[done]))
    ensures Short(list, lay, nodes, m)
  {
  }

  lemma UnmatchedIsShort(out: seq<Wrappers.Option<Hardware>>, list: seq<Hardware>, lay: Layout, m: HostMap, nodes: seq<Node>)
    requires Placed(out, PoolOf(list), lay, m, nodes) && |out| == |nodes| && !AllSome(out)
    ensures Short(list, lay, nodes, m)
  {
    var i :| 0 <= i < |out| && out[i].None?;
    assert !Matched(m, PoolOf(list), lay, nodes[i]);
  }

  class Installer {
    /** The status in memory, and the persisted world. */
    var status: Status
    var world: World
    ghost var hist: seq<Entry>
    /** Whether a call of this reconcile has failed. */
    ghost var failed: bool

    /** A reconcile begins on the persisted status, after any earlier history. */
    constructor (ghost h: seq<Entry>, world: World)
      requires IsRun(h) && h[|h| - 1].world == world
      ensures Valid() && status == world.status && this.world == world && hist == h && !failed
    {
      status, this.world, hist, failed := world.status, world, h, false;
    }

    ghost predicate Valid()
      reads this
    {
      IsRun(hist) && hist[|hist| - 1].world == world
    }

    twostate predicate Continues()
      reads this
    {
      Valid() && old(hist) <= hist
    }

    method Emit(ghost e: Event, next: World)
      requires Valid() && Step(world, e, next)
      modifies this
      ensures Continues() && world == next && status == old(status) && hist == old(hist) + [Entry(e, next)]
      ensures failed == old(failed)
    {
      RunExtends(hist, e, next);
      world := next;
      hist := hist + [Entry(e, next)];
    }

    /** Persists the status. The write may fail, and may take effect although it is reported
        as failed. */
    method UpdateStatus(ghost e: Event) returns (ok: bool)
      requires Valid() && Step(world, e, world.(status := status))
      modifies this
      ensures Continues() && status == old(status) && world.applied == old(world.applied)
      ensures ok ==> world.status == status && hist == old(hist) + [Entry(e, world)]
      ensures world.status == status || world == old(world)
      ensures failed == (old(failed) || !ok)
    {
      var applied: bool := *;
      ok := *;
      ok := ok && applied;
      failed := failed || !ok;
      if applied {
        Emit(e, world.(status := status));
      }
    }

    /** The hardware phase. If it completes, every rendered host has hardware. */
    method MatchHardware(list: seq<Hardware>, lay: Layout, nodes: seq<Node>) returns (complete: bool)
      requires Valid() && status == world.status && NamedList(list) && NamedNodes(lay, nodes)
      requires AtHome(status.hostMap, PoolOf(list), lay, nodes)
      modifies this
      ensures Continues() && status == world.status && Extends(old(status.hostMap), status.hostMap)
      ensures status == old(status).(hostMap := status.hostMap) && world.applied == old(world.applied)
      ensures complete ==> HostsIn(nodes) <= status.hostMap.Values
      ensures !complete && !failed ==> Short(list, lay, nodes, status.hostMap)
      ensures (old(failed) ==> failed) && (complete ==> failed == old(failed))
    {
      hide IsRun, AtHome, DistinctHosts, AllBoot, NoBootMac, MatchAll, Extends;
      var request := new Request(status.hostMap);
      ghost var done;
      var outcome, out;
      done, outcome, out := request.ProvisionHardware(list, lay, nodes);
      MatchingKeepsAssignments(status.hostMap, PoolOf(list), lay, nodes[..done]);
      hide Short;
      if outcome.Complete? {
        PlacedHostsHaveHardware(out, PoolOf(list), lay, request.persisted, nodes);
      }
      var next := world.(status := status.(hostMap := request.persisted));
      Emit(Match(PoolOf(list), lay, nodes, done), next);
      status := next.status;
      complete, failed := outcome.Complete?, failed || (!outcome.Complete? && request.failed);
      if outcome.Unmatched? {
        UnmatchedIsShort(out, list, lay, request.persisted, nodes);
      } else if outcome.Stopped? && !request.failed {
        StoppedIsShort(list, lay, request.persisted, nodes, done);
      }
    }

    /** Nodes that leave first, then hardware, then the cluster: the installation phase is
        reached only with hardware for every rendered host. */
    method ReconcileNodes(list: seq<Hardware>, lay: Layout, nodes: seq<Node>, seen: Report)
      returns (phase: Phase, ok: bool, scaledIn: bool)
      requires Valid() && status == world.status && NamedList(list) && NamedNodes(lay, nodes)
      requires AtHome(status.hostMap, PoolOf(list), lay, nodes)
      modifies this
      ensures Continues()
      ensures phase.Draining? <==> Drains(old(status), old(world.applied), HostsIn(nodes), seen)
      ensures phase.Draining? ==> world.status == old(world.status)
      ensures phase.Matching? && !failed ==> Short(list, lay, nodes, world.status.hostMap)
      ensures !phase.Installing? ==> world.status == old(world.status).(hostMap := world.status.hostMap)
      ensures phase.Installing? && ok && old(status.fulfilled) > 0 && world.status.completed ==>
        world.status.fulfilled >= |nodes| && world.status.hostMap.Values == HostsIn(nodes)
      ensures scaledIn ==> world.status.fulfilled == |HostsIn(nodes)| == |nodes|
      ensures (old(failed) ==> failed) && (ok || failed)
    {
      hide Passed, Removed, Drains;
      scaledIn := false;
      var active := HandleScaleInDrain(HostsIn(nodes), seen);
      if active {
        return Draining, true, false;
      }
      var complete := MatchHardware(list, lay, nodes);
      if !complete {
        return Matching, true, false;
      }
      OneHostPerNode(nodes, |nodes|);
      assert nodes[..|nodes|] == nodes;
      phase := Installing;
      ghost var before := status;
      ok, scaledIn := HandleClusterInstallation(HostsIn(nodes), seen);
      if ok && before.fulfilled > 0 && world.status.completed {
        CompletedMeansCounted(before, HostsIn(nodes), seen);
        AppliedHaveHardware(HostsIn(nodes));
      }
    }

    lemma AppliedHaveHardware(rendered: set<string>)
      requires Valid() && world.applied == rendered
      requires forall id :: id in world.status.hostMap ==> world.status.hostMap[id] in rendered
      ensures world.status.hostMap.Values == rendered
    {
      AccountingHolds(hist, |hist| - 1);
    }

    /** Before the cluster changes: nodes that leave are drained, and their manifests pruned
        through an intermediate ClusterInstance without the nodes that are still to come. */
    method HandleScaleInDrain(rendered: set<string>, seen: Report) returns (active: bool)
      requires Valid() && status == world.status
      modifies this
      ensures Continues() && status == world.status == old(status)
      ensures active <==> Drains(status, old(world.applied), rendered, seen)
      ensures forall h :: h in world.applied <==>
        if status.completed && seen.drained && Leaving(status, old(world.applied), rendered) != {}
        then h in old(world.applied) && (h in rendered || h in status.hostMap.Values)
        else h in old(world.applied)
      ensures failed == old(failed)
    {
      if !status.completed {
        return false;
      }
      var leaving := Leaving(status, world.applied, rendered);
      if leaving == {} {
        return false;
      }
      if !seen.drained {
        return true;
      }
      Emit(ApplyIntermediate(rendered, leaving), world.(applied := rendered * world.applied + leaving));
      active := !seen.pruned;
    }

    /** The installation phase. `scaledIn` reports that it marked provisioning completed at
        the end of a scale-in. */
    method HandleClusterInstallation(rendered: set<string>, seen: Report) returns (ok: bool, scaledIn: bool)
      requires Valid() && status == world.status && rendered <= status.hostMap.Values
      modifies this
      ensures Continues() && world.applied == rendered
      ensures ok ==> world.status == Passed(old(status), rendered, seen)
      ensures scaledIn ==> world.status.fulfilled == |rendered|
      ensures old(status.fulfilled) <= 0 ==>
        !scaledIn && world.status == old(status).(completed := world.status.completed)
      ensures failed == (old(failed) || !ok)
    {
      hide IsRun, AtHome, DistinctHosts, AfterMatch, Removed, ScaledIn;
      scaledIn := false;
      Emit(ApplyRendered(rendered), world.(applied := rendered));
      var base := status.fulfilled;
      if base > 0 && |rendered| > base {
        var done;
        ok, done := ScaleOut(rendered, seen.ready);
        if !done {
          return;
        }
      }
      var removed := 0;
      if base > 0 {
        removed := CountRemoved(status.hostMap, rendered);
      }
      if removed > 0 {
        ok, scaledIn := ScaleIn(rendered, base, removed, seen);
        if !ok || !scaledIn {
          return;
        }
      }
      status := status.(completed := seen.installed);
      ok := UpdateStatus(SetCondition(status.completed));
    }

    /** Waits until all rendered nodes are ready, then counts them. */
    method ScaleOut(rendered: set<string>, allReady: bool) returns (ok: bool, done: bool)
      requires Valid() && status == world.status && rendered == world.applied && 0 < status.fulfilled < |rendered|
      modifies this
      ensures Continues() && world.applied == old(world.applied) && status.hostMap == old(status.hostMap)
      ensures done <==> ok && allReady
      ensures ok ==> status == world.status
      ensures done ==> status == old(status).(fulfilled := |rendered|, completed := true)
      ensures ok && !done ==> status == old(status).(completed := false)
      ensures failed == (old(failed) || !ok)
    {
      status := status.(completed := false);
      ok := UpdateStatus(SetCondition(false));
      if !ok || !allReady {
        return ok, false;
      }
      status := status.(fulfilled := |rendered|, completed := true);
      ok := UpdateStatus(ScaleOutDone(rendered));
      done := ok;
    }

    method ScaleIn(rendered: set<string>, base: int, removed: nat, seen: Report) returns (ok: bool, completed: bool)
      requires Valid() && status == world.status && rendered == world.applied
      requires 0 < base <= status.fulfilled && removed == |Removed(status.hostMap, rendered)| > 0
      modifies this
      ensures Continues() && world.applied == old(world.applied) && (completed ==> ok)
      ensures ok ==> status == world.status
      ensures ok && seen.gone && seen.deallocated ==> status == ScaledIn(old(status).(completed := false), rendered, base)
      ensures ok && !(seen.gone && seen.deallocated) ==> status == old(status).(completed := false)
      ensures ok ==> completed == status.completed
      ensures completed ==> status.completed && status.fulfilled == |rendered|
      ensures failed == (old(failed) || !ok)
    {
      completed := false;
      if status.completed {
        status := status.(completed := false);
        ok := UpdateStatus(SetCondition(false));
        if !ok {
          return;
        }
      }
      if !seen.gone || !seen.deallocated {
        return true, false;
      }
      Injectivity();
      ghost var before := status;
      var kept := ForgetRemoved(status.hostMap, rendered);
      status := status.(hostMap := kept, fulfilled := base - removed);
      if |rendered| > base - removed {
        assert status == ScaledIn(before, rendered, base);
        ok := UpdateStatus(ScaleInDone(rendered, base));
        return;
      }
      status := status.(completed := true);
      assert status == ScaledIn(before, rendered, base);
      ok := UpdateStatus(ScaleInDone(rendered, base));
      completed := ok;
      if ok {
        ScaleInCountsRenderedNodes(hist, |hist| - 1);
      }
    }

    lemma Injectivity()
      requires Valid()
      ensures Injective(world.status.hostMap)
    {
      AccountingHolds(hist, |hist| - 1);
    }

    /** Fulfilment records the node count of the rendered or, failing that, of the applied
        ClusterInstance. */
    method FinalizeProvisioning(rendered: set<string>, available: bool) returns (ok: bool)
      requires Valid() && status == world.status && (available ==> rendered == world.applied)
      modifies this
      ensures Continues()
      ensures ok && old(status.completed) ==> world.status == old(status).(fulfilled := |world.applied|)
      ensures !old(status.completed) ==> ok && world == old(world)
      ensures failed == (old(failed) || !ok)
    {
      if !status.completed {
        return true;
      }
      if available {
        status := status.(fulfilled := |rendered|);
        ok := UpdateStatus(Finalize(rendered));
      } else {
        status := status.(fulfilled := |world.applied|);
        ok := UpdateStatus(FinalizeFromApplied);
      }
    }
  }

  // ---------------------------------------------------------------- which scaling is accepted

  type Roles = map<string, string>

  function Masters(nodes: Roles): set<string> {
    set h | h in nodes && (nodes[h] == "master" || nodes[h] == "control-plane")
  }

  predicate SingleNode(nodes: Roles) {
    |nodes| == 1 || (|nodes| == |Masters(nodes)| && |Masters(nodes)| <= 1)
  }

  /** Every host that only one side has is a worker there. */
  predicate WorkersOnly(a: Roles, b: Roles) {
    forall h :: h in a && h !in b ==> a[h] == "worker"
  }

  predicate RoleChange(existing: Roles, rendered: Roles) {
    exists h :: h in existing && h in rendered && existing[h] != rendered[h]
  }

  lemma OneMaster(nodes: Roles, left: set<string>, h: string)
    requires h in left && h in nodes
    ensures |Masters(nodes) - (left - {h})| ==
            |Masters(nodes) - left| + if nodes[h] == "master" || nodes[h] == "control-plane" then 1 else 0
  {
    if nodes[h] == "master" || nodes[h] == "control-plane" {
      assert Masters(nodes) - (left - {h}) == Masters(nodes) - left + {h};
    } else {
      assert Masters(nodes) - (left - {h}) == Masters(nodes) - left;
    }
  }

  method CountMasters(nodes: Roles) returns (n: nat)
    ensures n == |Masters(nodes)|
  {
    n := 0;
    var left := nodes.Keys;
    assert Masters(nodes) - left == {};
    hide Masters;
    while left != {}
      invariant left <= nodes.Keys && n == |Masters(nodes) - left|
      decreases |left|
    {
      var h :| h in left;
      OneMaster(nodes, left, h);
      if nodes[h] == "master" || nodes[h] == "control-plane" {
        n := n + 1;
      }
      left := left - {h};
    }
    assert Masters(nodes) - left == Masters(nodes);
  }

  method CheckWorkers(a: Roles, b: Roles) returns (ok: bool)
    ensures ok <==> WorkersOnly(a, b)
  {
    var left := a.Keys;
    while left != {}
      invariant left <= a.Keys
      invariant forall h :: h in a && h !in left && h !in b ==> a[h] == "worker"
      decreases |left|
    {
      var h :| h in left;
      if h !in b && a[h] != "worker" {
        return false;
      }
      left := left - {h};
    }
    return true;
  }

  /** Compares two node sets of the same size, host by host until one is missing. */
  method CompareRoles(existing: Roles, rendered: Roles) returns (changed: bool, same: bool)
    requires |existing| == |rendered|
    ensures changed ==> RoleChange(existing, rendered)
    ensures !changed ==> (same <==> existing == rendered)
    ensures existing.Keys == rendered.Keys ==> (changed <==> existing != rendered)
  {
    var left := existing.Keys;
    while left != {}
      invariant left <= existing.Keys
      invariant forall h :: h in existing && h !in left ==> h in rendered && existing[h] == rendered[h]
      decreases |left|
    {
      var h :| h in left;
      if h !in rendered {
        return false, false;
      }
      if existing[h] != rendered[h] {
        return true, false;
      }
      left := left - {h};
    }
    SameSizeSameKeys(existing, rendered);
    return false, true;
  }

  lemma SameSizeSameKeys(a: Roles, b: Roles)
    requires |a| == |b| && a.Keys <= b.Keys
    ensures a.Keys == b.Keys
  {
    assert |b.Keys - a.Keys| == |b.Keys| - |a.Keys|;
  }

  /** Scaling may only add or remove workers, and never a single-node cluster. With equal
      host sets no role may change. A role change hidden in a swap of equal size is found or
      not depending on the order of the map; everything else is decided. */
  method ValidateScaleWorkerOnly(existing: Roles, rendered: Roles) returns (ok: bool)
    ensures ok && existing != rendered ==>
      !SingleNode(existing) && WorkersOnly(existing, rendered) && WorkersOnly(rendered, existing)
    ensures ok && existing.Keys == rendered.Keys ==> existing == rendered
    ensures !ok ==> existing != rendered
    ensures !ok ==>
      SingleNode(existing) || !WorkersOnly(existing, rendered) || !WorkersOnly(rendered, existing) ||
      (|existing| == |rendered| && RoleChange(existing, rendered))
  {
    if |existing| == |rendered| {
      var changed, same := CompareRoles(existing, rendered);
      if changed {
        return false;
      }
      if same {
        return true;
      }
    }
    var masters := CountMasters(existing);
    if |existing| == 1 || (|existing| == masters && masters <= 1) {
      return false;
    }
    ok := CheckWorkers(existing, rendered);
    if ok {
      ok := CheckWorkers(rendered, existing);
    }
  }
}
