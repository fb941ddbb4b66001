/** Matching of allocated hardware to the rendered hosts of a cluster. The reconciler fills
    `AllocatedNodeHostMap` node by node and persists it after each; the specification is a
    fold that looks only at the map it is given. */
module HardwareMatching {
  import opened Wrappers
  import opened Strings

  datatype Hardware = Hardware(id: string, group: string, hasBmc: bool, hasBootMac: bool)
  datatype Node = Node(host: string, role: string)
  datatype NodeGroup = NodeGroup(name: string, role: string)

  /** `hostToGroup` is empty in the legacy format, where groups are found by role. */
  datatype Layout = Layout(hostToGroup: map<string, string>, groups: seq<NodeGroup>)

  type HostMap = map<string, string>
  type Pool = map<string, seq<Hardware>>

  function At<T>(m: map<string, seq<T>>, g: string): seq<T> {
    if g in m then m[g] else []
  }

  // ---------------------------------------------------------------- grouping

  const ById: Hardware -> string := (h: Hardware) => h.id

  function Members(s: seq<Hardware>, g: string): seq<Hardware> {
    if s == [] then []
    else Members(s[..|s| - 1], g) + if s[|s| - 1].group == g then [s[|s| - 1]] else []
  }

  function GroupNames(items: seq<Hardware>): set<string> {
    set h | h in items :: h.group
  }

  function Pooled(items: seq<Hardware>): Pool {
    map g | g in GroupNames(items) :: Members(items, g)
  }

  lemma {:induction false} NoMembers(items: seq<Hardware>, g: string)
    requires g !in GroupNames(items)
    ensures Members(items, g) == []
  {
    if items != [] {
      var front, last := items[..|items| - 1], items[|items| - 1];
      assert items == front + [last];
      assert last in items && forall h :: h in front ==> h in items;
      NoMembers(front, g);
    }
  }

  lemma MembersSnoc(items: seq<Hardware>, hw: Hardware, g: string)
    ensures Members(items + [hw], g) == Members(items, g) + if hw.group == g then [hw] else []
  {
    assert (items + [hw])[..|items + [hw]| - 1] == items;
  }

  lemma PooledSnoc(items: seq<Hardware>, hw: Hardware)
    ensures Pooled(items + [hw]) == Pooled(items)[hw.group := At(Pooled(items), hw.group) + [hw]]
  {
    var all, next := items + [hw], Pooled(items)[hw.group := At(Pooled(items), hw.group) + [hw]];
    assert GroupNames(all) == GroupNames(items) + {hw.group};
    forall g | g in GroupNames(all)
      ensures Pooled(all)[g] == next[g]
    {
      MembersSnoc(items, hw, g);
      if g !in GroupNames(items) {
        NoMembers(items, g);
      }
    }
    assert Pooled(all).Keys == next.Keys;
  }

  method GroupItems(items: seq<Hardware>) returns (r: Option<Pool>)
    ensures r.None? <==> exists h :: h in items && !h.hasBmc
    ensures r.Some? ==> r.value == Pooled(items)
  {
    hide Pooled;
    var pool: Pool := map[];
    NothingPooled();
    assert items[..0] == [];
    for i := 0 to |items|
      invariant pool == Pooled(items[..i])
      invariant forall h :: h in items[..i] ==> h.hasBmc
    {
      var hw := items[i];
      if !hw.hasBmc {
        return None;
      }
      assert items[..i + 1] == items[..i] + [hw];
      PooledSnoc(items[..i], hw);
      pool := pool[hw.group := At(pool, hw.group) + [hw]];
    }
    assert items[..|items|] == items;
    return Some(pool);
  }

  lemma NothingPooled()
    ensures Pooled([]) == map[]
  {
  }

  lemma SortKeepsItems(list: seq<Hardware>, h: Hardware)
    ensures h in list <==> h in SortBy(list, ById)
  {
    SortBySorts(list, ById);
    assert h in multiset(list) <==> h in multiset(SortBy(list, ById));
  }

  /** The allocated nodes by group, sorted by name. */
  function PoolOf(list: seq<Hardware>): Pool {
    Pooled(SortBy(list, ById))
  }

  /** Sorts the allocated nodes by name and groups them. */
  method CollectNodeDetails(list: seq<Hardware>) returns (r: Option<Pool>)
    ensures r.None? <==> exists h :: h in list && !h.hasBmc
    ensures r.Some? ==> r.value == PoolOf(list)
  {
    r := GroupItems(SortBy(list, ById));
    forall h
      ensures h in list <==> h in SortBy(list, ById)
    {
      SortKeepsItems(list, h);
    }
  }

  // ---------------------------------------------------------------- unique names

  predicate DistinctIds(ids: seq<Hardware>) {
    forall i, j :: 0 <= i < j < |ids| ==> ids[i].id != ids[j].id
  }

  lemma {:induction false} OnceInMultiset(list: seq<Hardware>, x: Hardware)
    requires DistinctIds(list)
    ensures multiset(list)[x] <= 1
  {
    if list != [] {
      var front := list[..|list| - 1];
      assert list == front + [list[|list| - 1]];
      OnceInMultiset(front, x);
      if x == list[|list| - 1] {
        assert x !in front;
        assert multiset(front)[x] == 0;
      }
    }
  }

  lemma DistinctIdsAreKeys(list: seq<Hardware>)
    requires DistinctIds(list)
    ensures DistinctKeys(list, ById)
  {
  }

  lemma SortedIdsDiffer(list: seq<Hardware>, i: nat, j: nat)
    requires DistinctIds(list) && i < j < |SortBy(list, ById)|
    ensures SortBy(list, ById)[i].id != SortBy(list, ById)[j].id
  {
    var s := SortBy(list, ById);
    SortBySorts(list, ById);
    SortKeepsItems(list, s[i]);
    SortKeepsItems(list, s[j]);
    DistinctIdsAreKeys(list);
    if ById(s[i]) == ById(s[j]) {
      assert s[i] == s[j];
      assert s == s[..j] + s[j..];
      assert s[i] in s[..j] && s[i] in s[j..];
      OnceInMultiset(list, s[i]);
    }
  }

  lemma {:induction false} MembersDiffer(s: seq<Hardware>, g: string)
    requires DistinctIds(s)
    ensures DistinctIds(Members(s, g)) && forall h :: h in Members(s, g) ==> h in s && h.group == g
  {
    if s != [] {
      MembersDiffer(s[..|s| - 1], g);
      assert s == s[..|s| - 1] + [s[|s| - 1]];
    }
  }

  /** Unique names in the list give groups with unique and disjoint names. */
  lemma UniqueNamesInPool(list: seq<Hardware>)
    requires DistinctIds(list)
    ensures DisjointGroups(PoolOf(list)) && forall g :: g in PoolOf(list) ==> DistinctIds(PoolOf(list)[g])
    ensures forall g, h :: g in PoolOf(list) && h in PoolOf(list)[g] ==> h in list && h.group == g
  {
    var s := SortBy(list, ById);
    forall i, j | 0 <= i < j < |s|
      ensures s[i].id != s[j].id
    {
      SortedIdsDiffer(list, i, j);
    }
    forall g | g in PoolOf(list)
      ensures DistinctIds(PoolOf(list)[g]) && forall h :: h in PoolOf(list)[g] ==> h in list && h.group == g
    {
      MembersDiffer(s, g);
      forall h | h in PoolOf(list)[g]
        ensures h in list && h.group == g
      {
        SortKeepsItems(list, h);
      }
    }
    DistinctIdsAreKeys(list);
    SharedIdSharesGroup(list, PoolOf(list));
  }

  lemma SharedIdSharesGroup(list: seq<Hardware>, pool: Pool)
    requires DistinctKeys(list, ById) && forall g, h :: g in pool && h in pool[g] ==> h in list && h.group == g
    ensures DisjointGroups(pool)
  {
    forall g, h, x, y | g in pool && h in pool && x in pool[g] && y in pool[h] && x.id == y.id
      ensures g == h
    {
      assert ById(x) == ById(y);
    }
  }

  /** Names of hardware are unique in the namespace. */
  predicate DisjointGroups(pool: Pool) {
    forall g, h, x, y :: g in pool && h in pool && x in pool[g] && y in pool[h] && x.id == y.id ==> g == h
  }

  /** Neither the groups nor the matching depend on the order in which the API lists the nodes. */
  lemma MatchingForgetsListOrder(m: HostMap, a: seq<Hardware>, b: seq<Hardware>, lay: Layout, nodes: seq<Node>)
    requires multiset(a) == multiset(b) && DistinctIds(a)
    ensures PoolOf(a) == PoolOf(b) && MatchAll(m, PoolOf(a), lay, nodes) == MatchAll(m, PoolOf(b), lay, nodes)
  {
    DistinctIdsAreKeys(a);
    SortForgetsOrder(a, b, ById);
  }

  /** The first group of a role; the empty name if there is none. */
  function RoleGroup(groups: seq<NodeGroup>, role: string): string {
    if groups == [] then "" else if groups[0].role == role then groups[0].name else RoleGroup(groups[1..], role)
  }

  method RoleToGroupName(groups: seq<NodeGroup>) returns (m: map<string, string>)
    ensures forall role :: (if role in m then m[role] else "") == RoleGroup(groups, role)
  {
    m := map[];
    for i := 0 to |groups|
      invariant forall role :: role in m ==> m[role] == RoleGroup(groups, role)
      invariant forall role :: role !in m ==> RoleGroup(groups, role) == RoleGroup(groups[i..], role)
    {
      if groups[i].role !in m {
        m := m[groups[i].role := groups[i].name];
      }
    }
  }

  function GroupOf(lay: Layout, node: Node): string {
    if |lay.hostToGroup| > 0 then (if node.host in lay.hostToGroup then lay.hostToGroup[node.host] else "")
    else RoleGroup(lay.groups, node.role)
  }

  // ---------------------------------------------------------------- the specification

  /** The hardware that the map gives to a host; the last if there is more than one. */
  function Holder(ids: seq<Hardware>, m: HostMap, host: string): Option<Hardware> {
    if ids == [] then None
    else
      var last := ids[|ids| - 1];
      if last.id in m && m[last.id] == host then Some(last) else Holder(ids[..|ids| - 1], m, host)
  }

  function FirstFree(ids: seq<Hardware>, m: HostMap): Option<Hardware> {
    if ids == [] then None else if ids[0].id !in m then Some(ids[0]) else FirstFree(ids[1..], m)
  }

  function Choice(m: HostMap, ids: seq<Hardware>, host: string): Option<Hardware> {
    var holder := Holder(ids, m, host);
    if holder.Some? then holder else FirstFree(ids, m)
  }

  function Assign(m: HostMap, pool: Pool, lay: Layout, node: Node): HostMap {
    var choice := Choice(m, At(pool, GroupOf(lay, node)), node.host);
    if choice.None? then m else m[choice.value.id := node.host]
  }

  function MatchAll(m: HostMap, pool: Pool, lay: Layout, nodes: seq<Node>): HostMap {
    if nodes == [] then m
    else Assign(MatchAll(m, pool, lay, nodes[..|nodes| - 1]), pool, lay, nodes[|nodes| - 1])
  }

  lemma {:induction false} HolderHolds(ids: seq<Hardware>, m: HostMap, host: string)
    ensures var r := Holder(ids, m, host);
      if r.Some? then r.value in ids && r.value.id in m && m[r.value.id] == host
      else forall h :: h in ids && h.id in m ==> m[h.id] != host
  {
    if ids != [] {
      HolderHolds(ids[..|ids| - 1], m, host);
      assert ids == ids[..|ids| - 1] + [ids[|ids| - 1]];
    }
  }

  lemma {:induction false} FirstFreeIsFree(ids: seq<Hardware>, m: HostMap)
    ensures var r := FirstFree(ids, m);
      if r.Some? then r.value in ids && r.value.id !in m else forall h :: h in ids ==> h.id in m
  {
    if ids != [] {
      FirstFreeIsFree(ids[1..], m);
    }
  }

  // ---------------------------------------------------------------- what a node gets

  /** The group a node looks in: the one of its host or, if none is given, the first of its role. */
  lemma {:induction false} GroupOfRole(groups: seq<NodeGroup>, role: string, i: nat)
    requires i < |groups| && groups[i].role == role && forall j :: 0 <= j < i ==> groups[j].role != role
    ensures RoleGroup(groups, role) == groups[i].name
  {
    if i > 0 {
      GroupOfRole(groups[1..], role, i - 1);
    }
  }

  lemma {:induction false} MembersAre(s: seq<Hardware>, g: string, h: Hardware)
    ensures h in Members(s, g) <==> h in s && h.group == g
  {
    if s != [] {
      MembersAre(s[..|s| - 1], g, h);
      assert s == s[..|s| - 1] + [s[|s| - 1]];
    }
  }

  lemma {:induction false} MembersSorted(s: seq<Hardware>, g: string)
    requires SortedBy(s, ById)
    ensures SortedBy(Members(s, g), ById)
  {
    if s != [] {
      var front, last := s[..|s| - 1], s[|s| - 1];
      MembersSorted(front, g);
      forall i | 0 <= i < |Members(front, g)|
        ensures !Less(ById(last), ById(Members(front, g)[i]))
      {
        MembersAre(front, g, Members(front, g)[i]);
        var j :| 0 <= j < |front| && front[j] == Members(front, g)[i];
        assert s[j] == front[j];
      }
    }
  }

  lemma PoolHolds(list: seq<Hardware>, g: string, h: Hardware)
    ensures h in At(PoolOf(list), g) <==> h in list && h.group == g
  {
    SortKeepsItems(list, h);
    MembersAre(SortBy(list, ById), g, h);
  }

  lemma {:induction false} FirstFreeIsLeast(ids: seq<Hardware>, m: HostMap, x: Hardware)
    requires SortedBy(ids, ById) && x in ids && x.id !in m
    ensures FirstFree(ids, m).Some? && !Less(x.id, FirstFree(ids, m).value.id)
  {
    if ids[0].id !in m {
      HeadIsLeast(ids, x, ById);
      assert ById(x) == x.id && ById(ids[0]) == ids[0].id;
    } else {
      assert ids == [ids[0]] + ids[1..];
      FirstFreeIsLeast(ids[1..], m, x);
    }
  }

  lemma PoolIsSorted(list: seq<Hardware>, g: string)
    ensures SortedBy(At(PoolOf(list), g), ById)
  {
    SortBySorts(list, ById);
    MembersSorted(SortBy(list, ById), g);
  }

  /** A host keeps the hardware it has in its group. Otherwise it gets, of the free hardware of
      its group, the one with the least name, and nothing else is touched. */
  lemma AssignmentMeans(m: HostMap, list: seq<Hardware>, lay: Layout, node: Node)
    ensures var g, n := GroupOf(lay, node), Assign(m, PoolOf(list), lay, node);
      if exists h :: h in list && h.group == g && h.id in m && m[h.id] == node.host then n == m
      else if forall h :: h in list && h.group == g ==> h.id in m then n == m
      else exists h :: h in list && h.group == g && h.id !in m && n == m[h.id := node.host] &&
                       forall x :: x in list && x.group == g && x.id !in m ==> !Less(x.id, h.id)
  {
    var g := GroupOf(lay, node);
    var ids := At(PoolOf(list), g);
    forall h
      ensures h in ids <==> h in list && h.group == g
    {
      PoolHolds(list, g, h);
    }
    hide PoolOf, GroupOf;
    HolderHolds(ids, m, node.host);
    FirstFreeIsFree(ids, m);
    PoolIsSorted(list, g);
    if Holder(ids, m, node.host).Some? {
      var h := Holder(ids, m, node.host).value;
      assert h in list && h.group == g;
      assert m[h.id := node.host] == m;
    } else if FirstFree(ids, m).Some? {
      var h := FirstFree(ids, m).value;
      forall x | x in list && x.group == g && x.id !in m
        ensures !Less(x.id, h.id)
      {
        FirstFreeIsLeast(ids, m, x);
      }
      assert h in list && h.group == g && h.id !in m;
    }
  }

  // ---------------------------------------------------------------- keeping and resuming

  predicate Extends(m: HostMap, n: HostMap) {
    forall id :: id in m ==> id in n && n[id] == m[id]
  }

  lemma AssignExtends(m: HostMap, pool: Pool, lay: Layout, node: Node)
    ensures Extends(m, Assign(m, pool, lay, node))
  {
    var ids := At(pool, GroupOf(lay, node));
    HolderHolds(ids, m, node.host);
    FirstFreeIsFree(ids, m);
  }

  /** Existing assignments never change. */
  lemma {:induction false} MatchingKeepsAssignments(m: HostMap, pool: Pool, lay: Layout, nodes: seq<Node>)
    ensures Extends(m, MatchAll(m, pool, lay, nodes))
  {
    if nodes != [] {
      var front := nodes[..|nodes| - 1];
      MatchingKeepsAssignments(m, pool, lay, front);
      AssignExtends(MatchAll(m, pool, lay, front), pool, lay, nodes[|nodes| - 1]);
    }
  }

  predicate Matched(m: HostMap, pool: Pool, lay: Layout, node: Node) {
    Holder(At(pool, GroupOf(lay, node)), m, node.host).Some?
  }

  /** The node has its hardware, or its group has none left. */
  predicate Settled(m: HostMap, pool: Pool, lay: Layout, node: Node) {
    Choice(m, At(pool, GroupOf(lay, node)), node.host) == Holder(At(pool, GroupOf(lay, node)), m, node.host)
  }

  lemma SettledAssign(m: HostMap, pool: Pool, lay: Layout, node: Node)
    ensures Settled(m, pool, lay, node) ==> Assign(m, pool, lay, node) == m
    ensures Settled(Assign(m, pool, lay, node), pool, lay, node)
  {
    var ids := At(pool, GroupOf(lay, node));
    var n := Assign(m, pool, lay, node);
    HolderHolds(ids, m, node.host);
    FirstFreeIsFree(ids, m);
    HolderHolds(ids, n, node.host);
    FirstFreeIsFree(ids, n);
  }

  lemma SettledStays(m: HostMap, n: HostMap, pool: Pool, lay: Layout, node: Node)
    requires Settled(m, pool, lay, node) && Extends(m, n)
    ensures Settled(n, pool, lay, node)
    ensures Matched(m, pool, lay, node) ==> Matched(n, pool, lay, node)
  {
    var ids := At(pool, GroupOf(lay, node));
    HolderHolds(ids, m, node.host);
    FirstFreeIsFree(ids, m);
    HolderHolds(ids, n, node.host);
    FirstFreeIsFree(ids, n);
  }

  lemma {:induction false} AllSettled(m: HostMap, pool: Pool, lay: Layout, nodes: seq<Node>, j: nat)
    requires j < |nodes|
    ensures Settled(MatchAll(m, pool, lay, nodes), pool, lay, nodes[j])
  {
    var last := |nodes| - 1;
    var before := MatchAll(m, pool, lay, nodes[..last]);
    SettledAssign(before, pool, lay, nodes[last]);
    if j < last {
      AllSettled(m, pool, lay, nodes[..last], j);
      AssignExtends(before, pool, lay, nodes[last]);
      SettledStays(before, MatchAll(m, pool, lay, nodes), pool, lay, nodes[j]);
    }
  }

  lemma {:induction false} RerunUpTo(m: HostMap, pool: Pool, lay: Layout, nodes: seq<Node>, k: nat, n: nat)
    requires n <= k <= |nodes|
    ensures var partial := MatchAll(m, pool, lay, nodes[..k]);
      MatchAll(partial, pool, lay, nodes[..n]) == partial
  {
    if n > 0 {
      var partial := MatchAll(m, pool, lay, nodes[..k]);
      AllSettled(m, pool, lay, nodes[..k], n - 1);
      hide *;
      SettledAssign(partial, pool, lay, nodes[n - 1]);
      RerunUpTo(m, pool, lay, nodes, k, n - 1);
      MatchSnoc(partial, pool, lay, nodes, n - 1);
    }
  }

  lemma {:induction false} RerunBeyond(m: HostMap, pool: Pool, lay: Layout, nodes: seq<Node>, k: nat, n: nat)
    requires k <= n <= |nodes|
    ensures MatchAll(MatchAll(m, pool, lay, nodes[..k]), pool, lay, nodes[..n]) == MatchAll(m, pool, lay, nodes[..n])
  {
    hide *;
    if n == k {
      RerunUpTo(m, pool, lay, nodes, k, n);
    } else {
      RerunBeyond(m, pool, lay, nodes, k, n - 1);
      MatchSnoc(MatchAll(m, pool, lay, nodes[..k]), pool, lay, nodes, n - 1);
      MatchSnoc(m, pool, lay, nodes, n - 1);
    }
  }

  /** Stopping after any node and matching again from the beginning, on the same hardware,
      ends in exactly the map of the uninterrupted run. */
  lemma RerunCompletesTheMatching(m: HostMap, pool: Pool, lay: Layout, nodes: seq<Node>, k: nat)
    requires k <= |nodes|
    ensures MatchAll(MatchAll(m, pool, lay, nodes[..k]), pool, lay, nodes) == MatchAll(m, pool, lay, nodes)
  {
    RerunBeyond(m, pool, lay, nodes, k, |nodes|);
    assert nodes[..|nodes|] == nodes;
  }

  // ---------------------------------------------------------------- one hardware node per host

  predicate Injective(m: HostMap) {
    forall a, b :: a in m && b in m && m[a] == m[b] ==> a == b
  }

  predicate DistinctHosts(nodes: seq<Node>) {
    forall i, j :: 0 <= i < j < |nodes| ==> nodes[i].host != nodes[j].host
  }

  /** Hardware that was given to a rendered host is still there, in the group of the host. */
  predicate AtHome(m: HostMap, pool: Pool, lay: Layout, nodes: seq<Node>) {
    forall id, i :: id in m && 0 <= i < |nodes| && m[id] == nodes[i].host ==>
      exists h :: h in At(pool, GroupOf(lay, nodes[i])) && h.id == id
  }

  lemma AssignStaysInjective(m: HostMap, pool: Pool, lay: Layout, nodes: seq<Node>, i: nat)
    requires i < |nodes| && Injective(m) && DistinctHosts(nodes) && AtHome(m, pool, lay, nodes)
    ensures Injective(Assign(m, pool, lay, nodes[i])) && AtHome(Assign(m, pool, lay, nodes[i]), pool, lay, nodes)
  {
    var ids := At(pool, GroupOf(lay, nodes[i]));
    HolderHolds(ids, m, nodes[i].host);
    FirstFreeIsFree(ids, m);
  }

  lemma {:induction false} MatchingUpToStaysInjective(
    m: HostMap, pool: Pool, lay: Layout, nodes: seq<Node>, n: nat)
    requires n <= |nodes| && Injective(m) && DistinctHosts(nodes) && AtHome(m, pool, lay, nodes)
    ensures Injective(MatchAll(m, pool, lay, nodes[..n])) && AtHome(MatchAll(m, pool, lay, nodes[..n]), pool, lay, nodes)
  {
    if n > 0 {
      MatchingUpToStaysInjective(m, pool, lay, nodes, n - 1);
      assert nodes[..n][..n - 1] == nodes[..n - 1];
      AssignStaysInjective(MatchAll(m, pool, lay, nodes[..n - 1]), pool, lay, nodes, n - 1);
    }
  }

  /** No host gets two hardware nodes, and no hardware node goes to two hosts. */
  lemma MatchingStaysInjective(m: HostMap, pool: Pool, lay: Layout, nodes: seq<Node>)
    requires Injective(m) && DistinctHosts(nodes) && AtHome(m, pool, lay, nodes)
    ensures Injective(MatchAll(m, pool, lay, nodes)) && AtHome(MatchAll(m, pool, lay, nodes), pool, lay, nodes)
  {
    MatchingUpToStaysInjective(m, pool, lay, nodes, |nodes|);
    assert nodes[..|nodes|] == nodes;
  }

  /** Without that assumption a host can end with two: its hardware left the pool while the
      host was still rendered. */
  lemma HostWithTwoHardwareNodes()
    ensures var m: HostMap := map["gone" := "host"];
      var pool: Pool := map["g" := [Hardware("new", "g", true, true)]];
      var n := MatchAll(m, pool, Layout(map["host" := "g"], []), [Node("host", "worker")]);
      Injective(m) && n["gone"] == n["new"] == "host"
  {
    var m: HostMap := map["gone" := "host"];
    var pool: Pool := map["g" := [Hardware("new", "g", true, true)]];
    var lay := Layout(map["host" := "g"], []);
    var nodes := [Node("host", "worker")];
    assert nodes[..0] == [];
    assert MatchAll(m, pool, lay, nodes[..0]) == m;
    assert GroupOf(lay, nodes[0]) == "g";
    assert Choice(m, pool["g"], "host") == Some(Hardware("new", "g", true, true));
  }

  // ---------------------------------------------------------------- no node left unmatched

  /** The hosts of a group. */
  function HostsOf(lay: Layout, nodes: seq<Node>, g: string): set<string> {
    set i | 0 <= i < |nodes| && GroupOf(lay, nodes[i]) == g :: nodes[i].host
  }

  /** Every assignment of hardware of a group is to a rendered host of that group. */
  predicate Rendered(m: HostMap, pool: Pool, lay: Layout, nodes: seq<Node>, g: string) {
    forall k :: 0 <= k < |At(pool, g)| && At(pool, g)[k].id in m ==> m[At(pool, g)[k].id] in HostsOf(lay, nodes, g)
  }

  lemma {:induction false} AssignedHosts(m: HostMap, ids: seq<Hardware>) returns (hosts: set<string>)
    requires Injective(m) && DistinctIds(ids) && forall h :: h in ids ==> h.id in m
    ensures |hosts| == |ids| && forall host :: host in hosts <==> exists h :: h in ids && m[h.id] == host
  {
    if ids == [] {
      hosts := {};
    } else {
      var rest := AssignedHosts(m, ids[1..]);
      assert ids == [ids[0]] + ids[1..];
      hosts := rest + {m[ids[0].id]};
    }
  }

  /** As long as a host of the group waits, some hardware of the group is free. */
  lemma HardwareIsLeft(m: HostMap, pool: Pool, lay: Layout, nodes: seq<Node>, i: nat)
    requires i < |nodes| && Injective(m)
    requires var g := GroupOf(lay, nodes[i]);
      DistinctIds(At(pool, g)) && |At(pool, g)| >= |HostsOf(lay, nodes, g)| && Rendered(m, pool, lay, nodes, g)
    ensures Choice(m, At(pool, GroupOf(lay, nodes[i])), nodes[i].host).Some?
  {
    var g := GroupOf(lay, nodes[i]);
    var ids, host := At(pool, g), nodes[i].host;
    HolderHolds(ids, m, host);
    FirstFreeIsFree(ids, m);
    if Choice(m, ids, host).None? {
      var hosts := AssignedHosts(m, ids);
      assert host in HostsOf(lay, nodes, g) && host !in hosts;
      assert hosts <= HostsOf(lay, nodes, g) - {host};
      Cardinality(hosts, HostsOf(lay, nodes, g) - {host});
    }
  }

  lemma {:induction false} Cardinality(a: set<string>, b: set<string>)
    requires a <= b
    ensures |a| <= |b|
  {
    if a != {} {
      var x :| x in a;
      Cardinality(a - {x}, b - {x});
    }
  }

  lemma AssignStaysRendered(m: HostMap, pool: Pool, lay: Layout, nodes: seq<Node>, i: nat, g: string)
    requires i < |nodes| && Rendered(m, pool, lay, nodes, g) && DisjointGroups(pool)
    ensures Rendered(Assign(m, pool, lay, nodes[i]), pool, lay, nodes, g)
  {
    var ids := At(pool, GroupOf(lay, nodes[i]));
    HolderHolds(ids, m, nodes[i].host);
    FirstFreeIsFree(ids, m);
  }

  /** Every group is delivered in the size that the rendered nodes ask for, and what is
      already assigned is assigned within the group. */
  predicate Delivered(m: HostMap, pool: Pool, lay: Layout, nodes: seq<Node>) {
    forall i :: 0 <= i < |nodes| ==>
      var g := GroupOf(lay, nodes[i]);
      DistinctIds(At(pool, g)) && |At(pool, g)| >= |HostsOf(lay, nodes, g)| && Rendered(m, pool, lay, nodes, g)
  }

  lemma {:induction false} DeliveredUpTo(m: HostMap, pool: Pool, lay: Layout, nodes: seq<Node>, n: nat)
    requires n <= |nodes| && Injective(m) && DistinctHosts(nodes) && AtHome(m, pool, lay, nodes)
    requires DisjointGroups(pool) && Delivered(m, pool, lay, nodes)
    ensures Delivered(MatchAll(m, pool, lay, nodes[..n]), pool, lay, nodes)
  {
    if n > 0 {
      DeliveredUpTo(m, pool, lay, nodes, n - 1);
      hide Delivered, Assign, DisjointGroups;
      assert nodes[..n][..n - 1] == nodes[..n - 1];
      AssignStaysDelivered(MatchAll(m, pool, lay, nodes[..n - 1]), pool, lay, nodes, n - 1);
    }
  }

  lemma AssignStaysDelivered(m: HostMap, pool: Pool, lay: Layout, nodes: seq<Node>, n: nat)
    requires n < |nodes| && DisjointGroups(pool) && Delivered(m, pool, lay, nodes)
    ensures Delivered(Assign(m, pool, lay, nodes[n]), pool, lay, nodes)
  {
    hide Assign, Rendered, DisjointGroups, DistinctIds;
    forall i | 0 <= i < |nodes|
      ensures Rendered(Assign(m, pool, lay, nodes[n]), pool, lay, nodes, GroupOf(lay, nodes[i]))
    {
      AssignStaysRendered(m, pool, lay, nodes, n, GroupOf(lay, nodes[i]));
    }
  }

  /** Matching then leaves no node without hardware. */
  lemma {:induction false} NoNodeUnmatched(m: HostMap, pool: Pool, lay: Layout, nodes: seq<Node>, i: nat)
    requires i < |nodes| && Injective(m) && DistinctHosts(nodes) && AtHome(m, pool, lay, nodes)
    requires DisjointGroups(pool) && Delivered(m, pool, lay, nodes)
    ensures Matched(MatchAll(m, pool, lay, nodes), pool, lay, nodes[i])
  {
    var all := MatchAll(m, pool, lay, nodes);
    DeliveredUpTo(m, pool, lay, nodes, |nodes|);
    assert nodes[..|nodes|] == nodes;
    MatchingStaysInjective(m, pool, lay, nodes);
    AllSettled(m, pool, lay, nodes, i);
    HardwareIsLeft(all, pool, lay, nodes, i);
  }

  // ---------------------------------------------------------------- sizing the groups

  function RoleCount(nodes: seq<Node>, role: string): nat {
    if nodes == [] then 0
    else RoleCount(nodes[..|nodes| - 1], role) + if nodes[|nodes| - 1].role == role then 1 else 0
  }

  /** What a group is asked for: its hosts, or all nodes of its role in the legacy format. */
  function Size(lay: Layout, nodes: seq<Node>, group: NodeGroup): nat {
    if |lay.hostToGroup| > 0 then |InGroup(lay.hostToGroup.Keys, lay.hostToGroup, group.name)|
    else RoleCount(nodes, group.role)
  }

  function Count(m: map<string, nat>, key: string): nat {
    if key in m then m[key] else 0
  }

  method CountRoles(nodes: seq<Node>) returns (counts: map<string, nat>)
    ensures forall role :: Count(counts, role) == RoleCount(nodes, role)
  {
    counts := map[];
    for i := 0 to |nodes|
      invariant forall role :: Count(counts, role) == RoleCount(nodes[..i], role)
    {
      assert nodes[..i + 1][..i] == nodes[..i];
      counts := counts[nodes[i].role := Count(counts, nodes[i].role) + 1];
    }
    assert nodes[..|nodes|] == nodes;
  }

  function InGroup(hosts: set<string>, hostToGroup: map<string, string>, g: string): set<string> {
    set h | h in hosts && h in hostToGroup && hostToGroup[h] == g
  }

  lemma InGroupOneMore(seen: set<string>, hostToGroup: map<string, string>, host: string, g: string)
    requires host in hostToGroup && host !in seen
    ensures |InGroup(seen + {host}, hostToGroup, g)| ==
      |InGroup(seen, hostToGroup, g)| + if hostToGroup[host] == g then 1 else 0
  {
    var before, after := InGroup(seen, hostToGroup, g), InGroup(seen + {host}, hostToGroup, g);
    if hostToGroup[host] == g {
      assert after == before + {host};
    } else {
      assert after == before;
    }
  }

  lemma CountOneMore(counts: map<string, nat>, seen: set<string>, hostToGroup: map<string, string>, host: string)
    requires forall g :: Count(counts, g) == |InGroup(seen, hostToGroup, g)|
    requires host in hostToGroup && host !in seen
    ensures var g := hostToGroup[host];
      forall g' :: Count(counts[g := Count(counts, g) + 1], g') == |InGroup(seen + {host}, hostToGroup, g')|
  {
    var g := hostToGroup[host];
    forall g'
      ensures Count(counts[g := Count(counts, g) + 1], g') == |InGroup(seen + {host}, hostToGroup, g')|
    {
      InGroupOneMore(seen, hostToGroup, host, g');
    }
  }

  /** Counts hosts per group, in whatever order the map yields them. */
  method CountGroups(hostToGroup: map<string, string>) returns (counts: map<string, nat>)
    ensures forall g :: Count(counts, g) == |InGroup(hostToGroup.Keys, hostToGroup, g)|
  {
    counts := map[];
    var left := hostToGroup.Keys;
    ghost var seen: set<string> := {};
    while left != {}
      invariant left + seen == hostToGroup.Keys && left !! seen
      invariant forall g :: Count(counts, g) == |InGroup(seen, hostToGroup, g)|
      decreases |left|
    {
      var host :| host in left;
      CountOneMore(counts, seen, hostToGroup, host);
      counts := counts[hostToGroup[host] := Count(counts, hostToGroup[host]) + 1];
      left, seen := left - {host}, seen + {host};
    }
    assert seen == hostToGroup.Keys;
  }

  /** The sizes written to the allocation request. */
  method BuildGroupSizes(lay: Layout, nodes: seq<Node>) returns (sizes: seq<nat>)
    ensures |sizes| == |lay.groups|
    ensures forall k :: 0 <= k < |sizes| ==> sizes[k] == Size(lay, nodes, lay.groups[k])
  {
    var roleCounts := CountRoles(nodes);
    var groupSizes := CountGroups(lay.hostToGroup);
    sizes := [];
    for k := 0 to |lay.groups|
      invariant |sizes| == k
      invariant forall j :: 0 <= j < k ==> sizes[j] == Size(lay, nodes, lay.groups[j])
    {
      var group := lay.groups[k];
      sizes := sizes + [if |lay.hostToGroup| > 0 then Count(groupSizes, group.name) else Count(roleCounts, group.role)];
    }
  }

  predicate DistinctNames(groups: seq<NodeGroup>) {
    forall j, k :: 0 <= j < k < |groups| ==> groups[j].name != groups[k].name
  }

  predicate HasRole(groups: seq<NodeGroup>, role: string) {
    exists k :: 0 <= k < |groups| && groups[k].role == role
  }

  lemma {:induction false} RoleGroupHasRole(groups: seq<NodeGroup>, role: string) returns (k: nat)
    requires HasRole(groups, role)
    ensures k < |groups| && groups[k].name == RoleGroup(groups, role) && groups[k].role == role
  {
    if groups[0].role == role {
      k := 0;
    } else {
      var j :| 0 <= j < |groups| && groups[j].role == role;
      assert groups[1..][j - 1].role == role;
      k := RoleGroupHasRole(groups[1..], role);
      k := k + 1;
    }
  }

  predicate Hosts(nodes: seq<Node>, role: string, host: string) {
    Node(host, role) in nodes
  }

  lemma {:induction false} RoleCountCoversHosts(nodes: seq<Node>, role: string, hosts: set<string>)
    requires forall h :: h in hosts ==> Hosts(nodes, role, h)
    ensures |hosts| <= RoleCount(nodes, role)
  {
    if nodes == [] {
      assert hosts == {};
    } else {
      var front, last := nodes[..|nodes| - 1], nodes[|nodes| - 1];
      assert nodes == front + [last];
      var rest := if last.role == role then hosts - {last.host} else hosts;
      RoleCountCoversHosts(front, role, rest);
      assert |hosts| <= |rest| + if last.role == role then 1 else 0;
    }
  }

  /** Every rendered node belongs to a group that is asked for. */
  predicate Grouped(lay: Layout, nodes: seq<Node>) {
    && DistinctNames(lay.groups)
    && forall i :: 0 <= i < |nodes| ==>
         if |lay.hostToGroup| > 0
         then nodes[i].host in lay.hostToGroup &&
              exists k :: 0 <= k < |lay.groups| && lay.groups[k].name == lay.hostToGroup[nodes[i].host]
         else HasRole(lay.groups, nodes[i].role)
  }

  /** In both formats the computed size covers the hosts that will look for hardware. */
  lemma SizesCoverHosts(lay: Layout, nodes: seq<Node>, i: nat) returns (k: nat)
    requires Grouped(lay, nodes) && i < |nodes|
    ensures k < |lay.groups| && lay.groups[k].name == GroupOf(lay, nodes[i])
    ensures |HostsOf(lay, nodes, GroupOf(lay, nodes[i]))| <= Size(lay, nodes, lay.groups[k])
  {
    var g := GroupOf(lay, nodes[i]);
    if |lay.hostToGroup| > 0 {
      k :| 0 <= k < |lay.groups| && lay.groups[k].name == g;
      var asked := InGroup(lay.hostToGroup.Keys, lay.hostToGroup, g);
      Cardinality(HostsOf(lay, nodes, g), asked);
    } else {
      k := RoleGroupHasRole(lay.groups, nodes[i].role);
      forall h | h in HostsOf(lay, nodes, g)
        ensures Hosts(nodes, lay.groups[k].role, h)
      {
        var j :| 0 <= j < |nodes| && GroupOf(lay, nodes[j]) == g && nodes[j].host == h;
        var k' := RoleGroupHasRole(lay.groups, nodes[j].role);
        assert k' == k;
      }
      RoleCountCoversHosts(nodes, lay.groups[k].role, HostsOf(lay, nodes, g));
    }
  }

  /** If every group delivers the size computed from the rendered nodes, and what is already
      assigned is assigned within its group, then every node finds hardware, whether groups
      are found by host or by role. */
  lemma SizedDeliveryMatchesAll(m: HostMap, pool: Pool, lay: Layout, nodes: seq<Node>, i: nat)
    requires i < |nodes| && Grouped(lay, nodes) && DistinctHosts(nodes) && DisjointGroups(pool)
    requires Injective(m) && AtHome(m, pool, lay, nodes)
    requires forall k :: 0 <= k < |lay.groups| ==>
      var ids := At(pool, lay.groups[k].name);
      |ids| == Size(lay, nodes, lay.groups[k]) && DistinctIds(ids) && Rendered(m, pool, lay, nodes, lay.groups[k].name)
    ensures Matched(MatchAll(m, pool, lay, nodes), pool, lay, nodes[i])
  {
    forall j | 0 <= j < |nodes|
      ensures var g := GroupOf(lay, nodes[j]);
        DistinctIds(At(pool, g)) && |At(pool, g)| >= |HostsOf(lay, nodes, g)| && Rendered(m, pool, lay, nodes, g)
    {
      var k := SizesCoverHosts(lay, nodes, j);
    }
    NoNodeUnmatched(m, pool, lay, nodes, i);
  }

  // ---------------------------------------------------------------- the reconciler's own loops

  predicate NoSlash(s: string) {
    forall i :: 0 <= i < |s| ==> s[i] != '/'
  }

  function Key(group: string, host: string): string {
    group + "/" + host
  }

  lemma KeysAreDistinct(g: string, h: string, g': string, h': string)
    requires NoSlash(g) && NoSlash(g') && Key(g, h) == Key(g', h')
    ensures g == g' && h == h'
  {
    var k := Key(g, h);
    assert k[|g|] == '/' && k[|g'|] == '/';
    assert forall i :: 0 <= i < |g| ==> k[i] == g[i] && k[i] != '/';
    assert forall i :: 0 <= i < |g'| ==> k[i] == g'[i] && k[i] != '/';
    assert g == k[..|g|] == g' && h == k[|g| + 1..] == h';
  }

  function Find(m: map<string, Hardware>, key: string): Option<Hardware> {
    if key in m then Some(m[key]) else None
  }

  function Free(ids: seq<Hardware>, m: HostMap): seq<Hardware> {
    if ids == [] then []
    else Free(ids[..|ids| - 1], m) + if ids[|ids| - 1].id in m then [] else [ids[|ids| - 1]]
  }

  lemma HolderSnoc(ids: seq<Hardware>, x: Hardware, m: HostMap, host: string)
    ensures Holder(ids + [x], m, host) == if x.id in m && m[x.id] == host then Some(x) else Holder(ids, m, host)
  {
    assert (ids + [x])[..|ids + [x]| - 1] == ids;
  }

  /** The table `r` adds the held hardware of one group to `held`. */
  ghost predicate GroupHeld(r: map<string, Hardware>, held: map<string, Hardware>, g: string, ids: seq<Hardware>, m: HostMap) {
    && (forall h :: Find(r, Key(g, h)) == Holder(ids, m, h))
    && (forall g', h :: NoSlash(g') && g' != g ==> Find(r, Key(g', h)) == Find(held, Key(g', h)))
  }

  lemma GroupHeldSnoc(r: map<string, Hardware>, held: map<string, Hardware>, g: string, ids: seq<Hardware>, m: HostMap, x: Hardware)
    requires NoSlash(g) && GroupHeld(r, held, g, ids, m)
    ensures GroupHeld(if x.id in m then r[Key(g, m[x.id]) := x] else r, held, g, ids + [x], m)
  {
    var next := if x.id in m then r[Key(g, m[x.id]) := x] else r;
    forall h
      ensures Find(next, Key(g, h)) == Holder(ids + [x], m, h)
    {
      hide Key, NoSlash, Holder;
      HolderSnoc(ids, x, m, h);
      if x.id in m && Key(g, h) == Key(g, m[x.id]) {
        KeysAreDistinct(g, h, g, m[x.id]);
      }
    }
    forall g', h | NoSlash(g') && g' != g
      ensures Find(next, Key(g', h)) == Find(held, Key(g', h))
    {
      hide Key, NoSlash, Holder;
      if x.id in m && Key(g', h) == Key(g, m[x.id]) {
        KeysAreDistinct(g', h, g, m[x.id]);
      }
    }
  }

  /** One group of the classification: held hardware by host, the rest in order. */
  method ClassifyGroup(g: string, ids: seq<Hardware>, m: HostMap, held: map<string, Hardware>)
    returns (r: map<string, Hardware>, free: seq<Hardware>)
    requires NoSlash(g) && forall h :: Key(g, h) !in held
    ensures free == Free(ids, m) && GroupHeld(r, held, g, ids, m)
  {
    r, free := held, [];
    assert GroupHeld(r, held, g, ids[..0], m);
    hide Key, NoSlash, Holder, Find, GroupHeld;
    for i := 0 to |ids|
      invariant free == Free(ids[..i], m) && GroupHeld(r, held, g, ids[..i], m)
    {
      var ni := ids[i];
      assert ids[..i + 1] == ids[..i] + [ni];
      assert ids[..i + 1][..i] == ids[..i];
      GroupHeldSnoc(r, held, g, ids[..i], m, ni);
      if ni.id in m {
        r := r[Key(g, m[ni.id]) := ni];
      } else {
        free := free + [ni];
      }
    }
    assert ids[..|ids|] == ids;
  }

  predicate WellNamed(pool: Pool) {
    forall g :: g in pool ==> NoSlash(g) && DistinctIds(pool[g]) && forall h :: h in pool[g] ==> h.id != ""
  }

  ghost predicate HeldSoFar(held: map<string, Hardware>, pool: Pool, m: HostMap, left: set<string>) {
    forall g, h :: NoSlash(g) ==> Find(held, Key(g, h)) == if g in left then None else Holder(At(pool, g), m, h)
  }

  lemma HeldOneMore(held: map<string, Hardware>, r: map<string, Hardware>, pool: Pool, m: HostMap, left: set<string>, g: string)
    requires HeldSoFar(held, pool, m, left) && g in left && g in pool && GroupHeld(r, held, g, pool[g], m)
    ensures HeldSoFar(r, pool, m, left - {g})
  {
    forall g', h | NoSlash(g')
      ensures Find(r, Key(g', h)) == if g' in left - {g} then None else Holder(At(pool, g'), m, h)
    {
      assert g' != g ==> Find(r, Key(g', h)) == Find(held, Key(g', h));
    }
  }

  /** Splits the hardware into held and free. The groups come in any order. */
  method Classify(pool: Pool, m: HostMap) returns (held: map<string, Hardware>, free: map<string, seq<Hardware>>)
    requires WellNamed(pool)
    ensures forall g :: At(free, g) == Free(At(pool, g), m)
    ensures forall g, h :: NoSlash(g) ==> Find(held, Key(g, h)) == Holder(At(pool, g), m, h)
  {
    held, free := map[], map[];
    var left := pool.Keys;
    while left != {}
      invariant left <= pool.Keys && left !! free.Keys
      invariant forall g :: g !in left ==> At(free, g) == Free(At(pool, g), m)
      invariant HeldSoFar(held, pool, m, left)
      decreases |left|
    {
      var g :| g in left;
      var ids;
      assert forall h :: Find(held, Key(g, h)).None?;
      ghost var before := held;
      held, ids := ClassifyGroup(g, pool[g], m, held);
      HeldOneMore(before, held, pool, m, left, g);
      free := free[g := ids];
      left := left - {g};
    }
  }

  lemma {:induction false} FreeHead(ids: seq<Hardware>, m: HostMap)
    ensures FirstFree(ids, m) == if Free(ids, m) == [] then None else Some(Free(ids, m)[0])
  {
    if ids != [] {
      var front := ids[..|ids| - 1];
      FreeHead(front, m);
      FirstFreeSnoc(front, ids[|ids| - 1], m);
      assert ids == front + [ids[|ids| - 1]];
    }
  }

  lemma {:induction false} FirstFreeSnoc(ids: seq<Hardware>, x: Hardware, m: HostMap)
    ensures FirstFree(ids + [x], m) ==
      if FirstFree(ids, m).Some? then FirstFree(ids, m) else if x.id in m then None else Some(x)
  {
    if ids != [] {
      assert (ids + [x])[1..] == ids[1..] + [x];
      FirstFreeSnoc(ids[1..], x, m);
    }
  }

  lemma {:induction false} FreeAfter(ids: seq<Hardware>, m: HostMap, id: string, host: string)
    requires DistinctIds(ids)
    ensures Free(ids, m) != [] && Free(ids, m)[0].id == id ==> Free(ids, m[id := host]) == Free(ids, m)[1..]
    ensures (forall h :: h in ids ==> h.id != id) || id in m ==> Free(ids, m[id := host]) == Free(ids, m)
  {
    if ids != [] {
      var front, last := ids[..|ids| - 1], ids[|ids| - 1];
      FreeAfter(front, m, id, host);
      if Free(front, m) == [] && Free(ids, m) != [] && Free(ids, m)[0].id == id {
        assert forall h :: h in front ==> h.id != id;
      } else if Free(front, m) != [] && Free(front, m)[0].id == id {
        FreeIsMember(front, m, 0);
      }
    }
  }

  lemma {:induction false} FreeIsMember(ids: seq<Hardware>, m: HostMap, k: nat)
    requires k < |Free(ids, m)|
    ensures Free(ids, m)[k] in ids && Free(ids, m)[k].id !in m
  {
    var front := ids[..|ids| - 1];
    if k < |Free(front, m)| {
      FreeIsMember(front, m, k);
    }
  }

  /** Giving hardware to one host leaves the holder of any other host alone. */
  lemma {:induction false} HolderElsewhere(ids: seq<Hardware>, m: HostMap, id: string, to: string, host: string)
    requires host != to && (id in m ==> m[id] == to)
    ensures Holder(ids, m[id := to], host) == Holder(ids, m, host)
  {
    if ids != [] {
      HolderElsewhere(ids[..|ids| - 1], m, id, to, host);
    }
  }

  lemma {:induction false} HolderAfter(ids: seq<Hardware>, m: HostMap, h: Hardware, host: string)
    requires h in ids && DistinctIds(ids) && Choice(m, ids, host) == Some(h)
    ensures Holder(ids, m[h.id := host], host) == Some(h)
  {
    HolderHolds(ids, m, host);
    FirstFreeIsFree(ids, m);
    var n := m[h.id := host];
    HolderHolds(ids, n, host);
    if Holder(ids, m, host).Some? {
      assert n == m;
    }
  }

  function Ids(pool: Pool, lay: Layout, node: Node): seq<Hardware> {
    At(pool, GroupOf(lay, node))
  }

  predicate Inputs(pool: Pool, lay: Layout, nodes: seq<Node>) {
    WellNamed(pool) && DisjointGroups(pool) && NamedNodes(lay, nodes)
  }

  /** The tables of the loop, built once, still agree with the map as it is now. */
  ghost predicate Tables(held: map<string, Hardware>, free: map<string, seq<Hardware>>,
                         pool: Pool, lay: Layout, m: HostMap, nodes: seq<Node>, i: nat) {
    && (forall g :: At(free, g) == Free(At(pool, g), m))
    && (forall j :: i <= j < |nodes| ==>
          Find(held, Key(GroupOf(lay, nodes[j]), nodes[j].host)) == Holder(Ids(pool, lay, nodes[j]), m, nodes[j].host))
  }

  lemma OtherGroupsLack(pool: Pool, g: string, x: Hardware, g': string)
    requires DisjointGroups(pool) && x in At(pool, g) && g' != g
    ensures forall h :: h in At(pool, g') ==> h.id != x.id
  {
  }

  lemma FreeHere(ids: seq<Hardware>, m: HostMap, host: string)
    requires DistinctIds(ids) && Free(ids, m) != []
    ensures Free(ids, m[Free(ids, m)[0].id := host]) == Free(ids, m)[1..]
  {
    FreeAfter(ids, m, Free(ids, m)[0].id, host);
  }

  lemma FreeElsewhere(ids: seq<Hardware>, m: HostMap, id: string, host: string)
    requires DistinctIds(ids) && forall h :: h in ids ==> h.id != id
    ensures Free(ids, m[id := host]) == Free(ids, m)
  {
    FreeAfter(ids, m, id, host);
  }

  lemma FreeAfterTaking(free: map<string, seq<Hardware>>, pool: Pool, m: HostMap, g: string, host: string, g': string)
    requires WellNamed(pool) && DisjointGroups(pool) && At(free, g) != []
    requires At(free, g) == Free(At(pool, g), m) && At(free, g') == Free(At(pool, g'), m)
    ensures At(free[g := At(free, g)[1..]], g') == Free(At(pool, g'), m[At(free, g)[0].id := host])
  {
    hide Free;
    if g' == g {
      FreeHere(At(pool, g), m, host);
    } else {
      FreeIsMember(At(pool, g), m, 0);
      OtherGroupsLack(pool, g, At(free, g)[0], g');
      hide DisjointGroups;
      FreeElsewhere(At(pool, g'), m, At(free, g)[0].id, host);
    }
  }

  lemma HeldAfter(held: map<string, Hardware>, pool: Pool, lay: Layout, m: HostMap, nodes: seq<Node>, i: nat, id: string)
    requires i < |nodes| && DistinctHosts(nodes) && (id in m ==> m[id] == nodes[i].host)
    requires forall j :: i <= j < |nodes| ==>
      Find(held, Key(GroupOf(lay, nodes[j]), nodes[j].host)) == Holder(Ids(pool, lay, nodes[j]), m, nodes[j].host)
    ensures forall j :: i < j < |nodes| ==>
      Find(held, Key(GroupOf(lay, nodes[j]), nodes[j].host)) ==
      Holder(Ids(pool, lay, nodes[j]), m[id := nodes[i].host], nodes[j].host)
  {
    forall j | i < j < |nodes|
      ensures Find(held, Key(GroupOf(lay, nodes[j]), nodes[j].host)) ==
        Holder(Ids(pool, lay, nodes[j]), m[id := nodes[i].host], nodes[j].host)
    {
      HolderElsewhere(Ids(pool, lay, nodes[j]), m, id, nodes[i].host, nodes[j].host);
    }
  }

  /** The hardware of every node handled so far. */
  ghost predicate Placed(out: seq<Option<Hardware>>, pool: Pool, lay: Layout, m: HostMap, nodes: seq<Node>) {
    |out| <= |nodes| && forall j :: 0 <= j < |out| ==> out[j] == Holder(Ids(pool, lay, nodes[j]), m, nodes[j].host)
  }

  lemma ChoiceFits(ids: seq<Hardware>, m: HostMap, host: string, h: Hardware)
    requires Choice(m, ids, host) == Some(h)
    ensures h in ids && (h.id in m ==> m[h.id] == host)
  {
    HolderHolds(ids, m, host);
    FirstFreeIsFree(ids, m);
  }

  lemma PlacedAfter(out: seq<Option<Hardware>>, pool: Pool, lay: Layout, m: HostMap, nodes: seq<Node>, h: Hardware)
    requires |out| < |nodes| && Placed(out, pool, lay, m, nodes) && DistinctHosts(nodes) && WellNamed(pool)
    requires Choice(m, Ids(pool, lay, nodes[|out|]), nodes[|out|].host) == Some(h)
    ensures Placed(out + [Some(h)], pool, lay, m[h.id := nodes[|out|].host], nodes)
  {
    var node := nodes[|out|];
    var ids := Ids(pool, lay, node);
    ChoiceFits(ids, m, node.host, h);
    HolderAfter(ids, m, h, node.host);
    hide Choice, Holder;
    forall j | 0 <= j < |out|
      ensures out[j] == Holder(Ids(pool, lay, nodes[j]), m[h.id := node.host], nodes[j].host)
    {
      HolderElsewhere(Ids(pool, lay, nodes[j]), m, h.id, node.host, nodes[j].host);
    }
  }

  /** Looks a node up in the tables and takes its hardware out of them. */
  method Resolve(held: map<string, Hardware>, free: map<string, seq<Hardware>>,
                 pool: Pool, lay: Layout, ghost m: HostMap, nodes: seq<Node>, i: nat)
    returns (choice: Option<Hardware>, rest: map<string, seq<Hardware>>)
    requires i < |nodes| && Inputs(pool, lay, nodes) && Tables(held, free, pool, lay, m, nodes, i)
    ensures choice == Choice(m, Ids(pool, lay, nodes[i]), nodes[i].host)
    ensures Tables(held, rest, pool, lay, if choice.None? then m else m[choice.value.id := nodes[i].host], nodes, i + 1)
  {
    var node := nodes[i];
    var g := GroupOf(lay, node);
    FreeHead(At(pool, g), m);
    HolderHolds(At(pool, g), m, node.host);
    FirstFreeIsFree(At(pool, g), m);
    choice, rest := Find(held, Key(g, node.host)), free;
    if choice.Some? {
      HeldAfter(held, pool, lay, m, nodes, i, choice.value.id);
      assert m[choice.value.id := node.host] == m;
    } else if At(free, g) != [] {
      choice := Some(At(free, g)[0]);
      HeldAfter(held, pool, lay, m, nodes, i, choice.value.id);
      forall g'
        ensures At(free[g := At(free, g)[1..]], g') == Free(At(pool, g'), m[choice.value.id := node.host])
      {
        FreeAfterTaking(free, pool, m, g, node.host, g');
      }
      rest := free[g := At(free, g)[1..]];
    }
  }

  lemma ChoiceIsNamed(pool: Pool, lay: Layout, m: HostMap, node: Node, h: Hardware)
    requires WellNamed(pool) && Choice(m, Ids(pool, lay, node), node.host) == Some(h)
    ensures h.id != ""
  {
    ChoiceFits(Ids(pool, lay, node), m, node.host, h);
  }

  lemma PlacedNone(out: seq<Option<Hardware>>, pool: Pool, lay: Layout, m: HostMap, nodes: seq<Node>)
    requires |out| < |nodes| && Placed(out, pool, lay, m, nodes)
    requires Choice(m, Ids(pool, lay, nodes[|out|]), nodes[|out|].host).None?
    ensures Placed(out + [None], pool, lay, m, nodes)
  {
  }

  lemma MatchNone(m: HostMap, pool: Pool, lay: Layout, nodes: seq<Node>)
    ensures MatchAll(m, pool, lay, nodes[..0]) == m
  {
  }

  lemma PlacedNothing(pool: Pool, lay: Layout, m: HostMap, nodes: seq<Node>)
    ensures Placed([], pool, lay, m, nodes)
  {
  }

  lemma MatchSnoc(m: HostMap, pool: Pool, lay: Layout, nodes: seq<Node>, i: nat)
    requires i < |nodes|
    ensures MatchAll(m, pool, lay, nodes[..i + 1]) == Assign(MatchAll(m, pool, lay, nodes[..i]), pool, lay, nodes[i])
  {
    assert nodes[..i + 1][..i] == nodes[..i];
  }

  lemma MatchOneMore(m: HostMap, pool: Pool, lay: Layout, nodes: seq<Node>, i: nat)
    requires i < |nodes|
    ensures var n := MatchAll(m, pool, lay, nodes[..i]);
      var choice := Choice(n, Ids(pool, lay, nodes[i]), nodes[i].host);
      MatchAll(m, pool, lay, nodes[..i + 1]) == if choice.None? then n else n[choice.value.id := nodes[i].host]
  {
    hide MatchAll;
    MatchSnoc(m, pool, lay, nodes, i);
  }

  ghost predicate AllSome(out: seq<Option<Hardware>>) {
    forall j :: 0 <= j < |out| ==> out[j].Some?
  }

  /** Only hardware with a boot interface is given out. */
  ghost predicate AllBoot(out: seq<Option<Hardware>>) {
    forall j :: 0 <= j < |out| && out[j].Some? ==> out[j].value.hasBootMac
  }

  lemma AllSomeSnoc(out: seq<Option<Hardware>>, x: Option<Hardware>)
    ensures AllSome(out + [x]) <==> AllSome(out) && x.Some?
  {
    var r := out + [x];
    assert r[|out|] == x;
    assert forall j :: 0 <= j < |out| ==> r[j] == out[j];
  }

  method BuildTables(pool: Pool, lay: Layout, m: HostMap, nodes: seq<Node>)
    returns (held: map<string, Hardware>, free: map<string, seq<Hardware>>)
    requires Inputs(pool, lay, nodes)
    ensures Tables(held, free, pool, lay, m, nodes, 0)
  {
    held, free := Classify(pool, m);
  }

  /** The hardware for the node has no boot interface. */
  predicate NoBootMac(pool: Pool, lay: Layout, m: HostMap, node: Node) {
    var choice := Choice(m, At(pool, GroupOf(lay, node)), node.host);
    choice.Some? && !choice.value.hasBootMac
  }

  lemma ChosenWithoutBootMac(pool: Pool, lay: Layout, m: HostMap, node: Node, hw: Hardware)
    requires Choice(m, Ids(pool, lay, node), node.host) == Some(hw)
    ensures !hw.hasBootMac ==> NoBootMac(pool, lay, m, node)
  {
  }

  datatype Outcome = Complete | Unmatched | Stopped

  class Request {
    var hostMap: HostMap
    var persisted: HostMap
    /** Whether a write or a labelling has failed. */
    ghost var failed: bool

    constructor (m: HostMap)
      ensures hostMap == persisted == m && !failed
    {
      hostMap, persisted, failed := m, m, false;
    }

    /** Records one assignment. The write may fail, and may take effect although it is
        reported as failed. */
    method UpdateHostMap(id: string, host: string) returns (ok: bool)
      requires persisted == hostMap
      modifies this
      ensures hostMap == if id == "" || host == "" then old(hostMap) else old(hostMap)[id := host]
      ensures ok ==> persisted == hostMap
      ensures !ok ==> persisted == hostMap || persisted == old(hostMap)
      ensures failed == (old(failed) || !ok)
    {
      if id == "" || host == "" || (id in hostMap && hostMap[id] == host) {
        return true;
      }
      hostMap := hostMap[id := host];
      var applied: bool := *;
      ok := *;
      ok := ok && applied;
      failed := failed || !ok;
      if applied {
        persisted := hostMap;
      }
    }

    /** Gives every node its hardware. However it ends, what is persisted is the matching of
        some prefix of the nodes; if it ran to the end, of all of them. */
    method ApplyNodeConfiguration(pool: Pool, lay: Layout, nodes: seq<Node>)
      returns (ghost done: nat, outcome: Outcome, out: seq<Option<Hardware>>)
      requires persisted == hostMap && Inputs(pool, lay, nodes)
      modifies this
      ensures done <= |nodes| && persisted == MatchAll(old(persisted), pool, lay, nodes[..done])
      ensures !outcome.Stopped? ==> done == |nodes| == |out| && Placed(out, pool, lay, persisted, nodes)
      ensures !outcome.Stopped? ==> (outcome.Complete? <==> AllSome(out))
      ensures AllBoot(out)
      ensures outcome.Stopped? && !failed ==> done < |nodes| && NoBootMac(pool, lay, persisted, nodes[done])
    {
      hide Tables, Placed, NoBootMac, Choice, DisjointGroups, MatchAll, WellNamed;
      var held, free := BuildTables(pool, lay, hostMap, nodes);
      out, outcome, done := [], Complete, 0;
      var i := 0;
      MatchNone(hostMap, pool, lay, nodes);
      PlacedNothing(pool, lay, hostMap, nodes);
      while i < |nodes|
        invariant i == done == |out| <= |nodes| && persisted == hostMap == MatchAll(old(hostMap), pool, lay, nodes[..done])
        invariant Tables(held, free, pool, lay, hostMap, nodes, done)
        invariant Placed(out, pool, lay, hostMap, nodes)
        invariant !outcome.Stopped? && (outcome.Complete? <==> AllSome(out)) && AllBoot(out)
      {
        var node := nodes[i];
        MatchOneMore(old(hostMap), pool, lay, nodes, i);
        ghost var before := hostMap;
        var choice;
        choice, free := Resolve(held, free, pool, lay, hostMap, nodes, i);
        AllSomeSnoc(out, choice);
        if choice.None? {
          PlacedNone(out, pool, lay, hostMap, nodes);
          outcome := Unmatched;
          out := out + [None];
        } else {
          var hw := choice.value;
          var labelled: bool := *;
          if !hw.hasBootMac || !labelled {
            ChosenWithoutBootMac(pool, lay, hostMap, node, hw);
            failed := failed || !labelled;
            outcome := Stopped;
            return;
          }
          ChoiceIsNamed(pool, lay, hostMap, node, hw);
          PlacedAfter(out, pool, lay, hostMap, nodes, hw);
          var ok := UpdateHostMap(hw.id, node.host);
          if !ok {
            if persisted != before {
              done := done + 1;
            }
            outcome := Stopped;
            return;
          }
          out := out + [Some(hw)];
        }
        i, done := i + 1, done + 1;
      }
    }

    /** The whole phase: an API list in any order, its groups, and the matching. */
    method ProvisionHardware(list: seq<Hardware>, lay: Layout, nodes: seq<Node>)
      returns (ghost done: nat, outcome: Outcome, out: seq<Option<Hardware>>)
      requires persisted == hostMap && NamedList(list) && NamedNodes(lay, nodes)
      modifies this
      ensures done <= |nodes| && persisted == MatchAll(old(persisted), PoolOf(list), lay, nodes[..done])
      ensures !outcome.Stopped? ==> done == |nodes| == |out| && Placed(out, PoolOf(list), lay, persisted, nodes)
      ensures !outcome.Stopped? ==> (outcome.Complete? <==> AllSome(out))
      ensures AllBoot(out) && ((exists h :: h in list && !h.hasBmc) ==> outcome.Stopped? && done == 0)
      ensures outcome.Stopped? && !failed ==>
        || (exists h :: h in list && !h.hasBmc)
        || (done < |nodes| && NoBootMac(PoolOf(list), lay, persisted, nodes[done]))
    {
      var pool := CollectNodeDetails(list);
      if pool.None? {
        return 0, Stopped, [];
      }
      NamesAreInputs(list, lay, nodes);
      done, outcome, out := ApplyNodeConfiguration(pool.value, lay, nodes);
    }
  }

  /** The listed hardware has distinct names, and no group name holds a slash. */
  predicate NamedList(list: seq<Hardware>) {
    DistinctIds(list) && forall h :: h in list ==> h.id != "" && NoSlash(h.group)
  }

  predicate NamedNodes(lay: Layout, nodes: seq<Node>) {
    DistinctHosts(nodes) && forall i :: 0 <= i < |nodes| ==> nodes[i].host != "" && NoSlash(GroupOf(lay, nodes[i]))
  }

  /** Distinct names in list and cluster are all that matching asks for. */
  lemma NamesAreInputs(list: seq<Hardware>, lay: Layout, nodes: seq<Node>)
    requires NamedList(list) && NamedNodes(lay, nodes)
    ensures Inputs(PoolOf(list), lay, nodes)
  {
    UniqueNamesInPool(list);
    forall g | g in PoolOf(list)
      ensures NoSlash(g) && forall h :: h in PoolOf(list)[g] ==> h.id != ""
    {
      var h :| h in SortBy(list, ById) && h.group == g;
      SortKeepsItems(list, h);
    }
  }
}
