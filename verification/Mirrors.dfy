/** Normalisation of image mirror sources and resolution of an image tag through them. */
module Mirrors {
  import opened Wrappers
  import opened Strings

  const NEVER: string := "NeverContactSource"

  datatype Source = Source(source: string, mirrors: seq<string>, policy: string)

  // ---------------------------------------------------------------- trimming

  predicate Space(c: char) {
    c in {' ', '\t', '\n', '\r', 11 as char, 12 as char}
  }

  function TrimLeft(s: string): string {
    if s != [] && Space(s[0]) then TrimLeft(s[1..]) else s
  }

  function TrimRight(s: string): string {
    if s != [] && Space(s[|s| - 1]) then TrimRight(s[..|s| - 1]) else s
  }

  function TrimSpace(s: string): string {
    TrimRight(TrimLeft(s))
  }

  function TrimSlash(s: string): string {
    if s != [] && s[|s| - 1] == '/' then s[..|s| - 1] else s
  }

  /** How a source or a mirror is cleaned: outer spaces, then one slash at the end. */
  function Trim(s: string): string {
    TrimSlash(TrimSpace(s))
  }

  lemma {:induction false} TrimLeftShape(s: string)
    ensures var t := TrimLeft(s);
      |t| <= |s| && t == s[|s| - |t|..] && (t == [] || !Space(t[0]))
  {
    if s != [] && Space(s[0]) {
      TrimLeftShape(s[1..]);
    }
  }

  lemma {:induction false} TrimRightShape(s: string)
    ensures var t := TrimRight(s);
      |t| <= |s| && t == s[..|t|] && (t == [] || !Space(t[|t| - 1]))
  {
    if s != [] && Space(s[|s| - 1]) {
      TrimRightShape(s[..|s| - 1]);
    }
  }

  lemma TrimSpaceShape(s: string)
    ensures var t := TrimSpace(s);
      |t| <= |s| && (t == [] || (!Space(t[0]) && !Space(t[|t| - 1])))
    ensures |TrimSpace(s)| == |s| ==> TrimSpace(s) == s
  {
    TrimLeftShape(s);
    TrimRightShape(TrimLeft(s));
  }

  lemma TrimShape(s: string)
    ensures |Trim(s)| <= |s| && (|Trim(s)| == |s| ==> Trim(s) == s)
  {
    TrimSpaceShape(s);
  }

  predicate Stable(s: string) {
    Trim(s) == s
  }

  /** The text that would be trimmed again: a slash at the end after a slash or a space. */
  predicate Ragged(s: string) {
    var t := TrimSpace(s);
    |t| >= 2 && t[|t| - 1] == '/' && (t[|t| - 2] == '/' || Space(t[|t| - 2]))
  }

  /** Trimming is final unless the text is ragged. */
  lemma TrimIsFinal(s: string)
    ensures Stable(Trim(s)) <==> !Ragged(s)
  {
    TrimSpaceShape(s);
    var t, u := TrimSpace(s), Trim(s);
    TrimLeftShape(u);
    TrimRightShape(TrimLeft(u));
    if !Ragged(s) && u != [] {
      assert u[0] == t[0];
      assert TrimLeft(u) == u && TrimRight(u) == u;
    }
    if Ragged(s) && t[|t| - 2] == '/' {
      assert TrimSpace(u) == u;
    }
  }

  // ---------------------------------------------------------------- merging

  /** Appends what is not there yet, in order. */
  function AddAll(r: seq<string>, s: seq<string>): seq<string> {
    if s == [] then r
    else
      var q := AddAll(r, s[..|s| - 1]);
      if s[|s| - 1] in q then q else q + [s[|s| - 1]]
  }

  function TrimAll(s: seq<string>): seq<string> {
    if s == [] then []
    else TrimAll(s[..|s| - 1]) + if Trim(s[|s| - 1]) == "" then [] else [Trim(s[|s| - 1])]
  }

  function Join(p: string, q: string): string {
    if q == NEVER then q else if p == "" then q else p
  }

  /** One more entry for a source that is already known. */
  function Absorb(known: Source, e: Source): Source {
    Source(known.source, AddAll(known.mirrors, TrimAll(e.mirrors)), Join(known.policy, e.policy))
  }

  /** What the entries say about the source `k`, continuing from `v`. */
  function View(v: Option<Source>, entries: seq<Source>, k: string): Option<Source> {
    if entries == [] then v
    else
      var before, e := View(v, entries[..|entries| - 1], k), entries[|entries| - 1];
      if k == "" || Trim(e.source) != k then before
      else Some(Absorb(if before.Some? then before.value else Source(k, [], ""), e))
  }

  function Sources(entries: seq<Source>): seq<string> {
    if entries == [] then []
    else Sources(entries[..|entries| - 1]) + [entries[|entries| - 1].source]
  }

  const Itself: string -> string := (s: string) => s

  function Keys(entries: seq<Source>): seq<string> {
    SortBy(AddAll([], TrimAll(Sources(entries))), Itself)
  }

  function Collect(keys: seq<string>, entries: seq<Source>): seq<Source> {
    if keys == [] then []
    else Collect(keys[..|keys| - 1], entries) +
         var v := View(None, entries, keys[|keys| - 1]); if v.None? then [] else [v.value]
  }

  /** One entry for every source, sorted by source. */
  function Normalize(entries: seq<Source>): seq<Source> {
    Collect(Keys(entries), entries)
  }

  lemma {:induction false} AddAllMembers(r: seq<string>, s: seq<string>, x: string)
    ensures x in AddAll(r, s) <==> x in r || x in s
  {
    if s != [] {
      AddAllMembers(r, s[..|s| - 1], x);
      assert s == s[..|s| - 1] + [s[|s| - 1]];
      AddAllMembers(r, s[..|s| - 1], s[|s| - 1]);
    }
  }

  predicate Distinct(s: seq<string>) {
    forall i, j :: 0 <= i < j < |s| ==> s[i] != s[j]
  }

  lemma {:induction false} AddAllDistinct(r: seq<string>, s: seq<string>)
    requires Distinct(r)
    ensures Distinct(AddAll(r, s))
  {
    if s != [] {
      AddAllDistinct(r, s[..|s| - 1]);
    }
  }

  /** Duplicates may be removed early. */
  lemma {:induction false} AddAllTwice(r: seq<string>, s: seq<string>, t: seq<string>)
    ensures AddAll(r, AddAll(s, t)) == AddAll(AddAll(r, s), t)
  {
    if t != [] {
      var front, z := t[..|t| - 1], t[|t| - 1];
      var q := AddAll(s, front);
      AddAllTwice(r, s, front);
      if z in q {
        AddAllMembers(s, front, z);
        AddAllMembers(r, s, z);
        AddAllMembers(AddAll(r, s), front, z);
      } else {
        assert (q + [z])[..|q|] == q;
      }
    }
  }

  lemma {:induction false} AddAllOfDistinct(s: seq<string>)
    requires Distinct(s)
    ensures AddAll([], s) == s
  {
    if s != [] {
      AddAllOfDistinct(s[..|s| - 1]);
      assert s == s[..|s| - 1] + [s[|s| - 1]];
    }
  }

  lemma JoinAssociative(p: string, q: string, r: string)
    ensures Join(Join(p, q), r) == Join(p, Join(q, r))
    ensures Join("", p) == p && Join(p, "") == p
    ensures Join(p, q) == NEVER <==> p == NEVER || q == NEVER
  {
  }

  // ---------------------------------------------------------------- what is said about one source

  function Merge(v: Option<Source>, w: Option<Source>): Option<Source> {
    if w.None? then v else if v.None? then w
    else Some(Source(v.value.source, AddAll(v.value.mirrors, w.value.mirrors), Join(v.value.policy, w.value.policy)))
  }

  lemma {:induction false} ViewMerges(v: Option<Source>, entries: seq<Source>, k: string)
    requires v.Some? ==> v.value.source == k
    ensures View(v, entries, k) == Merge(v, View(None, entries, k))
    ensures View(v, entries, k).Some? ==> View(v, entries, k).value.source == k
    decreases |entries|
  {
    if entries != [] {
      var front, e := entries[..|entries| - 1], entries[|entries| - 1];
      ViewMerges(v, front, k);
      ViewMerges(None, front, k);
      if v.Some? && k != "" && Trim(e.source) == k {
        var w, t := View(None, front, k), TrimAll(e.mirrors);
        if w.None? {
          AddAllTwice(v.value.mirrors, [], t);
          JoinAssociative(v.value.policy, "", e.policy);
        } else {
          AddAllTwice(v.value.mirrors, w.value.mirrors, t);
          JoinAssociative(v.value.policy, w.value.policy, e.policy);
        }
      }
    }
  }

  lemma {:induction false} ViewAppend(v: Option<Source>, a: seq<Source>, b: seq<Source>, k: string)
    ensures View(v, a + b, k) == View(View(v, a, k), b, k)
  {
    if b == [] {
      assert a + b == a;
    } else {
      ViewAppend(v, a, b[..|b| - 1], k);
      assert (a + b)[..|a + b| - 1] == a + b[..|b| - 1];
    }
  }

  predicate Says(e: Source, k: string) {
    k != "" && Trim(e.source) == k
  }

  lemma {:induction false} TrimAllMembers(s: seq<string>, x: string)
    ensures x in TrimAll(s) <==> x != "" && exists i :: 0 <= i < |s| && Trim(s[i]) == x
  {
    hide Trim;
    if s != [] {
      var front := s[..|s| - 1];
      TrimAllMembers(front, x);
      assert forall i :: 0 <= i < |front| ==> front[i] == s[i];
    }
  }

  /** A source is present exactly if an entry names it. */
  lemma {:induction false} ViewExists(entries: seq<Source>, k: string)
    ensures View(None, entries, k).Some? <==> exists i :: 0 <= i < |entries| && Says(entries[i], k)
  {
    if entries != [] {
      var front := entries[..|entries| - 1];
      ViewExists(front, k);
      assert forall i :: 0 <= i < |front| ==> front[i] == entries[i];
    }
  }

  /** A mirror is kept exactly if an entry for the source names it; none is kept twice. */
  lemma {:induction false} ViewMirrors(entries: seq<Source>, k: string, m: string)
    requires View(None, entries, k).Some?
    ensures Distinct(View(None, entries, k).value.mirrors)
    ensures m in View(None, entries, k).value.mirrors <==>
      exists i :: 0 <= i < |entries| && Says(entries[i], k) && m in TrimAll(entries[i].mirrors)
  {
    var front, e := entries[..|entries| - 1], entries[|entries| - 1];
    assert forall i :: 0 <= i < |front| ==> front[i] == entries[i];
    var before := View(None, front, k);
    if before.Some? {
      ViewMirrors(front, k, m);
    } else {
      ViewExists(front, k);
    }
    if Says(e, k) {
      var known := if before.Some? then before.value.mirrors else [];
      AddAllMembers(known, TrimAll(e.mirrors), m);
      AddAllDistinct(known, TrimAll(e.mirrors));
    }
  }

  /** Contact with the source is forbidden exactly if one of its entries forbids it. */
  lemma {:induction false} ViewPolicy(entries: seq<Source>, k: string)
    requires View(None, entries, k).Some?
    ensures View(None, entries, k).value.policy == NEVER <==>
      exists i :: 0 <= i < |entries| && Says(entries[i], k) && entries[i].policy == NEVER
  {
    var front, e := entries[..|entries| - 1], entries[|entries| - 1];
    assert forall i :: 0 <= i < |front| ==> front[i] == entries[i];
    if View(None, front, k).Some? {
      ViewPolicy(front, k);
    } else {
      ViewExists(front, k);
    }
  }

  // ---------------------------------------------------------------- the normalised list

  function Find(list: seq<Source>, k: string): Option<Source> {
    if list == [] then None
    else if list[|list| - 1].source == k then Some(list[|list| - 1])
    else Find(list[..|list| - 1], k)
  }

  lemma {:induction false} SourcesMembers(entries: seq<Source>, i: nat)
    requires i < |entries|
    ensures |Sources(entries)| == |entries| && Sources(entries)[i] == entries[i].source
  {
    if i < |entries| - 1 {
      SourcesMembers(entries[..|entries| - 1], i);
    } else if |entries| > 1 {
      SourcesMembers(entries[..|entries| - 1], 0);
    }
  }

  lemma SourcesLength(entries: seq<Source>)
    ensures |Sources(entries)| == |entries|
  {
    if entries != [] {
      SourcesMembers(entries, 0);
    }
  }

  lemma RawKeys(entries: seq<Source>, k: string)
    ensures Distinct(AddAll([], TrimAll(Sources(entries))))
    ensures k in AddAll([], TrimAll(Sources(entries))) <==> View(None, entries, k).Some?
  {
    var all := Sources(entries);
    AddAllDistinct([], TrimAll(all));
    AddAllMembers([], TrimAll(all), k);
    TrimAllMembers(all, k);
    ViewExists(entries, k);
    SourcesLength(entries);
    forall i | 0 <= i < |entries|
      ensures all[i] == entries[i].source
    {
      SourcesMembers(entries, i);
    }
  }

  lemma {:induction false} DistinctMultiset(s: seq<string>, x: string)
    requires Distinct(s)
    ensures multiset(s)[x] == if x in s then 1 else 0
  {
    if s != [] {
      var front := s[..|s| - 1];
      DistinctMultiset(front, x);
      assert s == front + [s[|s| - 1]];
    }
  }

  lemma KeysMembers(entries: seq<Source>, k: string)
    ensures k in Keys(entries) <==> View(None, entries, k).Some?
  {
    RawKeys(entries, k);
    var raw := AddAll([], TrimAll(Sources(entries)));
    SortBySorts(raw, Itself);
    assert k in multiset(raw) <==> k in multiset(Keys(entries));
  }

  /** Strictly increasing: sorted and without duplicates. */
  predicate Increasing(s: seq<string>) {
    forall i, j :: 0 <= i < j < |s| ==> Less(s[i], s[j])
  }

  lemma KeysIncrease(entries: seq<Source>)
    ensures Increasing(Keys(entries))
  {
    var raw, keys := AddAll([], TrimAll(Sources(entries))), Keys(entries);
    RawKeys(entries, "");
    SortBySorts(raw, Itself);
    forall i, j | 0 <= i < j < |keys|
      ensures Less(keys[i], keys[j])
    {
      LessTotal(keys[i], keys[j]);
      assert !Less(Itself(keys[j]), Itself(keys[i]));
      if keys[i] == keys[j] {
        DistinctMultiset(raw, keys[i]);
        TwiceInMultiset(keys, i, j);
      }
    }
  }

  lemma TwiceInMultiset(s: seq<string>, i: nat, j: nat)
    requires i < j < |s| && s[i] == s[j]
    ensures multiset(s)[s[i]] >= 2
  {
    assert s == s[..j] + s[j..];
    assert s[i] in s[..j] && s[i] in s[j..];
  }

  lemma {:induction false} CollectShape(keys: seq<string>, entries: seq<Source>, i: nat)
    requires forall k :: k in keys ==> View(None, entries, k).Some?
    ensures |Collect(keys, entries)| == |keys|
    ensures i < |keys| ==> Collect(keys, entries)[i] == View(None, entries, keys[i]).value
  {
    if keys != [] {
      CollectShape(keys[..|keys| - 1], entries, i);
    }
  }

  /** The list has one entry per key, in the order of the keys. */
  lemma NormalizeShape(entries: seq<Source>)
    ensures |Normalize(entries)| == |Keys(entries)|
    ensures forall i :: 0 <= i < |Keys(entries)| ==>
      Some(Normalize(entries)[i]) == View(None, entries, Keys(entries)[i]) && Normalize(entries)[i].source == Keys(entries)[i]
  {
    var keys := Keys(entries);
    forall k | k in keys
      ensures View(None, entries, k).Some?
    {
      KeysMembers(entries, k);
    }
    CollectShape(keys, entries, 0);
    forall i | 0 <= i < |keys|
      ensures Some(Normalize(entries)[i]) == View(None, entries, keys[i]) && Normalize(entries)[i].source == keys[i]
    {
      CollectShape(keys, entries, i);
      ViewMerges(None, entries, keys[i]);
      KeysMembers(entries, keys[i]);
    }
  }

  /** The result is sorted by source, without duplicates. It has an entry for exactly the
      sources that are named, with exactly the mirrors that are named for them, each once,
      and forbids contact exactly where one entry does. */
  lemma NormalizeMeans(entries: seq<Source>, i: nat)
    requires i < |Normalize(entries)|
    ensures var e := Normalize(entries)[i];
      && (forall j :: i < j < |Normalize(entries)| ==> Less(e.source, Normalize(entries)[j].source))
      && (exists j :: 0 <= j < |entries| && Says(entries[j], e.source))
      && Distinct(e.mirrors)
      && (forall m :: m in e.mirrors <==>
            exists j :: 0 <= j < |entries| && Says(entries[j], e.source) && m in TrimAll(entries[j].mirrors))
      && (e.policy == NEVER <==>
            exists j :: 0 <= j < |entries| && Says(entries[j], e.source) && entries[j].policy == NEVER)
  {
    NormalizeShape(entries);
    KeysIncrease(entries);
    var k := Keys(entries)[i];
    ViewExists(entries, k);
    ViewPolicy(entries, k);
    ViewMirrors(entries, k, "");
    forall m
      ensures m in Normalize(entries)[i].mirrors <==>
        exists j :: 0 <= j < |entries| && Says(entries[j], k) && m in TrimAll(entries[j].mirrors)
    {
      ViewMirrors(entries, k, m);
    }
  }

  lemma NormalizeIsComplete(entries: seq<Source>, j: nat) returns (i: nat)
    requires j < |entries| && Trim(entries[j].source) != ""
    ensures i < |Normalize(entries)| && Normalize(entries)[i].source == Trim(entries[j].source)
  {
    var k := Trim(entries[j].source);
    NormalizeShape(entries);
    assert Says(entries[j], k);
    ViewExists(entries, k);
    KeysMembers(entries, k);
    i :| 0 <= i < |Keys(entries)| && Keys(entries)[i] == k;
  }

  // ---------------------------------------------------------------- normalising again

  lemma {:induction false} FindShape(list: seq<Source>, k: string)
    ensures Find(list, k).Some? ==> Find(list, k).value in list && Find(list, k).value.source == k
    ensures Find(list, k).None? ==> forall e :: e in list ==> e.source != k
  {
    if list != [] {
      FindShape(list[..|list| - 1], k);
      assert list == list[..|list| - 1] + [list[|list| - 1]];
    }
  }

  lemma FindNormalized(entries: seq<Source>, k: string)
    ensures Find(Normalize(entries), k) == View(None, entries, k)
  {
    NormalizeShape(entries);
    KeysIncrease(entries);
    KeysMembers(entries, k);
    var n := Normalize(entries);
    FindShape(n, k);
    if Find(n, k).Some? {
      var i :| 0 <= i < |n| && n[i] == Find(n, k).value;
    } else {
      assert forall i :: 0 <= i < |n| ==> n[i] in n && Keys(entries)[i] != k;
    }
  }

  /** An entry that trimming leaves alone. */
  predicate Clean(e: Source) {
    e.source != "" && Stable(e.source) && Distinct(e.mirrors) && TrimAll(e.mirrors) == e.mirrors
  }

  predicate CleanList(list: seq<Source>) {
    (forall i :: 0 <= i < |list| ==> Clean(list[i])) &&
    (forall i, j :: 0 <= i < j < |list| ==> list[i].source != list[j].source)
  }

  lemma {:induction false} ViewOfCleanList(list: seq<Source>, k: string)
    requires CleanList(list)
    ensures View(None, list, k) == Find(list, k)
  {
    if list != [] {
      var front, e := list[..|list| - 1], list[|list| - 1];
      assert forall i :: 0 <= i < |front| ==> front[i] == list[i];
      ViewOfCleanList(front, k);
      assert Clean(e);
      if e.source == k {
        FindShape(front, k);
        AddAllOfDistinct(e.mirrors);
        JoinAssociative(e.policy, "", "");
      }
    }
  }

  lemma SameViewsSameList(a: seq<Source>, b: seq<Source>)
    requires forall k :: View(None, a, k) == View(None, b, k)
    ensures Normalize(a) == Normalize(b)
  {
    var x, y := AddAll([], TrimAll(Sources(a))), AddAll([], TrimAll(Sources(b)));
    forall k
      ensures multiset(x)[k] == multiset(y)[k]
    {
      RawKeys(a, k);
      RawKeys(b, k);
      DistinctMultiset(x, k);
      DistinctMultiset(y, k);
    }
    assert multiset(x) == multiset(y);
    SortForgetsOrder(x, y, Itself);
    NormalizeShape(a);
    NormalizeShape(b);
  }

  /** Normalising two lists first and together afterwards gives the same as normalising
      them together, provided no text is ragged. */
  lemma NormalizeConcat(a: seq<Source>, b: seq<Source>)
    requires CleanList(Normalize(a)) && CleanList(Normalize(b))
    ensures Normalize(Normalize(a) + Normalize(b)) == Normalize(a + b)
  {
    forall k
      ensures View(None, Normalize(a) + Normalize(b), k) == View(None, a + b, k)
    {
      ViewAppend(None, a, b, k);
      ViewAppend(None, Normalize(a), Normalize(b), k);
      ViewOfCleanList(Normalize(a), k);
      ViewOfCleanList(Normalize(b), k);
      FindNormalized(a, k);
      FindNormalized(b, k);
      ViewMerges(None, a, k);
      ViewMerges(View(None, a, k), b, k);
      ViewMerges(View(None, a, k), Normalize(b), k);
    }
    SameViewsSameList(Normalize(a) + Normalize(b), a + b);
  }

  // ---------------------------------------------------------------- when it is idempotent

  /** No source, and no mirror of a source, has an end that one trimming leaves ragged. */
  predicate Tidy(entries: seq<Source>) {
    forall i :: 0 <= i < |entries| && Trim(entries[i].source) != "" ==>
      !Ragged(entries[i].source) && TidyMirrors(entries[i].mirrors)
  }

  predicate TidyMirrors(s: seq<string>) {
    forall j :: 0 <= j < |s| && Trim(s[j]) != "" ==> !Ragged(s[j])
  }

  lemma {:induction false} TrimAllStable(s: seq<string>)
    requires forall i :: 0 <= i < |s| ==> s[i] != "" && Stable(s[i])
    ensures TrimAll(s) == s
  {
    if s != [] {
      TrimAllStable(s[..|s| - 1]);
      assert s == s[..|s| - 1] + [s[|s| - 1]];
    }
  }

  predicate StableEntry(e: Source) {
    e.source != "" && Stable(e.source) && forall m :: m in e.mirrors ==> m != "" && Stable(m)
  }

  lemma StableEntryIsClean(entries: seq<Source>, i: nat)
    requires i < |Normalize(entries)| && StableEntry(Normalize(entries)[i])
    ensures Clean(Normalize(entries)[i])
  {
    hide Trim;
    var e := Normalize(entries)[i];
    NormalizeMeans(entries, i);
    assert forall j :: 0 <= j < |e.mirrors| ==> e.mirrors[j] in e.mirrors;
    TrimAllStable(e.mirrors);
  }

  lemma NormalizedSourcesDiffer(entries: seq<Source>, i: nat, j: nat)
    requires i < j < |Normalize(entries)|
    ensures Normalize(entries)[i].source != Normalize(entries)[j].source
  {
    NormalizeMeans(entries, i);
    LessAsymmetric(Normalize(entries)[i].source, Normalize(entries)[j].source);
  }

  lemma StableListIsClean(entries: seq<Source>)
    requires forall i :: 0 <= i < |Normalize(entries)| ==> StableEntry(Normalize(entries)[i])
    ensures CleanList(Normalize(entries))
  {
    hide Normalize, StableEntry, Clean;
    var n := Normalize(entries);
    forall i | 0 <= i < |n|
      ensures Clean(n[i])
    {
      StableEntryIsClean(entries, i);
    }
    forall i, j | 0 <= i < j < |n|
      ensures n[i].source != n[j].source
    {
      NormalizedSourcesDiffer(entries, i, j);
    }
  }

  /** The entries of the result are stable exactly if the input is tidy. */
  lemma TidyMakesStable(entries: seq<Source>, i: nat)
    requires Tidy(entries) && i < |Normalize(entries)|
    ensures StableEntry(Normalize(entries)[i])
  {
    NormalizeMeans(entries, i);
    var e := Normalize(entries)[i];
    var j :| 0 <= j < |entries| && Says(entries[j], e.source);
    TrimIsFinal(entries[j].source);
    forall m | m in e.mirrors
      ensures m != "" && Stable(m)
    {
      var l :| 0 <= l < |entries| && Says(entries[l], e.source) && m in TrimAll(entries[l].mirrors);
      TrimAllMembers(entries[l].mirrors, m);
      var x :| 0 <= x < |entries[l].mirrors| && Trim(entries[l].mirrors[x]) == m;
      TrimIsFinal(entries[l].mirrors[x]);
    }
  }

  lemma StableMakesTidy(entries: seq<Source>)
    requires forall i :: 0 <= i < |Normalize(entries)| ==> StableEntry(Normalize(entries)[i])
    ensures Tidy(entries)
  {
    forall j | 0 <= j < |entries| && Trim(entries[j].source) != ""
      ensures !Ragged(entries[j].source) && TidyMirrors(entries[j].mirrors)
    {
      var i := NormalizeIsComplete(entries, j);
      var e := Normalize(entries)[i];
      assert StableEntry(e) && Says(entries[j], e.source);
      TrimIsFinal(entries[j].source);
      NormalizeMeans(entries, i);
      forall x | 0 <= x < |entries[j].mirrors| && Trim(entries[j].mirrors[x]) != ""
        ensures !Ragged(entries[j].mirrors[x])
      {
        var m := Trim(entries[j].mirrors[x]);
        TrimAllMembers(entries[j].mirrors, m);
        assert m in e.mirrors;
        TrimIsFinal(entries[j].mirrors[x]);
      }
    }
  }

  function Bound(s: seq<string>): nat
    ensures forall x :: x in s ==> |x| <= Bound(s)
  {
    if s == [] then 0
    else
      assert s == [s[0]] + s[1..];
      if |s[0]| > Bound(s[1..]) then |s[0]| else Bound(s[1..])
  }

  /** If trimming reaches every text of a list from within the list, it changes none: an
      unstable text would come from a longer unstable one. */
  lemma {:induction false} ReachedIsStable(s: seq<string>, x: string)
    requires x in s && forall y :: y in s ==> exists z :: z in s && Trim(z) == y
    ensures Stable(x)
    decreases Bound(s) - |x|
  {
    var z :| z in s && Trim(z) == x;
    TrimShape(z);
    if z != x {
      ReachedIsStable(s, z);
    }
  }

  lemma FixedSourceIsReached(n: seq<Source>, i: nat) returns (l: nat)
    requires Normalize(n) == n && i < |n|
    ensures l < |n| && n[i].source != "" && Trim(n[l].source) == n[i].source
  {
    NormalizeMeans(n, i);
    l :| 0 <= l < |n| && Says(n[l], n[i].source);
  }

  /** A list that normalises to itself has stable sources and mirrors. */
  lemma FixedSourcesAreStable(n: seq<Source>, i: nat)
    requires Normalize(n) == n && i < |n|
    ensures n[i].source != "" && Stable(n[i].source)
  {
    hide Normalize, Trim;
    var s := Sources(n);
    SourcesLength(n);
    forall j | 0 <= j < |n|
      ensures exists z :: z in s && Trim(z) == s[j]
    {
      SourcesMembers(n, j);
      var l := FixedSourceIsReached(n, j);
      SourcesMembers(n, l);
      assert s[l] in s;
    }
    SourcesMembers(n, i);
    var _ := FixedSourceIsReached(n, i);
    ReachedIsStable(s, s[i]);
  }

  lemma FixedMirrorsAreStable(n: seq<Source>, i: nat, m: string)
    requires Normalize(n) == n && i < |n| && m in n[i].mirrors
    ensures m != "" && Stable(m)
  {
    var s := n[i].mirrors;
    NormalizeMeans(n, i);
    forall y | y in s
      ensures y != "" && exists z :: z in s && Trim(z) == y
    {
      var j :| 0 <= j < |n| && Says(n[j], n[i].source) && y in TrimAll(n[j].mirrors);
      FixedSourcesAreStable(n, j);
      assert n[j].source == n[i].source;
      OneEntryPerSource(n, i, j);
      TrimAllMembers(s, y);
    }
    ReachedIsStable(s, m);
  }

  lemma OneEntryPerSource(n: seq<Source>, i: nat, j: nat)
    requires Normalize(n) == n && i < |n| && j < |n| && n[i].source == n[j].source
    ensures i == j
  {
    NormalizeMeans(n, i);
    NormalizeMeans(n, j);
    if i != j {
      LessAsymmetric(n[i].source, n[i].source);
    }
  }

  /** Normalisation is idempotent exactly on tidy input. */
  lemma NormalizeIdempotent(entries: seq<Source>)
    ensures Normalize(Normalize(entries)) == Normalize(entries) <==> Tidy(entries)
  {
    var n := Normalize(entries);
    if Tidy(entries) {
      forall i | 0 <= i < |n|
        ensures StableEntry(n[i])
      {
        TidyMakesStable(entries, i);
      }
      StableListIsClean(entries);
      EmptyIsClean();
      NormalizeConcat(entries, []);
      assert n + [] == n && entries + [] == entries;
    }
    if Normalize(n) == n {
      forall i | 0 <= i < |n|
        ensures StableEntry(n[i])
      {
        FixedSourcesAreStable(n, i);
        forall m | m in n[i].mirrors
          ensures m != "" && Stable(m)
        {
          FixedMirrorsAreStable(n, i, m);
        }
      }
      StableMakesTidy(entries);
    }
  }

  lemma EmptyIsClean()
    ensures Normalize([]) == [] && CleanList([])
  {
    assert Sources([]) == [] && Keys([]) == [];
  }

  lemma TidyConcat(a: seq<Source>, b: seq<Source>)
    ensures Tidy(a + b) <==> Tidy(a) && Tidy(b)
  {
    assert forall i :: 0 <= i < |a| ==> (a + b)[i] == a[i];
    assert forall i :: 0 <= i < |b| ==> (a + b)[|a| + i] == b[i];
  }

  /** The sources of both parts are sources of the whole, and so are their mirrors. */
  lemma PartOfWhole(part: seq<Source>, whole: seq<Source>, e: Source) returns (i: nat)
    requires (forall x :: x in part ==> x in whole) && e in Normalize(part)
    ensures i < |Normalize(whole)| && Normalize(whole)[i].source == e.source
    ensures forall m :: m in e.mirrors ==> m in Normalize(whole)[i].mirrors
  {
    var j :| 0 <= j < |Normalize(part)| && Normalize(part)[j] == e;
    NormalizeMeans(part, j);
    var x :| 0 <= x < |part| && Says(part[x], e.source);
    assert part[x] in whole;
    var y :| 0 <= y < |whole| && whole[y] == part[x];
    i := NormalizeIsComplete(whole, y);
    NormalizeMeans(whole, i);
    forall m | m in e.mirrors
      ensures m in Normalize(whole)[i].mirrors
    {
      var l :| 0 <= l < |part| && Says(part[l], e.source) && m in TrimAll(part[l].mirrors);
      assert part[l] in whole;
      var o :| 0 <= o < |whole| && whole[o] == part[l];
      assert Says(whole[o], e.source) && m in TrimAll(whole[o].mirrors);
    }
  }

  /** The two parts, normalised, and the whole give the same result. */
  predicate Compatible(a: seq<Source>, b: seq<Source>) {
    Normalize(Normalize(a) + Normalize(b)) == Normalize(a + b)
  }

  lemma PartsReach(a: seq<Source>, b: seq<Source>, e: Source) returns (l: nat)
    requires e in Normalize(a) + Normalize(b)
    ensures l < |Normalize(a + b)| && Normalize(a + b)[l].source == e.source
    ensures forall m :: m in e.mirrors ==> m in Normalize(a + b)[l].mirrors
  {
    if e in Normalize(a) {
      l := PartOfWhole(a, a + b, e);
    } else {
      l := PartOfWhole(b, a + b, e);
    }
  }

  lemma WholeSourceIsReached(a: seq<Source>, b: seq<Source>, i: nat) returns (l: nat)
    requires Compatible(a, b) && i < |Normalize(a + b)|
    ensures l < |Normalize(a + b)| && Normalize(a + b)[i].source != ""
    ensures Trim(Normalize(a + b)[l].source) == Normalize(a + b)[i].source
  {
    var parts := Normalize(a) + Normalize(b);
    NormalizeMeans(parts, i);
    var j :| 0 <= j < |parts| && Says(parts[j], Normalize(a + b)[i].source);
    l := PartsReach(a, b, parts[j]);
  }

  lemma WholeSourcesAreStable(a: seq<Source>, b: seq<Source>, i: nat)
    requires Compatible(a, b) && i < |Normalize(a + b)|
    ensures Normalize(a + b)[i].source != "" && Stable(Normalize(a + b)[i].source)
  {
    hide Normalize, Trim, Compatible;
    var n := Normalize(a + b);
    var s := Sources(n);
    SourcesLength(n);
    forall j | 0 <= j < |n|
      ensures exists z :: z in s && Trim(z) == s[j]
    {
      SourcesMembers(n, j);
      var l := WholeSourceIsReached(a, b, j);
      SourcesMembers(n, l);
      assert s[l] in s;
    }
    SourcesMembers(n, i);
    var _ := WholeSourceIsReached(a, b, i);
    ReachedIsStable(s, s[i]);
  }

  lemma WholeMirrorIsReached(a: seq<Source>, b: seq<Source>, i: nat, y: string) returns (z: string)
    requires Compatible(a, b) && i < |Normalize(a + b)| && y in Normalize(a + b)[i].mirrors
    ensures y != "" && z in Normalize(a + b)[i].mirrors && Trim(z) == y
  {
    var parts, n := Normalize(a) + Normalize(b), Normalize(a + b);
    NormalizeMeans(parts, i);
    var j :| 0 <= j < |parts| && Says(parts[j], n[i].source) && y in TrimAll(parts[j].mirrors);
    TrimAllMembers(parts[j].mirrors, y);
    var x :| 0 <= x < |parts[j].mirrors| && Trim(parts[j].mirrors[x]) == y;
    z := parts[j].mirrors[x];
    var l := PartsReach(a, b, parts[j]);
    WholeSourcesAreStable(a, b, l);
    NormalizeMeans(a + b, i);
    NormalizeMeans(a + b, l);
    if l != i {
      LessAsymmetric(n[i].source, n[i].source);
    }
  }

  lemma WholeIsStable(a: seq<Source>, b: seq<Source>, i: nat)
    requires Compatible(a, b) && i < |Normalize(a + b)|
    ensures StableEntry(Normalize(a + b)[i])
  {
    hide Normalize, Trim, Compatible;
    WholeSourcesAreStable(a, b, i);
    var s := Normalize(a + b)[i].mirrors;
    forall y | y in s
      ensures y != "" && exists z :: z in s && Trim(z) == y
    {
      var z := WholeMirrorIsReached(a, b, i, y);
    }
    forall m | m in s
      ensures Stable(m)
    {
      ReachedIsStable(s, m);
    }
  }

  /** Normalisation is compatible with concatenation exactly on tidy input: normalising two
      lists first and together afterwards gives what normalising them together gives. */
  lemma NormalizeTidyConcat(a: seq<Source>, b: seq<Source>)
    ensures Normalize(Normalize(a) + Normalize(b)) == Normalize(a + b) <==> Tidy(a) && Tidy(b)
  {
    TidyConcat(a, b);
    if Tidy(a) && Tidy(b) {
      TidyListIsClean(a);
      TidyListIsClean(b);
      NormalizeConcat(a, b);
    }
    if Compatible(a, b) {
      forall i | 0 <= i < |Normalize(a + b)|
        ensures StableEntry(Normalize(a + b)[i])
      {
        WholeIsStable(a, b, i);
      }
      StableMakesTidy(a + b);
    }
  }

  lemma TidyListIsClean(a: seq<Source>)
    requires Tidy(a)
    ensures CleanList(Normalize(a))
  {
    forall i | 0 <= i < |Normalize(a)|
      ensures StableEntry(Normalize(a)[i])
    {
      TidyMakesStable(a, i);
    }
    StableListIsClean(a);
  }

  lemma RaggedExample()
    ensures !Tidy([Source("quay.io//", [], "")])
    ensures Trim("quay.io//") == "quay.io/" && Trim("quay.io/") == "quay.io"
  {
    var s := "quay.io//";
    TrimSpaceShape(s);
    assert TrimLeft(s) == s && TrimRight(s) == s;
    var t := "quay.io/";
    assert TrimLeft(t) == t && TrimRight(t) == t;
    assert s[..8] == t && t[..7] == "quay.io";
    var e := [Source(s, [], "")];
    assert e[0].source == s && Ragged(s);
  }

  // ---------------------------------------------------------------- the loops of the source

  function Lookup(m: map<string, Source>, k: string): Option<Source> {
    if k in m then Some(m[k]) else None
  }

  lemma AddTrimmed(known: seq<string>, mirrors: seq<string>, j: nat)
    requires j < |mirrors|
    ensures var before, m := AddAll(known, TrimAll(mirrors[..j])), Trim(mirrors[j]);
      AddAll(known, TrimAll(mirrors[..j + 1])) == if m == "" || m in before then before else before + [m]
  {
    hide Trim;
    assert mirrors[..j + 1][..j] == mirrors[..j];
    var t, m := TrimAll(mirrors[..j]), Trim(mirrors[j]);
    if m == "" {
      assert t + [] == t;
    } else {
      assert (t + [m])[..|t + [m]| - 1] == t;
    }
  }

  method AbsorbEntry(known: Source, e: Source) returns (r: Source)
    ensures r == Absorb(known, e)
  {
    hide AddAll, TrimAll, Trim;
    var policy, mirrors := known.policy, known.mirrors;
    if e.policy == NEVER {
      policy := e.policy;
    } else if policy == "" {
      policy := e.policy;
    }
    NothingAdded(known.mirrors, e.mirrors);
    for j := 0 to |e.mirrors|
      invariant mirrors == AddAll(known.mirrors, TrimAll(e.mirrors[..j]))
    {
      AddTrimmed(known.mirrors, e.mirrors, j);
      var mirror := Trim(e.mirrors[j]);
      if mirror != "" && mirror !in mirrors {
        mirrors := mirrors + [mirror];
      }
    }
    assert e.mirrors[..|e.mirrors|] == e.mirrors;
    r := Source(known.source, mirrors, policy);
  }

  lemma NothingAdded(known: seq<string>, mirrors: seq<string>)
    ensures AddAll(known, TrimAll(mirrors[..0])) == known
  {
  }

  method BySource(entries: seq<Source>) returns (bySource: map<string, Source>)
    ensures forall k :: Lookup(bySource, k) == View(None, entries, k)
  {
    bySource := map[];
    for i := 0 to |entries|
      invariant forall k :: Lookup(bySource, k) == View(None, entries[..i], k)
    {
      var source := Trim(entries[i].source);
      assert entries[..i + 1][..i] == entries[..i];
      if source == "" {
        continue;
      }
      var known := if source in bySource then bySource[source] else Source(source, [], "");
      assert Lookup(bySource, source) == View(None, entries[..i], source);
      var merged := AbsorbEntry(known, entries[i]);
      bySource := bySource[source := merged];
    }
    assert entries[..|entries|] == entries;
  }

  /** The keys of a map in any order. */
  method KeyList(keys: set<string>) returns (list: seq<string>)
    ensures Distinct(list) && forall k :: k in list <==> k in keys
  {
    list := [];
    var left := keys;
    while left != {}
      invariant left <= keys && Distinct(list) && forall k :: k in list <==> k in keys && k !in left
      decreases |left|
    {
      var k :| k in left;
      list := list + [k];
      left := left - {k};
    }
  }

  lemma AnyKeyListSorts(list: seq<string>, entries: seq<Source>)
    requires Distinct(list) && forall k :: k in list <==> View(None, entries, k).Some?
    ensures SortBy(list, Itself) == Keys(entries)
  {
    var raw := AddAll([], TrimAll(Sources(entries)));
    forall k
      ensures multiset(list)[k] == multiset(raw)[k]
    {
      RawKeys(entries, k);
      DistinctMultiset(list, k);
      DistinctMultiset(raw, k);
    }
    assert multiset(list) == multiset(raw);
    SortForgetsOrder(list, raw, Itself);
  }

  method NormalizeSources(entries: seq<Source>) returns (r: seq<Source>)
    ensures r == Normalize(entries)
  {
    var bySource := BySource(entries);
    var keys := KeyList(bySource.Keys);
    forall k
      ensures k in keys <==> View(None, entries, k).Some?
    {
      assert Lookup(bySource, k) == View(None, entries, k);
    }
    AnyKeyListSorts(keys, entries);
    keys := SortBy(keys, Itself);
    r := [];
    for i := 0 to |keys|
      invariant r == Collect(keys[..i], entries)
    {
      KeysMembers(entries, keys[i]);
      assert keys[..i + 1][..i] == keys[..i];
      assert Lookup(bySource, keys[i]) == View(None, entries, keys[i]);
      r := r + [bySource[keys[i]]];
    }
    assert keys[..|keys|] == keys;
  }
}
