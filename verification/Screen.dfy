/** The terminal screen of the CRD watcher: the buffer of events it shows, the row budget of a
    screen, and line-differential updates that must agree with a full redraw. */
module Screen {
  // ---------------------------------------------------------------- rows of the terminal

  /** Content is a sequence of lines; the empty content is one empty line. */
  const BLANK: seq<string> := [""]

  /** The rows of a terminal after clearing it and printing the lines. */
  function Painted(lines: seq<string>, height: nat): seq<string>
    requires |lines| <= height
  {
    lines + seq(height - |lines|, _ => "")
  }

  function LineAt(lines: seq<string>, i: nat): string {
    if i < |lines| then lines[i] else ""
  }

  predicate Shows(rows: seq<string>, lines: seq<string>) {
    |lines| <= |rows| && forall i :: 0 <= i < |rows| ==> rows[i] == LineAt(lines, i)
  }

  lemma ShowsIsPainted(rows: seq<string>, lines: seq<string>)
    ensures Shows(rows, lines) <==> |lines| <= |rows| && rows == Painted(lines, |rows|)
  {
    if |lines| <= |rows| && Shows(rows, lines) {
      forall i | 0 <= i < |rows|
        ensures rows[i] == Painted(lines, |rows|)[i]
      {
      }
    }
  }

  /** Clears the terminal and prints everything. */
  method FullRedraw(rows: array<string>, lines: seq<string>)
    requires |lines| <= rows.Length
    modifies rows
    ensures Shows(rows[..], lines)
  {
    for i := 0 to rows.Length
      invariant forall j :: 0 <= j < i ==> rows[j] == ""
    {
      rows[i] := "";
    }
    for i := 0 to |lines|
      invariant forall j :: 0 <= j < rows.Length ==> rows[j] == if j < i then lines[j] else ""
    {
      rows[i] := lines[i];
    }
  }

  /** Rewrites only the lines that changed. The result is that of a full redraw. */
  method ApplyDifferentialUpdate(rows: array<string>, before: seq<string>, after: seq<string>)
    requires Shows(rows[..], before) && |after| <= rows.Length
    modifies rows
    ensures Shows(rows[..], after)
  {
    var maxLines := |after|;
    if |before| > maxLines {
      maxLines := |before|;
    }
    for i := 0 to maxLines
      invariant forall j :: 0 <= j < rows.Length ==> rows[j] == LineAt(if j < i then after else before, j)
    {
      var oldLine, newLine := LineAt(before, i), LineAt(after, i);
      if oldLine != newLine {
        rows[i] := "";
        if newLine != "" {
          rows[i] := newLine;
        }
      }
    }
    if |before| > |after| {
      for i := |after| to |before|
        invariant forall j :: 0 <= j < rows.Length ==> rows[j] == LineAt(after, j)
      {
        rows[i] := "";
      }
    }
  }

  // ---------------------------------------------------------------- the row budget

  /** The section of one CRD type: how its lines look does not matter here. */
  datatype Section = Section(title: string, header: string, events: seq<string>)

  const LIMIT: nat := 11

  function Wanted(s: Section): nat {
    if |s.events| < LIMIT then |s.events| else LIMIT
  }

  /** What is printed of a section of which `n` events are shown. */
  function Block(s: Section, n: nat): seq<string>
    requires n <= |s.events|
  {
    [s.title, s.header] + if s.events == [] then ["No resources found"] else s.events[..n]
  }

  /** One section, as far as the screen has room. `lines` are complete lines so far. It is cut
      only when the rows are used up. */
  method BuildSection(lines: seq<string>, s: Section, height: int) returns (r: seq<string>, shown: nat, cut: bool)
    requires |lines| + 3 < height - 1
    ensures shown <= Wanted(s) && (cut <==> shown < Wanted(s))
    ensures |r| <= height - 2 && (cut ==> |r| == height - 2)
    ensures r == lines + Block(s, shown) + [""] || (r == lines + Block(s, shown) && |r| == height - 2)
  {
    r := lines + [s.title, s.header];
    shown, cut := 0, false;
    if |s.events| == 0 {
      r := r + ["No resources found"];
    } else {
      while shown < |s.events|
        invariant shown <= 10 && shown <= |s.events| && |r| <= height - 2 && r == lines + [s.title, s.header] + s.events[..shown]
        decreases |s.events| - shown
      {
        if |r| >= height - 2 {
          cut := true;
          break;
        }
        r := r + [s.events[shown]];
        shown := shown + 1;
        if shown > 10 {
          break;
        }
      }
    }
    assert r == lines + Block(s, shown);
    if |r| < height - 2 {
      r := r + [""];
    }
  }

  /** How many events are shown of each section that is on the screen. */
  predicate Counts(sections: seq<Section>, shown: seq<nat>) {
    |shown| <= |sections| && forall i :: 0 <= i < |shown| ==> shown[i] <= Wanted(sections[i])
  }

  /** No section and no event within the limit per section is left out. */
  predicate ShowsAll(sections: seq<Section>, shown: seq<nat>) {
    |shown| == |sections| && forall i :: 0 <= i < |shown| ==> shown[i] == Wanted(sections[i])
  }

  /** The sections one after another, each followed by an empty line. */
  function Blocks(sections: seq<Section>, shown: seq<nat>): seq<string>
    requires Counts(sections, shown)
  {
    if shown == [] then []
    else
      var last := |shown| - 1;
      Blocks(sections, shown[..last]) + Block(sections[last], shown[last]) + [""]
  }

  const STATUS: string := "status"
  const TRUNCATED: string := "truncated"

  /** Everything is there, except perhaps the empty line after the last section. */
  predicate Holds(lines: seq<string>, header: string, rule: string, sections: seq<Section>, shown: seq<nat>)
    requires Counts(sections, shown)
  {
    lines == [header, rule] + Blocks(sections, shown) || lines + [""] == [header, rule] + Blocks(sections, shown)
  }

  /** A screen: two header lines, sections, an empty line and the status line, which says
      whether anything is left out. Nothing is left out while a section still fits. */
  predicate IsScreen(content: seq<string>, header: string, rule: string, sections: seq<Section>, shown: seq<nat>, height: int) {
    && Counts(sections, shown) && |content| >= 4
    && Holds(content[..|content| - 2], header, rule, sections, shown)
    && content[|content| - 2..] == ["", if ShowsAll(sections, shown) then STATUS else TRUNCATED]
    && (!ShowsAll(sections, shown) ==> |content| >= height - 2)
    && (if height >= 4 then |content| <= height else |content| == 4)
  }

  lemma LastBlock(sections: seq<Section>, shown: seq<nat>)
    requires Counts(sections, shown) && shown != []
    ensures var last := |shown| - 1;
      Blocks(sections, shown) == Blocks(sections, shown[..last]) + Block(sections[last], shown[last]) + [""]
  {
    hide Block;
  }

  lemma BlocksSnoc(sections: seq<Section>, shown: seq<nat>, n: nat)
    requires Counts(sections, shown) && |shown| < |sections| && n <= Wanted(sections[|shown|])
    ensures Counts(sections, shown + [n])
    ensures Blocks(sections, shown + [n]) == Blocks(sections, shown) + Block(sections[|shown|], n) + [""]
  {
    var all := shown + [n];
    hide Block, Blocks;
    assert all[..|all| - 1] == shown && all[|all| - 1] == n;
    LastBlock(sections, all);
  }

  predicate AnyCut(sections: seq<Section>, shown: seq<nat>)
    requires Counts(sections, shown)
  {
    exists i :: 0 <= i < |shown| && shown[i] < Wanted(sections[i])
  }

  /** The lines of a screen that is being built. */
  predicate Building(lines: seq<string>, header: string, rule: string, sections: seq<Section>, shown: seq<nat>,
                     truncated: bool, height: int)
  {
    && Counts(sections, shown) && Holds(lines, header, rule, sections, shown)
    && |lines| >= 2 && (|lines| == 2 || |lines| <= height - 2)
    && (|lines| < height - 2 ==> lines == [header, rule] + Blocks(sections, shown))
    && (truncated <==> AnyCut(sections, shown)) && (truncated ==> |lines| == height - 2)
  }

  lemma SectionBuilt(lines: seq<string>, header: string, rule: string, sections: seq<Section>, shown: seq<nat>,
                     truncated: bool, height: int, r: seq<string>, n: nat, cut: bool)
    requires Building(lines, header, rule, sections, shown, truncated, height)
    requires |lines| + 3 < height - 1 && |shown| < |sections|
    requires var s := sections[|shown|];
      && n <= Wanted(s) && (cut <==> n < Wanted(s)) && |r| <= height - 2 && (cut ==> |r| == height - 2)
      && (r == lines + Block(s, n) + [""] || (r == lines + Block(s, n) && |r| == height - 2))
    ensures Building(r, header, rule, sections, shown + [n], cut, height)
  {
    BlocksSnoc(sections, shown, n);
    hide Block, Blocks, Wanted;
    var s := sections[|shown|];
    assert lines + Block(s, n) + [""] == [header, rule] + Blocks(sections, shown + [n]);
    assert AnyCut(sections, shown + [n]) <==> cut by {
      assert (shown + [n])[|shown|] == n;
    }
  }

  lemma ScreenBuilt(lines: seq<string>, header: string, rule: string, sections: seq<Section>, shown: seq<nat>,
                    truncated: bool, height: int)
    requires Building(lines, header, rule, sections, shown, truncated, height)
    requires |shown| < |sections| ==> |lines| + 3 >= height - 1
    ensures
      var all := |shown| == |sections| && !truncated;
      && (all <==> ShowsAll(sections, shown))
      && IsScreen(lines + ["", if all then STATUS else TRUNCATED], header, rule, sections, shown, height)
  {
    hide Blocks, Wanted;
    var content := lines + ["", if |shown| == |sections| && !truncated then STATUS else TRUNCATED];
    assert content[..|content| - 2] == lines;
  }

  /** For a terminal of at least four rows a screen never needs more rows than there are. */
  method BuildScreen(header: string, rule: string, sections: seq<Section>, height: int)
    returns (content: seq<string>, shown: seq<nat>, truncated: bool)
    ensures IsScreen(content, header, rule, sections, shown, height)
    ensures truncated <==> !ShowsAll(sections, shown)
  {
    hide IsScreen, ShowsAll;
    var lines := [header, rule];
    shown, truncated := [], false;
    while |shown| < |sections|
      invariant |shown| <= |sections| && Building(lines, header, rule, sections, shown, truncated, height)
      decreases |sections| - |shown|
    {
      if |lines| + 3 >= height - 1 {
        ScreenBuilt(lines, header, rule, sections, shown, truncated, height);
        truncated := true;
        break;
      }
      var r, n, cut := BuildSection(lines, sections[|shown|], height);
      SectionBuilt(lines, header, rule, sections, shown, truncated, height, r, n, cut);
      assert !truncated;
      lines, shown, truncated := r, shown + [n], truncated || cut;
    }
    if |shown| == |sections| {
      ScreenBuilt(lines, header, rule, sections, shown, truncated, height);
    }
    content := lines + ["", if truncated then TRUNCATED else STATUS];
  }

  lemma {:induction false} BlocksPrefix(sections: seq<Section>, shown: seq<nat>, i: nat)
    requires Counts(sections, shown) && i <= |shown|
    ensures Counts(sections, shown[..i]) && Blocks(sections, shown[..i]) <= Blocks(sections, shown)
  {
    if i < |shown| {
      var front := shown[..|shown| - 1];
      BlocksPrefix(sections, front, i);
      assert front[..i] == shown[..i];
    } else {
      assert shown[..i] == shown;
    }
  }

  /** Where a section begins. */
  function Start(sections: seq<Section>, shown: seq<nat>, i: nat): nat
    requires Counts(sections, shown) && i <= |shown|
  {
    2 + |Blocks(sections, shown[..i])|
  }

  lemma StartsFollow(sections: seq<Section>, shown: seq<nat>, i: nat)
    requires Counts(sections, shown) && i < |shown|
    ensures Start(sections, shown, 0) == 2
    ensures Start(sections, shown, i + 1) ==
            Start(sections, shown, i) + 3 + if sections[i].events == [] then 1 else shown[i]
  {
    assert shown[..i + 1] == shown[..i] + [shown[i]];
    BlocksSnoc(sections, shown[..i], shown[i]);
  }

  lemma BlockInBlocks(sections: seq<Section>, shown: seq<nat>, i: nat)
    requires Counts(sections, shown) && i < |shown|
    ensures Counts(sections, shown[..i])
    ensures Blocks(sections, shown[..i]) + Block(sections[i], shown[i]) + [""] <= Blocks(sections, shown)
  {
    BlocksPrefix(sections, shown, i);
    BlocksPrefix(sections, shown, i + 1);
    BlocksSnoc(sections, shown[..i], shown[i]);
    assert shown[..i] + [shown[i]] == shown[..i + 1];
  }

  /** On a screen the sections stand in order, each with its title, its header and its first
      events or a note that there are none. */
  lemma SectionOnScreen(content: seq<string>, header: string, rule: string, sections: seq<Section>, shown: seq<nat>,
                        height: int, i: nat)
    requires IsScreen(content, header, rule, sections, shown, height) && i < |shown|
    ensures content[0] == header && content[1] == rule
    ensures
      var at, s := Start(sections, shown, i), sections[i];
      var printed := [s.title, s.header] + if s.events == [] then ["No resources found"] else s.events[..shown[i]];
      at + |printed| <= |content| - 2 && content[at..at + |printed|] == printed
  {
    var lines, before, block := content[..|content| - 2], Blocks(sections, shown[..i]), Block(sections[i], shown[i]);
    BlockInBlocks(sections, shown, i);
    hide Blocks, ShowsAll, Wanted;
    BlockIsThere(lines, header, rule, before, block, Blocks(sections, shown));
    SliceOfFront(content, |content| - 2, 2 + |before|, 2 + |before| + |block|);
  }

  lemma SliceOfFront(s: seq<string>, n: nat, i: nat, j: nat)
    requires i <= j <= n <= |s|
    ensures s[..n][i..j] == s[i..j]
  {
  }

  lemma BlockIsThere(lines: seq<string>, header: string, rule: string, before: seq<string>, block: seq<string>,
                     blocks: seq<string>)
    requires before + block + [""] <= blocks
    requires lines == [header, rule] + blocks || lines + [""] == [header, rule] + blocks
    ensures 2 + |before| + |block| <= |lines| && lines[0] == header && lines[1] == rule
    ensures lines[2 + |before|..2 + |before| + |block|] == block
  {
    var all := [header, rule] + blocks;
    assert forall k :: 0 <= k < |lines| ==> lines[k] == all[k];
    assert all[2 + |before|..2 + |before| + |block|] == blocks[|before|..|before| + |block|];
  }

  // ---------------------------------------------------------------- the event buffer

  datatype Event = Event(key: string, crdType: string, deleted: bool, object: string)

  predicate SameResource(a: Event, b: Event) {
    a.key == b.key && a.crdType == b.crdType
  }

  predicate Unique(events: seq<Event>) {
    forall i, j :: 0 <= i < j < |events| ==> !SameResource(events[i], events[j])
  }

  predicate Contains(events: seq<Event>, e: Event) {
    exists i :: 0 <= i < |events| && SameResource(events[i], e)
  }

  function Keep(events: seq<Event>, crdType: string): seq<Event> {
    if events == [] then []
    else Keep(events[..|events| - 1], crdType) +
         if events[|events| - 1].crdType == crdType then [] else [events[|events| - 1]]
  }

  lemma {:induction false} KeepMembers(events: seq<Event>, crdType: string, e: Event)
    ensures e in Keep(events, crdType) <==> e in events && e.crdType != crdType
    ensures |Keep(events, crdType)| <= |events|
  {
    if events != [] {
      KeepMembers(events[..|events| - 1], crdType, e);
      assert events == events[..|events| - 1] + [events[|events| - 1]];
    }
  }

  lemma {:induction false} KeepIsUnique(events: seq<Event>, crdType: string)
    requires Unique(events)
    ensures Unique(Keep(events, crdType))
  {
    if events != [] {
      var front, last := events[..|events| - 1], events[|events| - 1];
      KeepIsUnique(front, crdType);
      forall i | 0 <= i < |Keep(front, crdType)|
        ensures !SameResource(Keep(front, crdType)[i], last)
      {
        KeepMembers(front, crdType, Keep(front, crdType)[i]);
      }
    }
  }

  lemma KeepSnoc(events: seq<Event>, i: nat, crdType: string)
    requires i < |events|
    ensures Keep(events[..i + 1], crdType) == Keep(events[..i], crdType) + if events[i].crdType == crdType then [] else [events[i]]
  {
    assert events[..i + 1][..i] == events[..i];
  }

  /** Removes all events of a type by compacting the buffer in place. */
  method CompactInPlace(buffer: array<Event>, count: nat, crdType: string) returns (kept: nat)
    requires count <= buffer.Length
    modifies buffer
    ensures kept <= count && buffer[..kept] == Keep(old(buffer[..count]), crdType)
  {
    ghost var was := buffer[..count];
    kept := 0;
    assert Keep(was[..0], crdType) == [];
    hide Keep;
    for i := 0 to count
      invariant kept <= i && buffer[..kept] == Keep(was[..i], crdType)
      invariant forall j :: i <= j < count ==> buffer[j] == was[j]
    {
      KeepSnoc(was, i, crdType);
      if buffer[i].crdType != crdType {
        buffer[kept] := buffer[i];
        kept := kept + 1;
      }
    }
    assert was[..count] == was;
  }

  function IndexOf(events: seq<Event>, e: Event): int
    ensures -1 <= IndexOf(events, e) < |events|
  {
    if events == [] then -1
    else if SameResource(events[0], e) then 0
    else if IndexOf(events[1..], e) == -1 then -1 else IndexOf(events[1..], e) + 1
  }

  /** The buffer after an event: a resource is shown once, with its latest state, or no more. */
  function Upsert(events: seq<Event>, e: Event): seq<Event> {
    var i := IndexOf(events, e);
    if i == -1 then (if e.deleted then events else events + [e])
    else if e.deleted then events[..i] + events[i + 1..]
    else events[i := e]
  }

  function Latest(events: seq<Event>, max: nat): seq<Event> {
    if |events| > max then events[|events| - max..] else events
  }

  /** The newest are kept, in order, and as many as there is room for. */
  lemma LatestAreNewest(events: seq<Event>, max: nat, i: nat)
    requires i < |events|
    ensures |Latest(events, max)| == if |events| <= max then |events| else max
    ensures |events| - i <= max ==> Latest(events, max)[|Latest(events, max)| - (|events| - i)] == events[i]
    ensures Unique(events) ==> (events[i] in Latest(events, max) <==> |events| - i <= max)
  {
    var r := Latest(events, max);
    if events[i] in r && Unique(events) {
      var j :| 0 <= j < |r| && r[j] == events[i];
      var k := |events| - |r| + j;
      assert events[k] == events[i];
      assert k == i;
    }
  }

  lemma {:induction false} IndexFinds(events: seq<Event>, e: Event)
    ensures var i := IndexOf(events, e);
      if i == -1 then forall j :: 0 <= j < |events| ==> !SameResource(events[j], e)
      else SameResource(events[i], e) && forall j :: 0 <= j < i ==> !SameResource(events[j], e)
  {
    if events != [] {
      IndexFinds(events[1..], e);
      assert forall j :: 1 <= j < |events| ==> events[j] == events[1..][j - 1];
    }
  }

  /** A resource is never shown twice. After its event it is shown with that event's state,
      or not at all if it was deleted; other resources keep theirs. */
  lemma UpsertMeans(events: seq<Event>, e: Event)
    requires Unique(events)
    ensures Unique(Upsert(events, e))
    ensures if e.deleted then !Contains(Upsert(events, e), e) else e in Upsert(events, e)
    ensures forall x :: !SameResource(x, e) ==> (x in Upsert(events, e) <==> x in events)
  {
    IndexFinds(events, e);
    var i, r := IndexOf(events, e), Upsert(events, e);
    hide IndexOf;
    if i == -1 {
      assert e.deleted || r[|events|] == e;
    } else if e.deleted {
      assert events == events[..i] + [events[i]] + events[i + 1..];
    } else {
      assert r[i] == e;
      OthersStay(events, i, e);
    }
  }

  /** The buffer grows by the event of a new resource only, at its end. */
  lemma UpsertGrowsByOne(events: seq<Event>, e: Event)
    ensures |Upsert(events, e)| > |events| ==> !e.deleted && Upsert(events, e) == events + [e]
  {
  }

  /** A known resource keeps its place, a new one comes last. */
  lemma UpsertPlaces(events: seq<Event>, e: Event)
    requires Unique(events) && !e.deleted
    ensures |Upsert(events, e)| == |events| + if Contains(events, e) then 0 else 1
    ensures forall j :: 0 <= j < |events| ==> Upsert(events, e)[j] == if SameResource(events[j], e) then e else events[j]
    ensures Contains(events, e) || Upsert(events, e)[|events|] == e
  {
    IndexFinds(events, e);
  }

  lemma OthersStay(events: seq<Event>, i: nat, e: Event)
    requires i < |events| && SameResource(events[i], e)
    ensures forall x :: !SameResource(x, e) ==> (x in events[i := e] <==> x in events)
  {
    var r := events[i := e];
    forall x | !SameResource(x, e)
      ensures x in r <==> x in events
    {
      if x in events {
        var j :| 0 <= j < |events| && events[j] == x;
        assert r[j] == x;
      }
      if x in r {
        var j :| 0 <= j < |r| && r[j] == x;
        assert events[j] == x;
      }
    }
  }

  predicate NotBefore(events: seq<Event>, e: Event, i: nat)
    requires i <= |events|
  {
    forall j :: 0 <= j < i ==> !SameResource(events[j], e)
  }

  lemma UpsertAt(events: seq<Event>, e: Event, i: nat)
    requires i < |events| && SameResource(events[i], e) && NotBefore(events, e, i)
    ensures Upsert(events, e) == if e.deleted then events[..i] + events[i + 1..] else events[i := e]
  {
    IndexFinds(events, e);
    hide IndexOf;
    assert IndexOf(events, e) == i;
  }

  lemma UpsertNew(events: seq<Event>, e: Event)
    requires NotBefore(events, e, |events|)
    ensures Upsert(events, e) == if e.deleted then events else events + [e]
  {
    IndexFinds(events, e);
    hide IndexOf;
    assert IndexOf(events, e) == -1;
  }

  /** Looks for the resource of an event and replaces, removes or appends it. */
  method TakeEvent(events: seq<Event>, e: Event) returns (r: seq<Event>)
    ensures r == Upsert(events, e)
  {
    hide Upsert, IndexOf;
    for i := 0 to |events|
      invariant NotBefore(events, e, i)
    {
      if SameResource(events[i], e) {
        UpsertAt(events, e, i);
        return if e.deleted then events[..i] + events[i + 1..] else events[i := e];
      }
    }
    UpsertNew(events, e);
    return if e.deleted then events else events + [e];
  }

  // ---------------------------------------------------------------- the watcher

  class Watcher {
    const rows: array<string>
    const height: nat
    /** Six rows are reserved, so on a very small terminal the limit is negative. */
    const maxEvents: int
    var events: seq<Event>
    var last: seq<string>
    var force: bool
    var errors: set<string>

    constructor (height: nat)
      ensures Valid() && fresh(rows) && this.height == height && events == [] && errors == {}
    {
      rows := new string[height](_ => "");
      this.height := height;
      maxEvents := height - 6;
      events, last, force, errors := [], BLANK, true, {};
    }

    /** What the terminal shows is the last content, unless the next redraw is a full one. */
    predicate Valid()
      reads this, rows
    {
      && rows.Length == height && maxEvents == height - 6 && Unique(events) && (maxEvents < 0 || |events| <= maxEvents)
      && (errors != {} ==> force) && (force || last == BLANK || height < 4 || Shows(rows[..], last))
    }

    /** Takes an event into the buffer. It stops with an invalid slice exactly on a terminal
        of less than six rows. A full buffer gives up its oldest event for a new resource. */
    method FormatEvent(e: Event) returns (panicked: bool)
      requires Valid()
      modifies this`events
      ensures Valid() && (panicked <==> height < 6)
      ensures !panicked ==> events == Latest(Upsert(old(events), e), maxEvents) && |events| <= maxEvents
      ensures !panicked ==> events == Upsert(old(events), e) || events == Upsert(old(events), e)[1..]
      ensures !panicked && !e.deleted && maxEvents > 0 ==> e in events
    {
      hide IndexOf, Upsert;
      UpsertMeans(events, e);
      UpsertGrowsByOne(events, e);
      events := TakeEvent(events, e);
      if |events| > maxEvents {
        if maxEvents < 0 {
          return true;
        }
        events := events[|events| - maxEvents..];
        assert maxEvents > 0 ==> events[|events| - 1] == e;
      }
      return false;
    }

    method SetError(crdType: string)
      requires Valid()
      modifies this`errors, this`force
      ensures Valid() && errors == old(errors) + {crdType} && force
    {
      errors := errors + {crdType};
      force := true;
    }

    method ClearError(crdType: string)
      requires Valid()
      modifies this`errors, this`force
      ensures Valid() && errors == old(errors) - {crdType} && force
    {
      errors := errors - {crdType};
      force := true;
    }

    /** Content that is longer than the terminal scrolls; what then shows is not followed. */
    method Scroll()
      modifies rows
    {
      for i := 0 to rows.Length
        modifies rows
      {
        var line: string := *;
        rows[i] := line;
      }
    }

    /** Draws the error screen, which may be longer than the terminal. */
    method DrawErrorScreen(content: seq<string>)
      requires Valid() && errors != {}
      modifies this`last, rows
      ensures Valid() && last == content
    {
      Scroll();
      last := content;
    }

    /** Redraws the screen. After every redraw without errors, on a terminal of at least four
        rows, the rows are those of a full clear and draw of the new content, whatever was
        drawn before. */
    method RedrawScreen(header: string, rule: string, sections: seq<Section>, errorContent: seq<string>)
      requires Valid()
      modifies this`last, this`force, rows
      ensures Valid()
      ensures errors == {} ==> !force && exists shown :: IsScreen(last, header, rule, sections, shown, height)
      ensures errors == {} && height >= 4 ==> |last| <= height && rows[..] == Painted(last, height)
      ensures errors != {} ==> last == errorContent
    {
      if errors != {} {
        DrawErrorScreen(errorContent);
        return;
      }
      var content, shown, truncated := BuildScreen(header, rule, sections, height);
      if |content| > rows.Length {
        Scroll();
        force := false;
      } else if force || last == BLANK {
        FullRedraw(rows, content);
        force := false;
      } else if content != last {
        ApplyDifferentialUpdate(rows, last, content);
      }
      last := content;
      ShowsIsPainted(rows[..], content);
    }
  }
}
