/** Resolution of a release image through the tag mirrors of the hub: the longest matching
    source wins and its part of the reference is replaced by a mirror. */
module TagMirrors {
  import opened Wrappers
  import opened Mirrors

  /** The sources of all mirror sets, set after set. */
  datatype TagMirror = TagMirror(source: string, mirrors: seq<string>)

  /** An image reference after parsing: registry, repository, and tag or digest. */
  datatype Image = Image(registry: string, repository: string, suffix: string)

  function LowerChar(c: char): char {
    if 'A' <= c <= 'Z' then c - 'A' + 'a' else c
  }

  function ToLower(s: string): string {
    seq(|s|, i requires 0 <= i < |s| => LowerChar(s[i]))
  }

  predicate HasPrefix(s: string, p: string) {
    p <= s
  }

  predicate HasSuffix(s: string, p: string) {
    |p| <= |s| && s[|s| - |p|..] == p
  }

  function TrimPrefix(s: string, p: string): string {
    if HasPrefix(s, p) then s[|p|..] else s
  }

  function TrimSuffix(s: string, p: string): string {
    if HasSuffix(s, p) then s[..|s| - |p|] else s
  }

  /** The text before the first slash. */
  function BeforeSlash(s: string): string {
    if s == [] || s[0] == '/' then [] else [s[0]] + BeforeSlash(s[1..])
  }

  function Host(source: string): string {
    BeforeSlash(ToLower(TrimSlash(source)))
  }

  /** The repository a source names, empty if it names a whole registry. */
  function Repository(source: string): string {
    var s := ToLower(TrimSlash(source));
    var n := |BeforeSlash(s)|;
    if n < |s| then s[n + 1..] else ""
  }

  function NormalizeHost(host: string): string {
    var h := TrimSuffix(TrimSuffix(TrimSpace(ToLower(host)), "/"), "/v1");
    if h == "index.docker.io" || h == "registry-1.docker.io" then "docker.io" else h
  }

  predicate HostMatches(host: string, registry: string) {
    if HasPrefix(host, "*.") then
      HasSuffix(registry, TrimPrefix(host, "*")) && registry != TrimPrefix(TrimPrefix(host, "*"), ".")
    else NormalizeHost(host) == registry
  }

  predicate Matches(source: string, image: Image) {
    && HostMatches(Host(source), NormalizeHost(image.registry))
    && (var r := Repository(source); r == "" || image.repository == r || HasPrefix(image.repository, r + "/"))
  }

  // ---------------------------------------------------------------- which texts match

  predicate Lower(s: string) {
    forall c :: c in s ==> !('A' <= c <= 'Z')
  }

  /** The text of a registry as it is usually written. */
  predicate IsHost(h: string) {
    h != "" && Lower(h) && (forall c :: c in h ==> c != '/' && !Space(c))
  }

  predicate IsDockerHub(h: string) {
    h == "docker.io" || h == "index.docker.io" || h == "registry-1.docker.io"
  }

  predicate IsRepository(r: string) {
    r != "" && Lower(r) && r[|r| - 1] != '/'
  }

  lemma LowerStays(s: string)
    requires Lower(s)
    ensures ToLower(s) == s
  {
    assert forall i :: 0 <= i < |s| ==> s[i] in s;
  }

  lemma {:induction false} BeforeFirstSlash(h: string, rest: string)
    requires forall c :: c in h ==> c != '/'
    requires rest == "" || rest[0] == '/'
    ensures BeforeSlash(h + rest) == h
  {
    if h == "" {
      assert h + rest == rest;
    } else {
      assert h[0] in h && forall c :: c in h[1..] ==> c in h;
      BeforeFirstSlash(h[1..], rest);
      assert (h + rest)[1..] == h[1..] + rest;
    }
  }

  /** A source is a host, optionally followed by a slash and a repository. */
  lemma PartsOfSource(h: string, r: string)
    requires Lower(h) && (forall c :: c in h ==> c != '/') && IsRepository(r)
    ensures Host(h + "/" + r) == h && Repository(h + "/" + r) == r
  {
    var s := h + "/" + r;
    assert s[|s| - 1] == r[|r| - 1];
    assert s == h + ("/" + r);
    LowerStays(s);
    BeforeFirstSlash(h, "/" + r);
  }

  lemma PartsOfHost(h: string)
    requires h != "" && Lower(h) && forall c :: c in h ==> c != '/'
    ensures Host(h) == h && Repository(h) == ""
  {
    assert h[|h| - 1] in h;
    LowerStays(h);
    assert h + "" == h;
    BeforeFirstSlash(h, "");
  }

  lemma HostHasNoSpace(h: string)
    requires forall c :: c in h ==> !Space(c)
    ensures TrimSpace(h) == h
  {
    if h != "" {
      assert h[0] in h && h[|h| - 1] in h;
    }
  }

  /** Only the names of Docker Hub are replaced. */
  lemma NormalizedHost(h: string)
    requires IsHost(h)
    ensures NormalizeHost(h) == if IsDockerHub(h) then "docker.io" else h
  {
    LowerStays(h);
    HostHasNoSpace(h);
    NoSlashSuffix(h, "/");
    NoSlashSuffix(h, "/v1");
  }

  lemma NoSlashSuffix(h: string, p: string)
    requires (forall c :: c in h ==> c != '/') && p != "" && p[0] == '/'
    ensures !HasSuffix(h, p)
  {
    if |p| <= |h| {
      assert h[|h| - |p|] in h && h[|h| - |p|..][0] == h[|h| - |p|];
    }
  }

  /** A source without wildcard matches exactly the images of its registry in its repository
      or below it. */
  lemma SourceMatchesExactly(h: string, r: string, image: Image)
    requires IsHost(h) && !HasPrefix(h, "*.") && IsRepository(r)
    ensures Matches(h + "/" + r, image) <==>
      && NormalizeHost(image.registry) == (if IsDockerHub(h) then "docker.io" else h)
      && (image.repository == r || HasPrefix(image.repository, r + "/"))
  {
    PartsOfSource(h, r);
    NormalizedHost(h);
    hide Host, Repository, NormalizeHost;
  }

  lemma RegistryMatchesExactly(h: string, image: Image)
    requires IsHost(h) && !HasPrefix(h, "*.")
    ensures Matches(h, image) <==> NormalizeHost(image.registry) == (if IsDockerHub(h) then "docker.io" else h)
  {
    PartsOfHost(h);
    NormalizedHost(h);
    hide Host, Repository, NormalizeHost;
  }

  /** A wildcard matches exactly the registries below its domain. */
  lemma WildcardMatchesExactly(d: string, r: string, image: Image)
    requires IsHost(d) && IsRepository(r)
    ensures Matches("*." + d, image) <==> exists x :: NormalizeHost(image.registry) == x + "." + d
    ensures Matches("*." + d + "/" + r, image) <==>
      && (exists x :: NormalizeHost(image.registry) == x + "." + d)
      && (image.repository == r || HasPrefix(image.repository, r + "/"))
  {
    var h, g := "*." + d, NormalizeHost(image.registry);
    PartsOfHost(h);
    PartsOfSource(h, r);
    hide Host, Repository, NormalizeHost;
    WildcardHost(d, g);
  }

  lemma WildcardHost(d: string, g: string)
    ensures HostMatches("*." + d, g) <==> exists x :: g == x + "." + d
  {
    var h := "*." + d;
    assert h[..2] == "*.";
    assert TrimPrefix(h, "*") == h[1..] == "." + d;
    assert TrimPrefix("." + d, ".") == d;
    if HasSuffix(g, "." + d) {
      assert g == g[..|g| - |d| - 1] + "." + d;
    }
    if x :| g == x + "." + d {
      assert g[|g| - |d| - 1..] == "." + d;
    }
  }

  /** Case and a slash at the end of a source do not matter. */
  lemma MatchesIgnoresCase(source: string, image: Image)
    ensures Matches(ToLower(source), image) <==> Matches(source, image)
    ensures TrimSlash(source) == source ==> (Matches(source + "/", image) <==> Matches(source, image))
  {
    LowerTrimmed(source);
    assert TrimSlash(source + "/") == source;
    hide Matches, ToLower, TrimSlash;
    SameTextMatches(ToLower(source), source, image);
    if TrimSlash(source) == source {
      SameTextMatches(source + "/", source, image);
    }
  }

  predicate SameLetter(a: char, b: char) {
    || a == b
    || ('A' <= a <= 'Z' && b as int == a as int + 32)
    || ('A' <= b <= 'Z' && a as int == b as int + 32)
  }

  /** Sources that differ only in the case of letters match the same images. */
  lemma CaseDoesNotMatter(s: string, t: string, image: Image)
    requires |s| == |t| && forall i :: 0 <= i < |s| ==> SameLetter(s[i], t[i])
    ensures Matches(s, image) == Matches(t, image)
  {
    assert |TrimSlash(s)| == |TrimSlash(t)|;
    forall i | 0 <= i < |TrimSlash(s)|
      ensures LowerChar(TrimSlash(s)[i]) == LowerChar(TrimSlash(t)[i])
    {
      assert SameLetter(s[i], t[i]);
    }
    assert ToLower(TrimSlash(s)) == ToLower(TrimSlash(t));
    hide Matches, ToLower, TrimSlash;
    SameTextMatches(s, t, image);
  }

  lemma SameTextMatches(s: string, t: string, image: Image)
    requires ToLower(TrimSlash(s)) == ToLower(TrimSlash(t))
    ensures Matches(s, image) == Matches(t, image)
  {
    hide ToLower, TrimSlash, BeforeSlash, HostMatches, NormalizeHost, HasPrefix;
  }

  lemma LowerTrimmed(s: string)
    ensures ToLower(TrimSlash(ToLower(s))) == ToLower(TrimSlash(s))
  {
    assert |ToLower(s)| == |s| && forall i :: 0 <= i < |s| ==> ToLower(s)[i] == LowerChar(s[i]);
  }

  // ---------------------------------------------------------------- the longest sources

  function Longest(sources: seq<TagMirror>, image: Image): int {
    if sources == [] then -1
    else
      var rest, s := Longest(sources[..|sources| - 1], image), sources[|sources| - 1].source;
      if Matches(s, image) && |s| > rest then |s| else rest
  }

  function OfLength(sources: seq<TagMirror>, image: Image, n: int): seq<TagMirror> {
    if sources == [] then []
    else
      var s := sources[|sources| - 1];
      OfLength(sources[..|sources| - 1], image, n) + if Matches(s.source, image) && |s.source| == n then [s] else []
  }

  function Candidates(sources: seq<TagMirror>, image: Image): seq<TagMirror> {
    OfLength(sources, image, Longest(sources, image))
  }

  lemma {:induction false} LongestBounds(sources: seq<TagMirror>, image: Image, i: nat)
    requires i < |sources| && Matches(sources[i].source, image)
    ensures |sources[i].source| <= Longest(sources, image)
  {
    if i < |sources| - 1 {
      LongestBounds(sources[..|sources| - 1], image, i);
    }
  }

  lemma {:induction false} OfLengthMembers(sources: seq<TagMirror>, image: Image, n: int, c: TagMirror)
    ensures c in OfLength(sources, image, n) <==> c in sources && Matches(c.source, image) && |c.source| == n
  {
    hide Matches;
    if sources != [] {
      OfLengthMembers(sources[..|sources| - 1], image, n, c);
      assert sources == sources[..|sources| - 1] + [sources[|sources| - 1]];
    }
  }

  lemma {:induction false} OfLengthBeyond(sources: seq<TagMirror>, image: Image, n: int)
    requires n > Longest(sources, image)
    ensures OfLength(sources, image, n) == []
  {
    if sources != [] {
      OfLengthBeyond(sources[..|sources| - 1], image, n);
    }
  }

  /** The candidates are exactly the matching sources that no matching source exceeds. */
  lemma CandidatesAreLongest(sources: seq<TagMirror>, image: Image, c: TagMirror)
    ensures c in Candidates(sources, image) <==>
      && c in sources && Matches(c.source, image)
      && forall x :: x in sources && Matches(x.source, image) ==> |x.source| <= |c.source|
  {
    OfLengthMembers(sources, image, Longest(sources, image), c);
    forall x | x in sources && Matches(x.source, image)
      ensures |x.source| <= Longest(sources, image)
    {
      var i :| 0 <= i < |sources| && sources[i] == x;
      LongestBounds(sources, image, i);
    }
    if c in sources && Matches(c.source, image) && forall x :: x in sources && Matches(x.source, image) ==> |x.source| <= |c.source| {
      LongestIsReached(sources, image);
    }
  }

  lemma {:induction false} LongestIsReached(sources: seq<TagMirror>, image: Image)
    ensures Longest(sources, image) == -1 ||
      exists x :: x in sources && Matches(x.source, image) && |x.source| == Longest(sources, image)
  {
    if sources != [] {
      var front := sources[..|sources| - 1];
      LongestIsReached(front, image);
      assert sources == front + [sources[|sources| - 1]];
      assert sources[|sources| - 1] in sources;
    }
  }

  // ---------------------------------------------------------------- added sources

  lemma {:induction false} LongestAppend(a: seq<TagMirror>, b: seq<TagMirror>, image: Image)
    ensures var x, y := Longest(a, image), Longest(b, image);
      Longest(a + b, image) == if x > y then x else y
  {
    hide Matches;
    if b == [] {
      assert a + b == a;
    } else {
      LongestAppend(a, b[..|b| - 1], image);
      assert (a + b)[..|a + b| - 1] == a + b[..|b| - 1];
    }
    LongestAtLeast(a, image);
  }

  lemma {:induction false} LongestAtLeast(a: seq<TagMirror>, image: Image)
    ensures Longest(a, image) >= -1
  {
    if a != [] {
      LongestAtLeast(a[..|a| - 1], image);
    }
  }

  lemma {:induction false} OfLengthAppend(a: seq<TagMirror>, b: seq<TagMirror>, image: Image, n: int)
    ensures OfLength(a + b, image, n) == OfLength(a, image, n) + OfLength(b, image, n)
  {
    hide Matches;
    if b == [] {
      assert a + b == a;
    } else {
      OfLengthAppend(a, b[..|b| - 1], image, n);
      assert (a + b)[..|a + b| - 1] == a + b[..|b| - 1];
    }
  }

  lemma LongestWith(a: seq<TagMirror>, x: TagMirror, b: seq<TagMirror>, image: Image)
    requires !Matches(x.source, image) || |x.source| < Longest(a + b, image)
    ensures Longest(a + [x] + b, image) == Longest(a + b, image)
  {
    hide Matches;
    LongestAppend(a + [x], b, image);
    LongestAppend(a, [x], image);
    LongestAppend(a, b, image);
    LongestAtLeast(a, image);
    assert [x][..0] == [];
  }

  lemma OfLengthOne(x: TagMirror, image: Image, n: int)
    ensures OfLength([x], image, n) == if Matches(x.source, image) && |x.source| == n then [x] else []
  {
    hide Matches;
    assert [x][..0] == [];
    assert OfLength([], image, n) == [];
  }

  lemma OfLengthWith(a: seq<TagMirror>, x: TagMirror, b: seq<TagMirror>, image: Image, n: int)
    requires !Matches(x.source, image) || |x.source| != n
    ensures OfLength(a + [x] + b, image, n) == OfLength(a + b, image, n)
  {
    hide Matches, OfLength;
    OfLengthAppend(a + [x], b, image, n);
    OfLengthAppend(a, [x], image, n);
    OfLengthAppend(a, b, image, n);
    OfLengthOne(x, image, n);
    assert OfLength(a, image, n) + [] == OfLength(a, image, n);
  }

  /** A source that does not match, or is shorter than one that does, changes nothing,
      wherever it is added. */
  lemma AddedSourceIsIgnored(a: seq<TagMirror>, x: TagMirror, b: seq<TagMirror>, image: Image)
    requires !Matches(x.source, image) || |x.source| < Longest(a + b, image)
    ensures Candidates(a + [x] + b, image) == Candidates(a + b, image)
    ensures Resolve(a + [x] + b, image) == Resolve(a + b, image)
  {
    hide Matches, Longest, OfLength;
    LongestWith(a, x, b, image);
    OfLengthWith(a, x, b, image, Longest(a + b, image));
  }

  // ---------------------------------------------------------------- rewriting the reference

  /** What is left of the repository once the source's part is taken away. */
  function Remainder(source: string, repository: string): string {
    var r := Repository(source);
    if r == repository then "" else if r != "" then TrimPrefix(repository, r) else "/" + repository
  }

  /** The remainder is empty or begins a new path segment, and together with the source's
      repository it is the repository of the image. So no two segments are glued. */
  lemma RemainderIsWholeSegments(source: string, image: Image)
    requires Matches(source, image) && image.repository != ""
    ensures var rest := Remainder(source, image.repository);
      && (rest == "" || rest[0] == '/')
      && (if Repository(source) == "" then rest == "/" + image.repository
          else Repository(source) + rest == image.repository)
  {
    var r, repo := Repository(source), image.repository;
    if r != "" && r != repo {
      assert repo[|r|] == (r + "/")[|r|];
      assert r == (r + "/")[..|r|] == repo[..|r|];
      assert HasPrefix(repo, r);
    }
  }

  datatype Resolution = Unchanged | NoMirror | Resolved(reference: string)

  function AllMirrors(cs: seq<TagMirror>): seq<string> {
    if cs == [] then [] else AllMirrors(cs[..|cs| - 1]) + cs[|cs| - 1].mirrors
  }

  function Resolve(sources: seq<TagMirror>, image: Image): Resolution {
    var cs := Candidates(sources, image);
    var mirrors := AllMirrors(cs);
    if cs == [] then Unchanged else if mirrors == [] then NoMirror
    else Resolved(TrimSlash(mirrors[0]) + Remainder(cs[0].source, image.repository) + image.suffix)
  }

  /** The reference a mirror of source `c` should lead to. */
  function Rewrite(c: TagMirror, image: Image): string
    requires c.mirrors != []
  {
    TrimSlash(c.mirrors[0]) + Remainder(c.source, image.repository) + image.suffix
  }

  /** An image stays as it is exactly if no source matches it. */
  lemma UnchangedExactly(sources: seq<TagMirror>, image: Image)
    ensures Resolve(sources, image).Unchanged? <==> forall x :: x in sources ==> !Matches(x.source, image)
  {
    hide Matches;
    var cs := Candidates(sources, image);
    if cs != [] {
      assert cs[0] in cs;
      CandidatesAreLongest(sources, image, cs[0]);
    } else {
      LongestIsReached(sources, image);
      forall x | x in sources
        ensures !Matches(x.source, image)
      {
        OfLengthMembers(sources, image, Longest(sources, image), x);
        if Matches(x.source, image) {
          var i :| 0 <= i < |sources| && sources[i] == x;
          LongestBounds(sources, image, i);
          var y :| y in sources && Matches(y.source, image) && |y.source| == Longest(sources, image);
          CandidatesAreLongest(sources, image, y);
          OfLengthMembers(sources, image, Longest(sources, image), y);
          assert false;
        }
      }
    }
  }

  lemma RemainderReads(h: string, r: string, below: string)
    requires IsHost(h) && IsRepository(r)
    ensures Remainder(h + "/" + r, r) == "" && Remainder(h + "/" + r, r + "/" + below) == "/" + below
    ensures Remainder(h, r) == "/" + r
  {
    PartsOfSource(h, r);
    PartsOfHost(h);
    hide Host, Repository;
    var repo := r + "/" + below;
    assert repo == r + ("/" + below);
    assert HasPrefix(repo, r) && repo != r;
    assert TrimPrefix(repo, r) == "/" + below;
  }

  lemma Regroup(mirror: string, rest: string)
    ensures mirror + "" == mirror && mirror + ("/" + rest) == mirror + "/" + rest
  {
  }

  /** What a mirror takes the place of: the source's repository, or the whole registry. */
  lemma RewriteReads(h: string, r: string, below: string, mirror: string, registry: string, suffix: string)
    requires IsHost(h) && IsRepository(r)
    ensures Rewrite(TagMirror(h + "/" + r, [mirror]), Image(registry, r, suffix)) == TrimSlash(mirror) + suffix
    ensures Rewrite(TagMirror(h + "/" + r, [mirror]), Image(registry, r + "/" + below, suffix)) ==
            TrimSlash(mirror) + "/" + below + suffix
    ensures Rewrite(TagMirror(h, [mirror]), Image(registry, r, suffix)) == TrimSlash(mirror) + "/" + r + suffix
  {
    RemainderReads(h, r, below);
    hide Remainder, TrimSlash, IsHost, IsRepository;
    Regroup(TrimSlash(mirror), below);
    Regroup(TrimSlash(mirror), r);
  }

  /** The first candidate that has a mirror. */
  lemma {:induction false} FirstMirror(cs: seq<TagMirror>) returns (j: nat)
    requires AllMirrors(cs) != []
    ensures j < |cs| && cs[j].mirrors != [] && AllMirrors(cs)[0] == cs[j].mirrors[0]
    ensures forall i :: 0 <= i < j ==> cs[i].mirrors == []
  {
    var front := cs[..|cs| - 1];
    if AllMirrors(front) != [] {
      j := FirstMirror(front);
      assert forall i :: 0 <= i < |front| ==> front[i] == cs[i];
    } else {
      j := |cs| - 1;
      forall i | 0 <= i < j
        ensures cs[i].mirrors == []
      {
        NoMirrors(front, i);
      }
    }
  }

  lemma {:induction false} NoMirrors(cs: seq<TagMirror>, i: nat)
    requires AllMirrors(cs) == [] && i < |cs|
    ensures cs[i].mirrors == []
  {
    if i < |cs| - 1 {
      NoMirrors(cs[..|cs| - 1], i);
    }
  }

  lemma RemainderTells(s: string, t: string, image: Image)
    requires Matches(s, image) && Matches(t, image) && image.repository != ""
    ensures Remainder(s, image.repository) == Remainder(t, image.repository) <==> Repository(s) == Repository(t)
  {
    RemainderIsWholeSegments(s, image);
    RemainderIsWholeSegments(t, image);
    var r, q, repo := Repository(s), Repository(t), image.repository;
    if Remainder(s, repo) == Remainder(t, repo) {
      if r != "" && q != "" {
        assert r == repo[..|r|] && q == repo[..|q|];
      }
    }
  }

  /** The mirror that is used belongs to the first candidate with a mirror, but the part that
      is replaced is the first candidate's. The reference is the right one for the mirror
      exactly if both name the same repository, as they do when the first has a mirror. */
  lemma ResolvesToRightPath(sources: seq<TagMirror>, image: Image) returns (c: TagMirror)
    requires Resolve(sources, image).Resolved? && image.repository != ""
    ensures c in Candidates(sources, image) && c.mirrors != []
    ensures Resolve(sources, image).reference == Rewrite(c, image) <==>
      Repository(c.source) == Repository(Candidates(sources, image)[0].source)
    ensures Candidates(sources, image)[0].mirrors != [] ==> c == Candidates(sources, image)[0]
  {
    var cs := Candidates(sources, image);
    var j := FirstMirror(cs);
    c := cs[j];
    CandidatesAreLongest(sources, image, c);
    assert cs[0] in cs;
    CandidatesAreLongest(sources, image, cs[0]);
    RemainderTells(cs[0].source, c.source, image);
    var m, x, y := TrimSlash(c.mirrors[0]), Remainder(cs[0].source, image.repository), Remainder(c.source, image.repository);
    if m + x + image.suffix == m + y + image.suffix {
      assert |x| == |y|;
      assert x == (m + x + image.suffix)[|m|..|m| + |x|] == y;
    }
  }

  lemma WildcardParts()
    ensures Host("*.q/a/b") == "*.q" && Repository("*.q/a/b") == "a/b"
  {
    assert "*.q" + "/" + "a/b" == "*.q/a/b";
    PartsOfSource("*.q", "a/b");
  }

  lemma PlainParts()
    ensures Host("xyz.q/a") == "xyz.q" && Repository("xyz.q/a") == "a"
  {
    assert "xyz.q" + "/" + "a" == "xyz.q/a";
    PartsOfSource("xyz.q", "a");
  }

  lemma PlainHost()
    ensures NormalizeHost("xyz.q") == "xyz.q"
  {
    NormalizedHost("xyz.q");
    assert |"xyz.q"| == 5;
    hide NormalizeHost;
  }

  lemma BothMatch()
    ensures Matches("*.q/a/b", Image("xyz.q", "a/b", ":1")) && Matches("xyz.q/a", Image("xyz.q", "a/b", ":1"))
  {
    hide Host, Repository, NormalizeHost;
    WildcardParts();
    PlainParts();
    PlainHost();
    assert TrimPrefix("*.q", "*") == ".q" && HasSuffix("xyz.q", ".q") && TrimPrefix(".q", ".") == "q";
  }

  /** The reference can be wrong: a wildcard source without mirrors, first in the list, lends
      its repository to the mirror of another source of the same length. */
  lemma WrongPathExample()
    ensures var s, t := TagMirror("*.q/a/b", []), TagMirror("xyz.q/a", ["m"]);
      Resolve([s, t], Image("xyz.q", "a/b", ":1")) == Resolved("m:1") && Rewrite(t, Image("xyz.q", "a/b", ":1")) == "m/b:1"
  {
    hide Host, Repository, NormalizeHost, Matches;
    var s, t, image := TagMirror("*.q/a/b", []), TagMirror("xyz.q/a", ["m"]), Image("xyz.q", "a/b", ":1");
    BothMatch();
    WildcardParts();
    PlainParts();
    CandidatesSnoc([], s, image);
    CandidatesSnoc([s], t, image);
    assert [] + [s] == [s] && [s] + [t] == [s, t];
    assert [s, t][..1] == [s] && [s][..0] == [];
    assert AllMirrors([s]) == AllMirrors([s][..0]) + s.mirrors;
    assert AllMirrors([s, t]) == AllMirrors([s, t][..1]) + t.mirrors;
    assert AllMirrors([s, t]) == ["m"];
  }

  // ---------------------------------------------------------------- the loops of the source

  function Flatten(sets: seq<seq<TagMirror>>): seq<TagMirror> {
    if sets == [] then [] else Flatten(sets[..|sets| - 1]) + sets[|sets| - 1]
  }

  lemma CandidatesSnoc(before: seq<TagMirror>, x: TagMirror, image: Image)
    ensures var n, all := Longest(before, image), before + [x];
      if !Matches(x.source, image) || |x.source| < n then
        Longest(all, image) == n && Candidates(all, image) == Candidates(before, image)
      else
        Longest(all, image) == |x.source| &&
        Candidates(all, image) == (if |x.source| == n then Candidates(before, image) else []) + [x]
  {
    hide Matches;
    var all := before + [x];
    assert all[..|all| - 1] == before && all[|all| - 1] == x;
    if |x.source| > Longest(before, image) {
      OfLengthBeyond(before, image, |x.source|);
    }
  }

  /** Keeps the longest matches seen so far. */
  method Scan(seen: seq<TagMirror>, added: seq<TagMirror>, image: Image, found: seq<TagMirror>, best: int)
    returns (candidates: seq<TagMirror>, longest: int)
    requires found == Candidates(seen, image) && best == Longest(seen, image)
    ensures candidates == Candidates(seen + added, image) && longest == Longest(seen + added, image)
  {
    hide Matches, Candidates, Longest;
    candidates, longest := found, best;
    assert seen + added[..0] == seen;
    for i := 0 to |added|
      invariant candidates == Candidates(seen + added[..i], image) && longest == Longest(seen + added[..i], image)
    {
      var source := added[i];
      assert seen + added[..i + 1] == seen + added[..i] + [source];
      CandidatesSnoc(seen + added[..i], source, image);
      if !Matches(source.source, image) {
        continue;
      }
      if |source.source| > longest {
        candidates := [];
        longest := |source.source|;
      }
      if |source.source| == longest {
        candidates := candidates + [source];
      }
    }
    assert seen + added[..|added|] == seen + added;
  }

  method FindCandidates(sets: seq<seq<TagMirror>>, image: Image) returns (candidates: seq<TagMirror>)
    ensures candidates == Candidates(Flatten(sets), image)
  {
    var longest;
    candidates, longest := [], -1;
    NothingFlattened(sets, image);
    hide Candidates, Longest;
    for i := 0 to |sets|
      invariant candidates == Candidates(Flatten(sets[..i]), image) && longest == Longest(Flatten(sets[..i]), image)
    {
      assert sets[..i + 1][..i] == sets[..i];
      candidates, longest := Scan(Flatten(sets[..i]), sets[i], image, candidates, longest);
    }
    assert sets[..|sets|] == sets;
  }

  lemma NothingFlattened(sets: seq<seq<TagMirror>>, image: Image)
    ensures Candidates(Flatten(sets[..0]), image) == [] && Longest(Flatten(sets[..0]), image) == -1
  {
  }

  method ConcatMirrors(candidates: seq<TagMirror>) returns (mirrors: seq<string>)
    ensures mirrors == AllMirrors(candidates)
  {
    mirrors := [];
    for i := 0 to |candidates|
      invariant mirrors == AllMirrors(candidates[..i])
    {
      assert candidates[..i + 1][..i] == candidates[..i];
      mirrors := mirrors + candidates[i].mirrors;
    }
    assert candidates[..|candidates|] == candidates;
  }

  method ResolveTagMirror(sets: seq<seq<TagMirror>>, image: Image) returns (r: Resolution)
    ensures r == Resolve(Flatten(sets), image)
  {
    hide Candidates, Flatten, Repository;
    var candidates := FindCandidates(sets, image);
    if candidates == [] {
      return Unchanged;
    }
    var mirrors := ConcatMirrors(candidates);
    if mirrors == [] {
      return NoMirror;
    }
    var source := Repository(candidates[0].source);
    var rest := "/" + image.repository;
    if source != "" && image.repository != source {
      rest := TrimPrefix(image.repository, source);
    }
    if source == image.repository {
      rest := "";
    }
    return Resolved(TrimSlash(mirrors[0]) + rest + image.suffix);
  }
}
