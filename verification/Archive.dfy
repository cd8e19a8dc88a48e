/** Unpacking archives: cleaned paths, and the textual prefix test that keeps entries inside the destination. */
module Archive {
  import opened Common
  import opened Text

  /** A cleaned path: whether it starts at the root, and its components. */
  datatype Path = Path(rooted: bool, comps: seq<string>)

  /** One component walked from a cleaned path. */
  function Walk1(p: Path, c: string): Path {
    if c == "" || c == "." then p
    else if c != ".." then p.(comps := p.comps + [c])
    else if p.comps != [] && p.comps[|p.comps| - 1] != ".." then p.(comps := p.comps[..|p.comps| - 1])
    else if p.rooted then p
    else p.(comps := p.comps + [".."])
  }

  function Walk(p: Path, cs: seq<string>): Path {
    if cs == [] then p else Walk1(Walk(p, cs[..|cs| - 1]), cs[|cs| - 1])
  }

  function Parse(s: string): Path {
    Walk(Path(s != "" && s[0] == '/', []), Split(s, "/"))
  }

  function Render(p: Path): string {
    if p.comps == [] then (if p.rooted then "/" else ".")
    else (if p.rooted then "/" else "") + Join(p.comps, "/")
  }

  function Clean(s: string): string {
    Render(Parse(s))
  }

  /** Joins a destination and an entry name, skipping empty elements. */
  function JoinPath(dest: string, name: string): string {
    if dest != "" then Clean(dest + "/" + name) else if name != "" then Clean(name) else ""
  }

  /** The prefix test applied to every archive entry. */
  predicate Accepts(dest: string, name: string) {
    HasPrefix(Clean(JoinPath(dest, name)), Clean(dest) + "/")
  }

  // ----- What cleaned components look like

  predicate Component(c: string) {
    c != "" && c != "." && '/' !in c
  }

  /** Parent references stand only at the front, and never below the root. */
  ghost predicate Normal(p: Path) {
    && (forall i :: 0 <= i < |p.comps| ==> Component(p.comps[i]))
    && (forall i :: 0 <= i < |p.comps| && p.comps[i] == ".." ==>
         !p.rooted && forall j :: 0 <= j < i ==> p.comps[j] == "..")
  }

  lemma {:induction false} WalkNormal(p: Path, cs: seq<string>)
    requires Normal(p) && forall i :: 0 <= i < |cs| ==> '/' !in cs[i]
    ensures Normal(Walk(p, cs)) && Walk(p, cs).rooted == p.rooted
  {
    if cs != [] {
      WalkNormal(p, cs[..|cs| - 1]);
    }
  }

  lemma {:induction false} WalkAppend(p: Path, a: seq<string>, b: seq<string>)
    ensures Walk(p, a + b) == Walk(Walk(p, a), b)
  {
    if b == [] {
      assert a + b == a;
    } else {
      WalkAppend(p, a, b[..|b| - 1]);
      assert (a + b)[..|a + b| - 1] == a + b[..|b| - 1];
    }
  }

  lemma NormalStep(rooted: bool, cs: seq<string>, c: string)
    requires Normal(Path(rooted, cs + [c]))
    ensures Normal(Path(rooted, cs)) && Walk1(Path(rooted, cs), c) == Path(rooted, cs + [c])
  {
    var longer := cs + [c];
    assert Component(longer[|cs|]);
    assert forall i :: 0 <= i < |cs| ==> longer[i] == cs[i];
  }

  lemma {:induction false} WalkNormalComps(rooted: bool, cs: seq<string>)
    requires Normal(Path(rooted, cs))
    ensures Walk(Path(rooted, []), cs) == Path(rooted, cs)
  {
    if cs != [] {
      var n := |cs| - 1;
      assert cs == cs[..n] + [cs[n]];
      NormalStep(rooted, cs[..n], cs[n]);
      WalkNormalComps(rooted, cs[..n]);
    }
  }

  lemma ParseNormal(s: string)
    ensures Normal(Parse(s)) && Parse(s).rooted == (s != "" && s[0] == '/')
  {
    forall k | 0 <= k < |Split(s, "/")| ensures '/' !in Split(s, "/")[k] {
      PartsAreFree(s, "/", k);
      ContainsChar(Split(s, "/")[k], '/');
    }
    WalkNormal(Path(s != "" && s[0] == '/', []), Split(s, "/"));
  }

  lemma SplitSlashFree(a: string)
    requires '/' !in a
    ensures Split(a, "/") == [a]
  {
    ContainsChar(a, '/');
    NoOccurrence(a, "/");
  }

  lemma {:induction false} SplitJoin(cs: seq<string>)
    requires cs != [] && forall i :: 0 <= i < |cs| ==> '/' !in cs[i]
    ensures Split(Join(cs, "/"), "/") == cs
  {
    if |cs| == 1 {
      SplitSlashFree(cs[0]);
    } else {
      SplitJoin(cs[1..]);
      SplitAtChar(cs[0], '/', Join(cs[1..], "/"));
    }
  }

  lemma RenderRoundTripEmpty(rooted: bool)
    ensures Parse(Render(Path(rooted, []))) == Path(rooted, [])
  {
    if rooted {
      SplitAtChar("", '/', "");
      SplitSlashFree("");
      assert "/" == "" + ['/'] + "";
      WalkAppend(Path(true, []), [""], [""]);
      assert [""][..0] == [];
    } else {
      SplitSlashFree(".");
      WalkAppend(Path(false, []), [], ["."]);
      assert [] + ["."] == ["."];
    }
  }

  lemma JoinStart(cs: seq<string>)
    requires cs != [] && cs[0] != ""
    ensures Join(cs, "/") != "" && Join(cs, "/")[0] == cs[0][0]
  {
  }

  /** A rendered clean path parses back to itself, so cleaning twice changes nothing more. */
  lemma RenderRoundTrip(p: Path)
    requires Normal(p)
    ensures Parse(Render(p)) == p
  {
    if p.comps == [] {
      RenderRoundTripEmpty(p.rooted);
    } else {
      var joined := Join(p.comps, "/");
      assert Component(p.comps[0]);
      JoinStart(p.comps);
      SplitJoin(p.comps);
      WalkNormalComps(p.rooted, p.comps);
      if p.rooted {
        SplitAtChar("", '/', joined);
        assert Render(p) == "" + ['/'] + joined;
        WalkEmptyFirst(p.comps);
      } else {
        assert Render(p) == joined;
      }
    }
  }

  lemma WalkEmptyFirst(cs: seq<string>)
    ensures Walk(Path(true, []), [""] + cs) == Walk(Path(true, []), cs)
  {
    WalkAppend(Path(true, []), [""], cs);
    assert [""][..0] == [];
  }

  lemma CleanIdempotent(s: string)
    ensures Clean(Clean(s)) == Clean(s)
  {
    ParseNormal(s);
    RenderRoundTrip(Parse(s));
  }

  // ----- The prefix test

  ghost predicate Below(d: Path, e: Path) {
    d.rooted == e.rooted && |d.comps| < |e.comps| && e.comps[..|d.comps|] == d.comps
  }

  lemma {:induction false} JoinedPrefixIff(e: seq<string>, d: seq<string>)
    requires e != [] && d != []
    requires forall i :: 0 <= i < |e| ==> '/' !in e[i]
    requires forall i :: 0 <= i < |d| ==> '/' !in d[i]
    ensures HasPrefix(Join(e, "/"), Join(d, "/") + "/") <==> |d| < |e| && e[..|d|] == d
  {
    var s, prefix := Join(e, "/"), Join(d, "/") + "/";
    var restD := if |d| == 1 then "" else Join(d[1..], "/") + "/";
    assert prefix == d[0] + "/" + restD;
    if HasPrefix(s, prefix) {
      assert s == prefix + s[|prefix|..];
      assert s == d[0] + "/" + (restD + s[|prefix|..]);
      assert s[|d[0]|] == '/';
      if |e| == 1 {
        assert false;
      }
      FirstCharUnique(e[0], Join(e[1..], "/"), d[0], restD + s[|prefix|..], '/');
      assert HasPrefix(Join(e[1..], "/"), restD);
    }
    if |d| > 1 && |e| > 1 {
      JoinedPrefixIff(e[1..], d[1..]);
      if |d| < |e| && e[..|d|] == d {
        assert e[1..][..|d| - 1] == d[1..];
      }
      if e[0] == d[0] && |d| < |e| && e[1..][..|d| - 1] == d[1..] {
        assert e[..|d|] == [e[0]] + e[1..][..|d| - 1];
      }
    }
    if |e| > 1 && e[0] == d[0] && HasPrefix(Join(e[1..], "/"), restD) {
      assert s == d[0] + "/" + Join(e[1..], "/");
      assert s[..|prefix|] == prefix;
    }
  }

  /**
   * On cleaned paths the textual test with an appended separator says exactly that the entry lies strictly
   * below the destination. A destination without components (the root, or the current directory) fails it.
   */
  lemma PrefixTestIff(d: Path, e: Path)
    requires Normal(d) && Normal(e)
    ensures HasPrefix(Render(e), Render(d) + "/") <==> d.comps != [] && Below(d, e)
  {
    var s, prefix := Render(e), Render(d) + "/";
    if d.comps == [] {
      if e.comps != [] {
        EmptyDestination(d, e);
      }
    } else if e.comps == [] {
      assert |s| == 1 && |prefix| >= 2;
    } else {
      JoinedPrefixIff(e.comps, d.comps);
      var je, jd := Join(e.comps, "/"), Join(d.comps, "/") + "/";
      assert je[0] == e.comps[0][0] != '/' && jd[0] == d.comps[0][0] != '/';
      if e.rooted && d.rooted {
        assert s == "/" + je && prefix == "/" + jd;
        SamePrefix("/", je, jd);
      } else if !e.rooted && !d.rooted {
        assert s == je && prefix == jd;
      } else {
        assert s[0] != prefix[0];
        if |prefix| <= |s| {
          assert s[..|prefix|][0] == s[0];
        }
      }
    }
  }

  lemma EmptyDestination(d: Path, e: Path)
    requires d.comps == [] && e.comps != [] && Component(e.comps[0])
    ensures !HasPrefix(Render(e), Render(d) + "/")
  {
    var s, prefix, c := Render(e), Render(d) + "/", e.comps[0];
    JoinStart(e.comps);
    assert |prefix| == 2 && prefix[1] == '/';
    if |s| >= 2 {
      if e.rooted {
        assert s[1] == c[0];
      } else {
        assert s == Join(e.comps, "/");
        assert s[0] == c[0] && (|c| > 1 ==> s[1] == c[1]);
      }
      assert s[0] != prefix[0] || s[1] != prefix[1];
      assert s[..2][0] == s[0] && s[..2][1] == s[1];
    }
  }

  lemma SamePrefix(head: string, s: string, prefix: string)
    ensures HasPrefix(head + s, head + prefix) <==> HasPrefix(s, prefix)
  {
    if |prefix| <= |s| {
      assert (head + s)[..|head + prefix|] == head + s[..|prefix|];
      assert (head + prefix)[|head|..] == prefix && (head + s[..|prefix|])[|head|..] == s[..|prefix|];
    }
  }

  lemma EmptyParse()
    ensures Parse("") == Path(false, [])
  {
    NoOccurrence("", "/");
    var parts := Split("", "/");
    assert parts == [""] && parts[..0] == [];
    assert Walk(Path(false, []), parts) == Walk1(Walk(Path(false, []), parts[..0]), parts[0]);
  }

  /** Nothing is accepted below the empty destination, which stands for the current directory. */
  lemma EmptyRejects(name: string)
    ensures Parse("").comps == [] && !Accepts("", name)
  {
    EmptyParse();
    ParseNormal("");
    ParseNormal(name);
    CleanIdempotent(name);
    PrefixTestIff(Parse(""), Parse(name));
    assert Clean(JoinPath("", name)) == Clean(name);
  }

  lemma AcceptsBelowIff(dest: string, name: string)
    requires dest != ""
    ensures Accepts(dest, name)
       <==> Parse(dest).comps != [] && Below(Parse(dest), Walk(Parse(dest), Split(name, "/")))
  {
    var whole := dest + "/" + name;
    CleanIdempotent(whole);
    ParseNormal(dest);
    ParseNormal(whole);
    PrefixTestIff(Parse(dest), Parse(whole));
    SplitConcat(dest, name);
    assert whole[0] == dest[0];
    WalkAppend(Path(dest[0] == '/', []), Split(dest, "/"), Split(name, "/"));
  }

  /** An entry is accepted exactly when walking its name from the destination ends strictly below it. */
  lemma AcceptsIff(dest: string, name: string)
    ensures Accepts(dest, name)
       <==> Parse(dest).comps != [] && Below(Parse(dest), Walk(Parse(dest), Split(name, "/")))
  {
    if dest == "" {
      EmptyRejects(name);
    } else {
      AcceptsBelowIff(dest, name);
    }
  }

  lemma SplitBefore(c: string, tail: string, b: string)
    requires '/' !in c
    ensures Split(c + "/" + tail + "/" + b, "/") == [c] + Split(tail + "/" + b, "/")
  {
    assert c + "/" + tail + "/" + b == c + ['/'] + (tail + "/" + b);
    SplitAtChar(c, '/', tail + "/" + b);
  }

  lemma {:induction false} SplitJoined(cs: seq<string>, b: string)
    requires cs != [] && forall i :: 0 <= i < |cs| ==> '/' !in cs[i]
    ensures Split(Join(cs, "/") + "/" + b, "/") == cs + Split(b, "/")
  {
    if |cs| == 1 {
      SplitAtChar(cs[0], '/', b);
    } else {
      SplitJoined(cs[1..], b);
      SplitBefore(cs[0], Join(cs[1..], "/"), b);
      assert [cs[0]] + (cs[1..] + Split(b, "/")) == cs + Split(b, "/");
    }
  }

  lemma SplitConcat(a: string, b: string)
    ensures Split(a + "/" + b, "/") == Split(a, "/") + Split(b, "/")
  {
    JoinSplit(a, "/");
    forall k | 0 <= k < |Split(a, "/")| ensures '/' !in Split(a, "/")[k] {
      PartsAreFree(a, "/", k);
      ContainsChar(Split(a, "/")[k], '/');
    }
    SplitJoined(Split(a, "/"), b);
  }

  // ----- Containment

  /** Below the destination without climbing out of it again: the rest of the path has no parent reference. */
  ghost predicate Contained(d: Path, e: Path) {
    Below(d, e) && forall i :: |d.comps| <= i < |e.comps| ==> e.comps[i] != ".."
  }

  /** Whether the destination's cleaned path ends in a parent reference. */
  predicate EndsAbove(d: Path) {
    d.comps != [] && d.comps[|d.comps| - 1] == ".."
  }

  /** Parent references stand only at the front, so none can follow a destination that does not end in one. */
  lemma BelowIsContained(d: Path, e: Path)
    requires Normal(e) && Below(d, e) && d.comps != [] && !EndsAbove(d)
    ensures Contained(d, e)
  {
    assert d.comps[|d.comps| - 1] == e.comps[|d.comps| - 1];
  }

  lemma WholeTarget(dest: string, name: string)
    requires dest != ""
    ensures Normal(Target(dest, name)) && Target(dest, name) == Walk(Parse(dest), Split(name, "/"))
  {
    var whole := dest + "/" + name;
    ParseNormal(whole);
    RenderRoundTrip(Parse(whole));
    SplitConcat(dest, name);
    assert whole[0] == dest[0];
    WalkAppend(Path(dest[0] == '/', []), Split(dest, "/"), Split(name, "/"));
  }

  lemma AcceptedIsContained(dest: string, name: string)
    requires Accepts(dest, name) && !EndsAbove(Parse(dest))
    ensures Contained(Parse(dest), Target(dest, name))
  {
    AcceptsIff(dest, name);
    EmptyRejects(name);
    WholeTarget(dest, name);
    BelowIsContained(Parse(dest), Target(dest, name));
  }

  const CLIMBING := "../x"

  lemma ClimbingParts()
    ensures Split(CLIMBING, "/") == ["..", "x"]
  {
    SplitAtChar("..", '/', "x");
    ContainsChar("x", '/');
    NoOccurrence("x", "/");
    assert CLIMBING == ".." + ['/'] + "x";
  }

  lemma WalkTwo(p: Path, a: string, b: string)
    ensures Walk(p, [a, b]) == Walk1(Walk1(p, a), b)
  {
    assert [a, b][..1] == [a] && [a][..0] == [];
    assert Walk(p, [a]) == Walk1(Walk(p, [a][..0]), a);
  }

  lemma ClimbingWalk(d: Path)
    requires Normal(d) && EndsAbove(d)
    ensures var e := Walk(d, ["..", "x"]);
            e == d.(comps := d.comps + ["..", "x"]) && Below(d, e) && !Contained(d, e)
  {
    WalkTwo(d, "..", "x");
    var e := Walk(d, ["..", "x"]);
    assert e.comps == d.comps + [".."] + ["x"] == d.comps + ["..", "x"];
    assert e.comps[|d.comps|] == "..";
  }

  /** A destination that ends in a parent reference accepts a name that climbs out of it. */
  lemma ClimbingEscapes(dest: string, name: string)
    requires EndsAbove(Parse(dest)) && Split(name, "/") == ["..", "x"]
    ensures Accepts(dest, name) && !Contained(Parse(dest), Target(dest, name))
    ensures Target(dest, name).comps == Parse(dest).comps + ["..", "x"]
  {
    EmptyRejects(name);
    ParseNormal(dest);
    AcceptsIff(dest, name);
    WholeTarget(dest, name);
    ClimbingWalk(Parse(dest));
  }

  /**
   * The prefix test keeps every entry inside the destination exactly when the destination's cleaned path does not
   * end in a parent reference.
   */
  lemma ContainedIff(dest: string)
    ensures (forall name :: Accepts(dest, name) ==> Contained(Parse(dest), Target(dest, name)))
       <==> !EndsAbove(Parse(dest))
  {
    if EndsAbove(Parse(dest)) {
      ClimbingParts();
      ClimbingEscapes(dest, CLIMBING);
    } else {
      forall name | Accepts(dest, name) ensures Contained(Parse(dest), Target(dest, name)) {
        AcceptedIsContained(dest, name);
      }
    }
  }

  // ----- The extraction loop

  datatype Entry = Directory(name: string) | File(name: string, data: Bytes)

  function Parent(p: Path): Path {
    if p.comps == [] then p else p.(comps := p.comps[..|p.comps| - 1])
  }

  function Target(dest: string, name: string): Path {
    Parse(JoinPath(dest, name))
  }

  /** What the entries write, by cleaned path; a later entry overwrites an earlier one. */
  function Written(dest: string, entries: seq<Entry>): map<Path, Bytes> {
    if entries == [] then map[] else
      var before, e := Written(dest, entries[..|entries| - 1]), entries[|entries| - 1];
      if e.Directory? then before else before[Target(dest, e.name) := e.data]
  }

  /** The directory an entry asks for: itself, or the one its file lies in. */
  function Asked(dest: string, e: Entry): Path {
    if e.Directory? then Target(dest, e.name) else Parent(Target(dest, e.name))
  }

  predicate WritesTo(dest: string, e: Entry, p: Path) {
    e.File? && Target(dest, e.name) == p
  }

  /** A path holds what the last entry for it brings. */
  lemma {:induction false} WrittenLast(dest: string, entries: seq<Entry>, p: Path, i: nat)
    requires i < |entries| && WritesTo(dest, entries[i], p)
    requires forall k :: i < k < |entries| ==> !WritesTo(dest, entries[k], p)
    ensures p in Written(dest, entries) && Written(dest, entries)[p] == entries[i].data
  {
    var n := |entries| - 1;
    if i < n {
      assert entries[..n][i] == entries[i];
      forall k | i < k < n ensures !WritesTo(dest, entries[..n][k], p) {
        assert entries[..n][k] == entries[k];
      }
      WrittenLast(dest, entries[..n], p, i);
      assert !WritesTo(dest, entries[n], p);
    }
  }

  /** A path no entry is for is not written. */
  lemma {:induction false} WrittenOnly(dest: string, entries: seq<Entry>, p: Path)
    requires forall k :: 0 <= k < |entries| ==> !WritesTo(dest, entries[k], p)
    ensures p !in Written(dest, entries)
  {
    if entries != [] {
      var n := |entries| - 1;
      forall k | 0 <= k < n ensures !WritesTo(dest, entries[..n][k], p) {
        assert entries[..n][k] == entries[k];
      }
      WrittenOnly(dest, entries[..n], p);
      assert !WritesTo(dest, entries[n], p);
    }
  }

  function Image<T, U(==)>(xs: seq<T>, f: T -> U): set<U> {
    set i | 0 <= i < |xs| :: f(xs[i])
  }

  lemma ImageNext<T, U>(xs: seq<T>, f: T -> U, k: nat)
    requires k < |xs|
    ensures Image(xs[..k + 1], f) == Image(xs[..k], f) + {f(xs[k])}
  {
    assert xs[..k + 1] == xs[..k] + [xs[k]];
    forall u | u in Image(xs[..k], f) ensures u in Image(xs[..k + 1], f) {
      var i :| 0 <= i < k && f(xs[..k][i]) == u;
      assert f(xs[..k + 1][i]) == u;
    }
    assert f(xs[..k + 1][k]) in Image(xs[..k + 1], f);
  }

  lemma ImageHas<T, U>(xs: seq<T>, f: T -> U, i: nat)
    requires i < |xs|
    ensures f(xs[i]) in Image(xs, f)
  {
  }

  /** The directories the entries ask for. */
  function Directories(dest: string, entries: seq<Entry>): set<Path> {
    Image(entries, e => Asked(dest, e))
  }

  lemma AskedIs(dest: string, e: Entry)
    ensures e.Directory? ==> Asked(dest, e) == Target(dest, e.name)
    ensures e.File? ==> Asked(dest, e) == Parent(Target(dest, e.name))
  {
  }

  /** The directory of each entry is there: a directory's own, and the one a file lies in. */
  lemma DirectoriesHave(dest: string, entries: seq<Entry>, i: nat)
    requires i < |entries|
    ensures entries[i].Directory? ==> Target(dest, entries[i].name) in Directories(dest, entries)
    ensures entries[i].File? ==> Parent(Target(dest, entries[i].name)) in Directories(dest, entries)
  {
    ImageHas(entries, e => Asked(dest, e), i);
    AskedIs(dest, entries[i]);
  }

  ghost predicate AllAccepted(dest: string, entries: seq<Entry>) {
    entries == [] || (AllAccepted(dest, entries[..|entries| - 1]) && Accepts(dest, entries[|entries| - 1].name))
  }

  /** Every path starts with the destination's components. */
  ghost predicate UnderPrefix(dest: string, files: set<Path>, directories: set<Path>) {
    && (forall p :: p in files ==> Below(Parse(dest), p))
    && (forall p :: p in directories ==> p == Parse(dest) || Below(Parse(dest), p))
  }

  /** Nothing was written outside the destination. */
  ghost predicate Inside(dest: string, files: set<Path>, directories: set<Path>) {
    && (forall p :: p in files ==> Contained(Parse(dest), p))
    && (forall p :: p in directories ==> p == Parse(dest) || Contained(Parse(dest), p))
  }

  /** Unpacks entry by entry and stops at the first one that fails the test. */
  method Extract(dest: string, entries: seq<Entry>)
    returns (ok: bool, files: map<Path, Bytes>, directories: set<Path>, count: nat)
    ensures count <= |entries| && (ok <==> count == |entries|)
    ensures AllAccepted(dest, entries[..count])
    ensures !ok ==> !Accepts(dest, entries[count].name)
    ensures files == Written(dest, entries[..count])
    ensures directories == Directories(dest, entries[..count])
    ensures UnderPrefix(dest, files.Keys, directories)
    ensures !EndsAbove(Parse(dest)) ==> Inside(dest, files.Keys, directories)
  {
    files, directories, count := map[], {}, 0;
    while count < |entries|
      invariant count <= |entries|
      invariant AllAccepted(dest, entries[..count])
      invariant files == Written(dest, entries[..count])
      invariant directories == Directories(dest, entries[..count])
      invariant UnderPrefix(dest, files.Keys, directories)
      invariant !EndsAbove(Parse(dest)) ==> Inside(dest, files.Keys, directories)
    {
      var e := entries[count];
      if !Accepts(dest, e.name) {
        ok := false;
        return;
      }
      AcceptedBelow(dest, e.name);
      if !EndsAbove(Parse(dest)) { ParentContained(dest, e.name); }
      WrittenNext(dest, entries, count);
      ImageNext(entries, e => Asked(dest, e), count);
      var p := Target(dest, e.name);
      if e.Directory? {
        directories := directories + {p};
      } else {
        directories := directories + {Parent(p)};
        files := files[p := e.data];
      }
      count := count + 1;
    }
    ok := true;
    assert entries[..count] == entries;
  }

  lemma WrittenNext(dest: string, entries: seq<Entry>, k: nat)
    requires k < |entries|
    ensures Written(dest, entries[..k + 1]) ==
            var before, e := Written(dest, entries[..k]), entries[k];
            if e.Directory? then before else before[Target(dest, e.name) := e.data]
    ensures AllAccepted(dest, entries[..k + 1]) <==> AllAccepted(dest, entries[..k]) && Accepts(dest, entries[k].name)
  {
    assert entries[..k + 1][..k] == entries[..k];
  }

  lemma AcceptedBelow(dest: string, name: string)
    requires Accepts(dest, name)
    ensures Below(Parse(dest), Target(dest, name))
    ensures Parent(Target(dest, name)) == Parse(dest) || Below(Parse(dest), Parent(Target(dest, name)))
  {
    AcceptsIff(dest, name);
    EmptyRejects(name);
    var whole := dest + "/" + name;
    ParseNormal(dest);
    ParseNormal(whole);
    RenderRoundTrip(Parse(whole));
    CleanIdempotent(whole);
    PrefixTestIff(Parse(dest), Parse(whole));
    var p := Target(dest, name);
    assert Parent(p).comps[..|Parse(dest).comps|] == p.comps[..|Parse(dest).comps|];
  }

  lemma ParentContained(dest: string, name: string)
    requires Accepts(dest, name) && !EndsAbove(Parse(dest))
    ensures Contained(Parse(dest), Target(dest, name))
    ensures Parent(Target(dest, name)) == Parse(dest) || Contained(Parse(dest), Parent(Target(dest, name)))
  {
    AcceptedIsContained(dest, name);
    AcceptedBelow(dest, name);
  }
}
