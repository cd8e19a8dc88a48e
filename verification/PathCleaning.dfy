/** What cleaning does to a path text, part by part, without reference to how it walks. */
module PathCleaning {
  import opened Archive
  import opened Text

  /** A named part: neither empty nor a reference to the directory itself or to its parent. */
  predicate Named(c: string) {
    Component(c) && c != ".."
  }

  lemma ParseStep(s: string, c: string)
    requires s != "" && '/' !in c
    ensures Parse(s + "/" + c) == Walk1(Parse(s), c)
  {
    var root := Path(s[0] == '/', []);
    assert (s + "/" + c)[0] == s[0];
    SplitConcat(s, c);
    SplitSlashFree(c);
    WalkAppend(root, Split(s, "/"), [c]);
    assert [c][..0] == [];
    assert Walk(Parse(s), [c]) == Walk1(Walk(Parse(s), [c][..0]), c);
  }

  // ----- Parts that leave nothing behind

  /** Going to a named part and back again is going nowhere. */
  lemma CleanUndoes(s: string, c: string)
    requires s != "" && Named(c)
    ensures Clean(s + "/" + c + "/..") == Clean(s)
  {
    var p := Parse(s);
    ParseStep(s, c);
    ParseStep(s + "/" + c, "..");
    assert s + "/" + c + "/" + ".." == s + "/" + c + "/..";
    assert (p.comps + [c])[..|p.comps|] == p.comps;
  }

  /** Neither does a doubled separator count, nor a reference to the directory itself. */
  lemma CleanSkips(s: string)
    requires s != ""
    ensures Clean(s + "/") == Clean(s) && Clean(s + "/.") == Clean(s)
  {
    ParseStep(s, "");
    ParseStep(s, ".");
    assert s + "/" + "" == s + "/";
    assert s + "/" + "." == s + "/.";
  }

  // ----- Parts that stay

  lemma {:induction false} JoinSnoc(cs: seq<string>, c: string)
    requires cs != []
    ensures Join(cs + [c], "/") == Join(cs, "/") + "/" + c
  {
    if |cs| > 1 {
      JoinSnoc(cs[1..], c);
      assert (cs + [c])[1..] == cs[1..] + [c];
    } else {
      assert (cs + [c])[1..] == [c];
    }
  }

  /** The text of a path with one more component. */
  function Deeper(cleaned: string, c: string): string {
    if cleaned == "." then c else if cleaned == "/" then "/" + c else cleaned + "/" + c
  }

  lemma RenderedEmptyIff(p: Path)
    requires Normal(p)
    ensures Render(p) == "." <==> p == Path(false, [])
    ensures Render(p) == "/" <==> p == Path(true, [])
  {
    RenderRoundTrip(p);
    RenderRoundTripEmpty(true);
    RenderRoundTripEmpty(false);
    assert Render(Path(true, [])) == "/" && Render(Path(false, [])) == ".";
  }

  lemma RenderNext(p: Path, c: string)
    requires p.comps != []
    ensures Render(p.(comps := p.comps + [c])) == Render(p) + "/" + c
  {
    JoinSnoc(p.comps, c);
    var joined := Join(p.comps, "/");
    assert "/" + (joined + "/" + c) == "/" + joined + "/" + c;
  }

  lemma RenderDeeper(p: Path, c: string)
    requires Normal(p)
    ensures Render(p.(comps := p.comps + [c])) == Deeper(Render(p), c)
  {
    RenderedEmptyIff(p);
    if p.comps == [] {
      assert p.comps + [c] == [c];
      assert Join([c], "/") == c;
    } else {
      RenderNext(p, c);
    }
  }

  /** A named part is appended. */
  lemma CleanDescends(s: string, c: string)
    requires s != "" && Named(c)
    ensures Clean(s + "/" + c) == Deeper(Clean(s), c)
  {
    ParseStep(s, c);
    ParseNormal(s);
    RenderDeeper(Parse(s), c);
  }

  /** The root is its own parent; below it, where nothing is left to leave, parent references pile up. */
  lemma CleanClimbs(s: string)
    requires s != ""
    ensures Clean(s) == "/" ==> Clean(s + "/..") == "/"
    ensures Clean(s) == "." || EndsAbove(Parse(s)) ==> Clean(s + "/..") == Deeper(Clean(s), "..")
  {
    ParseStep(s, "..");
    ParseNormal(s);
    RenderRoundTrip(Parse(s));
    RenderRoundTripEmpty(true);
    RenderRoundTripEmpty(false);
    RenderDeeper(Parse(s), "..");
    assert s + "/" + ".." == s + "/..";
  }

  lemma LastPart(u: string, cs: seq<string>, c: string)
    requires Split(u + "/" + c, "/") == cs && '/' !in c
    ensures cs != [] && cs[|cs| - 1] == c
  {
    SplitConcat(u, c);
    SplitSlashFree(c);
  }

  lemma RenderedParts(p: Path)
    requires Normal(p) && p.comps != []
    ensures Split(Render(p), "/") == (if p.rooted then [""] else []) + p.comps
  {
    assert Component(p.comps[0]);
    SplitJoin(p.comps);
    if p.rooted {
      assert Render(p) == "" + ['/'] + Join(p.comps, "/");
      SplitAtChar("", '/', Join(p.comps, "/"));
    } else {
      assert Render(p) == Join(p.comps, "/");
    }
  }

  lemma EndsInParent(p: Path, u: string)
    requires Normal(p) && p.comps != [] && Render(p) == u + "/" + ".."
    ensures EndsAbove(p)
  {
    RenderedParts(p);
    LastPart(u, Split(Render(p), "/"), "..");
  }

  lemma IsParent(p: Path)
    requires Normal(p) && p.comps != [] && Render(p) == ".."
    ensures EndsAbove(p)
  {
    RenderedParts(p);
    SplitSlashFree("..");
  }

  lemma RenderedLength(p: Path, u: string)
    requires Normal(p) && (Render(p) == ".." || Render(p) == u + "/" + "..")
    ensures p.comps != []
  {
    RenderedEmptyIff(p);
    assert |u + "/" + ".."| >= 3;
  }

  lemma ParentAtEnd(p: Path) returns (u: string)
    requires Normal(p) && EndsAbove(p)
    ensures Render(p) == ".." || Render(p) == u + "/" + ".."
  {
    var n := |p.comps| - 1;
    assert p.comps == p.comps[..n] + [".."];
    if n > 0 {
      JoinSnoc(p.comps[..n], "..");
      u := Join(p.comps[..n], "/");
    } else {
      u := "";
    }
  }

  /** A path ends above when its cleaned text is a parent reference, or ends in one. */
  lemma EndsAboveIff(s: string)
    ensures EndsAbove(Parse(s)) <==> Clean(s) == ".." || exists u :: Clean(s) == u + "/" + ".."
  {
    ParseNormal(s);
    if EndsAbove(Parse(s)) {
      var u := ParentAtEnd(Parse(s));
    } else if Clean(s) == ".." {
      RenderedLength(Parse(s), "");
      IsParent(Parse(s));
    } else if u :| Clean(s) == u + "/" + ".." {
      RenderedLength(Parse(s), u);
      EndsInParent(Parse(s), u);
    }
  }

  // ----- Where a path starts

  lemma CleanRendered(p: Path, s: string)
    requires Normal(p) && Render(p) == s
    ensures Clean(s) == s
  {
    RenderRoundTrip(p);
  }

  /** Paths of one part, relative and from the root. */
  lemma CleanStarts(c: string)
    requires Named(c)
    ensures Clean("") == "." && Clean(".") == "." && Clean("..") == ".." && Clean(c) == c
    ensures Clean("/") == "/" && Clean("/" + c) == "/" + c && Clean("/..") == "/"
  {
    EmptyParse();
    CleanRendered(Path(false, []), ".");
    CleanRendered(Path(false, [".."]), "..");
    CleanRendered(Path(false, [c]), c);
    CleanRendered(Path(true, []), "/");
    CleanRendered(Path(true, [c]), "/" + c);
    RootParent();
  }

  lemma RootParent()
    ensures Clean("/..") == "/"
  {
    SplitAtChar("", '/', "..");
    SplitSlashFree("..");
    assert "/.." == "" + ['/'] + "..";
    WalkTwo(Path(true, []), "", "..");
    assert Split("/..", "/") == ["", ".."];
  }

  /** What follows a path depends on its cleaned text alone. */
  lemma CleanCongruent(s: string, t: string)
    requires s != ""
    ensures Clean(s + "/" + t) == Clean(Clean(s) + "/" + t)
  {
    ParseNormal(s);
    RenderRoundTrip(Parse(s));
    ParseNormal(Clean(s));
    assert Clean(s) != "" by {
      if Parse(s).comps != [] {
        assert Component(Parse(s).comps[0]);
        JoinStart(Parse(s).comps);
      }
    }
    AppendWalks(s, t);
    AppendWalks(Clean(s), t);
  }

  lemma AppendWalks(s: string, t: string)
    requires s != ""
    ensures Parse(s + "/" + t) == Walk(Parse(s), Split(t, "/"))
  {
    assert (s + "/" + t)[0] == s[0];
    SplitConcat(s, t);
    WalkAppend(Path(s[0] == '/', []), Split(s, "/"), Split(t, "/"));
  }

  // ----- What the test accepts

  /** A name is accepted below every destination but the root and the current directory, and lands there. */
  lemma PlainAcceptedIff(dest: string, x: string)
    requires Named(x)
    ensures Accepts(dest, x) <==> Clean(dest) != "/" && Clean(dest) != "."
    ensures dest != "" ==> Clean(JoinPath(dest, x)) == Deeper(Clean(dest), x)
  {
    ParseNormal(dest);
    RenderRoundTrip(Parse(dest));
    RenderRoundTripEmpty(true);
    RenderRoundTripEmpty(false);
    SplitSlashFree(x);
    AcceptsIff(dest, x);
    assert [x][..0] == [];
    assert Walk(Parse(dest), [x]) == Walk1(Walk(Parse(dest), [x][..0]), x);
    if dest != "" {
      CleanDescends(dest, x);
      CleanIdempotent(dest + "/" + x);
    }
  }

  /** It lies in the destination. */
  lemma PlainParent(dest: string, x: string)
    requires dest != "" && Named(x)
    ensures Parent(Target(dest, x)) == Parse(dest)
  {
    ParseStep(dest, x);
    ParseNormal(dest + "/" + x);
    RenderRoundTrip(Parse(dest + "/" + x));
    assert (Parse(dest).comps + [x])[..|Parse(dest).comps|] == Parse(dest).comps;
  }

  /** A name that leaves the destination is refused, unless the destination itself ends in a parent reference. */
  lemma LeavingIsRefused(dest: string, x: string)
    requires !EndsAbove(Parse(dest)) && Named(x)
    ensures !Accepts(dest, "../" + x)
  {
    var d := Parse(dest);
    SplitAtChar("..", '/', x);
    SplitSlashFree(x);
    assert ".." + ['/'] + x == "../" + x;
    assert Split("../" + x, "/") == ["..", x];
    WalkTwo(d, "..", x);
    AcceptsIff(dest, "../" + x);
    if d.comps != [] {
      assert Walk(d, ["..", x]).comps == d.comps[..|d.comps| - 1] + [x];
    }
  }
}
