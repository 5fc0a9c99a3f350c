/**
 * The lexical part of Go's path/filepath on a system whose separator is
 * '/': Clean, IsAbs, Join and Rel. No file system is consulted.
 *
 * Clean is described by the elements it keeps: the path is split at '/',
 * empty and "." elements are dropped, ".." removes the element before it
 * unless that is itself "..", ".." at the start of a rooted path is
 * dropped and ".." at the start of a relative path is kept.
 */
module Paths {
  import opened Wrappers
  import opened Text

  /** An element as Clean leaves it: non-empty, without '/', not ".". */
  predicate IsElem(e: string) {
    e != "" && '/' !in e && e != "."
  }

  /** An element that names a child rather than the parent. */
  predicate IsNormal(e: string) {
    IsElem(e) && e != ".."
  }

  predicate AllNormal(es: seq<string>) {
    forall i :: 0 <= i < |es| ==> IsNormal(es[i])
  }

  predicate AllDotDot(es: seq<string>) {
    forall i :: 0 <= i < |es| ==> es[i] == ".."
  }

  /** A cleaned path: whether it starts at '/', and the elements that follow. */
  datatype CleanPath = CleanPath(rooted: bool, elems: seq<string>)

  /** What Clean produces: a rooted path holds no "..", a relative one holds ".." only at its start. */
  predicate WellFormed(p: CleanPath) {
    && (forall i :: 0 <= i < |p.elems| ==> IsElem(p.elems[i]))
    && (p.rooted ==> forall i :: 0 <= i < |p.elems| ==> p.elems[i] != "..")
    && (forall i, j :: 0 <= i < j < |p.elems| && p.elems[j] == ".." ==> p.elems[i] == "..")
  }

  /** Applies one element of the input to the elements kept so far. */
  function Step(rooted: bool, kept: seq<string>, e: string): seq<string> {
    if e == "" || e == "." then kept
    else if e == ".." then
      if |kept| > 0 && kept[|kept| - 1] != ".." then kept[..|kept| - 1]
      else if rooted then kept
      else kept + [".."]
    else kept + [e]
  }

  function Reduce(rooted: bool, kept: seq<string>, rest: seq<string>): seq<string>
    decreases |rest|
  {
    if rest == [] then kept else Reduce(rooted, Step(rooted, kept, rest[0]), rest[1..])
  }

  function Parse(s: string): CleanPath {
    var rooted := |s| > 0 && s[0] == '/';
    CleanPath(rooted, Reduce(rooted, [], Split(s, '/')))
  }

  function Render(p: CleanPath): string {
    if p.rooted then "/" + Join(p.elems, '/')
    else if p.elems == [] then "."
    else Join(p.elems, '/')
  }

  /** filepath.Clean. */
  function Clean(s: string): string {
    Render(Parse(s))
  }

  /** filepath.IsAbs. */
  predicate IsAbs(s: string) {
    HasPrefix(s, "/")
  }

  /** filepath.Join of two elements: empty elements are ignored and the result is cleaned. */
  function Join2(a: string, b: string): string {
    if a == "" then (if b == "" then "" else Clean(b))
    else Clean(a + "/" + b)
  }

  /** Length of the longest common prefix of two element lists. */
  function CommonPrefix(a: seq<string>, b: seq<string>): (k: nat)
    ensures k <= |a| && k <= |b|
    ensures a[..k] == b[..k]
    ensures k < |a| && k < |b| ==> a[k] != b[k]
    decreases |a|
  {
    if a == [] || b == [] || a[0] != b[0] then 0
    else
      var k := CommonPrefix(a[1..], b[1..]);
      assert a[..k + 1] == [a[0]] + a[1..][..k];
      assert b[..k + 1] == [b[0]] + b[1..][..k];
      k + 1
  }

  function Repeat(e: string, n: nat): (r: seq<string>)
    ensures |r| == n && forall i :: 0 <= i < n ==> r[i] == e
  {
    if n == 0 then [] else [e] + Repeat(e, n - 1)
  }

  /**
   * filepath.Rel: a path that, joined to `basepath`, names `targpath`.
   * A relative base of "." stands for no elements; a relative target of
   * "." is compared as the one element ".".
   */
  function Rel(basepath: string, targpath: string): Result<string, string> {
    var base := Parse(basepath);
    var targ := Parse(targpath);
    var failure := "Rel: can't make " + targpath + " relative to " + basepath;
    if Clean(targpath) == Clean(basepath) then Ok(".")
    else if base.rooted != targ.rooted then Err(failure)
    else
      var t := if !targ.rooted && targ.elems == [] then ["."] else targ.elems;
      var k := CommonPrefix(base.elems, t);
      if k < |base.elems| && base.elems[k] == ".." then Err(failure)
      else if k < |base.elems| then Ok(Join(Repeat("..", |base.elems| - k) + t[k..], '/'))
      else Ok(Join(t[k..], '/'))
  }

  // ----- Clean produces well-formed paths, and cleaning twice changes nothing -----

  lemma StepKeepsWellFormed(rooted: bool, kept: seq<string>, e: string)
    requires WellFormed(CleanPath(rooted, kept))
    requires '/' !in e
    ensures WellFormed(CleanPath(rooted, Step(rooted, kept, e)))
  {
    var r := Step(rooted, kept, e);
    if e == ".." && !(|kept| > 0 && kept[|kept| - 1] != "..") && !rooted {
      assert forall i :: 0 <= i < |kept| ==> kept[i] == ".." by {
        forall i | 0 <= i < |kept| ensures kept[i] == ".." {
          if i < |kept| - 1 {
            assert kept[|kept| - 1] == "..";
          }
        }
      }
    }
  }

  lemma {:induction false} ReduceKeepsWellFormed(rooted: bool, kept: seq<string>, rest: seq<string>)
    requires WellFormed(CleanPath(rooted, kept))
    requires forall i :: 0 <= i < |rest| ==> '/' !in rest[i]
    ensures WellFormed(CleanPath(rooted, Reduce(rooted, kept, rest)))
    decreases |rest|
  {
    if rest != [] {
      StepKeepsWellFormed(rooted, kept, rest[0]);
      ReduceKeepsWellFormed(rooted, Step(rooted, kept, rest[0]), rest[1..]);
    }
  }

  /** Whatever the input, Clean's elements have the well-formed shape. */
  lemma ParseWellFormed(s: string)
    ensures WellFormed(Parse(s))
  {
    var rooted := |s| > 0 && s[0] == '/';
    ReduceKeepsWellFormed(rooted, [], Split(s, '/'));
  }

  /** Reducing a concatenation is reducing the first part, then the second. */
  lemma {:induction false} ReduceAppend(rooted: bool, kept: seq<string>, a: seq<string>, b: seq<string>)
    ensures Reduce(rooted, kept, a + b) == Reduce(rooted, Reduce(rooted, kept, a), b)
    decreases |a|
  {
    if a != [] {
      assert (a + b)[0] == a[0];
      assert (a + b)[1..] == a[1..] + b;
      ReduceAppend(rooted, Step(rooted, kept, a[0]), a[1..], b);
    } else {
      assert a + b == b;
    }
  }

  /** Elements that only name children are appended unchanged. */
  lemma {:induction false} ReduceNormal(rooted: bool, kept: seq<string>, rest: seq<string>)
    requires AllNormal(rest)
    ensures Reduce(rooted, kept, rest) == kept + rest
    decreases |rest|
  {
    if rest != [] {
      ReduceNormal(rooted, kept + [rest[0]], rest[1..]);
      assert kept + [rest[0]] + rest[1..] == kept + rest;
    }
  }

  /** A relative well-formed list, reduced after a run of "..", is appended unchanged. */
  lemma {:induction false} ReduceRelative(kept: seq<string>, rest: seq<string>)
    requires AllDotDot(kept)
    requires WellFormed(CleanPath(false, rest))
    ensures Reduce(false, kept, rest) == kept + rest
    decreases |rest|
  {
    if rest != [] {
      if rest[0] == ".." {
        assert WellFormed(CleanPath(false, rest[1..]));
        ReduceRelative(kept + [".."], rest[1..]);
      } else {
        assert AllNormal(rest[1..]) by {
          forall i | 0 <= i < |rest[1..]| ensures IsNormal(rest[1..][i]) {
            assert rest[1..][i] == rest[i + 1];
          }
        }
        ReduceNormal(false, kept + [rest[0]], rest[1..]);
      }
      assert kept + [rest[0]] + rest[1..] == kept + rest;
    }
  }

  lemma JoinHead(es: seq<string>)
    requires |es| >= 1 && es[0] != ""
    ensures |Join(es, '/')| >= 1 && Join(es, '/')[0] == es[0][0]
  {
    if |es| > 1 {
      assert Join(es, '/') == es[0] + ['/'] + Join(es[1..], '/');
    }
  }

  lemma ParseRenderRooted(p: CleanPath)
    requires WellFormed(p) && p.rooted
    ensures Parse(Render(p)) == p
  {
    var s := Render(p);
    if p.elems == [] {
      assert s == "/";
      assert Split(s, '/') == ["", ""];
      assert ["", ""][1..] == [""];
      assert Reduce(true, [], [""]) == [];
      assert Reduce(true, [], ["", ""]) == [];
    } else {
      assert s == [] + ['/'] + Join(p.elems, '/');
      SplitConcat([], Join(p.elems, '/'), '/');
      SplitJoin(p.elems, '/');
      assert Split(s, '/') == [""] + p.elems;
      ReduceAppend(true, [], [""], p.elems);
      ReduceNormal(true, [], p.elems);
    }
  }

  lemma ParseDot()
    ensures Parse(".") == CleanPath(false, [])
  {
    SplitNoSep(".", '/');
    assert Reduce(false, [], ["."]) == Reduce(false, [], []);
  }

  lemma ParseRenderRelative(p: CleanPath)
    requires WellFormed(p) && !p.rooted && p.elems != []
    ensures Parse(Render(p)) == p
  {
    JoinHead(p.elems);
    SplitJoin(p.elems, '/');
    ReduceRelative([], p.elems);
  }

  /** Parsing a rendered clean path gives the same path back. */
  lemma ParseRender(p: CleanPath)
    requires WellFormed(p)
    ensures Parse(Render(p)) == p
  {
    if p.rooted {
      ParseRenderRooted(p);
    } else if p.elems == [] {
      ParseDot();
    } else {
      ParseRenderRelative(p);
    }
  }

  /** Clean is idempotent. */
  lemma CleanIdempotent(s: string)
    ensures Clean(Clean(s)) == Clean(s)
  {
    ParseWellFormed(s);
    ParseRender(Parse(s));
  }

  /** Two paths clean to the same string exactly when they have the same elements. */
  lemma CleanEqIff(a: string, b: string)
    ensures Clean(a) == Clean(b) <==> Parse(a) == Parse(b)
  {
    ParseWellFormed(a);
    ParseWellFormed(b);
    if Clean(a) == Clean(b) {
      ParseRender(Parse(a));
      ParseRender(Parse(b));
    }
  }

  lemma ParseEmpty()
    ensures Parse("") == CleanPath(false, [])
  {
    assert Split("", '/') == [""];
    assert Reduce(false, [], [""]) == Reduce(false, [], []);
  }

  /** The first element of a joined list is a prefix of the result. */
  lemma JoinStartsWithFirst(es: seq<string>)
    requires |es| >= 1
    ensures HasPrefix(Join(es, '/'), es[0])
  {
    if |es| > 1 {
      var j := Join(es, '/');
      assert j == es[0] + ['/'] + Join(es[1..], '/');
      assert j[..|es[0]|] == es[0];
    }
  }

  // ----- Joining a descending relative path under a root -----

  /** A clean relative path whose elements all descend. */
  predicate Descends(c: string) {
    var p := Parse(c);
    !p.rooted && p.elems != [] && AllNormal(p.elems)
  }

  /** Joining a descending path under a root appends its elements to the root's. */
  lemma JoinDescends(root: string, c: string)
    requires Descends(c) && Clean(c) == c
    ensures Parse(Join2(root, c)) == CleanPath(Parse(root).rooted, Parse(root).elems + Parse(c).elems)
  {
    if root == "" {
      ParseEmpty();
      assert c != "" by {
        ParseEmpty();
      }
      assert Parse(root).elems + Parse(c).elems == Parse(c).elems;
    } else {
      JoinDescendsNonEmpty(root, c);
    }
  }

  lemma JoinDescendsNonEmpty(root: string, c: string)
    requires root != ""
    requires Descends(c) && Clean(c) == c
    ensures Parse(Join2(root, c)) == CleanPath(Parse(root).rooted, Parse(root).elems + Parse(c).elems)
  {
    var s := root + "/" + c;
    var rooted := |root| > 0 && root[0] == '/';
    assert s[0] == root[0];
    SplitConcat(root, c, '/');
    ReduceAppend(rooted, [], Split(root, '/'), Split(c, '/'));
    ParseWellFormed(c);
    assert c == Join(Parse(c).elems, '/');
    SplitJoin(Parse(c).elems, '/');
    ReduceNormal(rooted, Parse(root).elems, Parse(c).elems);
    assert Parse(s) == CleanPath(Parse(root).rooted, Parse(root).elems + Parse(c).elems);
    ParseWellFormed(s);
    ParseRender(Parse(s));
  }

  /** Rel of a descendant, made by joining a descending path under the base, is that path. */
  lemma RelOfJoin(root: string, c: string)
    requires Descends(c) && Clean(c) == c
    ensures Rel(root, Join2(root, c)) == Ok(c)
  {
    var target := Join2(root, c);
    JoinDescends(root, c);
    var base := Parse(root);
    var targ := Parse(target);
    var ce := Parse(c).elems;
    assert targ.elems == base.elems + ce;
    CleanEqIff(target, root);
    assert targ != base by {
      assert |targ.elems| > |base.elems|;
    }
    var k := CommonPrefix(base.elems, targ.elems);
    assert targ.elems[..|base.elems|] == base.elems;
    assert k == |base.elems|;
    assert targ.elems[k..] == ce;
  }

  /**
   * A cleaned path that is not ".", not absolute and does not start with
   * ".." descends: its elements are all ordinary names.
   */
  lemma CleanedRelativeDescends(raw: string)
    requires Clean(raw) != "." && !IsAbs(Clean(raw)) && !HasPrefix(Clean(raw), "..")
    ensures Descends(Clean(raw)) && Clean(Clean(raw)) == Clean(raw)
    ensures Parse(Clean(raw)) == Parse(raw)
  {
    var p := Parse(raw);
    var clean := Clean(raw);
    ParseWellFormed(raw);
    ParseRender(p);
    CleanIdempotent(raw);
    assert !p.rooted;
    assert p.elems != [];
    JoinStartsWithFirst(p.elems);
    assert p.elems[0] != "..";
    assert AllNormal(p.elems) by {
      forall i | 0 <= i < |p.elems| ensures IsNormal(p.elems[i]) {
      }
    }
  }
}
