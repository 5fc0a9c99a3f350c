/**
 * The path rules of the bot file-system REST handlers: a user-supplied
 * relative path is cleaned and joined under the bot's data root, errors
 * map to HTTP statuses, directory usage is a fold over the walked entries,
 * and the list, write and delete handlers apply their own extra rules.
 *
 * The file system itself is a parameter: `stat` answers os.Stat, the walk
 * is the sequence of callbacks filepath.WalkDir would make, and a listed
 * directory is the sequence os.ReadDir would return.
 */
module FsRest {
  import opened Wrappers
  import opened Text
  import opened Paths
  import Mcp

  /** The errors the handlers tell apart: os.ErrInvalid, a not-exist error, anything else. */
  datatype FsError = Invalid | NotExist | Other(message: string)

  datatype HttpError = HttpError(status: int, message: string)

  /** What os.FileInfo reports that the handlers use. */
  datatype FileInfo = FileInfo(isDir: bool, size: int, mode: nat, modTime: int)

  /** A listed entry: its path relative to the root, with '/' separators. */
  datatype Entry = Entry(path: string, isDir: bool, size: int, mode: nat, modTime: int)

  /** The target on disk and its path relative to the root. */
  datatype Resolved = Resolved(target: string, rel: string)

  /** resolveBotPath: where a request path lands under `root`, or os.ErrInvalid. */
  function ResolveBotPath(root: string, requestPath: string, allowRoot: bool): (r: Result<Resolved, FsError>)
    ensures r.Err? ==> r.error == Invalid
  {
    var raw := GoTrim(requestPath);
    if raw == "" then
      if allowRoot then Ok(Resolved(root, ".")) else Err(Invalid)
    else
      var clean := Clean(raw);
      if clean == "." || clean == "" then
        if allowRoot then Ok(Resolved(root, ".")) else Err(Invalid)
      else if IsAbs(clean) || HasPrefix(clean, "..") then Err(Invalid)
      else
        var target := Join2(root, clean);
        match Rel(root, target)
        case Err(_) => Err(Invalid)
        case Ok(rel) => if HasPrefix(rel, "..") then Err(Invalid) else Ok(Resolved(target, rel))
  }

  /** A blank request path names the root when the root is allowed, and is invalid otherwise. */
  lemma ResolveBlank(root: string, requestPath: string, allowRoot: bool)
    requires GoTrim(requestPath) == ""
    ensures ResolveBotPath(root, requestPath, allowRoot)
            == if allowRoot then Ok(Resolved(root, ".")) else Err(Invalid)
  {
  }

  /** A path that cleans to "." is treated exactly like a blank one. */
  lemma ResolveDotIsBlank(root: string, requestPath: string, allowRoot: bool)
    requires Clean(GoTrim(requestPath)) == "."
    ensures ResolveBotPath(root, requestPath, allowRoot) == ResolveBotPath(root, "", allowRoot)
  {
    assert GoTrim("") == "";
  }

  /** A cleaned path that is absolute or textually starts with ".." is rejected. */
  lemma ResolveRejectsEscapes(root: string, requestPath: string, allowRoot: bool)
    requires GoTrim(requestPath) != ""
    requires Clean(GoTrim(requestPath)) != "."
    requires IsAbs(Clean(GoTrim(requestPath))) || HasPrefix(Clean(GoTrim(requestPath)), "..")
    ensures ResolveBotPath(root, requestPath, allowRoot) == Err(Invalid)
  {
  }

  /** "..foo" names a child, but it starts with ".." and so is rejected all the same. */
  lemma ResolveRejectsDotDotName(root: string, allowRoot: bool)
    ensures ResolveBotPath(root, "..foo", allowRoot) == Err(Invalid)
  {
    var s := "..foo";
    DotDotFooClean();
    assert s[..2] == "..";
  }

  lemma DotDotFooClean()
    ensures GoTrim("..foo") == "..foo" && Clean("..foo") == "..foo"
  {
    var s := "..foo";
    TrimPadded("", s, "");
    assert "" + s + "" == s;
    NameDescends(s);
  }

  /**
   * The check after filepath.Rel never fires: once the earlier guards
   * pass, Rel gives back the cleaned path itself.
   */
  lemma ResolveRelCheckUnreachable(root: string, requestPath: string)
    requires GoTrim(requestPath) != ""
    requires Clean(GoTrim(requestPath)) != "."
    requires !IsAbs(Clean(GoTrim(requestPath))) && !HasPrefix(Clean(GoTrim(requestPath)), "..")
    ensures Rel(root, Join2(root, Clean(GoTrim(requestPath)))) == Ok(Clean(GoTrim(requestPath)))
  {
    CleanedRelativeDescends(GoTrim(requestPath));
    RelOfJoin(root, Clean(GoTrim(requestPath)));
  }

  /**
   * The sandbox invariant: a resolved path is either the root itself, or
   * the root's elements followed by at least one ordinary name, never "..";
   * the relative path reported is the cleaned request and does not start
   * with "..".
   */
  lemma ResolveContained(root: string, requestPath: string, allowRoot: bool)
    requires ResolveBotPath(root, requestPath, allowRoot).Ok?
    ensures var r := ResolveBotPath(root, requestPath, allowRoot).value;
      || (allowRoot && r == Resolved(root, "."))
      || (&& r.rel == Clean(GoTrim(requestPath))
          && Descends(r.rel)
          && !HasPrefix(r.rel, "..")
          && Parse(r.target) == CleanPath(Parse(root).rooted, Parse(root).elems + Parse(r.rel).elems))
  {
    var raw := GoTrim(requestPath);
    if raw != "" && Clean(raw) != "." && Clean(raw) != "" {
      ResolveRelCheckUnreachable(root, requestPath);
      CleanedRelativeDescends(raw);
      JoinDescends(root, Clean(raw));
    }
  }

  /** Without allowRoot a resolved path is never the root, so DeleteFS's root refusal cannot fire. */
  lemma ResolveNotRootUnlessAllowed(root: string, requestPath: string)
    requires ResolveBotPath(root, requestPath, false).Ok?
    ensures var r := ResolveBotPath(root, requestPath, false).value;
      r.rel != "." && r.rel != "" && |Parse(r.target).elems| > |Parse(root).elems|
  {
    ResolveContained(root, requestPath, false);
    var r := ResolveBotPath(root, requestPath, false).value;
    ParseDot();
    ParseEmpty();
  }

  /** A relative path that leaves the root: its first element is "..". */
  predicate EscapesRoot(rel: string) {
    rel == ".." || HasPrefix(rel, "../")
  }

  /**
   * entryForBotPath as written: any relative path that textually starts
   * with ".." is rejected, including a child named "..foo".
   */
  function EntryForBotPathAsWritten(root: string, target: string, info: FileInfo): (r: Result<Entry, FsError>)
    ensures r.Ok? ==> !HasPrefix(r.value.path, "..") && r.value.isDir == info.isDir && r.value.size == info.size
  {
    match Rel(root, target)
    case Err(msg) => Err(Other(msg))
    case Ok(rel) =>
      if HasPrefix(rel, "..") then Err(Invalid)
      else Ok(Entry(if rel == "." then "" else rel, info.isDir, info.size, info.mode, info.modTime))
  }

  /** entryForBotPath as intended: only a relative path that leaves the root is rejected. */
  function EntryForBotPath(root: string, target: string, info: FileInfo): (r: Result<Entry, FsError>)
    ensures r.Ok? ==> !EscapesRoot(r.value.path) && r.value.isDir == info.isDir && r.value.size == info.size
  {
    match Rel(root, target)
    case Err(msg) => Err(Other(msg))
    case Ok(rel) =>
      if EscapesRoot(rel) then Err(Invalid)
      else Ok(Entry(if rel == "." then "" else rel, info.isDir, info.size, info.mode, info.modTime))
  }

  /** The root's own entry has the empty path. */
  lemma EntryForRoot(root: string, info: FileInfo)
    ensures EntryForBotPath(root, root, info).Ok?
    ensures EntryForBotPath(root, root, info).value.path == ""
  {
  }

  /** A target whose relative path leaves the root is rejected. */
  lemma EntryRejectsEscape(root: string, target: string, info: FileInfo)
    requires Rel(root, target).Ok? && EscapesRoot(Rel(root, target).value)
    ensures EntryForBotPath(root, target, info) == Err(Invalid)
  {
  }

  /** A path that starts with a normal element is neither ".", nor "..", nor under "../". */
  lemma NormalHeadNotEscaping(c: string, e: string)
    requires IsNormal(e) && HasPrefix(c, e)
    ensures !EscapesRoot(c) && c != "."
  {
    if |e| == 1 {
      assert e == [c[0]];
    } else if |e| == 2 {
      assert e == [c[0], c[1]];
    } else {
      assert e[2] == c[2];
    }
  }

  /** A descending path does not leave the root. */
  lemma DescendsNotEscaping(c: string)
    requires Descends(c) && Clean(c) == c
    ensures !EscapesRoot(c) && c != "."
  {
    var es := Parse(c).elems;
    ParseWellFormed(c);
    ParseRender(Parse(c));
    assert c == Join(es, '/');
    JoinStartsWithFirst(es);
    NormalHeadNotEscaping(c, es[0]);
  }

  /** The entry for a path joined under the root is named by that path. */
  lemma EntryForJoined(root: string, c: string, info: FileInfo)
    requires Descends(c) && Clean(c) == c
    ensures EntryForBotPath(root, Join2(root, c), info)
            == Ok(Entry(c, info.isDir, info.size, info.mode, info.modTime))
  {
    RelOfJoin(root, c);
    DescendsNotEscaping(c);
  }

  /** As written, the entry for a path joined under the root fails exactly when the path starts with "..". */
  lemma EntryForJoinedAsWritten(root: string, c: string, info: FileInfo)
    requires Descends(c) && Clean(c) == c
    ensures EntryForBotPathAsWritten(root, Join2(root, c), info)
            == if HasPrefix(c, "..") then Err(Invalid) else Ok(Entry(c, info.isDir, info.size, info.mode, info.modTime))
  {
    RelOfJoin(root, c);
    DescendsNotEscaping(c);
  }

  /** As written, a child named "..foo" cannot be listed: its entry fails with os.ErrInvalid. */
  lemma AsWrittenRejectsDotDotChild(root: string, info: FileInfo)
    ensures EntryForBotPathAsWritten(root, Join2(root, "..foo"), info) == Err(Invalid)
    ensures EntryForBotPath(root, Join2(root, "..foo"), info).Ok?
  {
    NameDescends("..foo");
    RelOfJoin(root, "..foo");
    EntryForJoined(root, "..foo", info);
  }

  /** fsHTTPError: the HTTP error an error becomes. */
  function FsHttpError(err: Option<FsError>): (r: Option<HttpError>)
    ensures r.None? <==> err.None?
    ensures err == Some(Invalid) ==> r == Some(HttpError(400, "invalid path"))
    ensures err == Some(NotExist) ==> r == Some(HttpError(404, "path not found"))
    ensures err.Some? && err.value.Other? ==> r == Some(HttpError(500, err.value.message))
  {
    match err
    case None => None
    case Some(Invalid) => Some(HttpError(400, "invalid path"))
    case Some(NotExist) => Some(HttpError(404, "path not found"))
    case Some(Other(msg)) => Some(HttpError(500, msg))
  }

  /** Every failure of path resolution reaches the client as 400 "invalid path". */
  lemma ResolveErrorsAre400(root: string, requestPath: string, allowRoot: bool)
    requires ResolveBotPath(root, requestPath, allowRoot).Err?
    ensures FsHttpError(Some(ResolveBotPath(root, requestPath, allowRoot).error))
            == Some(HttpError(400, "invalid path"))
  {
  }

  // ----- Boolean query parameters -----

  /** strconv.ParseBool's syntax error. */
  datatype SyntaxError = SyntaxError(input: string)

  predicate IsTrueWord(s: string) {
    s == "1" || s == "t" || s == "T" || s == "TRUE" || s == "true" || s == "True"
  }

  predicate IsFalseWord(s: string) {
    s == "0" || s == "f" || s == "F" || s == "FALSE" || s == "false" || s == "False"
  }

  /** parseBoolQuery: a missing or blank parameter is false, anything else goes to strconv.ParseBool. */
  function ParseBoolQuery(value: string): (r: Result<bool, SyntaxError>)
    ensures r == Ok(true) <==> IsTrueWord(GoTrim(value))
    ensures r == Ok(false) <==> GoTrim(value) == "" || IsFalseWord(GoTrim(value))
    ensures r.Err? ==> r.error == SyntaxError(GoTrim(value))
  {
    var raw := GoTrim(value);
    if raw == "" then Ok(false)
    else if IsTrueWord(raw) then Ok(true)
    else if IsFalseWord(raw) then Ok(false)
    else Err(SyntaxError(raw))
  }

  /**
   * The text of strconv.ParseBool's error: the function, the quoted input
   * (strconv.Quote) and the reason.
   */
  function ParseBoolMessage(input: string): string {
    "strconv.ParseBool: parsing " + Mcp.RawStringID(input) + ": invalid syntax"
  }

  /** The error text quotes the rejected input so that it can be read back. */
  lemma ParseBoolMessageQuotesInput(input: string)
    ensures var m := ParseBoolMessage(input);
      |m| >= 43 && HasPrefix(m, "strconv.ParseBool: parsing ") && HasSuffix(m, ": invalid syntax")
      && Mcp.Unquote(m[27..|m| - 16]) == Some(input)
  {
    var q := Mcp.RawStringID(input);
    var m := ParseBoolMessage(input);
    assert m[27..|m| - 16] == q;
    Mcp.QuoteRoundTrip(input);
  }

  /** strconv.FormatBool. */
  function FormatBool(b: bool): string {
    if b then "true" else "false"
  }

  /** A formatted boolean, with any surrounding whitespace, parses back to itself. */
  lemma ParseFormatBool(b: bool, pad: string)
    requires AllSpace(pad, IsGoSpace)
    ensures ParseBoolQuery(pad + FormatBool(b) + pad) == Ok(b)
  {
    var s := pad + FormatBool(b) + pad;
    var w := FormatBool(b);
    TrimPadded(pad, w, pad);
  }

  lemma {:induction false} TrimPadded(pre: string, w: string, post: string)
    requires AllSpace(pre, IsGoSpace) && AllSpace(post, IsGoSpace)
    requires |w| > 0 && !IsGoSpace(w[0]) && !IsGoSpace(w[|w| - 1])
    ensures GoTrim(pre + w + post) == w
  {
    var s := pre + w + post;
    assert s == pre + (w + post);
    TrimLeftPadded(pre, w + post);
    TrimRightPadded(w, post);
    calc {
      GoTrim(s);
      TrimRight(TrimLeft(s, IsGoSpace), IsGoSpace);
      TrimRight(w + post, IsGoSpace);
    }
  }

  lemma {:induction false} TrimLeftPadded(pre: string, rest: string)
    requires AllSpace(pre, IsGoSpace)
    requires |rest| > 0 && !IsGoSpace(rest[0])
    ensures TrimLeft(pre + rest, IsGoSpace) == rest
    decreases |pre|
  {
    if pre != [] {
      assert (pre + rest)[1..] == pre[1..] + rest;
      TrimLeftPadded(pre[1..], rest);
    }
  }

  lemma {:induction false} TrimRightPadded(w: string, post: string)
    requires AllSpace(post, IsGoSpace)
    requires |w| > 0 && !IsGoSpace(w[|w| - 1])
    ensures TrimRight(w + post, IsGoSpace) == w
    decreases |post|
  {
    if post != [] {
      var s := w + post;
      assert s[..|s| - 1] == w + post[..|post| - 1];
      TrimRightPadded(w, post[..|post| - 1]);
    } else {
      assert w + post == w;
    }
  }

  // ----- UsageFS -----

  /** One callback of filepath.WalkDir: the path, the walk error, and what d.Info() returns. */
  datatype WalkVisit = WalkVisit(path: string, walkErr: Option<FsError>, info: Result<FileInfo, FsError>)

  datatype Usage = Usage(totalBytes: int, fileCount: nat, dirCount: nat)

  /** The running totals after one more entry: a directory is counted, a file is counted and its size added. */
  function Count(u: Usage, info: FileInfo): Usage {
    if info.isDir then u.(dirCount := u.dirCount + 1)
    else u.(fileCount := u.fileCount + 1, totalBytes := u.totalBytes + info.size)
  }

  /** The totals a walk produces from `acc`; the first error stops the walk. */
  function UsageFold(target: string, walk: seq<WalkVisit>, acc: Usage): Result<Usage, FsError>
    decreases |walk|
  {
    if walk == [] then Ok(acc)
    else
      var v := walk[0];
      if v.walkErr.Some? then Err(v.walkErr.value)
      else if v.path == target then UsageFold(target, walk[1..], acc)
      else match v.info
        case Err(e) => Err(e)
        case Ok(info) => UsageFold(target, walk[1..], Count(acc, info))
  }

  /** The number of walked entries other than the target itself. */
  function Visited(target: string, walk: seq<WalkVisit>): nat
    decreases |walk|
  {
    if walk == [] then 0
    else (if walk[0].path == target then 0 else 1) + Visited(target, walk[1..])
  }

  /** A walk over two parts is the walk over the first continued with the second. */
  lemma {:induction false} UsageFoldAppend(target: string, a: seq<WalkVisit>, b: seq<WalkVisit>, acc: Usage)
    ensures UsageFold(target, a + b, acc)
            == match UsageFold(target, a, acc)
               case Ok(u) => UsageFold(target, b, u)
               case Err(e) => Err(e)
    decreases |a|
  {
    if a == [] {
      assert a + b == b;
    } else {
      assert (a + b)[0] == a[0];
      assert (a + b)[1..] == a[1..] + b;
      var v := a[0];
      if v.walkErr.None? {
        if v.path == target {
          UsageFoldAppend(target, a[1..], b, acc);
        } else if v.info.Ok? {
          UsageFoldAppend(target, a[1..], b, Count(acc, v.info.value));
        }
      }
    }
  }

  /** The directories among the walked entries other than the target. */
  function DirsVisited(target: string, walk: seq<WalkVisit>): nat
    decreases |walk|
  {
    if walk == [] then 0
    else
      var v := walk[0];
      (if v.path != target && v.info.Ok? && v.info.value.isDir then 1 else 0) + DirsVisited(target, walk[1..])
  }

  /** The files (anything not a directory) among the walked entries other than the target. */
  function FilesVisited(target: string, walk: seq<WalkVisit>): nat
    decreases |walk|
  {
    if walk == [] then 0
    else
      var v := walk[0];
      (if v.path != target && v.info.Ok? && !v.info.value.isDir then 1 else 0) + FilesVisited(target, walk[1..])
  }

  /** The sizes of those files, added up. */
  function BytesVisited(target: string, walk: seq<WalkVisit>): int
    decreases |walk|
  {
    if walk == [] then 0
    else
      var v := walk[0];
      (if v.path != target && v.info.Ok? && !v.info.value.isDir then v.info.value.size else 0)
      + BytesVisited(target, walk[1..])
  }

  /**
   * A completed walk counts every entry other than the target once:
   * directories in dirCount, files in fileCount, and the files' sizes in
   * totalBytes.
   */
  lemma {:induction false} UsageFoldCounts(target: string, walk: seq<WalkVisit>, acc: Usage)
    requires UsageFold(target, walk, acc).Ok?
    ensures var u := UsageFold(target, walk, acc).value;
      && u.dirCount == acc.dirCount + DirsVisited(target, walk)
      && u.fileCount == acc.fileCount + FilesVisited(target, walk)
      && u.totalBytes == acc.totalBytes + BytesVisited(target, walk)
      && u.fileCount + u.dirCount == acc.fileCount + acc.dirCount + Visited(target, walk)
    decreases |walk|
  {
    if walk != [] {
      var v := walk[0];
      if v.path == target {
        UsageFoldCounts(target, walk[1..], acc);
      } else {
        UsageFoldCounts(target, walk[1..], Count(acc, v.info.value));
      }
    }
  }

  /** The walk callback of UsageFS, run over the callbacks in order. */
  method WalkUsage(target: string, walk: seq<WalkVisit>) returns (r: Result<Usage, FsError>)
    ensures r == UsageFold(target, walk, Usage(0, 0, 0))
  {
    var totalBytes := 0;
    var fileCount: nat := 0;
    var dirCount: nat := 0;
    var i := 0;
    while i < |walk|
      invariant 0 <= i <= |walk|
      invariant UsageFold(target, walk, Usage(0, 0, 0))
                == UsageFold(target, walk[i..], Usage(totalBytes, fileCount, dirCount))
    {
      var v := walk[i];
      assert walk[i..][1..] == walk[i + 1..];
      if v.walkErr.Some? {
        return Err(v.walkErr.value);
      }
      if v.path != target {
        if v.info.Err? {
          return Err(v.info.error);
        }
        var info := v.info.value;
        if info.isDir {
          dirCount := dirCount + 1;
        } else {
          fileCount := fileCount + 1;
          totalBytes := totalBytes + info.size;
        }
      }
      i := i + 1;
    }
    return Ok(Usage(totalBytes, fileCount, dirCount));
  }

  /** The path a listing or usage response reports: the relative path, "." for the root. */
  function ListedPath(rel: string): (r: string)
    ensures r == "." <==> GoTrim(rel) == "" || GoTrim(rel) == "."
    ensures r != "." ==> r == GoTrim(rel)
  {
    var p := GoTrim(rel);
    if p == "" || p == "." then "." else p
  }

  /**
   * UsageFS after the path is resolved: a directory is walked, a file
   * counts as one file of its own size, and any error goes through
   * fsHTTPError.
   */
  method UsageFS(root: string, pathQuery: string, stat: string -> Result<FileInfo, FsError>,
                 walk: string -> seq<WalkVisit>)
    returns (r: Result<(string, Usage), HttpError>)
    ensures ResolveBotPath(root, pathQuery, true).Err? ==> r == Err(HttpError(400, "invalid path"))
    ensures ResolveBotPath(root, pathQuery, true).Ok? ==>
      var res := ResolveBotPath(root, pathQuery, true).value;
      match stat(res.target)
      case Err(e) => r == Err(FsHttpError(Some(e)).value)
      case Ok(info) =>
        if !info.isDir then r == Ok((ListedPath(res.rel), Usage(info.size, 1, 0)))
        else match UsageFold(res.target, walk(res.target), Usage(0, 0, 0))
          case Err(e) => r == Err(FsHttpError(Some(e)).value)
          case Ok(u) => r == Ok((ListedPath(res.rel), u))
  {
    var resolved := ResolveBotPath(root, pathQuery, true);
    if resolved.Err? {
      return Err(FsHttpError(Some(resolved.error)).value);
    }
    var target := resolved.value.target;
    var st := stat(target);
    if st.Err? {
      return Err(FsHttpError(Some(st.error)).value);
    }
    var usage;
    if st.value.isDir {
      var walked := WalkUsage(target, walk(target));
      if walked.Err? {
        return Err(FsHttpError(Some(walked.error)).value);
      }
      usage := walked.value;
    } else {
      usage := Usage(st.value.size, 1, 0);
    }
    return Ok((ListedPath(resolved.value.rel), usage));
  }

  // ----- ListFS -----

  /** One result of os.ReadDir: the entry name and what entry.Info() returns. */
  datatype DirEntry = DirEntry(name: string, info: Result<FileInfo, FsError>)

  /** The listed entry for one directory entry of `target`. */
  function DirEntryFor(root: string, target: string, d: DirEntry): (r: Result<Entry, FsError>)
    ensures d.info.Err? ==> r == Err(d.info.error)
    ensures r.Ok? ==> r.value.isDir == d.info.value.isDir && !HasPrefix(r.value.path, "..")
  {
    match d.info
    case Err(e) => Err(e)
    case Ok(info) => EntryForBotPathAsWritten(root, Join2(target, d.name), info)
  }

  /** `prefix` followed by the entries of `r`, or the error of `r`. */
  function Prefixed(prefix: seq<Entry>, r: Result<seq<Entry>, FsError>): Result<seq<Entry>, FsError> {
    match r
    case Err(e) => Err(e)
    case Ok(rest) => Ok(prefix + rest)
  }

  /** The entries of a non-recursive listing, one per directory entry, in order. */
  function ListDirFold(root: string, target: string, dir: seq<DirEntry>): (r: Result<seq<Entry>, FsError>)
    ensures r.Ok? ==> |r.value| == |dir|
    ensures r.Ok? ==> forall i :: 0 <= i < |dir| ==> DirEntryFor(root, target, dir[i]) == Ok(r.value[i])
    decreases |dir|
  {
    if dir == [] then Ok([])
    else match DirEntryFor(root, target, dir[0])
      case Err(e) => Err(e)
      case Ok(entry) => Prefixed([entry], ListDirFold(root, target, dir[1..]))
  }

  /** The entries of a recursive listing, one per walked path other than the target. */
  function ListWalkFold(root: string, target: string, walk: seq<WalkVisit>): (r: Result<seq<Entry>, FsError>)
    ensures r.Ok? ==> |r.value| == Visited(target, walk)
    ensures r.Ok? ==> forall k :: 0 <= k < |r.value| ==> !HasPrefix(r.value[k].path, "..")
    decreases |walk|
  {
    if walk == [] then Ok([])
    else
      var v := walk[0];
      if v.walkErr.Some? then Err(v.walkErr.value)
      else if v.path == target then ListWalkFold(root, target, walk[1..])
      else match v.info
        case Err(e) => Err(e)
        case Ok(info) =>
          match EntryForBotPathAsWritten(root, v.path, info)
          case Err(e) => Err(e)
          case Ok(entry) => Prefixed([entry], ListWalkFold(root, target, walk[1..]))
  }

  /** A directory entry name as os.ReadDir returns it. */
  predicate IsEntryName(name: string) {
    IsNormal(name)
  }

  lemma NameDescends(name: string)
    requires IsEntryName(name)
    ensures Descends(name) && Clean(name) == name
  {
    SplitNoSep(name, '/');
    assert Reduce(false, [], [name]) == Reduce(false, [name], []);
    assert Parse(name) == CleanPath(false, [name]);
    assert name[0] != '/';
  }

  /** A listing fails exactly when some entry fails, and then with the error of the first one that does. */
  lemma {:induction false} ListDirFoldErr(root: string, target: string, dir: seq<DirEntry>)
    ensures ListDirFold(root, target, dir).Err? <==> exists i :: 0 <= i < |dir| && DirEntryFor(root, target, dir[i]).Err?
    ensures ListDirFold(root, target, dir).Err? ==>
      exists i :: 0 <= i < |dir| && DirEntryFor(root, target, dir[i]) == Err(ListDirFold(root, target, dir).error)
    decreases |dir|
  {
    if dir != [] {
      ListDirFoldErr(root, target, dir[1..]);
      if DirEntryFor(root, target, dir[0]).Ok? {
        assert forall i :: 1 <= i < |dir| ==> dir[i] == dir[1..][i - 1];
        if ListDirFold(root, target, dir[1..]).Err? {
          var k :| 0 <= k < |dir[1..]| && DirEntryFor(root, target, dir[1..][k]) == Err(ListDirFold(root, target, dir[1..]).error);
          assert DirEntryFor(root, target, dir[k + 1]) == Err(ListDirFold(root, target, dir).error);
        }
      }
    }
  }

  /**
   * Listing the root itself succeeds exactly when no entry name starts with
   * ".." (otherwise it fails with os.ErrInvalid), and then names each entry
   * by its own name, in order.
   */
  lemma ListRootNames(root: string, dir: seq<DirEntry>)
    requires forall i :: 0 <= i < |dir| ==> IsEntryName(dir[i].name) && dir[i].info.Ok?
    ensures ListDirFold(root, root, dir).Ok? <==> forall i :: 0 <= i < |dir| ==> !HasPrefix(dir[i].name, "..")
    ensures ListDirFold(root, root, dir).Err? ==> ListDirFold(root, root, dir).error == Invalid
    ensures ListDirFold(root, root, dir).Ok? ==> var es := ListDirFold(root, root, dir).value;
      |es| == |dir| && forall i :: 0 <= i < |dir| ==> es[i].path == dir[i].name && es[i].isDir == dir[i].info.value.isDir
  {
    forall i | 0 <= i < |dir|
      ensures DirEntryFor(root, root, dir[i])
              == if HasPrefix(dir[i].name, "..") then Err(Invalid)
                 else Ok(Entry(dir[i].name, dir[i].info.value.isDir, dir[i].info.value.size,
                               dir[i].info.value.mode, dir[i].info.value.modTime))
    {
      NameDescends(dir[i].name);
      EntryForJoinedAsWritten(root, dir[i].name, dir[i].info.value);
    }
    ListDirFoldErr(root, root, dir);
  }

  /** The loop of ListFS over os.ReadDir's entries. */
  method ListDir(root: string, target: string, dir: seq<DirEntry>) returns (r: Result<seq<Entry>, FsError>)
    ensures r == ListDirFold(root, target, dir)
  {
    var entries: seq<Entry> := [];
    var i := 0;
    assert dir[i..] == dir;
    PrefixedEmpty(ListDirFold(root, target, dir));
    while i < |dir|
      invariant 0 <= i <= |dir|
      invariant ListDirFold(root, target, dir) == Prefixed(entries, ListDirFold(root, target, dir[i..]))
    {
      assert dir[i..][1..] == dir[i + 1..];
      var entry := DirEntryFor(root, target, dir[i]);
      if entry.Err? {
        return Err(entry.error);
      }
      PrefixedAppend(entries, [entry.value], ListDirFold(root, target, dir[i + 1..]));
      entries := entries + [entry.value];
      i := i + 1;
    }
    assert dir[i..] == [];
    assert entries + [] == entries;
    return Ok(entries);
  }

  lemma PrefixedEmpty(r: Result<seq<Entry>, FsError>)
    ensures Prefixed([], r) == r
  {
    if r.Ok? {
      assert [] + r.value == r.value;
    }
  }

  lemma PrefixedAppend(a: seq<Entry>, b: seq<Entry>, r: Result<seq<Entry>, FsError>)
    ensures Prefixed(a, Prefixed(b, r)) == Prefixed(a + b, r)
  {
    if r.Ok? {
      assert a + (b + r.value) == (a + b) + r.value;
    }
  }

  /** The walk callback of a recursive ListFS. */
  method ListWalk(root: string, target: string, walk: seq<WalkVisit>) returns (r: Result<seq<Entry>, FsError>)
    ensures r == ListWalkFold(root, target, walk)
  {
    var entries: seq<Entry> := [];
    var i := 0;
    assert walk[i..] == walk;
    PrefixedEmpty(ListWalkFold(root, target, walk));
    while i < |walk|
      invariant 0 <= i <= |walk|
      invariant ListWalkFold(root, target, walk) == Prefixed(entries, ListWalkFold(root, target, walk[i..]))
    {
      assert walk[i..][1..] == walk[i + 1..];
      var v := walk[i];
      if v.walkErr.Some? {
        return Err(v.walkErr.value);
      }
      if v.path != target {
        if v.info.Err? {
          return Err(v.info.error);
        }
        var entry := EntryForBotPathAsWritten(root, v.path, v.info.value);
        if entry.Err? {
          return Err(entry.error);
        }
        PrefixedAppend(entries, [entry.value], ListWalkFold(root, target, walk[i + 1..]));
        entries := entries + [entry.value];
      }
      i := i + 1;
    }
    assert walk[i..] == [];
    assert entries + [] == entries;
    return Ok(entries);
  }

  /** ListFS: the listed path and its entries, or the HTTP error the handler returns. */
  method ListFS(root: string, pathQuery: string, recursiveQuery: string,
                stat: string -> Result<FileInfo, FsError>,
                readDir: string -> Result<seq<DirEntry>, FsError>,
                walk: string -> seq<WalkVisit>)
    returns (r: Result<(string, seq<Entry>), HttpError>)
    ensures ParseBoolQuery(recursiveQuery).Err? ==>
              r == Err(HttpError(400, ParseBoolMessage(ParseBoolQuery(recursiveQuery).error.input)))
    ensures ParseBoolQuery(recursiveQuery).Ok? && ResolveBotPath(root, pathQuery, true).Err?
            ==> r == Err(HttpError(400, "invalid path"))
    ensures ParseBoolQuery(recursiveQuery).Ok? && ResolveBotPath(root, pathQuery, true).Ok? ==>
      var res := ResolveBotPath(root, pathQuery, true).value;
      match stat(res.target)
      case Err(e) => r == Err(FsHttpError(Some(e)).value)
      case Ok(info) =>
        if !info.isDir then r == Err(HttpError(400, "path is not a directory"))
        else
          var listed :=
            if ParseBoolQuery(recursiveQuery).value then ListWalkFold(root, res.target, walk(res.target))
            else match readDir(res.target)
              case Err(e) => Err(e)
              case Ok(dir) => ListDirFold(root, res.target, dir);
          match listed
          case Err(e) => r == Err(FsHttpError(Some(e)).value)
          case Ok(es) => r == Ok((ListedPath(res.rel), es))
  {
    var recursive := ParseBoolQuery(recursiveQuery);
    if recursive.Err? {
      return Err(HttpError(400, ParseBoolMessage(recursive.error.input)));
    }
    var resolved := ResolveBotPath(root, pathQuery, true);
    if resolved.Err? {
      return Err(FsHttpError(Some(resolved.error)).value);
    }
    var target := resolved.value.target;
    var st := stat(target);
    if st.Err? {
      return Err(FsHttpError(Some(st.error)).value);
    }
    if !st.value.isDir {
      return Err(HttpError(400, "path is not a directory"));
    }
    var listed;
    if recursive.value {
      listed := ListWalk(root, target, walk(target));
    } else {
      var dir := readDir(target);
      if dir.Err? {
        return Err(FsHttpError(Some(dir.error)).value);
      }
      listed := ListDir(root, target, dir.value);
    }
    if listed.Err? {
      return Err(FsHttpError(Some(listed.error)).value);
    }
    return Ok((ListedPath(resolved.value.rel), listed.value));
  }

  // ----- WriteFSFile and DeleteFS -----

  /**
   * WriteFSFile up to the write: the target to write, or the HTTP error.
   * A missing `overwrite` means true.
   */
  function WriteTarget(root: string, path: string, overwrite: Option<bool>, present: string -> bool): Result<string, HttpError> {
    if GoTrim(path) == "" then Err(HttpError(400, "path is required"))
    else match ResolveBotPath(root, path, false)
      case Err(e) => Err(FsHttpError(Some(e)).value)
      case Ok(res) =>
        if present(res.target) && !overwrite.GetOr(true) then Err(HttpError(409, "file already exists"))
        else Ok(res.target)
  }

  /** A write conflicts exactly when the file exists and overwrite was explicitly false. */
  lemma WriteConflictIff(root: string, path: string, overwrite: Option<bool>, present: string -> bool)
    requires ResolveBotPath(root, path, false).Ok?
    ensures WriteTarget(root, path, overwrite, present).Err?
            && WriteTarget(root, path, overwrite, present).error.status == 409
            <==> present(ResolveBotPath(root, path, false).value.target) && overwrite == Some(false)
  {
    if GoTrim(path) == "" {
      ResolveBlank(root, path, false);
    }
  }

  /** Leaving out `overwrite` is the same as asking to overwrite. */
  lemma WriteOverwriteDefault(root: string, path: string, present: string -> bool)
    ensures WriteTarget(root, path, None, present) == WriteTarget(root, path, Some(true), present)
  {
  }

  /** What DeleteFS does to the file system once every check has passed. */
  datatype Removal = RemoveAll(path: string) | Remove(path: string)

  function DeleteAction(root: string, pathQuery: string, recursiveQuery: string,
                        stat: string -> Result<FileInfo, FsError>): (r: Result<Removal, HttpError>)
    ensures r.Ok? ==> ResolveBotPath(root, pathQuery, false).Ok?
                      && r.value.path == ResolveBotPath(root, pathQuery, false).value.target
    ensures r.Ok? && r.value.RemoveAll? ==> ParseBoolQuery(recursiveQuery) == Ok(true)
  {
    match ParseBoolQuery(recursiveQuery)
    case Err(e) => Err(HttpError(400, ParseBoolMessage(e.input)))
    case Ok(recursive) =>
      match ResolveBotPath(root, pathQuery, false)
      case Err(e) => Err(FsHttpError(Some(e)).value)
      case Ok(res) => DeleteResolved(res, recursive, stat)
  }

  /** DeleteFS after the path has resolved: the root is refused, then the target is stat'ed. */
  function DeleteResolved(res: Resolved, recursive: bool, stat: string -> Result<FileInfo, FsError>)
    : (r: Result<Removal, HttpError>)
    ensures r == Err(HttpError(400, "refuse to delete root")) <==> res.rel == "." || res.rel == ""
    ensures r.Ok? ==> r.value.path == res.target
  {
    if res.rel == "." || res.rel == "" then Err(HttpError(400, "refuse to delete root"))
    else match stat(res.target)
      case Err(e) => Err(FsHttpError(Some(e)).value)
      case Ok(info) => if info.isDir && recursive then Ok(RemoveAll(res.target)) else Ok(Remove(res.target))
  }

  /** A path DeleteFS resolves is not the root and lies strictly below it. */
  lemma ResolvedBelowRoot(root: string, pathQuery: string)
    requires ResolveBotPath(root, pathQuery, false).Ok?
    ensures var res := ResolveBotPath(root, pathQuery, false).value;
            var p := Parse(res.target);
            && res.rel != "." && res.rel != ""
            && p.rooted == Parse(root).rooted
            && |p.elems| > |Parse(root).elems|
            && p.elems[..|Parse(root).elems|] == Parse(root).elems
  {
    ResolveNotRootUnlessAllowed(root, pathQuery);
    ResolveContained(root, pathQuery, false);
    var res := ResolveBotPath(root, pathQuery, false).value;
    assert Parse(res.target).elems[..|Parse(root).elems|] == Parse(root).elems;
  }

  /**
   * DeleteFS never removes the root: whatever it removes lies strictly
   * below it, and the "refuse to delete root" answer is never given.
   */
  lemma DeleteNeverRoot(root: string, pathQuery: string, recursiveQuery: string,
                        stat: string -> Result<FileInfo, FsError>)
    ensures DeleteAction(root, pathQuery, recursiveQuery, stat) != Err(HttpError(400, "refuse to delete root"))
    ensures DeleteAction(root, pathQuery, recursiveQuery, stat).Ok? ==>
      var p := Parse(DeleteAction(root, pathQuery, recursiveQuery, stat).value.path);
      p.rooted == Parse(root).rooted
      && |p.elems| > |Parse(root).elems|
      && p.elems[..|Parse(root).elems|] == Parse(root).elems
  {
    var a := DeleteAction(root, pathQuery, recursiveQuery, stat);
    var rr := ResolveBotPath(root, pathQuery, false);
    var parsed := ParseBoolQuery(recursiveQuery);
    if parsed.Err? {
      assert a == Err(HttpError(400, ParseBoolMessage(parsed.error.input)));
    } else if rr.Err? {
      ResolveErrorsAre400(root, pathQuery, false);
      assert a == Err(HttpError(400, "invalid path"));
    } else {
      ResolvedBelowRoot(root, pathQuery);
      assert a == DeleteResolved(rr.value, parsed.value, stat);
    }
  }
}
