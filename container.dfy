/**
 * The agent's client for the container's MCP endpoint: a JSON-RPC client
 * that numbers its requests, the decoding of `tools/call` results, the
 * grep-based search helpers and the file operations composed from the
 * remote file tools (modelled over an abstract remote file store).
 */
module ContainerClient {
  import opened Wrappers
  import opened Text
  import opened Json

  // ---------------------------------------------------------------------
  // JSON-RPC client

  datatype RpcRequest = RpcRequest(jsonrpc: string, id: nat, methodName: string, params: Option<Value>)

  /** The `error` member of a JSON-RPC response, as the client's response type declares it. */
  datatype RpcError = RpcError(code: int, message: string)

  /** What fetch produced: a rejected promise, or a response with its decoded JSON body. */
  datatype HttpReply =
    | FetchFailed(reason: string)
    | HttpReply(ok: bool, status: int, statusText: string, result: Option<Value>, error: Option<RpcError>)

  /** Requests numbered 1, 2, 3, ... in the order they were issued. */
  predicate Numbered(sent: seq<RpcRequest>) {
    forall i :: 0 <= i < |sent| ==> sent[i].id == i + 1
  }

  /** Numbered requests carry strictly increasing, hence distinct, ids. */
  lemma NumberedIncreasing(sent: seq<RpcRequest>, i: int, j: int)
    requires Numbered(sent)
    requires 0 <= i < j < |sent|
    ensures sent[i].id < sent[j].id
  {
    assert sent[i].id == i + 1 && sent[j].id == j + 1;
  }

  /** The outcome of one `call` for a given reply. */
  function CallOutcome(reply: HttpReply): (r: Result<Option<Value>, string>)
    ensures reply.FetchFailed? ==> r == Err(reply.reason)
    ensures reply.HttpReply? && !reply.ok ==>
              r == Err("HTTP " + IntToString(reply.status) + ": " + reply.statusText)
    ensures reply.HttpReply? && reply.ok && reply.error.Some? ==>
              r == Err("JSON-RPC Error " + IntToString(reply.error.value.code) + ": " + reply.error.value.message)
    ensures r.Ok? <==> reply.HttpReply? && reply.ok && reply.error.None?
    ensures r.Ok? ==> r.value == reply.result
  {
    match reply
    case FetchFailed(reason) => Err(reason)
    case HttpReply(ok, status, statusText, result, error) =>
      if !ok then Err("HTTP " + IntToString(status) + ": " + statusText)
      else if error.Some? then Err("JSON-RPC Error " + IntToString(error.value.code) + ": " + error.value.message)
      else Ok(result)
  }

  /** JSONRPCClient: the request counter and the requests issued so far. */
  class RpcClient {
    var requestId: nat
    /** Every request issued, in order. */
    var sent: seq<RpcRequest>

    predicate Valid()
      reads this
    {
      requestId == |sent| && Numbered(sent)
    }

    constructor()
      ensures Valid() && sent == []
    {
      requestId := 0;
      sent := [];
    }

    /**
     * call: takes the next id (before the request is sent, so a failed request
     * still uses one up), posts the request and decodes the reply.
     */
    method Call(methodName: string, params: Option<Value>, transport: RpcRequest -> HttpReply)
      returns (r: Result<Option<Value>, string>)
      requires Valid()
      modifies this
      ensures Valid()
      ensures requestId == old(requestId) + 1
      ensures sent == old(sent) + [RpcRequest("2.0", requestId, methodName, params)]
      ensures r == CallOutcome(transport(sent[|sent| - 1]))
    {
      requestId := requestId + 1;
      var request := RpcRequest("2.0", requestId, methodName, params);
      sent := sent + [request];
      r := CallOutcome(transport(request));
    }
  }

  /** Two calls on one client carry consecutive ids. */
  method TwoCalls(c: RpcClient, transport: RpcRequest -> HttpReply)
    requires c.Valid()
    modifies c
    ensures c.Valid() && |c.sent| == |old(c.sent)| + 2
    ensures c.sent[|c.sent| - 1].id == c.sent[|c.sent| - 2].id + 1
  {
    var a := c.Call("tools/list", None, transport);
    var b := c.Call("tools/list", None, transport);
  }

  // ---------------------------------------------------------------------
  // Tool results

  /** JavaScript truthiness of a JSON value. */
  predicate Truthy(v: Value) {
    match v
    case Null => false
    case Bool(b) => b
    case Num(n) => n != 0.0
    case Str(s) => s != ""
    case _ => true
  }

  /** `result.content?.[0]?.text` when that is a string (other values are not modelled). */
  function FirstText(result: Value): (r: Option<string>)
    ensures r.Some? ==> result.Obj? && ArrayAt(result.fields, "content").Some?
  {
    if !result.Obj? then None
    else match ArrayAt(result.fields, "content")
      case None => None
      case Some(items) =>
        if |items| == 0 || !items[0].Obj? then None else StringAt(items[0].fields, "text")
  }

  predicate IsErrorResult(result: Value) {
    result.Obj? && "isError" in result.fields && Truthy(result.fields["isError"])
  }

  /**
   * MCPToolCaller.callTool's decoding of a `tools/call` result. An undefined
   * or null result makes the property access throw, which is an error here.
   * JSON.parse is a parameter (None when the text is not JSON).
   */
  function DecodeToolResult(result: Option<Value>, parse: string -> Option<Value>): (r: Result<Value, string>)
    ensures (result.None? || result == Some(Null)) ==> r.Err?
    ensures result.Some? && IsErrorResult(result.value) ==>
              r == Err(match FirstText(result.value) case Some(t) => if t != "" then t else "Tool execution failed"
                                                      case None => "Tool execution failed")
    ensures r.Ok? ==> result.Some? && FirstText(result.value).Some? && var t := FirstText(result.value).value;
                      t != "" && !IsErrorResult(result.value)
                      && r.value == (if parse(t).Some? then parse(t).value else Str(t))
    ensures result.Some? && result.value != Null && !IsErrorResult(result.value)
            && (FirstText(result.value).None? || FirstText(result.value) == Some("")) ==>
              r == Err("No result content returned")
  {
    match result
    case None => Err("TypeError: result is undefined")
    case Some(v) =>
      if v == Null then Err("TypeError: result is null")
      else if IsErrorResult(v) then
        Err(match FirstText(v) case Some(t) => if t != "" then t else "Tool execution failed"
                               case None => "Tool execution failed")
      else match FirstText(v)
        case Some(t) =>
          if t != "" then Ok(if parse(t).Some? then parse(t).value else Str(t))
          else Err("No result content returned")
        case None => Err("No result content returned")
  }

  /** A successful text result that is not JSON comes back as the raw text. */
  lemma PlainTextResult(text: string, parse: string -> Option<Value>)
    requires text != "" && parse(text).None?
    ensures DecodeToolResult(Some(Obj(map["content" := Arr([Obj(map["type" := Str("text"), "text" := Str(text)])])])), parse)
            == Ok(Str(text))
  {
    var block := Obj(map["type" := Str("text"), "text" := Str(text)]);
    var result := Obj(map["content" := Arr([block])]);
    assert FirstText(result) == Some(text);
    assert !IsErrorResult(result);
  }

  // ---------------------------------------------------------------------
  // Search

  /** The position of a search flag in the order `search` pushes them. */
  function FlagRank(flag: string): int {
    if flag == "-r" then 0 else if flag == "-i" then 1 else if flag == "-n" then 2 else if flag == "-l" then 3 else 4
  }

  /** SearchOperations.search's grep arguments; absent options are falsy. */
  method SearchArgs(caseSensitive: bool, lineNumbers: bool, filesOnly: bool) returns (args: seq<string>)
    ensures |args| >= 1 && args[0] == "-r"
    ensures "-i" in args <==> !caseSensitive
    ensures "-n" in args <==> lineNumbers
    ensures "-l" in args <==> filesOnly
    ensures forall i, j :: 0 <= i < j < |args| ==> FlagRank(args[i]) < FlagRank(args[j])
  {
    args := ["-r"];
    if !caseSensitive {
      args := args + ["-i"];
    }
    if lineNumbers {
      args := args + ["-n"];
    }
    if filesOnly {
      args := args + ["-l"];
    }
  }

  /** The `map(trim)` and `filter(length > 0)` steps of findFiles. */
  function TrimmedNonEmpty(lines: seq<string>): (r: seq<string>)
    ensures |r| <= |lines|
  {
    if lines == [] then []
    else
      var t := JsTrim(lines[0]);
      if t != "" then [t] + TrimmedNonEmpty(lines[1..]) else TrimmedNonEmpty(lines[1..])
  }

  /** Every line the pipeline keeps is non-empty and already trimmed. */
  lemma {:induction false} TrimmedNonEmptyClean(lines: seq<string>)
    ensures forall k :: 0 <= k < |TrimmedNonEmpty(lines)| ==>
              TrimmedNonEmpty(lines)[k] != "" && JsTrim(TrimmedNonEmpty(lines)[k]) == TrimmedNonEmpty(lines)[k]
  {
    if lines != [] {
      TrimIdempotent(lines[0], IsJsSpace);
      TrimmedNonEmptyClean(lines[1..]);
    }
  }

  /** The pipeline introduces no character its input lines lack. */
  lemma {:induction false} TrimmedNonEmptyFree(lines: seq<string>, c: char)
    requires forall i :: 0 <= i < |lines| ==> c !in lines[i]
    ensures forall k :: 0 <= k < |TrimmedNonEmpty(lines)| ==> c !in TrimmedNonEmpty(lines)[k]
  {
    if lines != [] {
      TrimSubstring(lines[0], IsJsSpace, c);
      TrimmedNonEmptyFree(lines[1..], c);
    }
  }

  /** findFiles: the non-blank lines of grep's output, trimmed. */
  function FindFiles(stdout: string): (r: seq<string>)
    ensures forall k :: 0 <= k < |r| ==> r[k] != "" && '\n' !in r[k] && JsTrim(r[k]) == r[k]
  {
    TrimmedNonEmptyFree(Split(stdout, '\n'), '\n');
    TrimmedNonEmptyClean(Split(stdout, '\n'));
    TrimmedNonEmpty(Split(stdout, '\n'))
  }

  /** Trimming removes characters, so it adds no character that was not there. */
  lemma TrimSubstring(s: string, sp: char -> bool, c: char)
    requires c !in s
    ensures c !in Trim(s, sp)
  {
    var l := TrimLeft(s, sp);
    NotInSlice(s, |s| - |l|, |s|, c);
    var t := TrimRight(l, sp);
    NotInSlice(l, 0, |t|, c);
  }

  lemma NotInSlice(s: string, i: nat, j: nat, c: char)
    requires i <= j <= |s| && c !in s
    ensures c !in s[i..j]
  {
    forall k | 0 <= k < j - i
      ensures s[i..j][k] != c
    {
      assert s[i..j][k] == s[i + k];
    }
  }

  /** Trimmed, non-empty entries survive the pipeline unchanged. */
  lemma {:induction false} TrimmedNonEmptyKeeps(lines: seq<string>)
    requires forall i :: 0 <= i < |lines| ==> lines[i] != "" && JsTrim(lines[i]) == lines[i]
    ensures TrimmedNonEmpty(lines) == lines
  {
    if lines != [] {
      TrimmedNonEmptyKeeps(lines[1..]);
    }
  }

  lemma {:induction false} JoinAppendEmpty(parts: seq<string>, sep: char)
    requires |parts| >= 1
    ensures Join(parts + [""], sep) == Join(parts, sep) + [sep]
  {
    if |parts| == 1 {
      assert (parts + [""])[1..] == [""];
    } else {
      assert (parts + [""])[1..] == parts[1..] + [""];
      JoinAppendEmpty(parts[1..], sep);
    }
  }

  /** The paths grep -rl prints, one per line with a final newline, come back exactly. */
  lemma FindFilesOfGrepOutput(paths: seq<string>)
    requires |paths| >= 1
    requires forall i :: 0 <= i < |paths| ==> paths[i] != "" && '\n' !in paths[i] && JsTrim(paths[i]) == paths[i]
    ensures FindFiles(Join(paths, '\n') + "\n") == paths
  {
    JoinAppendEmpty(paths, '\n');
    SplitJoin(paths + [""], '\n');
    assert TrimmedNonEmpty([""]) == [] by {
      assert JsTrim("") == "";
    }
    TrimmedNonEmptyAppend(paths, [""]);
    TrimmedNonEmptyKeeps(paths);
  }

  lemma {:induction false} TrimmedNonEmptyAppend(a: seq<string>, b: seq<string>)
    ensures TrimmedNonEmpty(a + b) == TrimmedNonEmpty(a) + TrimmedNonEmpty(b)
  {
    if a == [] {
      assert a + b == b;
    } else {
      assert (a + b)[1..] == a[1..] + b;
      TrimmedNonEmptyAppend(a[1..], b);
    }
  }

  // ---------------------------------------------------------------------
  // File operations

  /** A node of the container's file tree as the fs tools report it. */
  datatype Node = FileNode(content: string) | DirNode

  const DirectoryCopyError: string := "Directory copy not implemented. Use list + copy for each file."

  /** `append` as a function of the tree: existing content followed by the new content. */
  function Appended(nodes: map<string, Node>, path: string, content: string): (r: Result<map<string, Node>, string>)
    ensures path !in nodes ==> r == Ok(nodes[path := FileNode(content)])
    ensures path in nodes && nodes[path].FileNode? ==> r == Ok(nodes[path := FileNode(nodes[path].content + content)])
    ensures path in nodes && nodes[path].DirNode? ==> r.Err?
  {
    if path !in nodes then Ok(nodes[path := FileNode(content)])
    else match nodes[path]
      case FileNode(existing) => Ok(nodes[path := FileNode(existing + content)])
      case DirNode => Err("not a file: " + path)
  }

  /** Appending twice is appending the concatenation once. */
  lemma AppendTwice(nodes: map<string, Node>, path: string, a: string, b: string)
    requires Appended(nodes, path, a).Ok?
    ensures Appended(Appended(nodes, path, a).value, path, b) == Appended(nodes, path, a + b)
  {
    if path in nodes {
      var once := nodes[path := FileNode(nodes[path].content + a)];
      assert once[path].content + b == nodes[path].content + (a + b);
      assert once[path := FileNode(once[path].content + b)] == nodes[path := FileNode(nodes[path].content + (a + b))];
    } else {
      var once := nodes[path := FileNode(a)];
      assert once[path := FileNode(a + b)] == nodes[path := FileNode(a + b)];
    }
  }

  /** The container's file tree, reached only through the fs tools. */
  class RemoteFs {
    var nodes: map<string, Node>

    constructor(initial: map<string, Node>)
      ensures nodes == initial
    {
      nodes := initial;
    }

    /** fs.stat: fails for a missing path; reports whether it is a directory. */
    method Stat(path: string) returns (r: Result<bool, string>)
      ensures r.Ok? <==> path in nodes
      ensures r.Ok? ==> r.value == nodes[path].DirNode?
    {
      if path !in nodes {
        return Err("not found: " + path);
      }
      return Ok(nodes[path].DirNode?);
    }

    /** fs.read: the content of a file. */
    method Read(path: string) returns (r: Result<string, string>)
      ensures r.Ok? <==> path in nodes && nodes[path].FileNode?
      ensures r.Ok? ==> r.value == nodes[path].content
    {
      if path !in nodes || nodes[path].DirNode? {
        return Err("not a file: " + path);
      }
      return Ok(nodes[path].content);
    }

    /** fs.write: creates or replaces a file. */
    method Write(path: string, content: string) returns (ok: bool)
      modifies this
      ensures ok && nodes == old(nodes)[path := FileNode(content)]
    {
      nodes := nodes[path := FileNode(content)];
      return true;
    }

    /** exists: whether stat succeeds. */
    method Exists(path: string) returns (b: bool)
      ensures b <==> path in nodes
    {
      var st := Stat(path);
      b := st.Ok?;
    }

    /** append: read-then-write when the path exists, a plain write otherwise. */
    method Append(path: string, content: string) returns (r: Result<bool, string>)
      modifies this
      ensures Appended(old(nodes), path, content).Ok? ==>
                r == Ok(true) && nodes == Appended(old(nodes), path, content).value
      ensures Appended(old(nodes), path, content).Err? ==> r.Err? && nodes == old(nodes)
    {
      var present := Exists(path);
      if present {
        var existing := Read(path);
        if existing.Err? {
          return Err(existing.error);
        }
        var ok := Write(path, existing.value + content);
        return Ok(ok);
      }
      var ok := Write(path, content);
      return Ok(ok);
    }

    /** copy: refuses a directory source; otherwise the destination gets the source's content. */
    method Copy(source: string, destination: string) returns (r: Result<bool, string>)
      modifies this
      ensures source !in old(nodes) ==> r.Err? && nodes == old(nodes)
      ensures source in old(nodes) && old(nodes)[source].DirNode? ==>
                r == Err(DirectoryCopyError) && nodes == old(nodes)
      ensures source in old(nodes) && old(nodes)[source].FileNode? ==>
                r == Ok(true) && nodes == old(nodes)[destination := old(nodes)[source]]
    {
      var st := Stat(source);
      if st.Err? {
        return Err(st.error);
      }
      if st.value {
        return Err(DirectoryCopyError);
      }
      var content := Read(source);
      var data := if content.Ok? then content.value else "";
      var ok := Write(destination, data);
      return Ok(ok);
    }
  }
}
