/**
 * The MCP client's JSON-RPC 2.0 envelopes: the `tools/call` request (section
 * 4 of the JSON-RPC 2.0 Specification) with a string id, and the extraction
 * of errors (section 5.1), structured results and content text from a
 * decoded response payload.
 */
module Mcp {
  import opened Wrappers
  import opened Json

  // ---------------------------------------------------------------------
  // Requests

  /** A JSON-RPC request; `id` holds the raw JSON text of the id and `params` its decoded object. */
  datatype Request = Request(jsonrpc: string, id: string, methodName: string, params: Object)

  /**
   * NewToolCallRequest. The arguments map may be nil (None), which marshals
   * to JSON null. Marshalling a decoded JSON value cannot fail, so the
   * error result of the source never occurs here.
   */
  function NewToolCallRequest(id: string, toolName: string, args: Option<Object>): (r: Request)
    ensures r.jsonrpc == "2.0" && r.methodName == "tools/call"
    ensures r.params.Keys == {"name", "arguments"}
    ensures r.params["name"] == Str(toolName)
    ensures r.params["arguments"] == (if args.Some? then Obj(args.value) else Null)
    ensures Unquote(r.id) == Some(id)
  {
    QuoteRoundTrip(id);
    Request("2.0", RawStringID(id), "tools/call",
            map["name" := Str(toolName), "arguments" := if args.Some? then Obj(args.value) else Null])
  }

  /** RawStringID: the id as a Go-quoted string literal (strconv.Quote). */
  function RawStringID(id: string): (r: string)
    ensures |r| >= 2 && r[0] == '"' && r[|r| - 1] == '"'
  {
    "\"" + QuoteBody(id) + "\""
  }

  const HexDigits: string := "0123456789abcdef"

  /** One character as strconv.Quote writes it inside the quotes. */
  function EscapeChar(c: char): (r: string)
    ensures |r| >= 1
    ensures r[0] == '\\' || r == [c]
  {
    if c == '"' then "\\\""
    else if c == '\\' then "\\\\"
    else if c == '\U{7}' then "\\a"
    else if c == '\U{8}' then "\\b"
    else if c == '\U{C}' then "\\f"
    else if c == '\n' then "\\n"
    else if c == '\r' then "\\r"
    else if c == '\t' then "\\t"
    else if c == '\U{B}' then "\\v"
    else if c < ' ' || c == '\U{7F}' then ['\\', 'x', HexDigits[c as int / 16], HexDigits[c as int % 16]]
    else [c]
  }

  function QuoteBody(s: string): string
    decreases |s|
  {
    if s == [] then [] else EscapeChar(s[0]) + QuoteBody(s[1..])
  }

  function HexValue(c: char): (r: Option<nat>)
    ensures r.Some? ==> r.value < 16
  {
    if '0' <= c <= '9' then Some(c as int - '0' as int)
    else if 'a' <= c <= 'f' then Some(c as int - 'a' as int + 10)
    else if 'A' <= c <= 'F' then Some(c as int - 'A' as int + 10)
    else None
  }

  /** The character a one-letter escape stands for. */
  function SimpleEscape(c: char): Option<char> {
    if c == 'a' then Some('\U{7}')
    else if c == 'b' then Some('\U{8}')
    else if c == 'f' then Some('\U{C}')
    else if c == 'n' then Some('\n')
    else if c == 'r' then Some('\r')
    else if c == 't' then Some('\t')
    else if c == 'v' then Some('\U{B}')
    else if c == '\\' then Some('\\')
    else if c == '"' then Some('"')
    else None
  }

  /** The inside of a Go string literal, decoded; None when it is malformed. */
  function UnquoteBody(t: string): (r: Option<string>)
    ensures r.Some? ==> |r.value| <= |t|
    decreases |t|
  {
    if t == [] then Some([])
    else if t[0] == '"' || t[0] == '\n' then None
    else if t[0] != '\\' then
      match UnquoteBody(t[1..])
      case None => None
      case Some(rest) => Some([t[0]] + rest)
    else if |t| < 2 then None
    else if t[1] == 'x' then
      if |t| < 4 then None
      else match (HexValue(t[2]), HexValue(t[3]), UnquoteBody(t[4..]))
        case (Some(h), Some(l), Some(rest)) => Some([(h * 16 + l) as char] + rest)
        case _ => None
    else
      match (SimpleEscape(t[1]), UnquoteBody(t[2..]))
      case (Some(c), Some(rest)) => Some([c] + rest)
      case _ => None
  }

  /** strconv.Unquote for double-quoted literals with the escapes Quote produces. */
  function Unquote(s: string): (r: Option<string>)
    ensures r.Some? ==> |s| >= 2 && s[0] == '"' && s[|s| - 1] == '"' && |r.value| <= |s| - 2
  {
    if |s| >= 2 && s[0] == '"' && s[|s| - 1] == '"' then UnquoteBody(s[1..|s| - 1]) else None
  }

  lemma EscapeCharDecodes(c: char, t: string)
    ensures UnquoteBody(EscapeChar(c) + t)
            == match UnquoteBody(t) case None => None case Some(rest) => Some([c] + rest)
  {
    var e := EscapeChar(c);
    if e == [c] {
      assert (e + t)[1..] == t;
    } else if |e| == 2 {
      ShortEscapeDecodes(c, t);
    } else {
      HexEscapeDecodes(c, t);
    }
  }

  lemma ShortEscapeDecodes(c: char, t: string)
    requires |EscapeChar(c)| == 2
    ensures UnquoteBody(EscapeChar(c) + t)
            == match UnquoteBody(t) case None => None case Some(rest) => Some([c] + rest)
  {
    var e := EscapeChar(c);
    assert (e + t)[2..] == t;
  }

  lemma HexEscapeDecodes(c: char, t: string)
    requires |EscapeChar(c)| != 2 && EscapeChar(c) != [c]
    ensures UnquoteBody(EscapeChar(c) + t)
            == match UnquoteBody(t) case None => None case Some(rest) => Some([c] + rest)
  {
    var e := EscapeChar(c);
    assert |e| == 4 && e[1] == 'x';
    assert (e + t)[4..] == t;
    var h, l := c as int / 16, c as int % 16;
    assert HexValue(HexDigits[h]) == Some(h);
    assert HexValue(HexDigits[l]) == Some(l);
  }

  lemma {:induction false} QuoteBodyRoundTrip(s: string)
    ensures UnquoteBody(QuoteBody(s)) == Some(s)
    decreases |s|
  {
    if s != [] {
      QuoteBodyRoundTrip(s[1..]);
      EscapeCharDecodes(s[0], QuoteBody(s[1..]));
      assert [s[0]] + s[1..] == s;
    }
  }

  /** Unquoting the raw id gives the original id back. */
  lemma QuoteRoundTrip(id: string)
    ensures Unquote(RawStringID(id)) == Some(id)
  {
    var r := RawStringID(id);
    assert r[1..|r| - 1] == QuoteBody(id);
    QuoteBodyRoundTrip(id);
  }

  // ---------------------------------------------------------------------
  // Responses

  /** PayloadError: a nil payload, or an error member, is an error; its message when it has one. */
  function PayloadError(payload: Option<Object>): (r: Option<string>)
    ensures payload.None? ==> r == Some("empty payload")
    ensures payload.Some? ==> (r.Some? <==> ObjectAt(payload.value, "error").Some?)
    ensures r.Some? ==> r.value != ""
  {
    match payload
    case None => Some("empty payload")
    case Some(p) =>
      match ObjectAt(p, "error")
      case None => None
      case Some(e) =>
        match StringAt(e, "message")
        case Some(msg) => if msg != "" then Some(msg) else Some("mcp error")
        case None => Some("mcp error")
  }

  /** A JSON-RPC error object's message is reported; a missing or empty one gives "mcp error". */
  lemma PayloadErrorMessage(p: Object, e: Object)
    requires p["error" := Obj(e)] == p
    ensures StringAt(e, "message").Some? && StringAt(e, "message").value != "" ==>
              PayloadError(Some(p)) == StringAt(e, "message")
    ensures StringAt(e, "message").None? || StringAt(e, "message") == Some("") ==>
              PayloadError(Some(p)) == Some("mcp error")
  {
    assert "error" in p && p["error"] == Obj(e);
  }

  /** ContentText: the `text` of the first element of `content` when all of them are present. */
  function ContentText(result: Object): (r: string)
    ensures r != "" ==> ArrayAt(result, "content").Some? && |ArrayAt(result, "content").value| > 0
    ensures r != "" ==> var first := ArrayAt(result, "content").value[0];
              first.Obj? && StringAt(first.fields, "text") == Some(r)
  {
    match ArrayAt(result, "content")
    case None => ""
    case Some(items) =>
      if |items| == 0 then ""
      else match items[0]
        case Obj(first) => StringAt(first, "text").GetOr("")
        case _ => ""
  }

  /** The text of a tool result whose first content block is a text block is that text. */
  lemma ContentTextOfTextBlock(result: Object, text: string, more: seq<Value>)
    requires "content" in result
    requires result["content"] == Arr([Obj(map["type" := Str("text"), "text" := Str(text)])] + more)
    ensures ContentText(result) == text
  {
    var items := [Obj(map["type" := Str("text"), "text" := Str(text)])] + more;
    assert items[0] == Obj(map["type" := Str("text"), "text" := Str(text)]);
  }

  /** ResultError: an error exactly when `result.isError` is the boolean true. */
  function ResultError(payload: Option<Object>): (r: Option<string>)
    ensures r.Some? <==> IsErrorResult(payload)
    ensures r.Some? ==> r.value != ""
    ensures r.Some? && ContentText(ObjectAt(payload.value, "result").value) != "" ==>
              r.value == ContentText(ObjectAt(payload.value, "result").value)
  {
    match payload
    case None => None
    case Some(p) =>
      match ObjectAt(p, "result")
      case None => None
      case Some(result) =>
        if BoolAt(result, "isError") == Some(true) then
          var msg := ContentText(result);
          Some(if msg == "" then "mcp tool error" else msg)
        else None
  }

  predicate IsErrorResult(payload: Option<Object>) {
    payload.Some? && ObjectAt(payload.value, "result").Some?
    && BoolAt(ObjectAt(payload.value, "result").value, "isError") == Some(true)
  }

  /** An error result without text reports "mcp tool error"; any other isError value is no error. */
  lemma ResultErrorDefault(p: Object, result: Object)
    requires p["result" := Obj(result)] == p
    ensures BoolAt(result, "isError") == Some(true) && ContentText(result) == "" ==>
              ResultError(Some(p)) == Some("mcp tool error")
    ensures BoolAt(result, "isError") != Some(true) ==> ResultError(Some(p)) == None
  {
    assert "result" in p && p["result"] == Obj(result);
  }

  /**
   * StructuredContent. Decoding the content text is a parameter: None when
   * json.Unmarshal into a map fails, Some(None) for the JSON literal null
   * (which yields a nil map and no error), Some(Some(m)) for an object.
   */
  function StructuredContent(payload: Option<Object>, unmarshal: string -> Option<Option<Object>>)
    : (r: Result<Option<Object>, string>)
    ensures (payload.None? || ObjectAt(payload.value, "result").None?) <==> r == Err("missing result")
    ensures payload.Some? && ObjectAt(payload.value, "result").Some? ==>
              var result := ObjectAt(payload.value, "result").value;
              && (ObjectAt(result, "structuredContent").Some? ==> r == Ok(Some(ObjectAt(result, "structuredContent").value)))
              && (r.Err? ==> r.error == "missing structured content")
    ensures r.Err? ==> r.error == "missing result" || r.error == "missing structured content"
  {
    match payload
    case None => Err("missing result")
    case Some(p) =>
      match ObjectAt(p, "result")
      case None => Err("missing result")
      case Some(result) =>
        match ObjectAt(result, "structuredContent")
        case Some(structured) => Ok(Some(structured))
        case None =>
          var content := ContentText(result);
          if content != "" && unmarshal(content).Some? then Ok(unmarshal(content).value)
          else Err("missing structured content")
  }

  /** Without structured content, an object in the first text block is the structured result. */
  lemma StructuredFromText(p: Object, result: Object, text: string, obj: Object,
                           unmarshal: string -> Option<Option<Object>>)
    requires p["result" := Obj(result)] == p
    requires "structuredContent" !in result
    requires ContentText(result) == text && text != ""
    requires unmarshal(text) == Some(Some(obj))
    ensures StructuredContent(Some(p), unmarshal) == Ok(Some(obj))
  {
    assert "result" in p && p["result"] == Obj(result);
  }

  // ---------------------------------------------------------------------
  // Tool providers

  /** A tool's listing entry. */
  datatype ToolDescriptor = ToolDescriptor(name: string, description: string, inputSchema: Object)

  /**
   * What a provider's CallTool hands back: a tool-level error result or a
   * success payload (the builders that wrap them into MCP result objects are
   * not part of this model).
   */
  datatype ToolResult = ToolError(message: string) | ToolSuccess(payload: Object)

  /** ErrToolNotFound, returned as a Go error rather than as a tool result. */
  datatype ToolNotFound = ToolNotFound
}
