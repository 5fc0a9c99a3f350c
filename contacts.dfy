/**
 * The get_contacts MCP tool: lists the bot's known conversation routes,
 * optionally filtered by platform, as JSON entries.
 */
module Contacts {
  import opened Wrappers
  import opened Text
  import opened Json
  import opened Mcp

  const ToolGetContacts: string := "get_contacts"
  const ToolDescription: string :=
    "List all known contacts and conversations for the current bot. Returns platform, conversation type, reply target, and metadata for each route."
  const PlatformDescription: string :=
    "Filter by channel platform (e.g. telegram, feishu). Returns all platforms when omitted."

  /** A conversation route; `lastActive` is its update time already formatted as RFC 3339. */
  datatype Route = Route(
    id: string, platform: string, conversationType: string, replyTarget: string,
    conversationId: string, lastActive: string, metadata: Object)

  /** ListTools: the one tool when the route service is configured, none otherwise. */
  function ListTools(hasService: bool): (r: seq<ToolDescriptor>)
    ensures !hasService <==> r == []
    ensures hasService ==> |r| == 1 && r[0].name == ToolGetContacts
    ensures hasService ==> ObjectAt(r[0].inputSchema, "properties").Some?
                           && ObjectAt(r[0].inputSchema, "properties").value.Keys == {"platform"}
    ensures hasService ==> "required" in r[0].inputSchema && r[0].inputSchema["required"] == Arr([])
  {
    if !hasService then []
    else
      var platform := map[
        "type" := Str("string"),
        "description" := Str(PlatformDescription)];
      [ToolDescriptor(
        ToolGetContacts,
        ToolDescription,
        map["type" := Str("object"), "properties" := Obj(map["platform" := Obj(platform)]), "required" := Arr([])])]
  }

  /** The non-empty string stored under `key`, if any. */
  function NonEmptyAt(m: Object, key: string): (r: Option<string>)
    ensures r.Some? <==> StringAt(m, key).Some? && StringAt(m, key).value != ""
    ensures r.Some? ==> r == StringAt(m, key)
  {
    match StringAt(m, key)
    case Some(v) => if v != "" then Some(v) else None
    case None => None
  }

  /** The display name: the conversation name, else the sender's display name. */
  function DisplayName(metadata: Object): (r: Option<string>)
    ensures NonEmptyAt(metadata, "conversation_name").Some? ==> r == NonEmptyAt(metadata, "conversation_name")
    ensures NonEmptyAt(metadata, "conversation_name").None? ==> r == NonEmptyAt(metadata, "sender_display_name")
  {
    match NonEmptyAt(metadata, "conversation_name")
    case Some(v) => Some(v)
    case None => NonEmptyAt(metadata, "sender_display_name")
  }

  /** One contact entry, projected from a route. */
  function Entry(r: Route): (e: Object)
    ensures BaseKeys <= e.Keys
    ensures e["route_id"] == Str(r.id) && e["platform"] == Str(r.platform)
    ensures e["conversation_type"] == Str(r.conversationType) && e["target"] == Str(r.replyTarget)
    ensures e["conversation_id"] == Str(r.conversationId) && e["last_active"] == Str(r.lastActive)
    ensures "metadata" in e <==> |r.metadata| > 0
    ensures "metadata" in e ==> e["metadata"] == Obj(r.metadata)
    ensures "display_name" in e <==> |r.metadata| > 0 && DisplayName(r.metadata).Some?
    ensures "display_name" in e ==> e["display_name"] == Str(DisplayName(r.metadata).value)
    ensures "username" in e <==> |r.metadata| > 0 && NonEmptyAt(r.metadata, "sender_username").Some?
    ensures "username" in e ==> e["username"] == Str(NonEmptyAt(r.metadata, "sender_username").value)
    ensures e.Keys <= BaseKeys + {"display_name", "username", "metadata"}
  {
    var base := map[
      "route_id" := Str(r.id), "platform" := Str(r.platform),
      "conversation_type" := Str(r.conversationType), "target" := Str(r.replyTarget),
      "conversation_id" := Str(r.conversationId), "last_active" := Str(r.lastActive)];
    if |r.metadata| == 0 then base
    else
      var named := match DisplayName(r.metadata)
        case Some(n) => base["display_name" := Str(n)]
        case None => base;
      var withUser := match NonEmptyAt(r.metadata, "sender_username")
        case Some(u) => named["username" := Str(u)]
        case None => named;
      withUser["metadata" := Obj(r.metadata)]
  }

  const BaseKeys: set<string> :=
    {"route_id", "platform", "conversation_type", "target", "conversation_id", "last_active"}

  /** A route without metadata yields exactly the six base keys. */
  lemma EntryWithoutMetadata(r: Route)
    requires |r.metadata| == 0
    ensures Entry(r).Keys == BaseKeys
  {
  }

  /** Whether the (already lower-cased) platform filter keeps a route. */
  predicate Keep(r: Route, filter: string) {
    filter == "" || EqualFold(r.platform, filter)
  }

  /** The routes the loop keeps, in order. */
  function Selected(routes: seq<Route>, filter: string): (r: seq<Route>)
    ensures |r| <= |routes|
    decreases |routes|
  {
    if routes == [] then []
    else
      var last := routes[|routes| - 1];
      Selected(routes[..|routes| - 1], filter) + (if Keep(last, filter) then [last] else [])
  }

  /** A route is selected exactly when it is listed and the filter keeps it. */
  lemma {:induction false} SelectedMembership(routes: seq<Route>, filter: string, r: Route)
    ensures r in Selected(routes, filter) <==> r in routes && Keep(r, filter)
    decreases |routes|
  {
    if routes != [] {
      var init := routes[..|routes| - 1];
      SelectedMembership(init, filter, r);
      assert routes == init + [routes[|routes| - 1]];
    }
  }

  /** Selection distributes over concatenation, so it keeps the routes' relative order. */
  lemma {:induction false} SelectedAppend(a: seq<Route>, b: seq<Route>, filter: string)
    ensures Selected(a + b, filter) == Selected(a, filter) + Selected(b, filter)
    decreases |b|
  {
    if b == [] {
      assert a + b == a;
    } else {
      var init := b[..|b| - 1];
      assert (a + b)[..|a + b| - 1] == a + init;
      SelectedAppend(a, init, filter);
    }
  }

  /** An empty filter keeps every route. */
  lemma {:induction false} SelectedUnfiltered(routes: seq<Route>)
    ensures Selected(routes, "") == routes
    decreases |routes|
  {
    if routes != [] {
      SelectedUnfiltered(routes[..|routes| - 1]);
    }
  }

  /**
   * The filter built from the argument (trimmed, lower-cased) matches platforms
   * case-insensitively against the trimmed argument.
   */
  lemma FilterFromArgument(r: Route, arg: string)
    ensures Keep(r, Lower(GoTrim(arg))) <==> GoTrim(arg) == "" || EqualFold(r.platform, GoTrim(arg))
  {
    LowerIdempotent(GoTrim(arg));
  }

  /** One more route: its entry is appended exactly when the filter keeps it. */
  lemma EntriesStep(routes: seq<Route>, i: nat, filter: string)
    requires i < |routes|
    ensures Entries(Selected(routes[..i + 1], filter))
            == Entries(Selected(routes[..i], filter)) + (if Keep(routes[i], filter) then [Obj(Entry(routes[i]))] else [])
  {
    assert routes[..i + 1][..i] == routes[..i];
    var before := Selected(routes[..i], filter);
    if Keep(routes[i], filter) {
      assert Selected(routes[..i + 1], filter) == before + [routes[i]];
      assert Entries(before + [routes[i]]) == Entries(before) + [Obj(Entry(routes[i]))];
    }
  }

  function Entries(routes: seq<Route>): (r: seq<Value>)
    ensures |r| == |routes| && forall i :: 0 <= i < |routes| ==> r[i] == Obj(Entry(routes[i]))
  {
    seq(|routes|, i requires 0 <= i < |routes| => Obj(Entry(routes[i])))
  }

  /**
   * CallTool. The route listing is a parameter; the platform argument is the
   * value the gateway's first-string-argument helper extracted.
   */
  method CallTool(toolName: string, hasService: bool, sessionBotId: string,
                  listRoutes: string -> Result<seq<Route>, string>, platformArg: string)
    returns (r: Result<ToolResult, ToolNotFound>)
    ensures toolName != ToolGetContacts <==> r == Err(ToolNotFound)
    ensures toolName == ToolGetContacts && !hasService ==> r == Ok(ToolError("contacts service not available"))
    ensures toolName == ToolGetContacts && hasService && GoTrim(sessionBotId) == "" ==>
              r == Ok(ToolError("bot_id is required"))
    ensures toolName == ToolGetContacts && hasService && GoTrim(sessionBotId) != "" ==>
              var botId := GoTrim(sessionBotId);
              match listRoutes(botId)
              case Err(e) => r == Ok(ToolError(e))
              case Ok(routes) =>
                r == Ok(ToolSuccess(Payload(botId, Entries(Selected(routes, Lower(GoTrim(platformArg)))))))
  {
    if toolName != ToolGetContacts {
      return Err(ToolNotFound);
    }
    if !hasService {
      return Ok(ToolError("contacts service not available"));
    }
    var botId := GoTrim(sessionBotId);
    if botId == "" {
      return Ok(ToolError("bot_id is required"));
    }
    var listed := listRoutes(botId);
    if listed.Err? {
      return Ok(ToolError(listed.error));
    }
    var contacts := CollectContacts(listed.value, Lower(GoTrim(platformArg)));
    return Ok(ToolSuccess(Payload(botId, contacts)));
  }

  /** CallTool's loop over the routes: the entries of the routes the filter keeps, in order. */
  method CollectContacts(routes: seq<Route>, filter: string) returns (contacts: seq<Value>)
    ensures contacts == Entries(Selected(routes, filter))
  {
    contacts := [];
    var i := 0;
    while i < |routes|
      invariant 0 <= i <= |routes|
      invariant contacts == Entries(Selected(routes[..i], filter))
    {
      EntriesStep(routes, i, filter);
      if !Keep(routes[i], filter) {
        i := i + 1;
        continue;
      }
      contacts := contacts + [Obj(Entry(routes[i]))];
      i := i + 1;
    }
    assert routes[..i] == routes;
  }

  /** The success payload: `count` is the number of contacts returned. */
  function Payload(botId: string, contacts: seq<Value>): (p: Object)
    ensures p.Keys == {"ok", "bot_id", "count", "contacts"}
    ensures p["ok"] == Bool(true) && p["bot_id"] == Str(botId)
    ensures p["contacts"] == Arr(contacts) && p["count"] == Num(|contacts| as real)
  {
    map["ok" := Bool(true), "bot_id" := Str(botId), "count" := Num(|contacts| as real), "contacts" := Arr(contacts)]
  }
}
