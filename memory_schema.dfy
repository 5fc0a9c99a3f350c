/**
 * The memory request validators: the add-memory body, the search query, and
 * the history listing and filter queries with their coercions and defaults.
 * Date and number coercion are parameters: `toDate` gives the epoch time of a
 * value JavaScript's Date accepts and None for an invalid date, `toNumber`
 * gives the number a query string converts to and None for NaN.
 */
module MemorySchema {
  import opened Wrappers
  import opened Text
  import opened Json
  import Zod
  import MemoryMessages

  /**
   * A memory unit as the body schema outputs it. Each message is an object
   * schema without keys, so only the number of messages survives parsing.
   */
  datatype MemoryUnit = MemoryUnit(messageCount: nat, timestamp: int, user: string)

  predicate AllObjects(items: seq<Value>) {
    forall i :: 0 <= i < |items| ==> items[i].Obj?
  }

  predicate MemoryUnitValid(o: Object, toDate: Value -> Option<int>) {
    && "messages" in o && o["messages"].Arr? && AllObjects(o["messages"].items)
    && "timestamp" in o && toDate(o["timestamp"]).Some?
    && "user" in o && o["user"].Str?
  }

  /** AddMemoryModel.body; an absent timestamp is an invalid date. */
  function ParseMemoryUnit(body: Value, toDate: Value -> Option<int>): (r: Option<MemoryUnit>)
    ensures r.Some? <==> body.Obj? && MemoryUnitValid(body.fields, toDate)
    ensures r.Some? ==> r.value.messageCount == |body.fields["messages"].items|
                        && Some(r.value.timestamp) == toDate(body.fields["timestamp"])
                        && r.value.user == body.fields["user"].s
  {
    if !body.Obj? then None
    else
      var o := body.fields;
      if "messages" in o && o["messages"].Arr? && AllObjects(o["messages"].items)
         && "timestamp" in o && toDate(o["timestamp"]).Some? && "user" in o && o["user"].Str?
      then Some(MemoryUnit(|o["messages"].items|, toDate(o["timestamp"]).value, o["user"].s))
      else None
  }

  /** An empty message list is accepted by the schema. */
  lemma EmptyMessagesAccepted(ts: Value, user: string, toDate: Value -> Option<int>)
    requires toDate(ts).Some?
    ensures ParseMemoryUnit(Obj(map["messages" := Arr([]), "timestamp" := ts, "user" := Str(user)]), toDate)
            == Some(MemoryUnit(0, toDate(ts).value, user))
  {
    var o := map["messages" := Arr([]), "timestamp" := ts, "user" := Str(user)];
    assert "messages" in o && "timestamp" in o && "user" in o;
  }

  /** A body without timestamp or without user is refused. */
  lemma MissingTimestampOrUserRejected(o: Object, toDate: Value -> Option<int>)
    requires "timestamp" !in o || "user" !in o
    ensures ParseMemoryUnit(Obj(o), toDate).None?
  {
  }

  /** The parsed search query. */
  datatype SearchQuery = SearchQuery(query: string, userId: string)

  const QueryRequired: string := "Search query is required"
  const UserIdRequired: string := "User ID is required"

  /** SearchMemoryModel.query: both parameters present and non-empty. */
  function ParseSearchQuery(q: map<string, string>): (r: Option<SearchQuery>)
    ensures r.Some? <==> "query" in q && q["query"] != "" && "userId" in q && q["userId"] != ""
    ensures r.Some? ==> r.value == SearchQuery(q["query"], q["userId"])
  {
    match (Zod.Required(StrFields(q), "query", v => Zod.StringBetween(v, 1, None)),
           Zod.Required(StrFields(q), "userId", v => Zod.StringBetween(v, 1, None)))
    case (Some(s), Some(u)) => Some(SearchQuery(s, u))
    case _ => None
  }

  /** A query string as a JSON object whose values are all strings. */
  function StrFields(q: map<string, string>): (r: Object)
    ensures r.Keys == q.Keys
    ensures forall k :: k in q ==> r[k] == Str(q[k])
  {
    map k | k in q :: Str(q[k])
  }

  /** The parsed listing query. */
  datatype PageQuery = PageQuery(limit: real, page: real)

  const DefaultLimit: real := 10.0
  const DefaultPage: real := 1.0

  /** z.coerce.number().default(d) on query parameter `key`. */
  function CoercedNumber(q: map<string, string>, key: string, default: real, toNumber: string -> Option<real>)
    : (r: Option<real>)
    ensures key !in q ==> r == Some(default)
    ensures key in q ==> r == toNumber(q[key])
  {
    if key !in q then Some(default) else toNumber(q[key])
  }

  /** GetMemoryMessageModel.query. */
  function ParsePageQuery(q: map<string, string>, toNumber: string -> Option<real>): (r: Option<PageQuery>)
    ensures r.Some? <==> ("limit" !in q || toNumber(q["limit"]).Some?) && ("page" !in q || toNumber(q["page"]).Some?)
    ensures r.Some? ==> r.value.limit == (if "limit" in q then toNumber(q["limit"]).value else DefaultLimit)
                        && r.value.page == (if "page" in q then toNumber(q["page"]).value else DefaultPage)
  {
    match (CoercedNumber(q, "limit", DefaultLimit, toNumber), CoercedNumber(q, "page", DefaultPage, toNumber))
    case (Some(l), Some(p)) => Some(PageQuery(l, p))
    case _ => None
  }

  /**
   * With no parameters the listing is the user's ten newest rows: the first
   * page of size ten, which the history query serves without error.
   */
  lemma DefaultsGiveFirstPage(rows: seq<MemoryMessages.HistoryRow>, userId: string, toNumber: string -> Option<real>)
    ensures ParsePageQuery(map[], toNumber) == Some(PageQuery(10.0, 1.0))
    ensures MemoryMessages.MemoryMessages(rows, userId, 10, 1)
            == Ok(MemoryMessages.Window(MemoryMessages.Listing(rows, userId), 0, 10))
  {
  }

  /** The parsed filter query: the range ends as epoch times. */
  datatype FilterQuery = FilterQuery(from: int, to: int)

  /** GetMemoryMessageFilterModel.query: both ends required, each a valid date. */
  function ParseFilterQuery(q: map<string, string>, toDate: string -> Option<int>): (r: Option<FilterQuery>)
    ensures r.Some? <==> "from" in q && toDate(q["from"]).Some? && "to" in q && toDate(q["to"]).Some?
    ensures r.Some? ==> Some(r.value.from) == toDate(q["from"]) && Some(r.value.to) == toDate(q["to"])
  {
    if "from" in q && "to" in q then
      match (toDate(q["from"]), toDate(q["to"]))
      case (Some(f), Some(t)) => Some(FilterQuery(f, t))
      case _ => None
    else None
  }

  /** A filter query missing either end is refused. */
  lemma FilterNeedsBothEnds(q: map<string, string>, toDate: string -> Option<int>)
    requires "from" !in q || "to" !in q
    ensures ParseFilterQuery(q, toDate).None?
  {
  }
}
