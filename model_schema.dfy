/**
 * The model body validator: a union of a chat-model schema (whose `type`
 * defaults to "chat") and an embedding-model schema (which needs positive
 * integer `dimensions`), tried in that order.
 */
module ModelSchema {
  import opened Wrappers
  import opened Text
  import opened Json
  import Zod

  datatype ModelType = ChatModel | EmbeddingModel

  /** The parsed body; `dimensions` is set for embedding models only. */
  datatype ModelInput = ModelInput(
    modelId: string, baseUrl: string, apiKey: string, clientType: string,
    name: Option<string>, modelType: ModelType, dimensions: Option<int>)

  // ---------------------------------------------------------------------
  // What each schema accepts

  predicate NonEmptyString(o: Object, key: string) {
    key in o && o[key].Str? && Utf16Length(o[key].s) >= 1
  }

  predicate StringField(o: Object, key: string) {
    key in o && o[key].Str?
  }

  /** The fields both schemas share. */
  predicate BaseValid(o: Object) {
    && NonEmptyString(o, "modelId") && StringField(o, "baseUrl")
    && NonEmptyString(o, "apiKey") && StringField(o, "clientType")
    && ("name" !in o || o["name"].Str?)
  }

  predicate ChatValid(o: Object) {
    BaseValid(o) && ("type" !in o || o["type"] == Str("chat"))
  }

  predicate EmbeddingValid(o: Object) {
    && BaseValid(o) && "type" in o && o["type"] == Str("embedding")
    && "dimensions" in o && o["dimensions"].Num? && IsInteger(o["dimensions"].n) && o["dimensions"].n > 0.0
  }

  // ---------------------------------------------------------------------
  // Parsers

  datatype Base = Base(modelId: string, baseUrl: string, apiKey: string, clientType: string, name: Option<string>)

  function ParseBase(o: Object): (r: Option<Base>)
    ensures r.Some? <==> BaseValid(o)
    ensures r.Some? ==> r.value.modelId == o["modelId"].s && r.value.apiKey == o["apiKey"].s
                        && r.value.baseUrl == o["baseUrl"].s && r.value.clientType == o["clientType"].s
                        && r.value.name == (if "name" in o then Some(o["name"].s) else None)
  {
    match (Zod.Required(o, "modelId", v => Zod.StringBetween(v, 1, None)),
           Zod.Required(o, "baseUrl", Zod.AnyString),
           Zod.Required(o, "apiKey", v => Zod.StringBetween(v, 1, None)),
           Zod.Required(o, "clientType", Zod.AnyString),
           Zod.Optional(o, "name", Zod.AnyString))
    case (Some(m), Some(b), Some(k), Some(c), Some(n)) => Some(Base(m, b, k, c, n))
    case _ => None
  }

  /** The model a valid body describes, with the given type and dimensions. */
  function BodyModel(o: Object, t: ModelType, dimensions: Option<int>): ModelInput
    requires BaseValid(o)
  {
    ModelInput(o["modelId"].s, o["baseUrl"].s, o["apiKey"].s, o["clientType"].s,
               StringAt(o, "name"), t, dimensions)
  }

  /** ChatModelSchema: `type` absent or "chat"; output type "chat". */
  function ParseChat(o: Object): (r: Option<ModelInput>)
    ensures r.Some? <==> ChatValid(o)
    ensures r.Some? ==> r.value == BodyModel(o, ChatModel, None)
  {
    match ParseBase(o)
    case None => None
    case Some(b) =>
      if "type" in o && o["type"] != Str("chat") then None
      else Some(ModelInput(b.modelId, b.baseUrl, b.apiKey, b.clientType, b.name, ChatModel, None))
  }

  /** EmbeddingModelSchema: `type` "embedding" and positive integer `dimensions`. */
  function ParseEmbedding(o: Object): (r: Option<ModelInput>)
    ensures r.Some? <==> EmbeddingValid(o)
    ensures r.Some? ==> r.value == BodyModel(o, EmbeddingModel, Some(o["dimensions"].n.Floor))
  {
    match ParseBase(o)
    case None => None
    case Some(b) =>
      if !("type" in o && o["type"] == Str("embedding")) then None
      else match Zod.Required(o, "dimensions", Zod.PositiveInt)
        case None => None
        case Some(d) => Some(ModelInput(b.modelId, b.baseUrl, b.apiKey, b.clientType, b.name, EmbeddingModel, Some(d)))
  }

  /** ModelSchema: the first member of the union that accepts the body. */
  function ParseModel(body: Value): (r: Option<ModelInput>)
    ensures r.Some? <==> body.Obj? && (ChatValid(body.fields) || EmbeddingValid(body.fields))
    ensures r.Some? ==> r.value.modelId != "" && r.value.apiKey != ""
    ensures r.Some? && ChatValid(body.fields) ==> r.value == BodyModel(body.fields, ChatModel, None)
    ensures r.Some? && !ChatValid(body.fields) ==>
              r.value == BodyModel(body.fields, EmbeddingModel, Some(body.fields["dimensions"].n.Floor))
    ensures r.Some? ==> (r.value.modelType == ChatModel <==> ChatValid(body.fields))
    ensures r.Some? && r.value.modelType == ChatModel ==> r.value.dimensions.None?
    ensures r.Some? && r.value.modelType == EmbeddingModel ==>
              r.value.dimensions.Some? && r.value.dimensions.value > 0
              && r.value.dimensions.value as real == body.fields["dimensions"].n
  {
    if !body.Obj? then None
    else match ParseChat(body.fields)
      case Some(m) =>
        assert m.modelType == ChatModel && m.dimensions.None?;
        assert m.modelId == body.fields["modelId"].s && m.apiKey == body.fields["apiKey"].s;
        Some(m)
      case None =>
        var e := ParseEmbedding(body.fields);
        assert e.Some? ==> e.value.modelType == EmbeddingModel;
        assert e.Some? ==> e.value.modelId == body.fields["modelId"].s && e.value.apiKey == body.fields["apiKey"].s;
        e
  }

  /** A body without `type` is a chat model. */
  lemma TypeDefaultsToChat(o: Object)
    requires BaseValid(o) && "type" !in o
    ensures ParseModel(Obj(o)).Some? && ParseModel(Obj(o)).value.modelType == ChatModel
  {
  }

  /** An embedding body without `dimensions` is rejected. */
  lemma EmbeddingNeedsDimensions(o: Object)
    requires "type" in o && o["type"] == Str("embedding") && "dimensions" !in o
    ensures ParseModel(Obj(o)).None?
  {
  }

  /** A body holding only a name is rejected. */
  lemma NameOnlyRejected()
    ensures ParseModel(Obj(map["name" := Str("Invalid Model")])).None?
  {
    assert !BaseValid(map["name" := Str("Invalid Model")]);
  }
}
