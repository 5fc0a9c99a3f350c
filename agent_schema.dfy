/**
 * The agent stream body validator: a non-empty message and the optional
 * per-request overrides of the user's settings.
 */
module AgentSchema {
  import opened Wrappers
  import opened Text
  import opened Json
  import Zod
  import SettingsSchema

  const MessageRequired: string := "Message is required"

  /** The parsed body. */
  datatype AgentStreamInput = AgentStreamInput(
    message: string, maxContextLoadTime: Option<int>, language: Option<string>)

  predicate AgentStreamValid(o: Object) {
    && "message" in o && o["message"].Str? && Utf16Length(o["message"].s) >= 1
    && ("maxContextLoadTime" !in o
        || Zod.IntBetween(o["maxContextLoadTime"], SettingsSchema.MinLoadTime, SettingsSchema.MaxLoadTime).Some?)
    && ("language" !in o || o["language"].Str?)
  }

  /** AgentStreamModel.body. */
  function ParseAgentStream(body: Value): (r: Option<AgentStreamInput>)
    ensures r.Some? <==> body.Obj? && AgentStreamValid(body.fields)
    ensures r.Some? ==> r.value.message == body.fields["message"].s && r.value.message != ""
    ensures r.Some? && r.value.maxContextLoadTime.Some? ==>
              SettingsSchema.MinLoadTime <= r.value.maxContextLoadTime.value <= SettingsSchema.MaxLoadTime
    ensures r.Some? ==> (r.value.maxContextLoadTime.None? <==> "maxContextLoadTime" !in body.fields)
    ensures r.Some? && r.value.maxContextLoadTime.Some? ==>
              r.value.maxContextLoadTime.value as real == body.fields["maxContextLoadTime"].n
    ensures r.Some? ==> r.value.language == StringAt(body.fields, "language")
  {
    if !body.Obj? then None
    else
      var o := body.fields;
      match (Zod.Required(o, "message", v => Zod.StringBetween(v, 1, None)),
             Zod.Optional(o, "maxContextLoadTime",
                          v => Zod.IntBetween(v, SettingsSchema.MinLoadTime, SettingsSchema.MaxLoadTime)),
             Zod.Optional(o, "language", Zod.AnyString))
      case (Some(m), Some(t), Some(l)) => Some(AgentStreamInput(m, t, l))
      case _ => None
  }

  /** The empty message is refused. */
  lemma EmptyMessageRejected(o: Object)
    ensures ParseAgentStream(Obj(o["message" := Str("")])).None?
  {
    assert Utf16Length("") == 0;
  }

  /**
   * A request override of the load time is accepted exactly when the settings
   * body would accept the same value as the user's default.
   */
  lemma LoadTimeRuleShared(message: string, t: Value)
    requires message != ""
    ensures ParseAgentStream(Obj(map["message" := Str(message), "maxContextLoadTime" := t])).Some?
            <==> SettingsSchema.ParseSettings(Obj(map["maxContextLoadTime" := t])).Some?
  {
    var a := map["message" := Str(message), "maxContextLoadTime" := t];
    var s := map["maxContextLoadTime" := t];
    assert Utf16Length(message) >= 1;
    assert "language" !in a && "language" !in s;
    assert "defaultChatModel" !in s && "defaultEmbeddingModel" !in s && "defaultSummaryModel" !in s;
  }
}
