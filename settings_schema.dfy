/**
 * The settings body validator. Every field is optional; a default-model id
 * may be null, and when it is a string it must have the UUID shape.
 */
module SettingsSchema {
  import opened Wrappers
  import opened Json
  import Zod
  import SettingsService

  const MinLoadTime: int := 1
  const MaxLoadTime: int := 1440

  /** The parsed body: the three model ids and the two optional overrides. */
  datatype SettingsBody = SettingsBody(
    ids: SettingsService.ModelIds, maxContextLoadTime: Option<int>, language: Option<string>)

  /** z.string().uuid().nullable().optional() on field `key`. */
  function ParseModelId(o: Object, key: string): (r: Option<SettingsService.Field>)
    ensures r == Some(SettingsService.Absent) <==> key !in o
    ensures r == Some(SettingsService.Null) <==> key in o && o[key] == Null
    ensures r.Some? && r.value.Given? <==> key in o && o[key].Str? && Zod.IsUuid(o[key].s)
    ensures r.Some? && r.value.Given? ==> r.value.value == o[key].s
  {
    if key !in o then Some(SettingsService.Absent)
    else if o[key] == Null then Some(SettingsService.Null)
    else if o[key].Str? && Zod.IsUuid(o[key].s) then Some(SettingsService.Given(o[key].s))
    else None
  }

  predicate ModelIdValid(o: Object, key: string) {
    key !in o || o[key] == Null || (o[key].Str? && Zod.IsUuid(o[key].s))
  }

  predicate SettingsValid(o: Object) {
    && ModelIdValid(o, "defaultChatModel")
    && ModelIdValid(o, "defaultEmbeddingModel")
    && ModelIdValid(o, "defaultSummaryModel")
    && ("maxContextLoadTime" !in o || Zod.IntBetween(o["maxContextLoadTime"], MinLoadTime, MaxLoadTime).Some?)
    && ("language" !in o || o["language"].Str?)
  }

  /** SettingsBodySchema. */
  function ParseSettings(body: Value): (r: Option<SettingsBody>)
    ensures r.Some? <==> body.Obj? && SettingsValid(body.fields)
    ensures r.Some? && r.value.maxContextLoadTime.Some? ==>
              MinLoadTime <= r.value.maxContextLoadTime.value <= MaxLoadTime
    ensures r.Some? ==> (r.value.language.Some? <==> "language" in body.fields)
    ensures r.Some? ==> r.value.language == StringAt(body.fields, "language")
    ensures r.Some? ==> r.value.ids == SettingsService.ModelIds(ParseModelId(body.fields, "defaultChatModel").value,
                                                               ParseModelId(body.fields, "defaultEmbeddingModel").value,
                                                               ParseModelId(body.fields, "defaultSummaryModel").value)
    ensures r.Some? ==> (r.value.maxContextLoadTime.Some? <==> "maxContextLoadTime" in body.fields)
    ensures r.Some? && r.value.maxContextLoadTime.Some? ==>
              r.value.maxContextLoadTime.value as real == body.fields["maxContextLoadTime"].n
  {
    if !body.Obj? then None
    else
      var o := body.fields;
      match (ParseModelId(o, "defaultChatModel"), ParseModelId(o, "defaultEmbeddingModel"),
             ParseModelId(o, "defaultSummaryModel"),
             Zod.Optional(o, "maxContextLoadTime", v => Zod.IntBetween(v, MinLoadTime, MaxLoadTime)),
             Zod.Optional(o, "language", Zod.AnyString))
      case (Some(c), Some(e), Some(s), Some(t), Some(l)) =>
        Some(SettingsBody(SettingsService.ModelIds(c, e, s), t, l))
      case _ => None
  }

  /** An empty body is valid and asks for no change. */
  lemma EmptyBodyAccepted()
    ensures ParseSettings(Obj(map[])) == Some(SettingsBody(
              SettingsService.ModelIds(SettingsService.Absent, SettingsService.Absent, SettingsService.Absent),
              None, None))
  {
  }

  /** A model id that is not in the UUID form is refused. */
  lemma NonUuidRejected()
    ensures ParseSettings(Obj(map["defaultChatModel" := Str("invalid-uuid")])).None?
  {
    assert !Zod.IsUuid("invalid-uuid");
  }

  /** Every model id a row holds is a UUID. */
  predicate StoredIdsWellFormed(row: SettingsService.SettingsRow) {
    && (row.defaultChatModel.None? || Zod.IsUuid(row.defaultChatModel.value))
    && (row.defaultEmbeddingModel.None? || Zod.IsUuid(row.defaultEmbeddingModel.value))
    && (row.defaultSummaryModel.None? || Zod.IsUuid(row.defaultSummaryModel.value))
  }

  /**
   * Updating a row with an accepted body keeps every stored model id a UUID,
   * and so does inserting a new row with one.
   */
  lemma AcceptedBodyKeepsIdsWellFormed(body: Value, row: SettingsService.SettingsRow, userId: string)
    requires ParseSettings(body).Some?
    requires StoredIdsWellFormed(row)
    ensures StoredIdsWellFormed(SettingsService.Patched(row, ParseSettings(body).value.ids))
    ensures StoredIdsWellFormed(SettingsService.NewRow(userId, ParseSettings(body).value.ids))
  {
  }
}
