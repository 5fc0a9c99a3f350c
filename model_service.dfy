/**
 * The model service: a table of model configurations keyed by a generated
 * id, and the resolution of a user's default chat, summary and embedding
 * models through their settings row.
 */
module ModelService {
  import opened Wrappers
  import Json
  import SettingsService

  /** A model row: its id and the model configuration, stored as a JSON document. */
  datatype ModelRow = ModelRow(id: string, model: Json.Value)

  const DuplicateKey: string := "duplicate key value violates unique constraint \"model_pkey\""

  /** The model table, keyed by id. */
  class ModelTable {
    var rows: map<string, Json.Value>

    constructor()
      ensures rows == map[]
    {
      rows := map[];
    }

    /** getModels: every row (in no particular order). */
    function Models(): (r: set<ModelRow>)
      reads this
      ensures forall m :: m in r <==> m.id in rows && rows[m.id] == m.model
    {
      set id | id in rows :: ModelRow(id, rows[id])
    }

    /** getModelById: the row with that id, if any. */
    method GetById(id: string) returns (r: Option<ModelRow>)
      ensures r.Some? <==> id in rows
      ensures r.Some? ==> r.value == ModelRow(id, rows[id])
    {
      if id in rows {
        return Some(ModelRow(id, rows[id]));
      }
      return None;
    }

    /**
     * createModel. The id is the database's random default, given here as
     * `newId`; should it collide, the key constraint fails.
     */
    method Create(model: Json.Value, newId: string) returns (r: Result<ModelRow, string>)
      modifies this
      ensures newId in old(rows) ==> r == Err(DuplicateKey) && rows == old(rows)
      ensures newId !in old(rows) ==> r == Ok(ModelRow(newId, model)) && rows == old(rows)[newId := model]
    {
      if newId in rows {
        return Err(DuplicateKey);
      }
      rows := rows[newId := model];
      return Ok(ModelRow(newId, model));
    }

    /** updateModel: replaces that row's configuration, or returns nothing for an unknown id. */
    method Update(id: string, model: Json.Value) returns (r: Option<ModelRow>)
      modifies this
      ensures id !in old(rows) ==> r.None? && rows == old(rows)
      ensures id in old(rows) ==> r == Some(ModelRow(id, model)) && rows == old(rows)[id := model]
    {
      if id !in rows {
        return None;
      }
      rows := rows[id := model];
      return Some(ModelRow(id, model));
    }

    /** deleteModel: removes and returns that row, or returns nothing for an unknown id. */
    method Delete(id: string) returns (r: Option<ModelRow>)
      modifies this
      ensures id !in old(rows) ==> r.None? && rows == old(rows)
      ensures id in old(rows) ==> r == Some(ModelRow(id, old(rows)[id])) && rows == old(rows) - {id}
    {
      if id !in rows {
        return None;
      }
      r := Some(ModelRow(id, rows[id]));
      rows := rows - {id};
    }
  }

  // ---------------------------------------------------------------------
  // Default models

  datatype Purpose = Chat | Summary | Embedding

  /** The settings column each getter reads. */
  function DefaultId(row: SettingsService.SettingsRow, purpose: Purpose): Option<string> {
    match purpose
    case Chat => row.defaultChatModel
    case Summary => row.defaultSummaryModel
    case Embedding => row.defaultEmbeddingModel
  }

  /**
   * getChatModel, getSummaryModel and getEmbeddingModel: nothing when the user
   * has no settings or the column is null or empty; otherwise the model row
   * with that id, which may itself be missing.
   */
  function DefaultModel(settings: map<string, SettingsService.SettingsRow>, models: map<string, Json.Value>,
                        userId: string, purpose: Purpose): (r: Option<ModelRow>)
    ensures userId !in settings ==> r.None?
    ensures r.Some? ==> userId in settings && DefaultId(settings[userId], purpose) == Some(r.value.id)
                        && r.value.id != "" && r.value.id in models && r.value.model == models[r.value.id]
    ensures (userId in settings && DefaultId(settings[userId], purpose).Some?
             && DefaultId(settings[userId], purpose).value != ""
             && DefaultId(settings[userId], purpose).value in models) ==> r.Some?
  {
    if userId !in settings then None
    else match DefaultId(settings[userId], purpose)
      case None => None
      case Some(id) =>
        if id == "" then None
        else if id in models then Some(ModelRow(id, models[id]))
        else None
  }

  /** Each getter depends on its own settings column only. */
  lemma DefaultModelReadsOwnColumn(settings: map<string, SettingsService.SettingsRow>,
                                   models: map<string, Json.Value>, userId: string,
                                   row: SettingsService.SettingsRow)
    requires userId in settings
    requires row.defaultChatModel == settings[userId].defaultChatModel
    ensures DefaultModel(settings[userId := row], models, userId, Chat) == DefaultModel(settings, models, userId, Chat)
  {
  }

  /** A default set through updateSettings resolves to that model. */
  lemma UpdatedDefaultResolves(settings: map<string, SettingsService.SettingsRow>,
                               models: map<string, Json.Value>, userId: string, id: string)
    requires userId in settings && id != "" && id in models
    ensures var ids := SettingsService.ModelIds(SettingsService.Absent, SettingsService.Absent, SettingsService.Given(id));
            var patched := SettingsService.Patched(settings[userId], ids);
            DefaultModel(settings[userId := patched], models, userId, Summary) == Some(ModelRow(id, models[id]))
  {
  }

  /** A deleted model is no longer anyone's resolved default. */
  lemma DeletedModelNotResolved(settings: map<string, SettingsService.SettingsRow>,
                                models: map<string, Json.Value>, userId: string, id: string, purpose: Purpose)
    ensures var r := DefaultModel(settings, models - {id}, userId, purpose);
            r.None? || r.value.id != id
  {
  }
}
