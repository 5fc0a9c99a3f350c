/**
 * The settings service: one settings row per user id (the table's primary
 * key), created, patched and upserted in place.
 */
module SettingsService {
  import opened Wrappers

  /**
   * A settings row. The three default-model columns hold model ids or null;
   * `maxContextLoadTime` and `language` are written by user creation, and
   * None there stands for the column's default, which is not part of this model.
   */
  datatype SettingsRow = SettingsRow(
    userId: string,
    defaultChatModel: Option<string>,
    defaultEmbeddingModel: Option<string>,
    defaultSummaryModel: Option<string>,
    maxContextLoadTime: Option<int>,
    language: Option<string>)

  /** An input field as JavaScript sees it: undefined, null, or a string. */
  datatype Field = Absent | Null | Given(value: string)

  /** The model ids a create or update request carries. */
  datatype ModelIds = ModelIds(chat: Field, embedding: Field, summary: Field)

  const DuplicateKey: string := "duplicate key value violates unique constraint \"settings_pkey\""

  /** `value || null`: undefined, null and the empty string are all stored as null. */
  function OrNull(f: Field): (r: Option<string>)
    ensures r.Some? <==> f.Given? && f.value != ""
    ensures r.Some? ==> r.value == f.value
  {
    if f.Given? && f.value != "" then Some(f.value) else None
  }

  /** An update's `set`: an undefined field leaves the column alone, null clears it. */
  function Patch(current: Option<string>, f: Field): (r: Option<string>)
    ensures f.Absent? ==> r == current
    ensures f.Null? ==> r.None?
    ensures f.Given? ==> r == Some(f.value)
  {
    match f
    case Absent => current
    case Null => None
    case Given(v) => Some(v)
  }

  /** The row createSettings inserts. */
  function NewRow(userId: string, ids: ModelIds): (r: SettingsRow)
    ensures r.userId == userId
    ensures r.defaultChatModel == OrNull(ids.chat)
    ensures r.defaultEmbeddingModel == OrNull(ids.embedding)
    ensures r.defaultSummaryModel == OrNull(ids.summary)
    ensures r.maxContextLoadTime.None? && r.language.None?
  {
    SettingsRow(userId, OrNull(ids.chat), OrNull(ids.embedding), OrNull(ids.summary), None, None)
  }

  /** The row updateSettings leaves: only the three model columns can change. */
  function Patched(row: SettingsRow, ids: ModelIds): (r: SettingsRow)
    ensures r.userId == row.userId
    ensures r.maxContextLoadTime == row.maxContextLoadTime && r.language == row.language
    ensures r.defaultChatModel == Patch(row.defaultChatModel, ids.chat)
    ensures r.defaultEmbeddingModel == Patch(row.defaultEmbeddingModel, ids.embedding)
    ensures r.defaultSummaryModel == Patch(row.defaultSummaryModel, ids.summary)
  {
    row.(defaultChatModel := Patch(row.defaultChatModel, ids.chat),
         defaultEmbeddingModel := Patch(row.defaultEmbeddingModel, ids.embedding),
         defaultSummaryModel := Patch(row.defaultSummaryModel, ids.summary))
  }

  /** An update that names no field changes nothing. */
  lemma PatchNothing(row: SettingsRow)
    ensures Patched(row, ModelIds(Absent, Absent, Absent)) == row
  {
  }

  /** Applying the same update twice is applying it once. */
  lemma PatchIdempotent(row: SettingsRow, ids: ModelIds)
    ensures Patched(Patched(row, ids), ids) == Patched(row, ids)
  {
  }

  /**
   * Inserting with `|| null` and patching with the raw values agree whenever
   * no field is the empty string.
   */
  lemma InsertAgreesWithPatch(userId: string, ids: ModelIds)
    requires ids.chat != Given("") && ids.embedding != Given("") && ids.summary != Given("")
    ensures Patched(SettingsRow(userId, None, None, None, None, None), ids) == NewRow(userId, ids)
  {
  }

  /** The settings table, keyed by user id. */
  class SettingsTable {
    var rows: map<string, SettingsRow>

    /** Each row is stored under its own user id. */
    predicate Valid()
      reads this
    {
      forall k :: k in rows ==> rows[k].userId == k
    }

    constructor()
      ensures Valid() && rows == map[]
    {
      rows := map[];
    }

    /** getSettings: the row for the user, if any. */
    method Get(userId: string) returns (r: Option<SettingsRow>)
      requires Valid()
      ensures r.Some? <==> userId in rows
      ensures r.Some? ==> r.value == rows[userId] && r.value.userId == userId
    {
      if userId in rows {
        return Some(rows[userId]);
      }
      return None;
    }

    /** createSettings: inserts a new row; a second row for the same user violates the key. */
    method Create(userId: string, ids: ModelIds) returns (r: Result<SettingsRow, string>)
      requires Valid()
      modifies this
      ensures Valid()
      ensures userId in old(rows) ==> r == Err(DuplicateKey) && rows == old(rows)
      ensures userId !in old(rows) ==> r == Ok(NewRow(userId, ids)) && rows == old(rows)[userId := r.value]
    {
      if userId in rows {
        return Err(DuplicateKey);
      }
      var row := NewRow(userId, ids);
      rows := rows[userId := row];
      return Ok(row);
    }

    /** updateSettings: patches the user's row, or returns nothing for an unknown user. */
    method Update(userId: string, ids: ModelIds) returns (r: Option<SettingsRow>)
      requires Valid()
      modifies this
      ensures Valid()
      ensures userId !in old(rows) ==> r.None? && rows == old(rows)
      ensures userId in old(rows) ==>
                r == Some(Patched(old(rows)[userId], ids)) && rows == old(rows)[userId := r.value]
    {
      if userId !in rows {
        return None;
      }
      var row := Patched(rows[userId], ids);
      rows := rows[userId := row];
      return Some(row);
    }

    /** upsertSettings: inserts as createSettings does, or on conflict patches as updateSettings does. */
    method Upsert(userId: string, ids: ModelIds) returns (r: SettingsRow)
      requires Valid()
      modifies this
      ensures Valid()
      ensures userId !in old(rows) ==> r == NewRow(userId, ids)
      ensures userId in old(rows) ==> r == Patched(old(rows)[userId], ids)
      ensures rows == old(rows)[userId := r]
    {
      if userId in rows {
        r := Patched(rows[userId], ids);
      } else {
        r := NewRow(userId, ids);
      }
      rows := rows[userId := r];
    }
  }

  /** Creating and then upserting leaves one row for the user, patched by the upsert. */
  method CreateThenUpsert(t: SettingsTable, userId: string, first: ModelIds, second: ModelIds)
    returns (r: SettingsRow)
    requires t.Valid() && userId !in t.rows
    modifies t
    ensures t.Valid() && t.rows.Keys == old(t.rows.Keys) + {userId}
    ensures r == Patched(NewRow(userId, first), second) && t.rows[userId] == r
  {
    var created := t.Create(userId, first);
    r := t.Upsert(userId, second);
  }
}
