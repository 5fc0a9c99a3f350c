/**
 * The user service: the users table with unique usernames and unique
 * (non-null) emails, creation with its automatic settings row, profile
 * updates, password changes and deletion. Operations run one at a time.
 */
module UserService {
  import opened Wrappers
  import SettingsService

  datatype Role = Admin | Member

  /** A users row; times are milliseconds, the password is stored only as its hash. */
  datatype UserRow = UserRow(
    id: string, username: string, email: Option<string>, passwordHash: string, role: Role,
    displayName: Option<string>, avatarUrl: Option<string>, isActive: string,
    createdAt: int, updatedAt: int, lastLoginAt: Option<int>)

  /** The columns the service returns (everything but the password hash). */
  datatype UserView = UserView(
    id: string, username: string, email: Option<string>, role: Role,
    displayName: Option<string>, avatarUrl: Option<string>, isActive: string,
    createdAt: int, updatedAt: int, lastLoginAt: Option<int>)

  /** The columns createUser returns: the view without updatedAt and lastLoginAt. */
  datatype CreatedUser = CreatedUser(
    id: string, username: string, email: Option<string>, role: Role,
    displayName: Option<string>, avatarUrl: Option<string>, isActive: string, createdAt: int)

  /** The id and username that delete and password update return. */
  datatype UserRef = UserRef(id: string, username: string)

  /** A validated create request; optional fields are None when absent. */
  datatype CreateInput = CreateInput(
    username: string, email: Option<string>, password: string, role: Option<Role>,
    displayName: Option<string>, avatarUrl: Option<string>)

  /** A validated update request; each present field is written, absent ones are left alone. */
  datatype UpdateInput = UpdateInput(
    email: Option<string>, role: Option<Role>, displayName: Option<string>,
    avatarUrl: Option<string>, isActive: Option<string>)

  const UsernameTaken: string := "Username already exists"
  const EmailTaken: string := "Email already exists"
  const DefaultLanguage: string := "Same as user input"
  const DefaultMaxContextLoadTime: int := 60
  /** The database's refusals for the users table's unique columns. */
  const EmailUniqueViolation: string := "duplicate key value violates unique constraint \"users_email_unique\""
  const UserKeyViolation: string := "duplicate key value violates unique constraint \"users_pkey\""

  function View(u: UserRow): (v: UserView)
    ensures v.id == u.id && v.username == u.username && v.email == u.email && v.role == u.role
  {
    UserView(u.id, u.username, u.email, u.role, u.displayName, u.avatarUrl, u.isActive,
             u.createdAt, u.updatedAt, u.lastLoginAt)
  }

  /** createUser's `.returning` selection of a row. */
  function CreatedView(u: UserRow): (v: CreatedUser)
    ensures v.id == u.id && v.username == u.username && v.email == u.email && v.role == u.role
    ensures v.displayName == u.displayName && v.avatarUrl == u.avatarUrl
    ensures v.isActive == u.isActive && v.createdAt == u.createdAt
  {
    CreatedUser(u.id, u.username, u.email, u.role, u.displayName, u.avatarUrl, u.isActive, u.createdAt)
  }

  /** `value || null` for an optional string. */
  function NonEmpty(s: Option<string>): (r: Option<string>)
    ensures r.Some? <==> s.Some? && s.value != ""
    ensures r.Some? ==> r == s
  {
    if s.Some? && s.value != "" then s else None
  }

  /** The row createUser inserts, with its defaults filled in. */
  function NewUser(data: CreateInput, id: string, hash: string -> string, now: int): (u: UserRow)
    ensures u.id == id && u.username == data.username
    ensures u.role == (if data.role.Some? then data.role.value else Member)
    ensures u.email == NonEmpty(data.email) && u.displayName == NonEmpty(data.displayName)
    ensures u.avatarUrl == NonEmpty(data.avatarUrl)
    ensures u.passwordHash == hash(data.password) && u.isActive == "true"
    ensures u.createdAt == now && u.updatedAt == now && u.lastLoginAt.None?
  {
    UserRow(id, data.username, NonEmpty(data.email), hash(data.password),
            if data.role.Some? then data.role.value else Member,
            NonEmpty(data.displayName), NonEmpty(data.avatarUrl), "true", now, now, None)
  }

  /** The settings row created with a new user. */
  function DefaultSettings(userId: string): (s: SettingsService.SettingsRow)
    ensures s.userId == userId
    ensures s.defaultChatModel.None? && s.defaultEmbeddingModel.None? && s.defaultSummaryModel.None?
    ensures s.maxContextLoadTime == Some(DefaultMaxContextLoadTime) && s.language == Some(DefaultLanguage)
  {
    SettingsService.SettingsRow(userId, None, None, None, Some(DefaultMaxContextLoadTime), Some(DefaultLanguage))
  }

  /** updateUser's `set`: the present fields, and the update time. */
  function Patched(u: UserRow, data: UpdateInput, now: int): (r: UserRow)
    ensures r.id == u.id && r.username == u.username && r.passwordHash == u.passwordHash
    ensures r.createdAt == u.createdAt && r.lastLoginAt == u.lastLoginAt && r.updatedAt == now
    ensures r.email == (if data.email.Some? then data.email else u.email)
    ensures r.role == (if data.role.Some? then data.role.value else u.role)
    ensures r.isActive == (if data.isActive.Some? then data.isActive.value else u.isActive)
  {
    u.(email := if data.email.Some? then data.email else u.email,
       role := if data.role.Some? then data.role.value else u.role,
       displayName := if data.displayName.Some? then data.displayName else u.displayName,
       avatarUrl := if data.avatarUrl.Some? then data.avatarUrl else u.avatarUrl,
       isActive := if data.isActive.Some? then data.isActive.value else u.isActive,
       updatedAt := now)
  }

  /** An update naming no field only moves the update time. */
  lemma EmptyUpdateTouchesTime(u: UserRow, now: int)
    ensures Patched(u, UpdateInput(None, None, None, None, None), now) == u.(updatedAt := now)
  {
  }

  predicate UsernameIn(rows: map<string, UserRow>, username: string) {
    exists k :: k in rows && rows[k].username == username
  }

  predicate EmailIn(rows: map<string, UserRow>, email: string) {
    exists k :: k in rows && rows[k].email == Some(email)
  }

  /** Whether a user other than `id` holds `email`. */
  predicate EmailHeldByOther(rows: map<string, UserRow>, email: string, id: string) {
    exists k :: k in rows && k != id && rows[k].email == Some(email)
  }

  /** Keys match ids; usernames and non-null emails are unique. */
  predicate Consistent(rows: map<string, UserRow>) {
    && (forall k :: k in rows ==> rows[k].id == k)
    && (forall a, b :: a in rows && b in rows && rows[a].username == rows[b].username ==> a == b)
    && (forall a, b :: a in rows && b in rows && rows[a].email.Some? && rows[a].email == rows[b].email ==> a == b)
  }

  /** Adding a user whose username and email are free keeps the table consistent. */
  lemma InsertKeepsConsistent(rows: map<string, UserRow>, u: UserRow)
    requires Consistent(rows) && u.id !in rows
    requires !UsernameIn(rows, u.username)
    requires u.email.Some? ==> !EmailIn(rows, u.email.value)
    ensures Consistent(rows[u.id := u])
  {
    var rows' := rows[u.id := u];
    forall a, b | a in rows' && b in rows' && rows'[a].username == rows'[b].username
      ensures a == b
    {
      if a != b && (a == u.id || b == u.id) {
        assert false;
      }
    }
    forall a, b | a in rows' && b in rows' && rows'[a].email.Some? && rows'[a].email == rows'[b].email
      ensures a == b
    {
      if a != b && (a == u.id || b == u.id) {
        assert false;
      }
    }
  }

  /** Replacing a row with one of the same id, username and an email no other user holds keeps the table consistent. */
  lemma ReplaceKeepsConsistent(rows: map<string, UserRow>, u: UserRow)
    requires Consistent(rows) && u.id in rows && rows[u.id].username == u.username
    requires u.email.Some? ==> !EmailHeldByOther(rows, u.email.value, u.id)
    ensures Consistent(rows[u.id := u])
  {
    var rows' := rows[u.id := u];
    forall a, b | a in rows' && b in rows' && rows'[a].email.Some? && rows'[a].email == rows'[b].email
      ensures a == b
    {
      if a != b && (a == u.id || b == u.id) {
        assert false;
      }
    }
  }

  /** The users table. */
  class UserTable {
    var rows: map<string, UserRow>

    predicate Valid()
      reads this
    {
      Consistent(rows)
    }

    constructor()
      ensures Valid() && rows == map[]
    {
      rows := map[];
    }

    /** getUserById: the user's public columns, if the user exists. */
    method GetById(id: string) returns (r: Option<UserView>)
      requires Valid()
      ensures r.Some? <==> id in rows
      ensures r.Some? ==> r.value == View(rows[id]) && r.value.id == id
    {
      if id in rows {
        return Some(View(rows[id]));
      }
      return None;
    }

    /** updateUser: null for an unknown id; refuses an email another user holds. */
    method Update(id: string, data: UpdateInput, now: int) returns (r: Result<Option<UserView>, string>)
      requires Valid()
      modifies this
      ensures Valid()
      ensures id !in old(rows) ==> r == Ok(None) && rows == old(rows)
      ensures (id in old(rows) && data.email.Some? && data.email.value != ""
               && EmailHeldByOther(old(rows), data.email.value, id)) ==> r == Err(EmailTaken) && rows == old(rows)
      ensures id in old(rows) && !(data.email.Some? && data.email.value != ""
                                   && EmailHeldByOther(old(rows), data.email.value, id)) ==>
                var email := Patched(old(rows)[id], data, now).email;
                if email.Some? && EmailHeldByOther(old(rows), email.value, id)
                then r == Err(EmailUniqueViolation) && rows == old(rows)
                else r.Ok? && r.value.Some?
      ensures r.Ok? && r.value.Some? ==>
                id in old(rows) && rows == old(rows)[id := Patched(old(rows)[id], data, now)]
                && r.value.value == View(rows[id])
    {
      if id !in rows {
        return Ok(None);
      }
      if data.email.Some? && data.email.value != "" && EmailHeldByOther(rows, data.email.value, id) {
        return Err(EmailTaken);
      }
      var u := Patched(rows[id], data, now);
      if u.email.Some? && EmailHeldByOther(rows, u.email.value, id) {
        // An empty email is not checked by the service; the unique column refuses it.
        return Err(EmailUniqueViolation);
      }
      ReplaceKeepsConsistent(rows, u);
      rows := rows[id := u];
      return Ok(Some(View(u)));
    }

    /** deleteUser: null for an unknown id; otherwise removes that row only. */
    method Delete(id: string) returns (r: Option<UserRef>)
      requires Valid()
      modifies this
      ensures Valid()
      ensures id !in old(rows) ==> r.None? && rows == old(rows)
      ensures id in old(rows) ==> r == Some(UserRef(id, old(rows)[id].username)) && rows == old(rows) - {id}
    {
      if id !in rows {
        return None;
      }
      r := Some(UserRef(id, rows[id].username));
      rows := rows - {id};
    }

    /** updateUserPassword: null for an unknown id; otherwise stores the new hash. */
    method UpdatePassword(id: string, password: string, hash: string -> string, now: int)
      returns (r: Option<UserRef>)
      requires Valid()
      modifies this
      ensures Valid()
      ensures id !in old(rows) ==> r.None? && rows == old(rows)
      ensures id in old(rows) ==>
                r == Some(UserRef(id, old(rows)[id].username))
                && rows == old(rows)[id := old(rows)[id].(passwordHash := hash(password), updatedAt := now)]
    {
      if id !in rows {
        return None;
      }
      var u := rows[id].(passwordHash := hash(password), updatedAt := now);
      ReplaceKeepsConsistent(rows, u);
      rows := rows[id := u];
      return Some(UserRef(id, u.username));
    }
  }

  /**
   * createUser. The id is the database's random default, given as `newId`.
   * The user row and the settings row are two separate inserts, so a failing
   * settings insert leaves the new user in place.
   */
  method CreateUser(users: UserTable, settings: SettingsService.SettingsTable, data: CreateInput,
                    newId: string, hash: string -> string, now: int)
    returns (r: Result<CreatedUser, string>)
    requires users.Valid() && settings.Valid()
    modifies users, settings
    ensures users.Valid() && settings.Valid()
    ensures UsernameIn(old(users.rows), data.username) ==>
              r == Err(UsernameTaken) && users.rows == old(users.rows) && settings.rows == old(settings.rows)
    ensures !UsernameIn(old(users.rows), data.username) && data.email.Some? && data.email.value != ""
            && EmailIn(old(users.rows), data.email.value) ==>
              r == Err(EmailTaken) && users.rows == old(users.rows) && settings.rows == old(settings.rows)
    ensures !UsernameIn(old(users.rows), data.username)
            && !(data.email.Some? && data.email.value != "" && EmailIn(old(users.rows), data.email.value)) ==>
              if newId in old(users.rows) then
                r == Err(UserKeyViolation) && users.rows == old(users.rows) && settings.rows == old(settings.rows)
              else if newId in old(settings.rows) then
                r == Err(SettingsService.DuplicateKey) && settings.rows == old(settings.rows)
                && users.rows == old(users.rows)[newId := NewUser(data, newId, hash, now)]
              else r.Ok?
    ensures r.Ok? ==>
              && r.value == CreatedView(NewUser(data, newId, hash, now))
              && users.rows == old(users.rows)[newId := NewUser(data, newId, hash, now)]
              && settings.rows == old(settings.rows)[newId := DefaultSettings(newId)]
  {
    if UsernameIn(users.rows, data.username) {
      return Err(UsernameTaken);
    }
    if data.email.Some? && data.email.value != "" && EmailIn(users.rows, data.email.value) {
      return Err(EmailTaken);
    }
    if newId in users.rows {
      return Err(UserKeyViolation);
    }
    var u := NewUser(data, newId, hash, now);
    InsertKeepsConsistent(users.rows, u);
    users.rows := users.rows[newId := u];
    if newId in settings.rows {
      return Err(SettingsService.DuplicateKey);
    }
    settings.rows := settings.rows[newId := DefaultSettings(newId)];
    return Ok(CreatedView(u));
  }

  /** Once a username is registered, registering it again fails. */
  method RegisterTwice(users: UserTable, settings: SettingsService.SettingsTable, data: CreateInput,
                       firstId: string, secondId: string, hash: string -> string, now: int)
    returns (first: Result<CreatedUser, string>, second: Result<CreatedUser, string>)
    requires users.Valid() && settings.Valid()
    modifies users, settings
    ensures first.Ok? ==> second == Err(UsernameTaken)
  {
    first := CreateUser(users, settings, data, firstId, hash, now);
    assert first.Ok? ==> users.rows[firstId].username == data.username;
    second := CreateUser(users, settings, data, secondId, hash, now);
  }
}
