/**
 * The user request validators: create, update and password bodies, and the
 * UUID path parameter. The email and URL format checks are parameters.
 */
module UserSchema {
  import opened Wrappers
  import opened Text
  import opened Json
  import Zod
  import UserService

  const MinUsername: nat := 3
  const MaxUsername: nat := 50
  const MinPassword: nat := 6

  /** UserRoleSchema: "admin" or "member". */
  function ParseRole(v: Value): (r: Option<UserService.Role>)
    ensures r.Some? <==> v == Str("admin") || v == Str("member")
    ensures r == Some(UserService.Admin) <==> v == Str("admin")
  {
    if v == Str("admin") then Some(UserService.Admin)
    else if v == Str("member") then Some(UserService.Member)
    else None
  }

  /** An optional string field that must satisfy `format` when present. */
  predicate OptionalFormatted(o: Object, key: string, format: string -> bool) {
    key !in o || (o[key].Str? && format(o[key].s))
  }

  function FormattedString(format: string -> bool): Value -> Option<string> {
    (v: Value) => if v.Str? && format(v.s) then Some(v.s) else None
  }

  predicate CreateValid(o: Object, isEmail: string -> bool, isUrl: string -> bool) {
    && "username" in o && o["username"].Str?
    && MinUsername <= Utf16Length(o["username"].s) <= MaxUsername
    && OptionalFormatted(o, "email", isEmail)
    && "password" in o && o["password"].Str? && Utf16Length(o["password"].s) >= MinPassword
    && ("role" !in o || o["role"] == Str("admin") || o["role"] == Str("member"))
    && ("displayName" !in o || o["displayName"].Str?)
    && OptionalFormatted(o, "avatarUrl", isUrl)
  }

  /** CreateUserSchema; the role defaults to member. */
  function ParseCreateUser(body: Value, isEmail: string -> bool, isUrl: string -> bool)
    : (r: Option<UserService.CreateInput>)
    ensures r.Some? <==> body.Obj? && CreateValid(body.fields, isEmail, isUrl)
    ensures r.Some? ==> MinUsername <= Utf16Length(r.value.username) <= MaxUsername
                        && Utf16Length(r.value.password) >= MinPassword
    ensures r.Some? ==> r.value.role.Some?
    ensures r.Some? && "role" !in body.fields ==> r.value.role == Some(UserService.Member)
    ensures r.Some? && r.value.email.Some? ==> isEmail(r.value.email.value)
    ensures r.Some? ==> r.value.username == body.fields["username"].s
                        && r.value.password == body.fields["password"].s
    ensures r.Some? ==> r.value.email == StringAt(body.fields, "email")
                        && r.value.displayName == StringAt(body.fields, "displayName")
                        && r.value.avatarUrl == StringAt(body.fields, "avatarUrl")
    ensures r.Some? ==> (r.value.role == Some(UserService.Admin) <==> "role" in body.fields
                                                                      && body.fields["role"] == Str("admin"))
  {
    if !body.Obj? then None
    else
      var o := body.fields;
      match (Zod.Required(o, "username", v => Zod.StringBetween(v, MinUsername, Some(MaxUsername))),
             Zod.Optional(o, "email", FormattedString(isEmail)),
             Zod.Required(o, "password", v => Zod.StringBetween(v, MinPassword, None)),
             Zod.Optional(o, "role", ParseRole),
             Zod.Optional(o, "displayName", Zod.AnyString),
             Zod.Optional(o, "avatarUrl", FormattedString(isUrl)))
      case (Some(u), Some(e), Some(p), Some(role), Some(d), Some(a)) =>
        Some(UserService.CreateInput(u, e, p, Some(role.GetOr(UserService.Member)), d, a))
      case _ => None
  }

  predicate UpdateValid(o: Object, isEmail: string -> bool, isUrl: string -> bool) {
    && OptionalFormatted(o, "email", isEmail)
    && ("role" !in o || o["role"] == Str("admin") || o["role"] == Str("member"))
    && ("displayName" !in o || o["displayName"].Str?)
    && OptionalFormatted(o, "avatarUrl", isUrl)
    && ("isActive" !in o || o["isActive"] == Str("true") || o["isActive"] == Str("false"))
  }

  /** UpdateUserSchema: every field optional. */
  function ParseUpdateUser(body: Value, isEmail: string -> bool, isUrl: string -> bool)
    : (r: Option<UserService.UpdateInput>)
    ensures r.Some? <==> body.Obj? && UpdateValid(body.fields, isEmail, isUrl)
    ensures r.Some? && r.value.isActive.Some? ==> r.value.isActive.value in ["true", "false"]
    ensures r.Some? ==> (r.value.email.Some? <==> "email" in body.fields)
    ensures r.Some? ==> r.value.email == StringAt(body.fields, "email")
                        && r.value.displayName == StringAt(body.fields, "displayName")
                        && r.value.avatarUrl == StringAt(body.fields, "avatarUrl")
                        && r.value.isActive == StringAt(body.fields, "isActive")
    ensures r.Some? ==> r.value.role == (if "role" in body.fields then ParseRole(body.fields["role"]) else None)
  {
    if !body.Obj? then None
    else
      var o := body.fields;
      match (Zod.Optional(o, "email", FormattedString(isEmail)),
             Zod.Optional(o, "role", ParseRole),
             Zod.Optional(o, "displayName", Zod.AnyString),
             Zod.Optional(o, "avatarUrl", FormattedString(isUrl)),
             Zod.Optional(o, "isActive", v => Zod.OneOf(v, ["true", "false"])))
      case (Some(e), Some(role), Some(d), Some(a), Some(act)) => Some(UserService.UpdateInput(e, role, d, a, act))
      case _ => None
  }

  /** An empty update body is valid and changes nothing but the update time. */
  lemma EmptyUpdateAccepted(isEmail: string -> bool, isUrl: string -> bool)
    ensures ParseUpdateUser(Obj(map[]), isEmail, isUrl) == Some(UserService.UpdateInput(None, None, None, None, None))
  {
  }

  /** UpdatePasswordSchema. */
  function ParsePassword(body: Value): (r: Option<string>)
    ensures r.Some? <==> body.Obj? && "password" in body.fields && body.fields["password"].Str?
                         && Utf16Length(body.fields["password"].s) >= MinPassword
    ensures r.Some? ==> r.value == body.fields["password"].s
  {
    if !body.Obj? then None else Zod.Required(body.fields, "password", v => Zod.StringBetween(v, MinPassword, None))
  }

  /** The create and password schemas agree on what a password is. */
  lemma PasswordRuleShared(body: Value, isEmail: string -> bool, isUrl: string -> bool)
    requires ParseCreateUser(body, isEmail, isUrl).Some?
    ensures ParsePassword(body) == Some(ParseCreateUser(body, isEmail, isUrl).value.password)
  {
  }

  /** The `:id` path parameter of the get, update, delete and password routes. */
  function ParseUserId(params: map<string, string>): (r: Option<string>)
    ensures r.Some? <==> "id" in params && Zod.IsUuid(params["id"])
    ensures r.Some? ==> r.value == params["id"]
  {
    if "id" in params && Zod.IsUuid(params["id"]) then Some(params["id"]) else None
  }

  /** A five-character password is refused. */
  lemma ShortPasswordRejected()
    ensures ParsePassword(Obj(map["password" := Str("12345")])).None?
  {
    assert Utf16Length("12345") == 5;
  }
}
