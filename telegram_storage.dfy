/**
 * The Telegram bot's token storage: per-Telegram-user Redis keys for the API
 * token, the linked user id and the chat id, and the reverse lookup from a
 * user id back to the Telegram user by scanning the `:userId` keys.
 * Redis is a map from key to value; a SCAN is given as the sequence of key
 * batches it returns, the last being the batch whose cursor is "0".
 */
module TelegramStorage {
  import opened Wrappers
  import opened Text

  const KeyPrefix: string := "memohome:telegram:"
  const TokenSuffix: string := ":token"
  const UserIdSuffix: string := ":userId"
  const ChatIdSuffix: string := ":chatId"
  const UnableToIdentify: string := "Unable to identify user"

  function TokenKey(telegramId: string): string { KeyPrefix + telegramId + TokenSuffix }
  function UserIdKey(telegramId: string): string { KeyPrefix + telegramId + UserIdSuffix }
  function ChatIdKey(telegramId: string): string { KeyPrefix + telegramId + ChatIdSuffix }

  /** The characters a regular expression's `.` does not match. */
  predicate IsLineTerminator(c: char) {
    c == '\n' || c == '\r' || c == '\U{2028}' || c == '\U{2029}'
  }

  predicate NoLineTerminator(s: string) {
    forall i :: 0 <= i < |s| ==> !IsLineTerminator(s[i])
  }

  /** What `(.+)` can capture: one or more characters, none a line terminator. */
  predicate CapturableId(id: string) {
    id != [] && NoLineTerminator(id)
  }

  /**
   * `key.match(/^memohome:telegram:(.+):userId$/)` and its first group: the
   * anchors fix the prefix and the suffix, so the group is everything between.
   */
  function ExtractTelegramId(key: string): (r: Option<string>)
    ensures r.Some? ==> key == UserIdKey(r.value) && CapturableId(r.value)
  {
    if |key| > |KeyPrefix| + |UserIdSuffix| && HasPrefix(key, KeyPrefix) && HasSuffix(key, UserIdSuffix)
       && CapturableId(key[|KeyPrefix|..|key| - |UserIdSuffix|])
    then
      var id := key[|KeyPrefix|..|key| - |UserIdSuffix|];
      assert key == key[..|KeyPrefix|] + id + key[|key| - |UserIdSuffix|..];
      Some(id)
    else None
  }

  /** Matching the `:userId` key built for a capturable id recovers that id, and nothing else matches. */
  lemma ExtractUserIdKey(id: string)
    ensures ExtractTelegramId(UserIdKey(id)) == (if CapturableId(id) then Some(id) else None)
  {
    var key := UserIdKey(id);
    assert key[..|KeyPrefix|] == KeyPrefix;
    assert key[|key| - |UserIdSuffix|..] == UserIdSuffix;
    assert key[|KeyPrefix|..|key| - |UserIdSuffix|] == id;
  }

  /** The three keys of one Telegram user are distinct, and each names its user. */
  lemma KeysDistinct(a: string, b: string)
    ensures TokenKey(a) != UserIdKey(b) && TokenKey(a) != ChatIdKey(b) && UserIdKey(a) != ChatIdKey(b)
    ensures UserIdKey(a) == UserIdKey(b) ==> a == b
    ensures TokenKey(a) == TokenKey(b) ==> a == b
    ensures ChatIdKey(a) == ChatIdKey(b) ==> a == b
  {
    var ta, ub, cb := TokenKey(a), UserIdKey(b), ChatIdKey(b);
    assert ta[|ta| - 1] == 'n' && ub[|ub| - 1] == 'd' && cb[|cb| - 1] == 'd';
    var ua := UserIdKey(a);
    assert ua[|ua| - 6] == 'u' && cb[|cb| - 6] == 'c';
    if UserIdKey(a) == UserIdKey(b) {
      assert a == UserIdKey(a)[|KeyPrefix|..|UserIdKey(a)| - |UserIdSuffix|];
    }
    if TokenKey(a) == TokenKey(b) {
      assert a == TokenKey(a)[|KeyPrefix|..|TokenKey(a)| - |TokenSuffix|];
    }
    if ChatIdKey(a) == ChatIdKey(b) {
      assert a == ChatIdKey(a)[|KeyPrefix|..|ChatIdKey(a)| - |ChatIdSuffix|];
    }
  }

  /** `ctx.from?.id.toString()`, refused when the update has no sender. */
  function TelegramUserId(from: Option<int>): (r: Result<string, string>)
    ensures from.None? <==> r == Err(UnableToIdentify)
    ensures from.Some? ==> r == Ok(IntToString(from.value))
  {
    if from.None? then Err(UnableToIdentify) else Ok(IntToString(from.value))
  }

  /** A numeric Telegram id can always be found again through its `:userId` key. */
  lemma NumericIdsRoundTrip(n: int)
    ensures ExtractTelegramId(UserIdKey(IntToString(n))) == Some(IntToString(n))
  {
    var s := IntToString(n);
    assert forall i :: 0 <= i < |s| ==> s[i] == '-' || '0' <= s[i] <= '9';
    ExtractUserIdKey(s);
  }

  /** Redis, as a map from key to value. */
  class Redis {
    var kv: map<string, string>

    constructor(kv0: map<string, string>)
      ensures kv == kv0
    {
      kv := kv0;
    }
  }

  function Lookup(kv: map<string, string>, key: string): (r: Option<string>)
    ensures r.Some? <==> key in kv
    ensures r.Some? ==> r.value == kv[key]
  {
    if key in kv then Some(kv[key]) else None
  }

  /**
   * The storage object of one Telegram user. The token, user id and chat id
   * are read once when the storage is made; the setters write Redis only.
   */
  class TokenStorage {
    const redis: Redis
    const telegramId: string
    const token: Option<string>
    const userId: Option<string>
    const chatId: Option<string>

    constructor(redis: Redis, telegramId: string, token: Option<string>, userId: Option<string>,
                chatId: Option<string>)
      ensures this.redis == redis && this.telegramId == telegramId
      ensures this.token == token && this.userId == userId && this.chatId == chatId
    {
      this.redis := redis;
      this.telegramId := telegramId;
      this.token := token;
      this.userId := userId;
      this.chatId := chatId;
    }

    /** setToken. */
    method SetToken(t: string)
      modifies redis
      ensures redis.kv == old(redis.kv)[TokenKey(telegramId) := t]
    {
      redis.kv := redis.kv[TokenKey(telegramId) := t];
    }

    /** clearToken. */
    method ClearToken()
      modifies redis
      ensures redis.kv == old(redis.kv) - {TokenKey(telegramId)}
    {
      redis.kv := redis.kv - {TokenKey(telegramId)};
    }

    /** setUserId. */
    method SetUserId(u: string)
      modifies redis
      ensures redis.kv == old(redis.kv)[UserIdKey(telegramId) := u]
    {
      redis.kv := redis.kv[UserIdKey(telegramId) := u];
    }

    /** setChatId. */
    method SetChatId(c: string)
      modifies redis
      ensures redis.kv == old(redis.kv)[ChatIdKey(telegramId) := c]
    {
      redis.kv := redis.kv[ChatIdKey(telegramId) := c];
    }
  }

  /**
   * getTokenStorage: identifies the sender, reads the stored token and user id,
   * and records the chat id when the update has a chat.
   */
  method GetTokenStorage(redis: Redis, from: Option<int>, chat: Option<int>) returns (r: Result<TokenStorage, string>)
    modifies redis
    ensures from.None? ==> r == Err(UnableToIdentify) && redis.kv == old(redis.kv)
    ensures from.Some? ==> r.Ok? && fresh(r.value) && r.value.redis == redis
    ensures from.Some? ==> var id := IntToString(from.value);
              && r.value.telegramId == id
              && r.value.token == Lookup(old(redis.kv), TokenKey(id))
              && r.value.userId == Lookup(old(redis.kv), UserIdKey(id))
              && r.value.chatId == (if chat.Some? then Some(IntToString(chat.value)) else None)
              && redis.kv == (if chat.Some? then old(redis.kv)[ChatIdKey(id) := IntToString(chat.value)]
                              else old(redis.kv))
  {
    var who := TelegramUserId(from);
    if who.Err? {
      return Err(who.error);
    }
    var id := who.value;
    var token := Lookup(redis.kv, TokenKey(id));
    var userId := Lookup(redis.kv, UserIdKey(id));
    var chatId: Option<string> := None;
    if chat.Some? {
      chatId := Some(IntToString(chat.value));
      redis.kv := redis.kv[ChatIdKey(id) := chatId.value];
    }
    var s := new TokenStorage(redis, id, token, userId, chatId);
    return Ok(s);
  }

  /**
   * setToken writes Redis but not the storage it is called on: that storage's
   * getToken still answers the token read at creation, while a storage made
   * afterwards for the same sender reads the new one.
   */
  method TokenIsSnapshot(redis: Redis, from: int, t: string)
    returns (stale: Option<string>, reread: Option<string>)
    modifies redis
    ensures stale == Lookup(old(redis.kv), TokenKey(IntToString(from)))
    ensures reread == Some(t)
    ensures redis.kv == old(redis.kv)[TokenKey(IntToString(from)) := t]
  {
    var r := GetTokenStorage(redis, Some(from), None);
    var s := r.value;
    s.SetToken(t);
    stale := s.token;
    var r' := GetTokenStorage(redis, Some(from), None);
    reread := r'.value.token;
  }

  // ---------------------------------------------------------------------
  // Reverse lookup

  /** Whether the scanned key `key` holds `userId` and names a Telegram id. */
  predicate Matches(key: string, kv: map<string, string>, userId: string) {
    key in kv && kv[key] == userId && ExtractTelegramId(key).Some?
  }

  /** The Telegram id of the first scanned key that holds `userId`. */
  function FirstMatch(keys: seq<string>, kv: map<string, string>, userId: string): (r: Option<string>)
  {
    if keys == [] then None
    else if Matches(keys[0], kv, userId) then ExtractTelegramId(keys[0])
    else FirstMatch(keys[1..], kv, userId)
  }

  function Flatten(batches: seq<seq<string>>): seq<string> {
    if batches == [] then [] else batches[0] + Flatten(batches[1..])
  }

  lemma {:induction false} FlattenAppend(batches: seq<seq<string>>, b: seq<string>)
    ensures Flatten(batches + [b]) == Flatten(batches) + b
  {
    if batches == [] {
      assert batches + [b] == [b];
    } else {
      assert (batches + [b])[1..] == batches[1..] + [b];
      FlattenAppend(batches[1..], b);
    }
  }

  lemma {:induction false} FirstMatchAppend(a: seq<string>, b: seq<string>, kv: map<string, string>, userId: string)
    ensures FirstMatch(a + b, kv, userId) == if FirstMatch(a, kv, userId).Some? then FirstMatch(a, kv, userId)
                                             else FirstMatch(b, kv, userId)
  {
    if a != [] {
      assert (a + b)[0] == a[0];
      assert (a + b)[1..] == a[1..] + b;
      FirstMatchAppend(a[1..], b, kv, userId);
    } else {
      assert a + b == b;
    }
  }

  /**
   * getTelegramIdByUserId: scans batch after batch, and within a batch key after
   * key, returning the id of the first key whose value is `userId`.
   */
  method GetTelegramIdByUserId(batches: seq<seq<string>>, redis: Redis, userId: string) returns (r: Option<string>)
    ensures r == FirstMatch(Flatten(batches), redis.kv, userId)
  {
    var b := 0;
    while b < |batches|
      invariant 0 <= b <= |batches|
      invariant FirstMatch(Flatten(batches[..b]), redis.kv, userId).None?
    {
      var keys := batches[b];
      var k := 0;
      assert Flatten(batches[..b]) + keys[..k] == Flatten(batches[..b]);
      while k < |keys|
        invariant 0 <= k <= |keys|
        invariant FirstMatch(Flatten(batches[..b]) + keys[..k], redis.kv, userId).None?
      {
        var stored := Lookup(redis.kv, keys[k]);
        if stored == Some(userId) {
          var m := ExtractTelegramId(keys[k]);
          if m.Some? {
            FirstMatchAppend(Flatten(batches[..b]), keys[k..], redis.kv, userId);
            assert keys[..k] + keys[k..] == keys;
            FirstMatchAppend(Flatten(batches[..b]) + keys[..k], keys[k..], redis.kv, userId);
            FirstMatchAppend(keys[..k], keys[k..], redis.kv, userId);
            ScanRest(batches, b, k, redis.kv, userId);
            return m;
          }
        }
        assert keys[..k + 1] == keys[..k] + [keys[k]];
        assert Flatten(batches[..b]) + keys[..k + 1] == (Flatten(batches[..b]) + keys[..k]) + [keys[k]];
        FirstMatchAppend(Flatten(batches[..b]) + keys[..k], [keys[k]], redis.kv, userId);
        k := k + 1;
      }
      assert keys[..k] == keys;
      assert batches[..b + 1] == batches[..b] + [keys];
      FlattenAppend(batches[..b], keys);
      b := b + 1;
    }
    assert batches[..b] == batches;
    return None;
  }

  /** When key `k` of batch `b` matches and nothing before it does, it is the first match. */
  lemma ScanRest(batches: seq<seq<string>>, b: nat, k: nat, kv: map<string, string>, userId: string)
    requires b < |batches| && k < |batches[b]|
    requires FirstMatch(Flatten(batches[..b]) + batches[b][..k], kv, userId).None?
    requires Matches(batches[b][k], kv, userId)
    ensures FirstMatch(Flatten(batches), kv, userId) == ExtractTelegramId(batches[b][k])
  {
    var before := Flatten(batches[..b]) + batches[b][..k];
    var after := batches[b][k..] + Flatten(batches[b + 1..]);
    assert batches == batches[..b] + [batches[b]] + batches[b + 1..];
    FlattenConcat(batches[..b] + [batches[b]], batches[b + 1..]);
    FlattenAppend(batches[..b], batches[b]);
    assert batches[b] == batches[b][..k] + batches[b][k..];
    assert Flatten(batches) == before + after;
    FirstMatchAppend(before, after, kv, userId);
    assert after[0] == batches[b][k];
  }

  lemma {:induction false} FlattenConcat(a: seq<seq<string>>, b: seq<seq<string>>)
    ensures Flatten(a + b) == Flatten(a) + Flatten(b)
  {
    if a == [] {
      assert a + b == b;
    } else {
      assert (a + b)[1..] == a[1..] + b;
      FlattenConcat(a[1..], b);
    }
  }

  /** A found id belongs to a scanned `:userId` key that holds the user id. */
  lemma {:induction false} FirstMatchSound(keys: seq<string>, kv: map<string, string>, userId: string)
    requires FirstMatch(keys, kv, userId).Some?
    ensures UserIdKey(FirstMatch(keys, kv, userId).value) in keys
    ensures var key := UserIdKey(FirstMatch(keys, kv, userId).value); key in kv && kv[key] == userId
  {
    if !Matches(keys[0], kv, userId) {
      FirstMatchSound(keys[1..], kv, userId);
    }
  }

  /** If a scanned `:userId` key of a capturable id holds the user id, some id is found. */
  lemma {:induction false} FirstMatchComplete(keys: seq<string>, kv: map<string, string>, userId: string, id: string)
    requires UserIdKey(id) in keys && UserIdKey(id) in kv && kv[UserIdKey(id)] == userId
    requires CapturableId(id)
    ensures FirstMatch(keys, kv, userId).Some?
  {
    ExtractUserIdKey(id);
    if keys[0] != UserIdKey(id) && !Matches(keys[0], kv, userId) {
      FirstMatchComplete(keys[1..], kv, userId, id);
    }
  }

  /**
   * After setUserId, the reverse lookup of that user id finds this Telegram
   * user, provided no other Telegram user holds the same user id.
   */
  lemma SetUserIdThenLookup(kv: map<string, string>, telegramId: string, userId: string, keys: seq<string>)
    requires CapturableId(telegramId) && UserIdKey(telegramId) in keys
    requires forall t :: UserIdKey(t) in kv && t != telegramId ==> kv[UserIdKey(t)] != userId
    ensures FirstMatch(keys, kv[UserIdKey(telegramId) := userId], userId) == Some(telegramId)
  {
    var kv' := kv[UserIdKey(telegramId) := userId];
    FirstMatchComplete(keys, kv', userId, telegramId);
    FirstMatchSound(keys, kv', userId);
    var t := FirstMatch(keys, kv', userId).value;
    KeysDistinct(t, telegramId);
  }
}
