/** The cookie-backed session store (webapp/src/lib/auth.ts): two entries, the bearer token
    under `auth-token` and the JSON text of the user under `auth-user`. */
module Session {
  import opened Wrappers
  import opened AuthTypes
  import UserJson

  const TOKEN_KEY := "auth-token"
  const USER_KEY := "auth-user"

  /** The thrown error when the user cookie is not a user's JSON text. Its wording is the
      parser's; the application only logs it. */
  const MALFORMED_USER := "JSON.parse: malformed user cookie"

  /** The cookie map after both session entries are removed; other cookies are kept. */
  function Cleared(m: map<string, string>): (c: map<string, string>)
    ensures TOKEN_KEY !in c && USER_KEY !in c
    ensures c.Keys == m.Keys - {TOKEN_KEY, USER_KEY}
    ensures forall k :: k in c ==> c[k] == m[k]
  {
    m - {TOKEN_KEY, USER_KEY}
  }

  /** Removing the session twice is the same as removing it once. */
  lemma ClearedIdempotent(m: map<string, string>)
    ensures Cleared(Cleared(m)) == Cleared(m)
  {
  }

  /** The browser's cookie jar as `js-cookie` sees it: cookie name to (decoded) value. */
  class CookieJar {
    var entries: map<string, string>

    constructor (initial: map<string, string>)
      ensures entries == initial
    {
      entries := initial;
    }

    /** `getToken()`: the token cookie, with a missing or empty cookie read as `null`. */
    function GetToken(): (t: Option<string>)
      reads this
      ensures t.Some? <==> TOKEN_KEY in entries && entries[TOKEN_KEY] != ""
      ensures t.Some? ==> t.value == entries[TOKEN_KEY] && t.value != ""
    {
      if TOKEN_KEY in entries && entries[TOKEN_KEY] != "" then Some(entries[TOKEN_KEY]) else None
    }

    /** `getUser()`: `null` for a missing or empty cookie, the parsed user otherwise; a
        cookie that does not parse makes the call throw. */
    function GetUser(): (r: Result<Option<User>>)
      reads this
      ensures USER_KEY !in entries || entries[USER_KEY] == "" ==> r == Ok(None)
      ensures r == Ok(None) ==> USER_KEY !in entries || entries[USER_KEY] == ""
      ensures r.Ok? && r.value.Some? ==> UserJson.Decode(entries[USER_KEY]) == r.value
      ensures r.Ok? && r.value.Some? ==> UserJson.Encode(r.value.value) == entries[USER_KEY]
      ensures r.Err? <==> USER_KEY in entries && entries[USER_KEY] != "" && UserJson.Decode(entries[USER_KEY]).None?
    {
      if USER_KEY !in entries || entries[USER_KEY] == "" then Ok(None)
      else match UserJson.Decode(entries[USER_KEY])
        case None => Err(MALFORMED_USER)
        case Some(u) => Ok(Some(u))
    }

    /** `isAuthenticated()`: a non-empty token is stored; the user entry is not consulted. */
    function IsAuthenticated(): (b: bool)
      reads this
      ensures b <==> TOKEN_KEY in entries && entries[TOKEN_KEY] != ""
    {
      GetToken().Some?
    }

    /** `setToken(token)` */
    method SetToken(token: string)
      modifies this
      ensures entries == old(entries)[TOKEN_KEY := token]
      ensures GetToken() == if token == "" then None else Some(token)
      ensures GetUser() == old(GetUser())
    {
      entries := entries[TOKEN_KEY := token];
    }

    /** `setUser(user)`: stores `JSON.stringify(user)`. */
    method SetUser(user: User)
      modifies this
      ensures entries == old(entries)[USER_KEY := UserJson.Encode(user)]
      ensures GetUser() == Ok(Some(user))
      ensures GetToken() == old(GetToken()) && IsAuthenticated() == old(IsAuthenticated())
    {
      entries := entries[USER_KEY := UserJson.Encode(user)];
      UserJson.DecodeEncode(user);
    }

    /** `removeToken()`: removes both session entries. */
    method RemoveToken()
      modifies this
      ensures entries == Cleared(old(entries))
      ensures GetToken() == None && GetUser() == Ok(None) && !IsAuthenticated()
    {
      entries := Cleared(entries);
    }
  }
}
