/**
  What every route handler starts with: who the caller is (`verifyAuth`,
  `verifyAdmin`) and the typed replies the handlers return.
 */
module Api {
  import opened Wrappers
  import opened Strings

  /** A resolved identity: the user id and `user_metadata.user_type`, which may be absent. */
  datatype User = User(id: string, userType: Option<string>)

  /**
    The reply of a route. `ServerError` is the 500 the `catch` block returns when the handler
    throws, which happens when it reads a field of a record that is not in the store.
   */
  datatype Reply<T> = Ok(value: T) | Unauthorized | Forbidden | NotFound | BadRequest(reason: string) | ServerError

  const AdminTokenPrefix := "admin-token-"

  /** The identity every admin token stands for. */
  const AdminUser := User("admin", Some("admin"))

  /** `authHeader.split(' ')[1]`, `undefined` when there is no second field. */
  function BearerToken(header: string): Option<string> {
    var parts := Split(header, ' ');
    if |parts| > 1 then Some(parts[1]) else None
  }

  /**
    `verifyAuth`: no header (or an empty one) is no user; a token starting with `admin-token-`
    is the admin; any other token is whatever the identity provider's `getUser` says.
   */
  function VerifyAuth(header: Option<string>, getUser: Option<string> -> Option<User>): (u: Option<User>)
    ensures header.None? || header == Some("") ==> u.None?
    ensures u.Some? ==> u == Some(AdminUser) || u == getUser(BearerToken(header.value))
    ensures (header.Some? && header.value != "" && BearerToken(header.value).Some?
             && HasPrefix(BearerToken(header.value).value, AdminTokenPrefix)) ==> u == Some(AdminUser)
  {
    match header
    case None => None
    case Some(h) =>
      if h == "" then None
      else
        var token := BearerToken(h);
        if token.Some? && token.value != "" && HasPrefix(token.value, AdminTokenPrefix) then Some(AdminUser)
        else getUser(token)
  }

  /** `verifyAdmin`: the id is `admin` or the user type is `admin`. */
  function IsAdmin(u: Option<User>): (b: bool)
    ensures u == Some(AdminUser) ==> b
    ensures b ==> u.Some?
    ensures u.Some? && u.value.userType == Some("admin") ==> b
    ensures u.Some? && u.value.id == "admin" ==> b
    ensures b ==> u.value.id == "admin" || u.value.userType == Some("admin")
  {
    u.Some? && (u.value.id == "admin" || u.value.userType == Some("admin"))
  }

  predicate IsFarmer(u: Option<User>) {
    u.Some? && u.value.userType == Some("farmer")
  }

  predicate IsCompany(u: Option<User>) {
    u.Some? && u.value.userType == Some("company")
  }

  /**
    An `Authorization` header `<scheme> <token>` whose token starts with `admin-token-` is the
    admin, whatever the identity provider would answer for that token.
   */
  lemma AdminTokenAlwaysAdmin(scheme: string, token: string, getUser: Option<string> -> Option<User>)
    requires ' ' !in scheme && ' ' !in token
    requires HasPrefix(token, AdminTokenPrefix)
    ensures VerifyAuth(Some(scheme + " " + token), getUser) == Some(AdminUser)
    ensures IsAdmin(VerifyAuth(Some(scheme + " " + token), getUser))
  {
    SplitAtFirst(scheme, token, ' ');
    SplitWithoutSeparator(token, ' ');
    assert scheme + " " + token == scheme + [' '] + token;
    assert BearerToken(scheme + " " + token) == Some(token);
  }

  /** Any other bearer token is resolved by the identity provider alone. */
  lemma OtherTokensAskProvider(scheme: string, token: string, getUser: Option<string> -> Option<User>)
    requires ' ' !in scheme && ' ' !in token
    requires !HasPrefix(token, AdminTokenPrefix)
    ensures VerifyAuth(Some(scheme + " " + token), getUser) == getUser(Some(token))
  {
    SplitAtFirst(scheme, token, ' ');
    SplitWithoutSeparator(token, ' ');
    assert scheme + " " + token == scheme + [' '] + token;
    assert BearerToken(scheme + " " + token) == Some(token);
  }
}
