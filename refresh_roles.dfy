/** Role refresh as src/create-refresh-roles.js writes it: a configured
    function decides the new roles; without one the existing roles stay. The
    default refresher reads the user's document from the identity provider
    and falls back on the existing roles when the provider answers with an
    error, but lets a failure without any response through. */
module RefreshRoles {
  import opened Wrappers
  import opened HttpError
  import TokenIssue

  /** The provider's answer to the user-document lookup: the document's
      roles, an error response with its status, or no response at all. */
  datatype Lookup = UserDoc(roles: seq<string>) | ErrorResponse(status: int) | NoResponse

  /** The `refreshRoles` option: unset (`undefined`, which selects the
      default refresher), a function, or some other value. A function is
      given the token data and settles with roles or a failure. */
  datatype RefreshOption =
    | Unset
    | Given(refresh: TokenIssue.TokenData -> Result<seq<string>, Failure>)
    | NotAFunction

  /** `defaultRefreshRoles(data, couchOpts)` once the provider has given
      `lookup`. */
  function DefaultRefreshRoles(data: TokenIssue.TokenData, lookup: Lookup): (r: Result<seq<string>, Failure>)
    ensures lookup.UserDoc? ==> r == Ok(lookup.roles)
    ensures lookup.ErrorResponse? ==> r == Ok(data.payload.roles)
    ensures lookup.NoResponse? ==> r == Err(Failure.NoResponse)
  {
    match lookup
    case UserDoc(roles) => Ok(roles)
    case ErrorResponse(_) => Ok(data.payload.roles)
    case NoResponse => Err(Failure.NoResponse)
  }

  /** The refresher `createRefreshRoles(option, couchOpts)` returns, applied
      to `data`; `lookup` is what the provider answers when the default
      refresher asks it. */
  function RefreshRoles(option: RefreshOption, data: TokenIssue.TokenData, lookup: Lookup): (r: Result<seq<string>, Failure>)
    ensures option.NotAFunction? ==> r == Ok(data.payload.roles)
    ensures option.Given? ==> r == option.refresh(data)
    ensures option.Unset? ==> r == DefaultRefreshRoles(data, lookup)
  {
    match option
    case Unset => DefaultRefreshRoles(data, lookup)
    case Given(refresh) => refresh(data)
    case NotAFunction => Ok(data.payload.roles)
  }

  /** The policy fails open: unless a configured function fails, or the
      provider cannot be reached at all, refreshing yields roles, and when the
      default refresher yields roles other than the document's they are the
      roles the token already had. */
  lemma FailsOpen(option: RefreshOption, data: TokenIssue.TokenData, lookup: Lookup)
    ensures RefreshRoles(option, data, lookup).Err? ==>
              (option.Given? && option.refresh(data).Err?) || (option.Unset? && lookup.NoResponse?)
    ensures option.Unset? && !lookup.UserDoc? && RefreshRoles(option, data, lookup).Ok? ==>
              RefreshRoles(option, data, lookup).value == data.payload.roles
  {
  }
}
