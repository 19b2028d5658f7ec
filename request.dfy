/** The part of an incoming request the header middleware sees: the
    `Authorization` header (absent when the client sent none), the `jwt`
    slot the middleware may fill, and how often the middleware handed
    control to `next`. */
module Request {
  import opened Wrappers

  class Request {
    const authorization: Option<string>
    var jwt: Option<string>
    var nextCalls: nat

    constructor (authorization: Option<string>)
      ensures this.authorization == authorization && jwt == None && nextCalls == 0
    {
      this.authorization := authorization;
      jwt := None;
      nextCalls := 0;
    }
  }

  /** `(req.get('Authorization') || '').trim()`: a missing header reads as
      the empty string. */
  function HeaderText(authorization: Option<string>): string {
    authorization.GetOr("")
  }
}
