/** The authorization guard run before every resolver: the roles an
    operation declares, the request's token, the claims the token verifies
    to and the user those claims name decide whether the call goes ahead.
    Token verification and user lookup are parameters. */
module Auth {
  import opened Entities

  /** A role name as written in a `@Roles(...)` declaration, or the wildcard `'Any'`. */
  datatype AllowedRole = Named(role: Role) | Any

  /** What a verified token decodes to: a string payload, or an object that
      may carry an `id` claim. */
  datatype Claims = Text | Record(id: Option<int>)

  /** `jwt.verify`: the decoded claims, or an exception (bad signature,
      expired token). The guard does not catch it. */
  datatype Verification = Decoded(claims: Claims) | Rejected

  /** The guard's answer: go ahead, the single undifferentiated `false`, or
      the exception from `verify` escaping the guard. */
  datatype Verdict = Allow | Deny | Raise

  /** Who the request's token names, as far as the guard gets. */
  datatype Resolution = NoPrincipal | Principal(user: User) | VerifyRaised

  /** JavaScript truthiness of the token in the request context. */
  predicate HasToken(token: Option<string>) {
    token.Some? && token.value != ""
  }

  /** Token to user: verify the token, keep it only if it decodes to an
      object with an `id`, and look that id up. */
  function Resolve(token: Option<string>, verify: string -> Verification, findById: int -> Option<User>): (r: Resolution)
    ensures r.Principal? <==> HasToken(token) && verify(token.value).Decoded? &&
                              verify(token.value).claims.Record? && verify(token.value).claims.id.Some? &&
                              findById(verify(token.value).claims.id.value).Some?
    ensures r.Principal? ==> r.user == findById(verify(token.value).claims.id.value).value
    ensures r.VerifyRaised? <==> HasToken(token) && verify(token.value).Rejected?
  {
    if !HasToken(token) then NoPrincipal
    else
      match verify(token.value)
      case Rejected => VerifyRaised
      case Decoded(claims) =>
        if claims.Text? || claims.id.None? then NoPrincipal
        else
          match findById(claims.id.value)
          case None => NoPrincipal
          case Some(user) => Principal(user)
  }

  /** A role list admits a role when it holds the wildcard or that role's name. */
  predicate Admits(roles: seq<AllowedRole>, role: Role) {
    Any in roles || Named(role) in roles
  }

  /** Joining two role lists admits exactly the roles either list admits. */
  lemma AdmitsJoin(roles: seq<AllowedRole>, more: seq<AllowedRole>, role: Role)
    ensures Admits(roles + more, role) <==> Admits(roles, role) || Admits(more, role)
  {
  }

  /** A list holding the wildcard admits every role, and a list without it
      admits only the roles it names. */
  lemma WildcardAdmitsEveryRole(roles: seq<AllowedRole>)
    ensures Any in roles ==> forall role :: Admits(roles, role)
    ensures Any !in roles ==> forall role :: Admits(roles, role) <==> Named(role) in roles
  {
  }

  /** `canActivate`: an operation without declared roles is public; with
      declared roles, a request goes ahead only when its token names an
      existing user whose role the declaration admits. */
  function Decide(roles: Option<seq<AllowedRole>>, token: Option<string>,
                  verify: string -> Verification, findById: int -> Option<User>): (v: Verdict)
    ensures roles.None? ==> v == Allow
    ensures roles.Some? && !HasToken(token) ==> v == Deny
    ensures v == Allow <==>
              roles.None? ||
              (Resolve(token, verify, findById).Principal? &&
               Admits(roles.value, Resolve(token, verify, findById).user.role))
    ensures v == Raise <==> roles.Some? && Resolve(token, verify, findById).VerifyRaised?
  {
    if roles.None? then Allow
    else if !HasToken(token) then Deny
    else
      match verify(token.value)
      case Rejected => Raise
      case Decoded(claims) =>
        if claims.Text? || claims.id.None? then Deny
        else
          match findById(claims.id.value)
          case None => Deny
          case Some(user) =>
            if Any in roles.value then Allow
            else if Named(user.role) in roles.value then Allow
            else Deny
  }

  /** The GraphQL request context: the token put there from the request
      header, and the user the guard attaches. */
  class GqlContext {
    var token: Option<string>
    var user: Option<User>

    constructor (token: Option<string>)
      ensures this.token == token && user.None?
    {
      this.token := token;
      user := None;
    }
  }

  /** `canActivate` on a request context: decides as `Decide` does and, once
      a user is found, attaches it to the context before the role decision,
      so a found user is attached even when the call is then denied. */
  method CanActivate(roles: Option<seq<AllowedRole>>, context: GqlContext,
                     verify: string -> Verification, findById: int -> Option<User>) returns (v: Verdict)
    modifies context`user
    ensures v == Decide(roles, context.token, verify, findById)
    ensures roles.Some? && Resolve(context.token, verify, findById).Principal? ==>
              context.user == Some(Resolve(context.token, verify, findById).user)
    ensures !(roles.Some? && Resolve(context.token, verify, findById).Principal?) ==>
              context.user == old(context.user)
  {
    if roles.None? {
      return Allow;
    }
    var token := context.token;
    if HasToken(token) {
      var decoded := verify(token.value);
      if decoded.Rejected? {
        return Raise;
      }
      if decoded.claims.Record? && decoded.claims.id.Some? {
        var found := findById(decoded.claims.id.value);
        if found.Some? {
          var user := found.value;
          context.user := Some(user);
          if Any in roles.value {
            return Allow;
          }
          return if Named(user.role) in roles.value then Allow else Deny;
        }
      }
    }
    return Deny;
  }
}
