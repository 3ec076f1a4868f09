/** The older guard. It takes the same decisions as the current one, but reads
    the caller from the `token` of the context user, names the caller's id
    `uuid`, and asks the older relationship test. Its transformer is the
    current one (`Auth.AuthTransformer`): the two differ only in the guard. */
module LegacyAuth {
  import opened Common
  import Users
  import LegacyUsers
  import Auth

  /** The token object of the older context: the caller's id and role claim. */
  datatype Token = Token(uuid: string, role: Option<string>)

  /** The older context user; without a token every property read fails. */
  datatype LegacyUser = LegacyUser(token: Option<Token>)

  datatype LegacyRequest = LegacyRequest(source: Value, args: Auth.Args, user: LegacyUser, info: string)

  /** The older guard's decision. */
  function Decide(roles: seq<string>, req: LegacyRequest, users: Users.UserStore): (o: Outcome)
    reads users
    ensures req.user.token.None? ==> o == Fail(TypeError)
    ensures req.user.token.Some? && !Auth.RolePermitted(roles, req.user.token.value.role) ==>
              o == Fail(Forbidden(Auth.NotAuthorized))
    ensures o.Pass? ==> req.user.token.Some? && Auth.RolePermitted(roles, req.user.token.value.role)
    ensures (req.user.token.Some? && Auth.RolePermitted(roles, req.user.token.value.role) && !Auth.IsRoot(req.source)) ==>
              o == Pass
    ensures (req.user.token.Some? && Auth.RolePermitted(roles, req.user.token.value.role) && Auth.IsRoot(req.source) &&
             Truthy(req.args.id) && req.args.id.value != req.user.token.value.uuid &&
             req.user.token.value.role == Some(PatientRole)) ==>
              (o == Pass <==> LegacyUsers.IsTherapistOfPatient(users, req.args.id.value, req.user.token.value.uuid) == Ok(true))
    ensures (req.user.token.Some? && Auth.RolePermitted(roles, req.user.token.value.role) && Auth.IsRoot(req.source) &&
             Truthy(req.args.id) && req.args.id.value != req.user.token.value.uuid &&
             req.user.token.value.role == Some(TherapistRole)) ==>
              (o == Pass <==> LegacyUsers.IsTherapistOfPatient(users, req.user.token.value.uuid, req.args.id.value) == Ok(true))
  {
    match req.user.token
    case None => Fail(TypeError)
    case Some(user) =>
      if !Auth.RolePermitted(roles, user.role) then Fail(Forbidden(Auth.NotAuthorized))
      else if !Auth.IsRoot(req.source) then Pass
      else if user.role == Some(PatientRole) then
        if Truthy(req.args.id) && req.args.id.value != user.uuid then
          match LegacyUsers.IsTherapistOfPatient(users, req.args.id.value, user.uuid)
          case Err(e) => Fail(e)
          case Ok(related) => if related then Pass else Fail(Forbidden(Auth.NotAuthorized))
        else Pass
      else if user.role == Some(TherapistRole) then
        if Truthy(req.args.id) && req.args.id.value != user.uuid then
          match LegacyUsers.IsTherapistOfPatient(users, user.uuid, req.args.id.value)
          case Err(e) => Fail(e)
          case Ok(related) => if related then Pass else Fail(Forbidden(Auth.NotAuthorized))
        else Pass
      else Pass
  }

  /** The same caller as the current guard sees it. */
  function AsCurrent(req: LegacyRequest): (r: Auth.Request)
    requires req.user.token.Some?
    ensures r.user.uid == req.user.token.value.uuid && r.user.role == req.user.token.value.role
    ensures r.source == req.source && r.args == req.args && r.info == req.info
  {
    Auth.Request(req.source, req.args, Auth.Principal(req.user.token.value.uuid, req.user.token.value.role), req.info)
  }

  /** The older guard lets exactly the same calls through as the current one;
      where both refuse, the errors differ only when the relationship test
      fails, which the older code reports as a TypeError. */
  lemma SameVerdictAsCurrent(roles: seq<string>, req: LegacyRequest, users: Users.UserStore)
    requires req.user.token.Some?
    ensures Decide(roles, req, users).Pass? <==> Auth.Decide(roles, AsCurrent(req), users).Pass?
    ensures Auth.Decide(roles, AsCurrent(req), users).Fail? &&
            Auth.Decide(roles, AsCurrent(req), users).error.Forbidden? ==>
              Decide(roles, req, users) == Auth.Decide(roles, AsCurrent(req), users)
  {
    var cur := AsCurrent(req);
    var q := Auth.OracleQuery(cur);
    if q.Some? {
      var t := q.value.0;
      var p := q.value.1;
      assert LegacyUsers.IsTherapistOfPatient(users, t, p).Ok? <==> users.IsTherapistOfPatient(t, p).Ok?;
    }
  }
}
