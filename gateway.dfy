/** The server's entry points: the context gate every GraphQL request passes
    before any resolver runs, the schema assembly (the `ProjectType` enum and
    the directive transformer), and the sign-up handler that decides the role
    of an account created through an external provider. Token verification
    is a parameter: the model does not look inside a token. */
module Gateway {
  import opened Common
  import Strings
  import Identity
  import Users
  import Auth
  import Policy

  const NoTokenMessage := "No token provided"
  const InvalidTokenMessage := "Invalid token"
  const StudentEmailSuffix := "@student.uhasselt.be"
  const PasswordProvider := "password"

  /** What verifying an id token yields: the account id and its `role` claim. */
  datatype VerifiedToken = VerifiedToken(uid: string, role: Option<string>)

  // ---------------------------------------------------------------------------
  // The context gate

  /** The request context: an absent or empty `authorization` header is refused
      before verification, a token the provider does not accept is refused as
      invalid, and otherwise the user is the verified id and role. */
  function BuildContext(authorization: Option<string>, verify: string -> Option<VerifiedToken>): (r: Result<Auth.Principal>)
    ensures !Truthy(authorization) ==> r == Err(Authentication(NoTokenMessage))
    ensures Truthy(authorization) && verify(authorization.value).None? ==> r == Err(Authentication(InvalidTokenMessage))
    ensures r.Ok? <==> Truthy(authorization) && verify(authorization.value).Some?
    ensures r.Ok? ==> r.value.uid == verify(authorization.value).value.uid &&
                      r.value.role == verify(authorization.value).value.role
    ensures r.Err? ==> r.error.Authentication?
  {
    var token := if authorization.Some? then authorization.value else "";
    if token == "" then Err(Authentication(NoTokenMessage))
    else
      match verify(token)
      case None => Err(Authentication(InvalidTokenMessage))
      case Some(v) => Ok(Auth.Principal(v.uid, v.role))
  }

  /** One field request end to end: the gate, then the field's resolver. */
  function HandleRequest(authorization: Option<string>, verify: string -> Option<VerifiedToken>,
                         resolver: Auth.Resolver, source: Value, args: Auth.Args, info: string,
                         users: Users.UserStore, base: (string, Auth.Request) -> Result<Value>): Result<Value>
    reads users
  {
    match BuildContext(authorization, verify)
    case Err(e) => Err(e)
    case Ok(user) => Auth.Run(resolver, Auth.Request(source, args, user, info), users, base)
  }

  /** A request without a verified token fails with an authentication error
      whatever the resolver would have done: no resolver is reached. */
  lemma {:induction false} NoTokenNoResolver(authorization: Option<string>, verify: string -> Option<VerifiedToken>,
                                             resolver: Auth.Resolver, source: Value, args: Auth.Args, info: string,
                                             users: Users.UserStore, base1: (string, Auth.Request) -> Result<Value>,
                                             base2: (string, Auth.Request) -> Result<Value>)
    requires !Truthy(authorization) || verify(authorization.value).None?
    ensures HandleRequest(authorization, verify, resolver, source, args, info, users, base1).Err?
    ensures HandleRequest(authorization, verify, resolver, source, args, info, users, base1).error.Authentication?
    ensures HandleRequest(authorization, verify, resolver, source, args, info, users, base1) ==
            HandleRequest(authorization, verify, resolver, source, args, info, users, base2)
  {
    assert BuildContext(authorization, verify).Err?;
  }

  /** With a verified token, the guard of the transformed `Patient` type refuses
      a caller whose verified role is `student`, on every field. */
  lemma {:induction false} StudentTokenNeverReadsPatient(authorization: Option<string>, verify: string -> Option<VerifiedToken>,
                                                         j: nat, source: Value, args: Auth.Args, info: string,
                                                         users: Users.UserStore, base: (string, Auth.Request) -> Result<Value>)
    requires Truthy(authorization) && verify(authorization.value).Some? && verify(authorization.value).value.role == Some(StudentRole)
    requires j < |Policy.PatientType.fields|
    ensures Policy.GuardAfter(Policy.PatientType, j).Some?
    ensures HandleRequest(authorization, verify, Policy.GuardAfter(Policy.PatientType, j).value, source, args, info, users, base) ==
            Err(Forbidden(Auth.NotAuthorized))
  {
    var user := BuildContext(authorization, verify).value;
    var req := Auth.Request(source, args, user, info);
    Policy.StudentNeverReadsPatient(j, req, users, base);
  }

  // ---------------------------------------------------------------------------
  // The schema

  /** The project types the enum is built from. */
  const ProjectTypes: seq<string> := ["bimanueel", "VR"]

  /** The enum members as the loop writes them: each name followed by a comma. */
  function Entries(names: seq<string>): string
  {
    if names == [] then "" else Entries(names[..|names| - 1]) + names[|names| - 1] + ","
  }

  /** The text of the `ProjectType` enum declaration. */
  function ProjectTypeEnum(names: seq<string>): string
  {
    "enum ProjectType {" + Entries(names) + "}"
  }

  /** Builds the `ProjectType` enum declaration one name at a time. */
  method BuildProjectTypeEnum(names: seq<string>) returns (text: string)
    ensures text == ProjectTypeEnum(names)
  {
    text := "enum ProjectType {";
    for i := 0 to |names|
      invariant text == "enum ProjectType {" + Entries(names[..i])
    {
      assert names[..i + 1][..i] == names[..i];
      text := text + names[i] + ",";
    }
    assert names[..|names|] == names;
    text := text + "}";
  }

  /** The entries read from the front: the first name, a comma, the rest. */
  lemma {:induction false} EntriesFront(names: seq<string>)
    requires names != []
    ensures Entries(names) == names[0] + "," + Entries(names[1..])
    decreases |names|
  {
    if |names| > 1 {
      var init := names[..|names| - 1];
      EntriesFront(init);
      assert init[1..] == names[1..][..|names| - 2];
      assert init[0] == names[0];
    } else {
      assert names[1..] == [];
    }
  }

  /** The entries are the names joined by commas, with a trailing comma. */
  lemma {:induction false} EntriesJoin(names: seq<string>)
    ensures Entries(names) == Strings.Join(names + [""], ',')
    decreases |names|
  {
    if names != [] {
      EntriesFront(names);
      EntriesJoin(names[1..]);
      assert (names + [""])[1..] == names[1..] + [""];
      assert (names + [""])[0] == names[0];
    }
  }

  /** For comma-free names the entries split back into the names, followed by
      the empty piece after the trailing comma. */
  lemma {:induction false} EntriesSplit(names: seq<string>)
    requires forall i :: 0 <= i < |names| ==> ',' !in names[i]
    ensures Strings.Split(Entries(names), ',') == names + [""]
  {
    EntriesJoin(names);
    var pieces := names + [""];
    forall i | 0 <= i < |pieces|
      ensures ',' !in pieces[i]
    {
      if i < |names| {
        assert pieces[i] == names[i];
      }
    }
    Strings.SplitJoin(pieces, ',');
  }

  /** The enum of the two project types. */
  lemma ProjectTypeEnumText()
    ensures ProjectTypeEnum(ProjectTypes) == "enum ProjectType {bimanueel,VR,}"
  {
    assert ProjectTypes[..1] == ["bimanueel"];
    assert Entries(["bimanueel"]) == "bimanueel,";
  }

  /** The schema as the server builds it: the transformer is created without a
      directive name, so no `@auth` use is recognised and, should schema
      construction accept the schema text, it comes back with no field guarded. */
  method BuildSchemaAsWritten() returns (out: seq<Auth.TypeDef>)
    ensures out == Policy.Schema
  {
    var transformer := new Auth.AuthTransformer(None);
    out := transformer.Transform(Policy.Schema);
    Auth.UnnamedDirectiveGuardsNothing(Policy.Schema);
  }

  /** The schema with the transformer named `auth`, as the directive
      declarations in the schema use it: every field carries its guard. */
  method BuildSchema() returns (out: seq<Auth.TypeDef>)
    ensures out == Policy.Transformed()
  {
    var transformer := new Auth.AuthTransformer(Some(Policy.AuthName));
    out := transformer.Transform(Policy.Schema);
    Policy.TypePassRecordsTypeTable();
  }

  // ---------------------------------------------------------------------------
  // Sign-up

  /** A newly created account as the sign-up trigger sees it. */
  datatype NewAccount = NewAccount(uid: string, providerIds: seq<string>, email: Option<string>, emailVerified: bool)

  /** What the sign-up handler does with the account. */
  datatype SignUpAction = LeaveUntouched | GrantStudent | DeleteAccount

  /** The sign-up decision: password accounts (the ones the server creates) are
      left alone, a verified student e-mail address earns the `student` role,
      and every other account is removed. Reading the first provider of an
      account without providers fails. */
  function SignUpPolicy(account: NewAccount): (r: Result<SignUpAction>)
    ensures r.Err? <==> account.providerIds == []
    ensures r.Err? ==> r.error == TypeError
    ensures r == Ok(LeaveUntouched) <==> account.providerIds != [] && account.providerIds[0] == PasswordProvider
    ensures r == Ok(GrantStudent) <==>
              account.providerIds != [] && account.providerIds[0] != PasswordProvider &&
              account.email.Some? && Strings.EndsWith(account.email.value, StudentEmailSuffix) && account.emailVerified
  {
    if account.providerIds == [] then Err(TypeError)
    else if account.providerIds[0] == PasswordProvider then Ok(LeaveUntouched)
    else if Truthy(account.email) && Strings.EndsWith(account.email.value, StudentEmailSuffix) && account.emailVerified then
      Ok(GrantStudent)
    else Ok(DeleteAccount)
  }

  /** An account that signed up with a password is never deleted and never
      given a role by the handler, whatever its e-mail address. */
  lemma PasswordAccountsUntouched(account: NewAccount)
    requires account.providerIds != [] && account.providerIds[0] == PasswordProvider
    ensures SignUpPolicy(account) == Ok(LeaveUntouched)
  {
  }

  /** Only an address of the student domain that the provider has verified
      earns the `student` role. */
  lemma StudentOnlyFromVerifiedDomain(account: NewAccount)
    requires SignUpPolicy(account) == Ok(GrantStudent)
    ensures account.email.Some? && account.emailVerified
    ensures |account.email.value| >= |StudentEmailSuffix|
    ensures account.email.value[|account.email.value| - |StudentEmailSuffix|..] == StudentEmailSuffix
  {
  }

  /** `processSignUp`: carries out the decision on the identity provider. A
      failing provider call is logged and swallowed. */
  method ProcessSignUp(idp: Identity.IdentityProvider, account: NewAccount) returns (r: Result<SignUpAction>)
    requires idp.Valid()
    modifies idp
    ensures idp.Valid()
    ensures r == SignUpPolicy(account)
    ensures r != Ok(GrantStudent) && r != Ok(DeleteAccount) ==>
              idp.accounts == old(idp.accounts) && idp.roleClaims == old(idp.roleClaims)
    ensures r == Ok(GrantStudent) ==>
              idp.accounts == old(idp.accounts) &&
              idp.roleClaims == (if account.uid in old(idp.accounts) then old(idp.roleClaims)[account.uid := StudentRole]
                                 else old(idp.roleClaims))
    ensures r == Ok(DeleteAccount) ==>
              idp.accounts == old(idp.accounts) - {account.uid} && idp.roleClaims == old(idp.roleClaims) - {account.uid}
    ensures r.Ok? && r.value != LeaveUntouched && account.uid in old(idp.accounts) ==>
              account.uid !in idp.accounts || (account.uid in idp.roleClaims && idp.roleClaims[account.uid] == StudentRole)
  {
    r := SignUpPolicy(account);
    if r == Ok(GrantStudent) {
      var _ := idp.SetRoleClaim(account.uid, StudentRole);
    } else if r == Ok(DeleteAccount) {
      var _ := idp.DeleteUser(account.uid);
    }
  }
}
