/** The `@auth` schema directive. A directive `@<name>(requires: [roles])` on an
    object type or on a field makes the transformer replace the field's
    resolver by a guard. The guard lets a call through only when the caller's
    role is among the required roles and, at the root of a request that names
    another user by `id`, when the two users are patient and therapist of each
    other. The directive name is a parameter of the transformer. */
module Auth {
  import opened Common
  import Users

  const NotAuthorized := "This user is not authorized"

  /** The roles the directive's `Role` enum declares as written. */
  const DeclaredRolesAsWritten: seq<string> := [PatientRole, TherapistRole, "admin"]

  /** The roles the enum has to declare for the schema's role lists: `student` added. */
  const DeclaredRoles: seq<string> := DeclaredRolesAsWritten + ["student"]

  /** The context user: the verified token's `uid` and `role` claim (which may be missing). */
  datatype Principal = Principal(uid: string, role: Option<string>)

  /** The field arguments: the `id` argument, when the field has one, and the others. */
  datatype Args = Args(id: Option<string>, others: map<string, Value>)

  /** What a resolver is called with: the parent value (`Undefined` at the root
      of a request), the arguments, the context user and the field `info`. */
  datatype Request = Request(source: Value, args: Args, user: Principal, info: string)

  /** `source == null`: the field is resolved at the root of the request. */
  predicate IsRoot(source: Value)
  {
    source.Undefined? || source.Null?
  }

  /** `requires.includes(user.role)`: a missing role is in no role list. */
  predicate RolePermitted(roles: seq<string>, role: Option<string>)
  {
    role.Some? && role.value in roles
  }

  /** The relationship question the guard asks at the root, as (therapist id,
      patient id): a patient naming someone else asks whether that someone is
      their therapist, a therapist naming someone else asks whether that
      someone is their patient; nothing is asked otherwise. */
  function OracleQuery(req: Request): (q: Option<(string, string)>)
    ensures q.Some? ==> IsRoot(req.source) && Truthy(req.args.id) && req.args.id.value != req.user.uid
    ensures q.Some? && req.user.role == Some(PatientRole) ==> q.value == (req.args.id.value, req.user.uid)
    ensures q.Some? && req.user.role == Some(TherapistRole) ==> q.value == (req.user.uid, req.args.id.value)
    ensures q.Some? <==> IsRoot(req.source) && Truthy(req.args.id) && req.args.id.value != req.user.uid &&
                         (req.user.role == Some(PatientRole) || req.user.role == Some(TherapistRole))
  {
    if !IsRoot(req.source) then None
    else if req.user.role == Some(PatientRole) then
      if Truthy(req.args.id) && req.args.id.value != req.user.uid then Some((req.args.id.value, req.user.uid)) else None
    else if req.user.role == Some(TherapistRole) then
      if Truthy(req.args.id) && req.args.id.value != req.user.uid then Some((req.user.uid, req.args.id.value)) else None
    else None
  }

  /** The guard's decision: `Pass` lets the original resolver run. */
  function Decide(roles: seq<string>, req: Request, users: Users.UserStore): (o: Outcome)
    reads users
    ensures !RolePermitted(roles, req.user.role) ==> o == Fail(Forbidden(NotAuthorized))
    ensures o.Pass? ==> RolePermitted(roles, req.user.role)
    ensures RolePermitted(roles, req.user.role) && !IsRoot(req.source) ==> o == Pass
    ensures RolePermitted(roles, req.user.role) && (!Truthy(req.args.id) || req.args.id.value == req.user.uid) ==> o == Pass
    ensures (RolePermitted(roles, req.user.role) && req.user.role != Some(PatientRole) &&
             req.user.role != Some(TherapistRole)) ==> o == Pass
    ensures RolePermitted(roles, req.user.role) && IsRoot(req.source) && Truthy(req.args.id) &&
            req.args.id.value != req.user.uid && req.user.role == Some(PatientRole) ==>
              (o == Pass <==> users.IsTherapistOfPatient(req.args.id.value, req.user.uid) == Ok(true))
    ensures RolePermitted(roles, req.user.role) && IsRoot(req.source) && Truthy(req.args.id) &&
            req.args.id.value != req.user.uid && req.user.role == Some(TherapistRole) ==>
              (o == Pass <==> users.IsTherapistOfPatient(req.user.uid, req.args.id.value) == Ok(true))
    ensures o.Fail? && o.error != Forbidden(NotAuthorized) ==>
              OracleQuery(req).Some? &&
              users.IsTherapistOfPatient(OracleQuery(req).value.0, OracleQuery(req).value.1) == Err(o.error)
  {
    if !RolePermitted(roles, req.user.role) then Fail(Forbidden(NotAuthorized))
    else
      match OracleQuery(req)
      case None => Pass
      case Some(q) =>
        match users.IsTherapistOfPatient(q.0, q.1)
        case Err(e) => Fail(e)
        case Ok(related) => if related then Pass else Fail(Forbidden(NotAuthorized))
  }

  /** A resolver: one the schema was built with (named), or a guard around one. */
  datatype Resolver = Original(name: string) | Guarded(roles: seq<string>, inner: Resolver)

  const DefaultFieldResolver := Original("defaultFieldResolver")

  /** Calling a resolver; `base` is what the named original resolvers return. */
  function Run(r: Resolver, req: Request, users: Users.UserStore, base: (string, Request) -> Result<Value>): Result<Value>
    reads users
  {
    match r
    case Original(name) => base(name, req)
    case Guarded(roles, inner) =>
      match Decide(roles, req, users)
      case Fail(e) => Err(e)
      case Pass => Run(inner, req, users, base)
  }

  /** When the guard passes, the wrapped resolver runs on the very same request. */
  lemma PassDelegatesUnchanged(roles: seq<string>, inner: Resolver, req: Request, users: Users.UserStore,
                               base: (string, Request) -> Result<Value>)
    requires Decide(roles, req, users).Pass?
    ensures Run(Guarded(roles, inner), req, users, base) == Run(inner, req, users, base)
  {
  }

  /** When the guard fails, the call fails with the guard's error, whatever the
      wrapped resolver would have returned. */
  lemma FailNeverResolves(roles: seq<string>, inner: Resolver, req: Request, users: Users.UserStore,
                          base1: (string, Request) -> Result<Value>, base2: (string, Request) -> Result<Value>)
    requires Decide(roles, req, users).Fail?
    ensures Run(Guarded(roles, inner), req, users, base1) == Err(Decide(roles, req, users).error)
    ensures Run(Guarded(roles, inner), req, users, base1) == Run(Guarded(roles, inner), req, users, base2)
  {
  }

  /** Below the root the decision does not depend on the user store: no
      relationship question is asked. */
  lemma NestedAccessAsksNothing(roles: seq<string>, req: Request, users1: Users.UserStore, users2: Users.UserStore)
    requires !IsRoot(req.source)
    ensures OracleQuery(req).None?
    ensures Decide(roles, req, users1) == Decide(roles, req, users2)
  {
  }

  /** A directive use: its name and its `requires` argument, when given. */
  datatype Directive = Directive(name: string, roles: Option<seq<string>>)

  /** A field of an object type; `resolve` is missing when the schema gives none. */
  datatype FieldDef = FieldDef(name: string, directives: seq<Directive>, args: seq<string>, resolve: Option<Resolver>)

  datatype TypeDef = TypeDef(name: string, directives: seq<Directive>, fields: seq<FieldDef>)

  /** `getDirective(schema, node, directiveName)?.[0]`: the first use of the
      named directive; without a name, none. */
  function FindDirective(ds: seq<Directive>, name: Option<string>): (r: Option<Directive>)
    ensures r.Some? ==> r.value in ds && name == Some(r.value.name)
    ensures r.Some? ==> exists k :: 0 <= k < |ds| && ds[k] == r.value &&
                                    forall j :: 0 <= j < k ==> name != Some(ds[j].name)
    ensures r.None? ==> forall d :: d in ds ==> name != Some(d.name)
    ensures name.None? ==> r.None?
  {
    if name.None? || ds == [] then None
    else if ds[0].name == name.value then Some(ds[0])
    else FindDirective(ds[1..], name)
  }

  /** The directive that applies to a field: its own, or else the one recorded
      for its type. */
  function EffectiveDirective(f: FieldDef, typeName: string, typeMap: map<string, Directive>, name: Option<string>): Option<Directive>
  {
    var own := FindDirective(f.directives, name);
    if own.Some? then own
    else if typeName in typeMap then Some(typeMap[typeName])
    else None
  }

  /** The field mapper: a field whose applicable directive carries `requires`
      gets a guard around its resolver (the default one when it has none);
      every other field is kept as it is. */
  function GuardField(f: FieldDef, typeName: string, typeMap: map<string, Directive>, name: Option<string>): (g: FieldDef)
    ensures g.name == f.name && g.directives == f.directives && g.args == f.args
    ensures FindDirective(f.directives, name).Some? && FindDirective(f.directives, name).value.roles.Some? ==>
              g.resolve == Some(Guarded(FindDirective(f.directives, name).value.roles.value,
                                        if f.resolve.Some? then f.resolve.value else DefaultFieldResolver))
    ensures FindDirective(f.directives, name).Some? && FindDirective(f.directives, name).value.roles.None? ==> g == f
    ensures FindDirective(f.directives, name).None? && typeName in typeMap && typeMap[typeName].roles.Some? ==>
              g.resolve == Some(Guarded(typeMap[typeName].roles.value,
                                        if f.resolve.Some? then f.resolve.value else DefaultFieldResolver))
    ensures FindDirective(f.directives, name).None? && (typeName !in typeMap || typeMap[typeName].roles.None?) ==> g == f
  {
    var d := EffectiveDirective(f, typeName, typeMap, name);
    if d.Some? && d.value.roles.Some? then
      f.(resolve := Some(Guarded(d.value.roles.value, if f.resolve.Some? then f.resolve.value else DefaultFieldResolver)))
    else f
  }

  /** The type mapper applied to each type in order: a type carrying the
      directive has it recorded under its name. */
  function RecordTypeDirectives(m: map<string, Directive>, types: seq<TypeDef>, name: Option<string>): map<string, Directive>
  {
    if types == [] then m
    else
      var before := RecordTypeDirectives(m, types[..|types| - 1], name);
      var t := types[|types| - 1];
      match FindDirective(t.directives, name)
      case None => before
      case Some(d) => before[t.name := d]
  }

  /** Type names are unique in a schema. */
  predicate DistinctNames(types: seq<TypeDef>)
  {
    forall i, j :: 0 <= i < j < |types| ==> types[i].name != types[j].name
  }

  /** After the type pass, a type of the schema carrying the directive has that
      directive recorded; a type without it keeps what was recorded before. */
  lemma {:induction false} RecordedTypeDirective(m: map<string, Directive>, types: seq<TypeDef>, name: Option<string>, k: nat)
    requires DistinctNames(types) && k < |types|
    ensures FindDirective(types[k].directives, name).Some? ==>
              types[k].name in RecordTypeDirectives(m, types, name) &&
              RecordTypeDirectives(m, types, name)[types[k].name] == FindDirective(types[k].directives, name).value
    ensures FindDirective(types[k].directives, name).None? ==>
              (types[k].name in RecordTypeDirectives(m, types, name) <==> types[k].name in m) &&
              (types[k].name in m ==> RecordTypeDirectives(m, types, name)[types[k].name] == m[types[k].name])
  {
    var front := types[..|types| - 1];
    if k < |types| - 1 {
      assert front[k] == types[k];
      assert DistinctNames(front);
      RecordedTypeDirective(m, front, name, k);
    } else {
      RecordUntouched(m, front, name, types[k].name);
    }
  }

  /** A name that no type of the list carries keeps what was recorded for it. */
  lemma {:induction false} RecordUntouched(m: map<string, Directive>, types: seq<TypeDef>, name: Option<string>, typeName: string)
    requires forall t :: t in types ==> t.name != typeName
    ensures typeName in RecordTypeDirectives(m, types, name) <==> typeName in m
    ensures typeName in m ==> RecordTypeDirectives(m, types, name)[typeName] == m[typeName]
  {
    if types != [] {
      var front := types[..|types| - 1];
      assert forall t :: t in front ==> t in types;
      RecordUntouched(m, front, name, typeName);
      assert types[|types| - 1] in types;
    }
  }

  /** The field pass over one type. */
  function TransformType(t: TypeDef, typeMap: map<string, Directive>, name: Option<string>): TypeDef
  {
    TypeDef(t.name, t.directives, seq(|t.fields|, j requires 0 <= j < |t.fields| => GuardField(t.fields[j], t.name, typeMap, name)))
  }

  /** The field pass over the schema. */
  function TransformSchema(types: seq<TypeDef>, typeMap: map<string, Directive>, name: Option<string>): seq<TypeDef>
  {
    seq(|types|, i requires 0 <= i < |types| => TransformType(types[i], typeMap, name))
  }

  /** With no directive name nothing is recorded for any type. */
  lemma {:induction false} UnnamedRecordsNothing(m: map<string, Directive>, types: seq<TypeDef>)
    ensures RecordTypeDirectives(m, types, None) == m
  {
    if types != [] {
      UnnamedRecordsNothing(m, types[..|types| - 1]);
    }
  }

  /** With no directive name the transformer hands back the schema it was given:
      no field of any type is guarded. */
  lemma UnnamedDirectiveGuardsNothing(types: seq<TypeDef>)
    ensures TransformSchema(types, RecordTypeDirectives(map[], types, None), None) == types
  {
    UnnamedRecordsNothing(map[], types);
    var out := TransformSchema(types, map[], None);
    forall i | 0 <= i < |types|
      ensures out[i] == types[i]
    {
      var t := types[i];
      assert TransformType(t, map[], None).fields == t.fields;
    }
  }

  /** The schema transformer of one directive name. The record of type
      directives lives as long as the transformer, as the closure's dictionary
      does. */
  class AuthTransformer {
    const directiveName: Option<string>
    var typeDirectiveArgumentMaps: map<string, Directive>

    constructor (directiveName: Option<string>)
      ensures this.directiveName == directiveName && typeDirectiveArgumentMaps == map[]
    {
      this.directiveName := directiveName;
      typeDirectiveArgumentMaps := map[];
    }

    /** The type mapper: records the type's directive and keeps the type. */
    method MapType(t: TypeDef)
      modifies this
      ensures FindDirective(t.directives, directiveName).Some? ==>
                typeDirectiveArgumentMaps == old(typeDirectiveArgumentMaps)[t.name := FindDirective(t.directives, directiveName).value]
      ensures FindDirective(t.directives, directiveName).None? ==>
                typeDirectiveArgumentMaps == old(typeDirectiveArgumentMaps)
    {
      var d := FindDirective(t.directives, directiveName);
      if d.Some? {
        typeDirectiveArgumentMaps := typeDirectiveArgumentMaps[t.name := d.value];
      }
    }

    /** The object-field mapper. */
    method MapObjectField(f: FieldDef, typeName: string) returns (g: FieldDef)
      ensures g == GuardField(f, typeName, typeDirectiveArgumentMaps, directiveName)
    {
      var d := FindDirective(f.directives, directiveName);
      if d.None? && typeName in typeDirectiveArgumentMaps {
        d := Some(typeDirectiveArgumentMaps[typeName]);
      }
      if d.Some? && d.value.roles.Some? {
        var resolve := if f.resolve.Some? then f.resolve.value else DefaultFieldResolver;
        return f.(resolve := Some(Guarded(d.value.roles.value, resolve)));
      }
      g := f;
    }

    /** `authDirectiveTransformer`: all types first, then every field of every type. */
    method Transform(schema: seq<TypeDef>) returns (out: seq<TypeDef>)
      modifies this
      ensures typeDirectiveArgumentMaps == RecordTypeDirectives(old(typeDirectiveArgumentMaps), schema, directiveName)
      ensures out == TransformSchema(schema, typeDirectiveArgumentMaps, directiveName)
    {
      for i := 0 to |schema|
        invariant typeDirectiveArgumentMaps == RecordTypeDirectives(old(typeDirectiveArgumentMaps), schema[..i], directiveName)
      {
        assert schema[..i + 1][..i] == schema[..i];
        MapType(schema[i]);
      }
      assert schema[..|schema|] == schema;
      var recorded := typeDirectiveArgumentMaps;
      out := [];
      for i := 0 to |schema|
        invariant typeDirectiveArgumentMaps == recorded
        invariant |out| == i
        invariant forall k :: 0 <= k < i ==> out[k] == TransformType(schema[k], typeDirectiveArgumentMaps, directiveName)
      {
        var t := schema[i];
        var fields: seq<FieldDef> := [];
        for j := 0 to |t.fields|
          invariant typeDirectiveArgumentMaps == recorded
          invariant |fields| == j
          invariant forall k :: 0 <= k < j ==> fields[k] == GuardField(t.fields[k], t.name, typeDirectiveArgumentMaps, directiveName)
        {
          var g := MapObjectField(t.fields[j], t.name);
          fields := fields + [g];
        }
        assert TypeDef(t.name, t.directives, fields) == TransformType(t, typeDirectiveArgumentMaps, directiveName);
        out := out + [TypeDef(t.name, t.directives, fields)];
      }
    }
  }
}
