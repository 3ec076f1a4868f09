/** The access policy of the API: the `@auth` role lists written on the root
    fields of `Query` and `Mutation` and on the object types `Therapist`,
    `Patient`, `Task` and `Todo`, and what the transformer makes of them. */
module Policy {
  import opened Common
  import Auth
  import Users

  const AuthName := "auth"

  /** `@auth(requires: roles)`. */
  function AuthOn(roles: seq<string>): seq<Auth.Directive>
  {
    [Auth.Directive(AuthName, Some(roles))]
  }

  /** A field without a directive of its own and without an entry in the
      resolver map: the default resolver reads it from its parent. */
  function Plain(name: string, args: seq<string>): Auth.FieldDef
  {
    Auth.FieldDef(name, [], args, None)
  }

  /** The name of the resolver map's entry for field `field` of type `typeName`. */
  function ResolverName(typeName: string, field: string): string
  {
    typeName + "." + field
  }

  /** A field without a directive of its own whose resolver is the resolver
      map's entry for it. */
  function Resolved(typeName: string, name: string, args: seq<string>): Auth.FieldDef
  {
    Auth.FieldDef(name, [], args, Some(Auth.Original(ResolverName(typeName, name))))
  }

  /** A root query field with its own `@auth(requires: roles)`; the resolver
      map has no entry under the field's name, so the default resolver reads it. */
  function Guarded(name: string, args: seq<string>, roles: seq<string>): Auth.FieldDef
  {
    Auth.FieldDef(name, AuthOn(roles), args, None)
  }

  /** A mutation with its own `@auth(requires: roles)` and its resolver map
      entry. */
  function GuardedMutation(name: string, args: seq<string>, roles: seq<string>): Auth.FieldDef
  {
    Auth.FieldDef(name, AuthOn(roles), args, Some(Auth.Original(ResolverName("Mutation", name))))
  }

  /** The resolver a field runs before any guard: its own, or the default one. */
  function Inner(f: Auth.FieldDef): Auth.Resolver
  {
    if f.resolve.Some? then f.resolve.value else Auth.DefaultFieldResolver
  }

  const TherapistOrPatient: seq<string> := ["therapist", "patient"]
  const PatientOrTherapist: seq<string> := ["patient", "therapist"]

  const QueryType := Auth.TypeDef("Query", [], [
    Guarded("patient", ["id"], TherapistOrPatient),
    Guarded("patientsOfTherapist", ["pagination", "id", "name"], ["therapist"]),
    Guarded("therapist", ["id"], TherapistOrPatient),
    Guarded("therapistsOfPatient", ["id"], TherapistOrPatient),
    Guarded("tasksOfPatients", ["nr_patients", "nr_tasks_per_patient", "gender", "bd_gt", "bd_lt", "condition", "type"],
            ["therapist", StudentRole])
  ])

  const TherapistType := Auth.TypeDef("Therapist", AuthOn(PatientOrTherapist), [
    Plain("id", []), Plain("name", []), Plain("birthdate", []), Plain("address", []),
    Plain("email", []), Plain("telephone", []), Plain("patients", ["pagination", "name"])
  ])

  const PatientType := Auth.TypeDef("Patient", AuthOn(PatientOrTherapist), [
    Plain("id", []), Plain("name", []), Plain("birthdate", []), Plain("address", []),
    Plain("condition", []), Plain("telephone", []), Plain("email", []), Plain("gender", []),
    Resolved("Patient", "therapists", []), Plain("tasks", ["pagination", "type", "filter"]),
    Resolved("Patient", "task", ["taskId"]), Resolved("Patient", "todos", ["pagination", "type", "filter"]),
    Resolved("Patient", "todo", ["todoId"])
  ])

  const TaskType := Auth.TypeDef("Task", AuthOn(["patient", "therapist", StudentRole]), [
    Plain("id", []), Plain("type", []), Plain("dateCreated", []), Plain("task", [])
  ])

  const TodoType := Auth.TypeDef("Todo", AuthOn(PatientOrTherapist), [
    Plain("id", []), Plain("type", []), Plain("dateCreated", []), Plain("deadline", []), Plain("todo", [])
  ])

  const MutationType := Auth.TypeDef("Mutation", [], [
    GuardedMutation("createPatient", ["patientInfo"], ["therapist"]),
    GuardedMutation("updatePatient", ["id", "patientInfo"], PatientOrTherapist),
    GuardedMutation("deletePatient", ["id"], PatientOrTherapist),
    GuardedMutation("updateTherapist", ["id", "therapistInfo"], ["therapist"]),
    GuardedMutation("deleteTherapist", ["id"], ["therapist"]),
    GuardedMutation("addTask", ["id", "taskInfo"], ["patient"]),
    GuardedMutation("updateTask", ["id", "taskId", "taskInfo"], ["patient"]),
    GuardedMutation("deleteTask", ["id", "taskId"], PatientOrTherapist),
    GuardedMutation("addTodo", ["id", "todoInfo"], ["therapist"]),
    GuardedMutation("updateTodo", ["id", "todoId", "todoInfo"], ["therapist"]),
    GuardedMutation("deleteTodo", ["id", "todoId"], PatientOrTherapist)
  ])

  /** The object types of the schema that carry or consult the directive. */
  const Schema: seq<Auth.TypeDef> := [QueryType, MutationType, TherapistType, PatientType, TaskType, TodoType]

  /** The type pass of a transformer named `auth` over the schema. */
  const TypeTable: map<string, Auth.Directive> := map[
    "Therapist" := Auth.Directive(AuthName, Some(PatientOrTherapist)),
    "Patient" := Auth.Directive(AuthName, Some(PatientOrTherapist)),
    "Task" := Auth.Directive(AuthName, Some(["patient", "therapist", StudentRole])),
    "Todo" := Auth.Directive(AuthName, Some(PatientOrTherapist))
  ]

  /** The type pass records exactly the four directive-carrying types. */
  lemma TypePassRecordsTypeTable()
    ensures Auth.RecordTypeDirectives(map[], Schema, Some(AuthName)) == TypeTable
  {
    var name := Some(AuthName);
    assert Auth.FindDirective(QueryType.directives, name).None?;
    assert Auth.FindDirective(MutationType.directives, name).None?;
    assert Auth.FindDirective(TherapistType.directives, name) == Some(TypeTable["Therapist"]);
    assert Auth.FindDirective(PatientType.directives, name) == Some(TypeTable["Patient"]);
    assert Auth.FindDirective(TaskType.directives, name) == Some(TypeTable["Task"]);
    assert Auth.FindDirective(TodoType.directives, name) == Some(TypeTable["Todo"]);
    var m0: map<string, Auth.Directive> := map[];
    assert Schema[..0] == [];
    assert Auth.RecordTypeDirectives(m0, Schema[..1], name) == m0 by { assert Schema[..1][..0] == Schema[..0]; }
    assert Auth.RecordTypeDirectives(m0, Schema[..2], name) == m0 by { assert Schema[..2][..1] == Schema[..1]; }
    var m3 := m0["Therapist" := TypeTable["Therapist"]];
    assert Auth.RecordTypeDirectives(m0, Schema[..3], name) == m3 by { assert Schema[..3][..2] == Schema[..2]; }
    var m4 := m3["Patient" := TypeTable["Patient"]];
    assert Auth.RecordTypeDirectives(m0, Schema[..4], name) == m4 by { assert Schema[..4][..3] == Schema[..3]; }
    var m5 := m4["Task" := TypeTable["Task"]];
    assert Auth.RecordTypeDirectives(m0, Schema[..5], name) == m5 by { assert Schema[..5][..4] == Schema[..4]; }
    var m6 := m5["Todo" := TypeTable["Todo"]];
    assert Auth.RecordTypeDirectives(m0, Schema, name) == m6 by { assert Schema[..5] == Schema[..|Schema| - 1]; }
    assert m6 == TypeTable;
  }

  /** The schema after a transformer named `auth` ran over it. */
  function Transformed(): seq<Auth.TypeDef>
  {
    Auth.TransformSchema(Schema, TypeTable, Some(AuthName))
  }

  /** None of the type's fields carries a directive of its own. */
  predicate NoFieldDirectives(t: Auth.TypeDef)
  {
    forall j :: 0 <= j < |t.fields| ==> t.fields[j].directives == []
  }

  /** The four directive-carrying types put no directive on their fields. */
  lemma ObjectTypesPlain()
    ensures NoFieldDirectives(TherapistType) && NoFieldDirectives(PatientType)
    ensures NoFieldDirectives(TaskType) && NoFieldDirectives(TodoType)
  {
  }

  /** A field of a recorded type without a directive of its own is guarded by
      its type's role list around its own resolver, or the default one. */
  lemma {:induction false} TypeFieldsInherit(t: Auth.TypeDef, j: nat)
    requires t.name in TypeTable && NoFieldDirectives(t) && j < |t.fields|
    ensures Auth.TransformType(t, TypeTable, Some(AuthName)).fields[j].resolve ==
              Some(Auth.Guarded(TypeTable[t.name].roles.value, Inner(t.fields[j])))
  {
    assert t.fields[j].directives == [];
    assert TypeTable[t.name].roles.Some?;
  }

  /** Every root field is guarded by its own role list around its resolver:
      the mutation's own, or the default one for a query field. */
  lemma {:induction false} RootFieldsOwnRoles(t: Auth.TypeDef, j: nat)
    requires (t == QueryType || t == MutationType) && j < |t.fields|
    ensures Auth.TransformType(t, TypeTable, Some(AuthName)).fields[j].resolve ==
              Some(Auth.Guarded(t.fields[j].directives[0].roles.value, Inner(t.fields[j])))
    ensures t == QueryType ==> Inner(t.fields[j]) == Auth.DefaultFieldResolver
    ensures t == MutationType ==> Inner(t.fields[j]) == Auth.Original(ResolverName("Mutation", t.fields[j].name))
  {
    assert t.fields[j].directives == AuthOn(t.fields[j].directives[0].roles.value);
  }

  /** A caller with the student role is refused every field of a patient,
      the task list, the single task and the todos included, whatever the
      request. */
  lemma StudentNeverReadsPatient(j: nat, req: Auth.Request, users: Users.UserStore,
                                 base: (string, Auth.Request) -> Result<Value>)
    requires j < |PatientType.fields|
    requires req.user.role == Some(StudentRole)
    ensures Auth.TransformType(PatientType, TypeTable, Some(AuthName)).fields[j].resolve.Some?
    ensures Auth.Run(Auth.TransformType(PatientType, TypeTable, Some(AuthName)).fields[j].resolve.value, req, users, base)
            == Err(Forbidden(Auth.NotAuthorized))
  {
    ObjectTypesPlain();
    TypeFieldsInherit(PatientType, j);
  }

  /** A student may read the fields of a task, and of todos nothing. */
  lemma StudentReadsTasksNotTodos(j: nat, k: nat, req: Auth.Request, users: Users.UserStore,
                                  base: (string, Auth.Request) -> Result<Value>)
    requires j < |TaskType.fields| && k < |TodoType.fields|
    requires req.user.role == Some(StudentRole) && !Auth.IsRoot(req.source)
    ensures Auth.Run(Auth.TransformType(TaskType, TypeTable, Some(AuthName)).fields[j].resolve.value, req, users, base)
            == base("defaultFieldResolver", req)
    ensures Auth.Run(Auth.TransformType(TodoType, TypeTable, Some(AuthName)).fields[k].resolve.value, req, users, base)
            == Err(Forbidden(Auth.NotAuthorized))
  {
    ObjectTypesPlain();
    TypeFieldsInherit(TaskType, j);
    TypeFieldsInherit(TodoType, k);
  }

  /** `Therapist.patients` has no directive of its own and takes the patient or
      therapist list of its type. */
  lemma TherapistPatientsInherits()
    ensures TherapistType.fields[6].name == "patients" && TherapistType.fields[6].directives == []
    ensures Auth.TransformType(TherapistType, TypeTable, Some(AuthName)).fields[6].resolve ==
              Some(Auth.Guarded(PatientOrTherapist, Auth.DefaultFieldResolver))
  {
    ObjectTypesPlain();
    TypeFieldsInherit(TherapistType, 6);
  }

  /** The patient fields with resolvers of their own (the therapists, one task,
      the todos, one todo) keep them inside the guard of their type. */
  lemma PatientResolversInherit()
    ensures PatientType.fields[8].name == "therapists" &&
            GuardAfter(PatientType, 8) == Some(Auth.Guarded(PatientOrTherapist, Auth.Original(ResolverName("Patient", "therapists"))))
    ensures PatientType.fields[10].name == "task" &&
            GuardAfter(PatientType, 10) == Some(Auth.Guarded(PatientOrTherapist, Auth.Original(ResolverName("Patient", "task"))))
    ensures PatientType.fields[11].name == "todos" &&
            GuardAfter(PatientType, 11) == Some(Auth.Guarded(PatientOrTherapist, Auth.Original(ResolverName("Patient", "todos"))))
    ensures PatientType.fields[12].name == "todo" &&
            GuardAfter(PatientType, 12) == Some(Auth.Guarded(PatientOrTherapist, Auth.Original(ResolverName("Patient", "todo"))))
    ensures PatientType.fields[9].name == "tasks" &&
            GuardAfter(PatientType, 9) == Some(Auth.Guarded(PatientOrTherapist, Auth.DefaultFieldResolver))
  {
    ObjectTypesPlain();
    TypeFieldsInherit(PatientType, 8);
    TypeFieldsInherit(PatientType, 9);
    TypeFieldsInherit(PatientType, 10);
    TypeFieldsInherit(PatientType, 11);
    TypeFieldsInherit(PatientType, 12);
  }

  /** The resolver a field of `t` ends up with after the transformer named `auth` ran. */
  function GuardAfter(t: Auth.TypeDef, j: nat): Option<Auth.Resolver>
    requires j < |t.fields|
  {
    Auth.TransformType(t, TypeTable, Some(AuthName)).fields[j].resolve
  }

  /** The query table: which roles each root query field admits, and which of
      them take a target `id`. */
  lemma QueryTable()
    ensures QueryType.fields[0].name == "patient" && "id" in QueryType.fields[0].args &&
            GuardAfter(QueryType, 0) == Some(Auth.Guarded(TherapistOrPatient, Auth.DefaultFieldResolver))
    ensures QueryType.fields[1].name == "patientsOfTherapist" && "id" in QueryType.fields[1].args &&
            GuardAfter(QueryType, 1) == Some(Auth.Guarded(["therapist"], Auth.DefaultFieldResolver))
    ensures QueryType.fields[2].name == "therapist" && "id" in QueryType.fields[2].args &&
            GuardAfter(QueryType, 2) == Some(Auth.Guarded(TherapistOrPatient, Auth.DefaultFieldResolver))
    ensures QueryType.fields[3].name == "therapistsOfPatient" && "id" in QueryType.fields[3].args &&
            GuardAfter(QueryType, 3) == Some(Auth.Guarded(TherapistOrPatient, Auth.DefaultFieldResolver))
    ensures QueryType.fields[4].name == "tasksOfPatients" && "id" !in QueryType.fields[4].args &&
            GuardAfter(QueryType, 4) == Some(Auth.Guarded(["therapist", StudentRole], Auth.DefaultFieldResolver))
  {
    RootFieldsOwnRoles(QueryType, 0);
    RootFieldsOwnRoles(QueryType, 1);
    RootFieldsOwnRoles(QueryType, 2);
    RootFieldsOwnRoles(QueryType, 3);
    RootFieldsOwnRoles(QueryType, 4);
  }

  /** The mutation table: which roles each mutation admits. */
  lemma MutationTable()
    ensures MutationType.fields[0].name == "createPatient" &&
            GuardAfter(MutationType, 0) == Some(Auth.Guarded(["therapist"], Auth.Original(ResolverName("Mutation", "createPatient"))))
    ensures MutationType.fields[1].name == "updatePatient" &&
            GuardAfter(MutationType, 1) == Some(Auth.Guarded(PatientOrTherapist, Auth.Original(ResolverName("Mutation", "updatePatient"))))
    ensures MutationType.fields[2].name == "deletePatient" &&
            GuardAfter(MutationType, 2) == Some(Auth.Guarded(PatientOrTherapist, Auth.Original(ResolverName("Mutation", "deletePatient"))))
    ensures MutationType.fields[3].name == "updateTherapist" &&
            GuardAfter(MutationType, 3) == Some(Auth.Guarded(["therapist"], Auth.Original(ResolverName("Mutation", "updateTherapist"))))
    ensures MutationType.fields[4].name == "deleteTherapist" &&
            GuardAfter(MutationType, 4) == Some(Auth.Guarded(["therapist"], Auth.Original(ResolverName("Mutation", "deleteTherapist"))))
    ensures MutationType.fields[5].name == "addTask" &&
            GuardAfter(MutationType, 5) == Some(Auth.Guarded(["patient"], Auth.Original(ResolverName("Mutation", "addTask"))))
    ensures MutationType.fields[6].name == "updateTask" &&
            GuardAfter(MutationType, 6) == Some(Auth.Guarded(["patient"], Auth.Original(ResolverName("Mutation", "updateTask"))))
    ensures MutationType.fields[7].name == "deleteTask" &&
            GuardAfter(MutationType, 7) == Some(Auth.Guarded(PatientOrTherapist, Auth.Original(ResolverName("Mutation", "deleteTask"))))
    ensures MutationType.fields[8].name == "addTodo" &&
            GuardAfter(MutationType, 8) == Some(Auth.Guarded(["therapist"], Auth.Original(ResolverName("Mutation", "addTodo"))))
    ensures MutationType.fields[9].name == "updateTodo" &&
            GuardAfter(MutationType, 9) == Some(Auth.Guarded(["therapist"], Auth.Original(ResolverName("Mutation", "updateTodo"))))
    ensures MutationType.fields[10].name == "deleteTodo" &&
            GuardAfter(MutationType, 10) == Some(Auth.Guarded(PatientOrTherapist, Auth.Original(ResolverName("Mutation", "deleteTodo"))))
  {
    RootFieldsOwnRoles(MutationType, 0);
    RootFieldsOwnRoles(MutationType, 1);
    RootFieldsOwnRoles(MutationType, 2);
    RootFieldsOwnRoles(MutationType, 3);
    RootFieldsOwnRoles(MutationType, 4);
    RootFieldsOwnRoles(MutationType, 5);
    RootFieldsOwnRoles(MutationType, 6);
    RootFieldsOwnRoles(MutationType, 7);
    RootFieldsOwnRoles(MutationType, 8);
    RootFieldsOwnRoles(MutationType, 9);
    RootFieldsOwnRoles(MutationType, 10);
  }

  /** Every mutation except `createPatient` names its target by `id`, so the
      relationship check applies to it; `createPatient` gets the role check only. */
  lemma MutationsTakeId()
    ensures forall f :: f in MutationType.fields && f.name != "createPatient" ==> "id" in f.args
    ensures forall f :: f in MutationType.fields && f.name == "createPatient" ==> "id" !in f.args
  {
  }

  /** A therapist calling a mutation on a patient who does not list them is
      refused before the mutation runs. */
  lemma TherapistCannotTouchOtherPatients(j: nat, req: Auth.Request, users: Users.UserStore,
                                          base: (string, Auth.Request) -> Result<Value>)
    requires j < |MutationType.fields| && "therapist" in MutationType.fields[j].directives[0].roles.value
    requires req.user.role == Some("therapist") && Auth.IsRoot(req.source)
    requires req.args.id.Some? && req.args.id.value != "" && req.args.id.value != req.user.uid
    requires req.args.id.value in users.patients
    requires Field(users.patients[req.args.id.value], "therapist").Arr?
    requires Str(req.user.uid) !in Field(users.patients[req.args.id.value], "therapist").items
    ensures Auth.Run(Auth.TransformType(MutationType, TypeTable, Some(AuthName)).fields[j].resolve.value, req, users, base)
            == Err(Forbidden(Auth.NotAuthorized))
  {
    RootFieldsOwnRoles(MutationType, j);
  }

  /** A patient reading a therapist who is not theirs is refused. */
  lemma PatientCannotReadOtherTherapists(req: Auth.Request, users: Users.UserStore,
                                         base: (string, Auth.Request) -> Result<Value>)
    requires req.user.role == Some("patient") && Auth.IsRoot(req.source)
    requires req.args.id.Some? && req.args.id.value != "" && req.args.id.value != req.user.uid
    requires req.user.uid in users.patients && Field(users.patients[req.user.uid], "therapist").Arr?
    requires Str(req.args.id.value) !in Field(users.patients[req.user.uid], "therapist").items
    ensures QueryType.fields[2].name == "therapist"
    ensures Auth.Run(Auth.TransformType(QueryType, TypeTable, Some(AuthName)).fields[2].resolve.value, req, users, base)
            == Err(Forbidden(Auth.NotAuthorized))
  {
    RootFieldsOwnRoles(QueryType, 2);
  }

  /** `tasksOfPatients` takes no `id`: a student at the root passes on the role check alone. */
  lemma StudentListsTasksOfPatients(req: Auth.Request, users: Users.UserStore,
                                    base: (string, Auth.Request) -> Result<Value>)
    requires req.user.role == Some(StudentRole) && req.args.id.None?
    ensures QueryType.fields[4].name == "tasksOfPatients"
    ensures Auth.Run(Auth.TransformType(QueryType, TypeTable, Some(AuthName)).fields[4].resolve.value, req, users, base)
            == base("defaultFieldResolver", req)
  {
    RootFieldsOwnRoles(QueryType, 4);
  }

  /** Every role a directive list names is declared. */
  predicate DirectiveRolesDeclared(ds: seq<Auth.Directive>, declared: seq<string>)
  {
    forall i :: 0 <= i < |ds| && ds[i].roles.Some? ==> forall r :: r in ds[i].roles.value ==> r in declared
  }

  /** Every role named on a type or on one of its fields is declared. */
  predicate TypeRolesDeclared(t: Auth.TypeDef, declared: seq<string>)
  {
    DirectiveRolesDeclared(t.directives, declared) &&
    forall j :: 0 <= j < |t.fields| ==> DirectiveRolesDeclared(t.fields[j].directives, declared)
  }

  predicate RolesDeclared(types: seq<Auth.TypeDef>, declared: seq<string>)
  {
    forall i :: 0 <= i < |types| ==> TypeRolesDeclared(types[i], declared)
  }

  /** As declared, the directive's `Role` enum lacks the `student` role that the
      `Task` type and `tasksOfPatients` require. */
  lemma StudentRoleUndeclared()
    ensures StudentRole !in Auth.DeclaredRolesAsWritten
    ensures !TypeRolesDeclared(TaskType, Auth.DeclaredRolesAsWritten)
    ensures !TypeRolesDeclared(QueryType, Auth.DeclaredRolesAsWritten)
    ensures !RolesDeclared(Schema, Auth.DeclaredRolesAsWritten)
  {
    assert StudentRole in TaskType.directives[0].roles.value;
    assert StudentRole in QueryType.fields[4].directives[0].roles.value;
    assert Schema[4] == TaskType;
  }

  /** With `student` added to the enum, every role the schema uses is declared. */
  lemma SchemaRolesDeclared()
    ensures RolesDeclared(Schema, Auth.DeclaredRoles)
  {
    var declared := Auth.DeclaredRoles;
    ObjectTypesPlain();
    assert TypeRolesDeclared(QueryType, declared);
    assert TypeRolesDeclared(MutationType, declared);
    assert DirectiveRolesDeclared(AuthOn(PatientOrTherapist), declared);
    assert DirectiveRolesDeclared(TaskType.directives, declared);
  }
}
