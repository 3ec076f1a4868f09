# homerev server core in Dafny

homerev is a GraphQL backend for a home-revalidation app. Therapists manage
their patients, and patients keep tasks and todos in a separate medical
database. This project models the core of that server:

- **Access control.** The `@auth(requires: [...])` schema directive. Its
  transformer (`authDirective`) wraps every guarded field's resolver in a
  check. The check tests the caller's role against the field's or the type's
  role list. At the root of a query, it also asks the user store whether a
  patient and a therapist are related. Both the current TypeScript guard and
  the older JavaScript guard are modelled (`Auth`, `LegacyAuth`).
- **Policy.** The role tables that `query.ts` and `mutation.ts` attach to every
  root field and object type, and what the transformed schema guards with
  them (`Policy`).
- **User store.** Patients and therapists keyed by account id, with the
  patient–therapist relation kept in each patient's `therapist` array. Both
  the current and the older data source are modelled (`Users`,
  `LegacyUsers`).
- **Identity provider.** Accounts with a `role` custom claim (`Identity`).
- **Medical store.** Per-patient task and todo collections under a hashed
  patient key. It covers query building (type shorthand, one filter,
  ordering, cursor pagination), record shaping, and add/update/delete of
  tasks and todos (`Med`). `Enums` holds the string enums those filters use.
- **Gateway.** The server's entry points (`Gateway`):
  - the request gate that turns an `authorization` header into the context user;
  - the `ProjectType` enum text;
  - the schema assembly;
  - the sign-up trigger that makes verified university e-mail accounts
    students and removes other external accounts.

`Strings` and `Common` are shared helpers: JavaScript `split`/`join`/`includes`,
and the values, property reads, errors and documents every module uses.

The database and the identity provider are modelled as in-memory state. The
calls whose answer the server cannot predict enter as parameters: a token
verifier, the provider's reply to account creation, what a query returns
(a snapshot), the hash of a patient id, and the clock.

## Model

| member | source | states |
|---|---|---|
| Strings.Split | functions/src/datasources/med.ts:163 | `split(',')` always yields at least one piece |
| Strings.JoinSplit | functions/src/datasources/med.ts:163 | joining the pieces of a split gives back the text |
| Strings.SplitJoin | functions/src/datasources/med.ts:163 | splitting a join of separator-free pieces gives back the pieces |
| Strings.SplitPiecesFree | functions/src/datasources/med.ts:163 | no piece of a split contains the separator |
| Strings.SplitPrefix | functions/src/datasources/med.ts:84 | a separator-free prefix and the separator split off as the first piece, the rest splitting on its own |
| Strings.SplitAtSeparator | functions/src/datasources/med.ts:163 | a text holding the separator splits into two or more pieces |
| Strings.IncludesAt | functions/src/datasources/users.ts:102 | `includes` on a string is true for every substring at any position |
| Strings.IncludesSomewhere | functions/src/datasources/users.ts:102 | `includes` on a string is true only for a substring at some position |
| Enums.GenderHasThreeValues | functions/src/utils/enums.ts:2-6 | the gender enum has exactly the values M, V, X, each equal to its name |
| Enums.EntriesWithKey | functions/src/datasources/med.ts:169 | the filter keeps exactly the entries whose key is the name |
| Enums.OperatorEntriesListEveryOperator | functions/src/utils/enums.ts:9-19 | the entries list every operator with its store string and nothing else |
| Enums.LookupOperatorByName | functions/src/datasources/med.ts:169 | looking an operator up by its member name yields its store string |
| Enums.LookupOperatorUnknown | functions/src/datasources/med.ts:169 | a name that is no member's name finds no entry |
| Enums.OperatorNamesDistinct | functions/src/utils/enums.ts:9-19 | member names are unique, so the lookup's first entry is the only one |
| Enums.OperatorStringInjective | functions/src/utils/enums.ts:9-19 | distinct operators have distinct store strings |
| Enums.FilterTypeValuesAreNames | functions/src/utils/enums.ts:22-35 | the six filter types, each valued by its own name |
| Med.GetProjectTypes | functions/src/datasources/med.ts:45-52 | the stored list when the document exists and the field is truthy, otherwise the connection error |
| Med.GetParsedValue | functions/src/datasources/med.ts:62-70 | String kept as is; Boolean true exactly for `"true"`; the other types parse the text with their own kind |
| Med.ParseArrayValue | functions/src/datasources/med.ts:162-167 | one parsed value per comma-separated piece, in order |
| Med.ParseFilterValue | functions/src/datasources/med.ts:157-167 | the filter's value: parsed whole, or an array with one parsed value per comma-separated piece |
| Med.StringArrayRoundTrip | functions/src/datasources/med.ts:159-167 | an array filter of Strings parses into pieces that join back to the text sent |
| Med.NeedsOrderByOperators | functions/src/datasources/med.ts:173 | the extra ordering is added exactly for `<`, `<=`, `>`, `>=`, `!=`, `not-in` |
| Med.ExtraOrderByExactly | functions/src/datasources/med.ts:169-174 | a filter compares its field with its parsed value under the looked-up operator, and orders by the field exactly for the range and negation operators |
| Med.BuildFilterClauses | functions/src/datasources/med.ts:150-183 | the type clause, then the filter's comparison and extra ordering, or the `dateCreated` ordering when there is no filter; an operator name not in the table is a TypeError |
| Med.CursorClauses | functions/src/datasources/med.ts:73-103 | every failure of the cursor read, an `undefined` cursor value, and a cursor with more values than the query has orderings are the pagination error |
| Med.CursorClausesRefusals | functions/src/datasources/med.ts:77-101 | without a cursor document no cursor clause; with one, the clause is built exactly when the read succeeds, the value is not `undefined` and the query has at least two orderings |
| Med.CursorClausesShape | functions/src/datasources/med.ts:78-98 | at most one cursor clause: start-after when paging forward with an after cursor, end-before when paging back with a before cursor, and always past the cursor document's id |
| Common.PropertyOf | functions/src/datasources/med.ts:85 | a property read fails with a TypeError exactly on `undefined` or `null`; an object yields its field, an array or a string its `length`; values without properties yield `undefined` |
| Common.IndexTextRoundTrip | functions/src/datasources/med.ts:85 | the decimal key of every position is a canonical index that reads back as that position |
| Common.PropertyOfPositions | functions/src/datasources/med.ts:85 | every element of an array and every character of a string is read by its decimal index; a stored date's `seconds` and `nanoseconds` add up to its time |
| Med.CursorValueDotted | functions/src/datasources/med.ts:82-95 | a dotted field `first.rest` reads, of the value at `first`, the property named by the next segment; later segments are ignored; an object yields its field, a missing or null value a TypeError |
| Med.CursorValueArrayElement | functions/src/datasources/med.ts:82-85 | `first.i` on an array field reads its element at every position `i` |
| Med.CursorValueStringLength | functions/src/datasources/med.ts:82-85 | `first.length` on a string field reads the string's length |
| Med.CursorValueExamples | functions/src/datasources/med.ts:85 | `tags.0` reads the first element of a non-empty array; `name.length` the length of a string |
| Med.GetDataStampsIds | functions/src/datasources/med.ts:105-119 | one record per snapshot document, in order, carrying the document id as `id` |
| Med.GetDataFailsOnlyOnBadDates | functions/src/datasources/med.ts:114-115 | the records fail, with a TypeError, exactly when some document's `dateCreated` (or truthy `deadline`) is not a timestamp |
| Med.MedStore.PatientExists | functions/src/datasources/med.ts:55-59 | passes exactly for a stored patient key, otherwise fails naming the key |
| Med.OrderedClausesOrderings | functions/src/datasources/med.ts:169-183 | a listing query has one ordering without a filter and with a range or negation filter, and none with an equality or membership filter |
| Med.PagedQueryShape | functions/src/datasources/med.ts:73-107 | a paginated query keeps the caller's clauses in front, then orders by document id, and ends with the page limit |
| Med.OrderedClausesContent | functions/src/datasources/med.ts:152-183 | the clauses hold the `dateCreated` ordering without a filter, and a comparison of the filtered field with the filter's parsed value otherwise |
| Med.MedStore.AddPaginationToQuery | functions/src/datasources/med.ts:73-103 | the query is ordered by document id and carries the cursor clause; a failing read, an `undefined` value or too few orderings fail with the pagination error |
| Med.MedStore.ListDocumentsOfPatient | functions/src/datasources/med.ts:141-189 | a type together with a filter is refused first, then a missing patient; otherwise the filtered, ordered, paginated and limited query (tasks; the same for todos at med.ts:268-317) |
| Med.MedStore.ListQueryOneFilter | functions/src/datasources/med.ts:143-144 | a type together with a filter is refused, whatever the store holds |
| Med.MedStore.NonOrderingFilterCannotPage | functions/src/datasources/med.ts:169-185 | paging with a cursor document under an equality or membership filter always fails with the pagination error |
| Med.MedStore.OrderedListingPagesUnlessUndefined | functions/src/datasources/med.ts:173-185 | without a filter or with an ordering filter, paging past a readable cursor document succeeds exactly when its value is not `undefined` |
| Med.MedStore.ListQueryShape | functions/src/datasources/med.ts:147-188 | a listing query reads the existing hashed patient's sub-collection, orders by document id, ends with the page limit, and orders by `dateCreated` without a filter or compares the filtered field with the parsed value |
| Med.MedStore.GetTasks | functions/src/datasources/med.ts:191-205 | the loop returns the result the patient ids' lists determine, as the three lemmas below characterise it |
| Med.MedStore.TasksOfInOrder | functions/src/datasources/med.ts:194-204 | on success one list per id, in the order of the ids, each the records of that hashed patient's query |
| Med.MedStore.TasksOfFirstFailure | functions/src/datasources/med.ts:195-201 | the first id that cannot be listed decides the error: a missing patient, or the error reading its tasks |
| Med.MedStore.TasksOfOkExactly | functions/src/datasources/med.ts:194-204 | the call succeeds exactly when every id's patient exists and its tasks can be read |
| Med.MedStore.GetDocumentOfPatient | functions/src/datasources/med.ts:123-138 | missing patient and missing document are distinct errors; a found document comes back with its id |
| Med.MedStore.AddDocument | functions/src/datasources/med.ts:209-218 | the new document is the input stamped with `dateCreated`; a missing patient changes nothing |
| Med.MedStore.UpdateDocument | functions/src/datasources/med.ts:221-232 | an existing document is merged with the input; a missing one changes nothing and fails |
| Med.MedStore.DeleteDocument | functions/src/datasources/med.ts:235-246 | an existing document is removed; a missing one changes nothing and fails |
| Identity.IdentityProvider.CreateUser | functions/src/datasources/users.ts:44-48 | a created account is new and has no claim; a rejection surfaces as a user-input error |
| Identity.IdentityProvider.SetRoleClaim | functions/src/datasources/users.ts:54 | the account's role claim becomes the role; an unknown account is an error |
| Identity.IdentityProvider.DeleteUser | functions/src/index.ts:120 | the account and its claims are removed; an unknown account is an error |
| Users.IncludesId | functions/src/datasources/users.ts:102 | membership for an array field, substring for a string field, a TypeError otherwise |
| Users.TherapistEntries | functions/src/datasources/users.ts:82-87 | the loop visits an array's elements, each character of a string as a one-character string, nothing for any other value, and fails with a TypeError on a missing or null field |
| Users.ShapePatientRecord | functions/src/datasources/users.ts:50-52 | the stored record has no password and lists exactly the creator as therapist |
| Users.UserStore.GetPatient | functions/src/datasources/users.ts:19-26 | the stored document, or the not-found error naming the id |
| Users.UserStore.GetTherapist | functions/src/datasources/users.ts:68-75 | the stored document, or the not-found error naming the id |
| Users.UserStore.GetPatientsOfTherapist | functions/src/datasources/users.ts:29-38 | a non-therapist is refused; otherwise exactly the patients whose array holds the id |
| Users.UserStore.IsTherapistOfPatient | functions/src/datasources/users.ts:99-105 | a missing patient is an error; for an array field, true exactly when the id is in it |
| Users.UserStore.GetTherapistsOfPatient | functions/src/datasources/users.ts:78-95 | the loop returns the therapist-document lookup of every entry, in order, or the first failure |
| Users.UserStore.TherapistDocsFailureSticks | functions/src/datasources/users.ts:87-93 | once an entry fails, the result is that failure whatever follows |
| Users.UserStore.TherapistDocsInOrder | functions/src/datasources/users.ts:87-93 | a successful lookup has one therapist document per entry, in order |
| Users.UserStore.TherapistsOfPatientAreItsTherapists | functions/src/datasources/users.ts:78-105 | every therapist returned for a patient passes the relationship test |
| Users.UserStore.PatientsOfTherapistAgreesWithRelation | functions/src/datasources/users.ts:29-38 | the therapist's patient list and the relationship test agree |
| Users.UserStore.CreatePatient | functions/src/datasources/users.ts:41-64 | account created with the `patient` claim; shaped record stored; empty medical document under the hashed id |
| Users.UserStore.CreatePatientAsWritten | functions/src/datasources/users.ts:56-58 | the same, but the medical document lands under the plain id |
| Users.NewPatientFirstTaskAsWritten | functions/src/datasources/users.ts:58 | a patient created as written cannot be given a task: the medical store reports it missing |
| Users.NewPatientFirstTask | functions/src/datasources/med.ts:209-218 | a patient created with the hashed key can be given its first task |
| Users.StringTherapistFieldQuirk | functions/src/datasources/users.ts:102 | a string `therapist` field matches a prefix id that array-contains does not |
| LegacyUsers.GetPatient | functions/datasources/users.js:16-27 | the stored document, or `undefined` for a missing patient |
| LegacyUsers.GetPatientAgrees | functions/datasources/users.js:16-27 | agrees with the current read on stored patients; `undefined` where it errs |
| LegacyUsers.IsTherapistOfPatient | functions/datasources/users.js:53-63 | every failure, a missing patient included, is a TypeError; answers agree with the current test |
| LegacyUsers.GetPatientsOfTherapist | functions/datasources/users.js:29-34 | the patients whose array holds the id, with no therapist check |
| LegacyUsers.ListingsAgreeOnTherapists | functions/datasources/users.js:29-34 | for a therapist both listings agree; for other ids only the current one refuses |
| LegacyUsers.CreatePatient | functions/datasources/users.js:36-51 | account with the `patient` claim and the shaped record; no medical document |
| Auth.OracleQuery | functions/src/schema/auth.ts:43-55 | the relationship question is asked only at the root, for a patient or therapist naming another id |
| Auth.Decide | functions/src/schema/auth.ts:36-58 | role outside the list is refused; below the root, without an id, or for one's own id it passes; otherwise patient and therapist pass exactly when related |
| Auth.PassDelegatesUnchanged | functions/src/schema/auth.ts:58 | a passing guard calls the wrapped resolver with the same arguments |
| Auth.FailNeverResolves | functions/src/schema/auth.ts:40-54 | a failing guard's error is the result, whatever the wrapped resolver does |
| Auth.NestedAccessAsksNothing | functions/src/schema/auth.ts:43 | below the root the verdict does not depend on the user store |
| Auth.FindDirective | functions/src/schema/auth.ts:23 | the first use of the directive name; without a name, none |
| Auth.GuardField | functions/src/schema/auth.ts:28-63 | the field's own directive wins over its type's; a directive with roles wraps the resolver (or the default one); otherwise the field is unchanged |
| Auth.RecordedTypeDirective | functions/src/schema/auth.ts:22-27 | with distinct type names, each type carrying the directive is recorded with it |
| Auth.RecordUntouched | functions/src/schema/auth.ts:22-27 | a type name absent from the schema keeps its entry |
| Auth.UnnamedRecordsNothing | functions/src/schema/auth.ts:23 | with no directive name no type is recorded |
| Auth.UnnamedDirectiveGuardsNothing | functions/src/index.ts:27 | with no directive name the transformed schema equals the input |
| Auth.AuthTransformer.MapType | functions/src/schema/auth.ts:22-27 | records the type's directive under the type's name |
| Auth.AuthTransformer.MapObjectField | functions/src/schema/auth.ts:28-63 | the field as the guard rule makes it |
| Auth.AuthTransformer.Transform | functions/src/schema/auth.ts:20-64 | all type directives recorded first, then every field of every type guarded |
| LegacyAuth.Decide | functions/schema/auth.js:32-49 | same rules as the current guard on the token's `uuid`; without a token, a TypeError |
| LegacyAuth.SameVerdictAsCurrent | functions/schema/auth.js:32-49 | lets exactly the same calls through as the current guard; role refusals are identical |
| Policy.TypePassRecordsTypeTable | functions/src/schema/query.ts:146-239 | the type pass records Therapist, Patient, Task and Todo with their role lists, and nothing for Query or Mutation |
| Policy.ObjectTypesPlain | functions/src/schema/query.ts:146-239 | no field of an object type carries its own directive |
| Policy.TypeFieldsInherit | functions/src/schema/query.ts:146-239 | such a field is guarded by its type's roles around its own resolver, or the default one |
| Policy.RootFieldsOwnRoles | functions/src/schema/query.ts:97-143 | every root field is guarded by its own role list, around the mutation's own resolver or, for a query field, the default one |
| Policy.StudentNeverReadsPatient | functions/src/schema/query.ts:95 | a student is refused on every field of a patient |
| Policy.StudentReadsTasksNotTodos | functions/src/schema/query.ts:215-228 | a student passes the task guard and is refused by the todo guard |
| Policy.TherapistPatientsInherits | functions/src/schema/query.ts:146-166 | a therapist's `patients` field carries the type's patient-or-therapist guard |
| Policy.PatientResolversInherit | functions/src/resolvers/resolvers.ts:10-34 | the patient's `therapists`, `task`, `todos` and `todo` resolvers run inside the patient-or-therapist guard; `tasks` is read by the default resolver |
| Policy.QueryTable | functions/src/schema/query.ts:97-143 | each root query's name, its `id` argument and its guard |
| Policy.MutationTable | functions/src/schema/mutation.ts:5-133 | each mutation's name and guard, around the mutation's own resolver |
| Policy.MutationsTakeId | functions/src/schema/mutation.ts:5-133 | every mutation but `createPatient` names the target by `id` |
| Policy.TherapistCannotTouchOtherPatients | functions/src/schema/mutation.ts:5-133 | a therapist calling a therapist-allowed mutation on a patient who does not list them is refused |
| Policy.PatientCannotReadOtherTherapists | functions/src/schema/query.ts:114-118 | a patient asking for a therapist its own record does not list is refused |
| Policy.StudentListsTasksOfPatients | functions/src/schema/query.ts:126-142 | a student calling `tasksOfPatients`, which takes no id, reaches the resolver |
| Policy.StudentRoleUndeclared | functions/src/schema/auth.ts:15-19 | the declared roles omit `student`, which Query and Task use |
| Policy.SchemaRolesDeclared | functions/src/schema/query.ts:142 | with `student` declared, every role the schema uses is declared |
| Gateway.BuildContext | functions/src/index.ts:59-82 | an empty or missing header fails with "No token provided", an unverifiable one with "Invalid token", otherwise the verified id and role |
| Gateway.NoTokenNoResolver | functions/src/index.ts:62-81 | without a verified token no resolver runs: the result is the authentication error |
| Gateway.StudentTokenNeverReadsPatient | functions/src/index.ts:73-78 | a verified student token is refused on every patient field |
| Gateway.BuildProjectTypeEnum | functions/src/index.ts:36-41 | the loop builds the enum text, each name followed by a comma |
| Gateway.EntriesFront | functions/src/index.ts:38-40 | the entries are the first name, a comma, and the rest |
| Gateway.EntriesJoin | functions/src/index.ts:38-40 | the entries are the names joined by commas, plus a trailing comma |
| Gateway.EntriesSplit | functions/src/index.ts:38-40 | comma-free names split back out of the entries, followed by one empty piece |
| Gateway.ProjectTypeEnumText | functions/src/index.ts:36-41 | the enum text for `bimanueel` and `VR` |
| Gateway.BuildSchemaAsWritten | functions/src/index.ts:27 | the unnamed transformer leaves the schema unguarded |
| Gateway.BuildSchema | functions/src/index.ts:27 | the transformer named `auth` guards every field as the policy tables say |
| Gateway.SignUpPolicy | functions/src/index.ts:97-126 | password accounts left alone; verified student-domain e-mail gets `student`; others deleted; no provider is a TypeError |
| Gateway.PasswordAccountsUntouched | functions/src/index.ts:99-100 | a password account is never deleted or re-roled |
| Gateway.StudentOnlyFromVerifiedDomain | functions/src/index.ts:101-108 | the student role goes only to a verified address ending in the student domain |
| Gateway.ProcessSignUp | functions/src/index.ts:97-126 | carries out the decision; afterwards an external account is either gone or a student |

## Left out

- Hashing: `hashID` (SHA-256 in hex, med.ts:13-15) is a parameter of the medical store; the model assumes nothing about it except where a lemma says so.
- Parsing of Int, Float, Date and DateTime filter values: kept as the text with its kind. JavaScript number and date parsing is not modelled.
- The query engine: the model builds each query as a list of clauses. Which documents a query returns and in what order enters as a snapshot.
- Document ids the store would reject (empty, containing `/`): not modelled.
- A `therapist` field that is an object with a `length` property: the loop in `getTherapistsOfPatient` treats any non-array, non-string value other than `undefined`/`null` as empty.
- Legacy guard without a token `uuid`: the token is a record with a `uuid` field.
- The older transformer (functions/schema/auth.js:17-31) records type directives and resolves field precedence exactly as the current one; Auth.AuthTransformer models both, and LegacyAuth holds only the older guard.
- Logging (`functions.logger`, `console.log`), the introspection check, and the async/await ordering of the code.
- resolvers.js, med.js, schema.ts, schema.js and index.js are not part of this model.
- Resolver bodies (resolvers.ts): the tables record only which fields have a resolver of their own, that is, every mutation and the patient's `therapists`, `task`, `todos` and `todo`. What a resolver returns is a parameter. The resolver map's root query entries (`getPatient`, `getTherapist`, ...) and `tasksNext`, `tasksPrevious`, `patientsNext` and `patientsPrevious` name no field of the schema, so the root query fields are guarded around the default resolver. Whether schema construction rejects those unmatched entries is not modelled.
- Med.CursorClauses: of the database library's query validation, only the two refusals the pagination catch turns into its error are modelled (an `undefined` cursor value, more cursor values than orderings); other checks, such as an inequality filter on a field other than the first ordering, are not.
- Common.PropertyOf: numbers are integers only. Inherited properties (methods such as `toDate` or `includes`, and `constructor`) read as `undefined`, and so do a stored date's internal fields.
- Users.UserStore.CreatePatient: the catch block that rereads `error.errorInfo` is modelled only for the provider's rejection. Failing database writes after account creation are not modelled.
- Users.UserStore.CreatePatient: `setCustomUserClaims` is not awaited in the source. The model applies the claim before the next write.
- Gateway.BuildSchema: GraphQL type-checking of the schema text is not modelled. That includes the directive declaration without a name and the undeclared `student` enum value. The schema is the typed list of types and fields the model builds.
- Gateway.ProcessSignUp: the account's provider list is a sequence of provider ids. Failing provider calls are swallowed, which the model represents by the provider's own error outcome being ignored.

## Findings

| source | as written | input that shows it | evidently intended | confidence | as-written member | corrected member |
|---|---|---|---|---|---|---|
| functions/src/index.ts:27 | `authDirective()` is called with no name: the directive is declared as `@undefined` and the transformer looks for a directive named `undefined`. Either schema construction rejects `@auth` as an unknown directive and the server does not start, or, if it builds, no field is guarded; the model shows the second case | any schema using `@auth`, e.g. the `patient` query | `authDirective("auth")`, so that every `@auth` use is enforced | medium (which of the two failures occurs depends on schema validation), not executed | Gateway.BuildSchemaAsWritten | Gateway.BuildSchema |
| functions/src/schema/auth.ts:15-19 | the `Role` enum declares `patient`, `therapist`, `admin` but not `student` | `tasksOfPatients @auth(requires: [therapist, student])` at query.ts:142 | `student` declared as a role | high, not executed | Policy.StudentRoleUndeclared | Policy.SchemaRolesDeclared |
| functions/src/datasources/users.ts:58 | the medical document of a new patient is created under the plain uid, while every medical read uses the hashed uid | a new patient `uid` with `hashID(uid) != uid`, then `addTaskToPatient(uid, ...)` | the document created under `hashID(uid)` | high, not executed | Users.NewPatientFirstTaskAsWritten | Users.NewPatientFirstTask |
