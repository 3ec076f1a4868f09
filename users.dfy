/** The user store: patient and therapist documents keyed by account id. A
    patient's `therapist` field lists the ids of the patient's therapists; it is
    the only relation between users the server consults. */
module Users {
  import opened Common
  import Strings
  import Identity
  import Med

  const MissingTherapistMessage := "One of the therapists of this user does not exist"

  function NotATherapist(id: string): Error
  {
    UserInput("The user with uid: " + id + " is not a therapist")
  }

  function TherapistNotFound(id: string): Error
  {
    UserInput("The therapist with uid: " + id + " does not exist")
  }

  /** `v.includes(id)` on a stored `therapist` field: membership for an array,
      substring search for a string, and a TypeError for anything that has no
      `includes` method. */
  function IncludesId(v: Value, id: string): (r: Result<bool>)
    ensures v.Arr? ==> r == Ok(Str(id) in v.items)
    ensures v.Str? ==> r == Ok(Strings.Includes(v.s, id))
    ensures r.Err? <==> !v.Arr? && !v.Str?
    ensures r.Err? ==> r.error == TypeError
  {
    match v
    case Arr(items) => Ok(Str(id) in items)
    case Str(s) => Ok(Strings.Includes(s, id))
    case _ => Err(TypeError)
  }

  /** The store's `array-contains` test: only an array field can contain a value. */
  predicate ArrayContains(v: Value, id: string)
  {
    v.Arr? && Str(id) in v.items
  }

  /** The entries the loop of `getTherapistsOfPatient` visits: the elements of an
      array, the one-character strings of a string, nothing for a value without
      a length, and a TypeError reading the length of a missing value. */
  function TherapistEntries(v: Value): (r: Result<seq<Value>>)
    ensures v.Arr? ==> r == Ok(v.items)
    ensures v.Str? ==> r.Ok? && |r.value| == |v.s| &&
                       forall i :: 0 <= i < |v.s| ==> r.value[i] == Str([v.s[i]])
    ensures r.Err? <==> v.Undefined? || v.Null?
    ensures r.Err? ==> r.error == TypeError
    ensures !v.Arr? && !v.Str? && !v.Undefined? && !v.Null? ==> r == Ok([])
  {
    match v
    case Undefined => Err(TypeError)
    case Null => Err(TypeError)
    case Arr(items) => Ok(items)
    case Str(s) => Ok(seq(|s|, i requires 0 <= i < |s| => Str([s[i]])))
    case _ => Ok([])
  }

  /** The patient document as `createPatient` stores it: the input without its
      `password`, with the creating therapist as the only therapist. */
  function ShapePatientRecord(info: Document, creator: string): (r: Document)
    ensures "password" !in r
    ensures "therapist" in r && r["therapist"] == Arr([Str(creator)])
    ensures forall k :: k != "password" && k != "therapist" ==> (k in r <==> k in info)
    ensures forall k :: k in r && k != "therapist" ==> k in info && r[k] == info[k]
  {
    (info - {"password"})["therapist" := Arr([Str(creator)])]
  }

  class UserStore {
    var patients: map<string, Document>
    var therapists: map<string, Document>

    constructor ()
      ensures patients == map[] && therapists == map[]
    {
      patients := map[];
      therapists := map[];
    }

    /** `getPatient`: the stored document, or an error naming the id. */
    function GetPatient(id: string): (r: Result<Document>)
      reads this
      ensures r.Ok? <==> id in patients
      ensures r.Ok? ==> r.value == patients[id]
      ensures r.Err? ==> r.error == PatientNotFound(id)
    {
      if id in patients then Ok(patients[id]) else Err(PatientNotFound(id))
    }

    /** `getTherapist`: the stored document, or an error naming the id. */
    function GetTherapist(id: string): (r: Result<Document>)
      reads this
      ensures r.Ok? <==> id in therapists
      ensures r.Ok? ==> r.value == therapists[id]
      ensures r.Err? ==> r.error == TherapistNotFound(id)
    {
      if id in therapists then Ok(therapists[id]) else Err(TherapistNotFound(id))
    }

    /** `getPatientsOfTherapist`: the patients whose `therapist` array holds the
        id, keyed by patient id; an id without a therapist document is refused. */
    function GetPatientsOfTherapist(id: string): (r: Result<map<string, Document>>)
      reads this
      ensures r.Err? <==> id !in therapists
      ensures r.Err? ==> r.error == NotATherapist(id)
      ensures r.Ok? ==> forall p :: p in r.value <==> p in patients && ArrayContains(Field(patients[p], "therapist"), id)
      ensures r.Ok? ==> forall p :: p in r.value ==> r.value[p] == patients[p]
    {
      if id !in therapists then Err(NotATherapist(id))
      else Ok(map p | p in patients && ArrayContains(Field(patients[p], "therapist"), id) :: patients[p])
    }

    /** `isTherapistOfPatient(therapistId, patientId)`: whether the patient's
        `therapist` field includes the therapist id. */
    function IsTherapistOfPatient(therapistId: string, patientId: string): (r: Result<bool>)
      reads this
      ensures patientId !in patients ==> r == Err(PatientNotFound(patientId))
      ensures r == Ok(true) ==> patientId in patients
      ensures patientId in patients && Field(patients[patientId], "therapist").Arr? ==>
                r == Ok(Str(therapistId) in Field(patients[patientId], "therapist").items)
    {
      match GetPatient(patientId)
      case Err(e) => Err(e)
      case Ok(data) => IncludesId(Field(data, "therapist"), therapistId)
    }

    /** The therapist documents for the entries `ids`, in order; the first entry
        that is not a string is rejected by the store, and the first one without
        a therapist document ends the lookup with an error. */
    function TherapistDocs(ids: seq<Value>): Result<seq<Document>>
      reads this
    {
      if ids == [] then Ok([])
      else
        match TherapistDocs(ids[..|ids| - 1])
        case Err(e) => Err(e)
        case Ok(front) =>
          var last := ids[|ids| - 1];
          if !last.Str? then Err(InvalidArgument)
          else if last.s !in therapists then Err(UserInput(MissingTherapistMessage))
          else Ok(front + [therapists[last.s]])
    }

    /** What `getTherapistsOfPatient` returns. */
    function TherapistsOfPatient(id: string): Result<seq<Document>>
      reads this
    {
      match GetPatient(id)
      case Err(e) => Err(e)
      case Ok(data) =>
        match TherapistEntries(Field(data, "therapist"))
        case Err(e) => Err(e)
        case Ok(ids) => TherapistDocs(ids)
    }

    /** `getTherapistsOfPatient`: one lookup per entry of the patient's `therapist` field. */
    method GetTherapistsOfPatient(id: string) returns (r: Result<seq<Document>>)
      ensures r == TherapistsOfPatient(id)
    {
      var patient := GetPatient(id);
      if patient.Err? {
        return Err(patient.error);
      }
      var entries := TherapistEntries(Field(patient.value, "therapist"));
      if entries.Err? {
        return Err(entries.error);
      }
      var ids := entries.value;
      var docs: seq<Document> := [];
      assert ids[..0] == [];
      for i := 0 to |ids|
        invariant TherapistDocs(ids[..i]) == Ok(docs)
      {
        assert ids[..i + 1][..i] == ids[..i];
        if !ids[i].Str? {
          assert ids[..i + 1][i] == ids[i];
          TherapistDocsFailureSticks(ids, i + 1);
          return Err(InvalidArgument);
        }
        if ids[i].s !in therapists {
          TherapistDocsFailureSticks(ids, i + 1);
          return Err(UserInput(MissingTherapistMessage));
        }
        docs := docs + [therapists[ids[i].s]];
      }
      assert ids[..|ids|] == ids;
      r := Ok(docs);
    }

    /** Once a prefix of the entries fails, the whole lookup fails with the same error. */
    lemma {:induction false} TherapistDocsFailureSticks(ids: seq<Value>, n: nat)
      requires n <= |ids|
      requires TherapistDocs(ids[..n]).Err?
      ensures TherapistDocs(ids) == TherapistDocs(ids[..n])
      decreases |ids| - n
    {
      if n < |ids| {
        assert ids[..n + 1][..n] == ids[..n];
        TherapistDocsFailureSticks(ids, n + 1);
      } else {
        assert ids[..n] == ids;
      }
    }

    /** A successful lookup returns one therapist document per entry, in order. */
    lemma {:induction false} TherapistDocsInOrder(ids: seq<Value>)
      requires TherapistDocs(ids).Ok?
      ensures |TherapistDocs(ids).value| == |ids|
      ensures forall i :: 0 <= i < |ids| ==>
                ids[i].Str? && ids[i].s in therapists && TherapistDocs(ids).value[i] == therapists[ids[i].s]
    {
      if ids != [] {
        var front := ids[..|ids| - 1];
        TherapistDocsInOrder(front);
        forall i | 0 <= i < |ids| - 1
          ensures ids[i].Str? && ids[i].s in therapists && TherapistDocs(ids).value[i] == therapists[ids[i].s]
        {
          assert front[i] == ids[i];
        }
      }
    }

    /** `getTherapistsOfPatient` returns, for a patient whose `therapist` field is
        an array, the documents of exactly the listed therapists in list order,
        and each of them passes `isTherapistOfPatient` for that patient. */
    lemma TherapistsOfPatientAreItsTherapists(id: string)
      requires TherapistsOfPatient(id).Ok?
      requires id in patients && Field(patients[id], "therapist").Arr?
      ensures |TherapistsOfPatient(id).value| == |Field(patients[id], "therapist").items|
      ensures forall i :: 0 <= i < |TherapistsOfPatient(id).value| ==>
                var entry := Field(patients[id], "therapist").items[i];
                entry.Str? && entry.s in therapists &&
                TherapistsOfPatient(id).value[i] == therapists[entry.s] &&
                IsTherapistOfPatient(entry.s, id) == Ok(true)
    {
      var ids := Field(patients[id], "therapist").items;
      TherapistDocsInOrder(ids);
      forall i | 0 <= i < |ids|
        ensures IsTherapistOfPatient(ids[i].s, id) == Ok(true)
      {
        assert Str(ids[i].s) == ids[i];
      }
    }

    /** The patient list of a therapist and the relationship test agree on every
        patient whose `therapist` field is an array. */
    lemma PatientsOfTherapistAgreesWithRelation(therapistId: string, patientId: string)
      requires therapistId in therapists
      requires patientId in patients && Field(patients[patientId], "therapist").Arr?
      ensures patientId in GetPatientsOfTherapist(therapistId).value <==>
                IsTherapistOfPatient(therapistId, patientId) == Ok(true)
    {
    }

    /** `createPatient`: the new account gets the role claim `patient`, the shaped
        record is stored under the new id, and an empty medical document is
        created under the hashed id; a rejected account creation changes nothing
        and surfaces the provider's message. */
    method CreatePatient(info: Document, creator: string, idp: Identity.IdentityProvider, med: Med.MedStore,
                         reply: Identity.CreateReply) returns (r: Result<string>)
      requires idp.Valid()
      requires reply.Created? ==> reply.uid !in idp.accounts
      modifies this, idp, med
      ensures idp.Valid()
      ensures reply.Rejected? ==>
                r == Err(UserInput(reply.message)) &&
                patients == old(patients) && therapists == old(therapists) &&
                idp.accounts == old(idp.accounts) && idp.roleClaims == old(idp.roleClaims) &&
                med.patients == old(med.patients) && med.collections == old(med.collections)
      ensures reply.Created? ==>
                r == Ok(reply.uid) &&
                patients == old(patients)[reply.uid := ShapePatientRecord(info, creator)] &&
                therapists == old(therapists) &&
                idp.accounts == old(idp.accounts) + {reply.uid} &&
                idp.roleClaims == old(idp.roleClaims)[reply.uid := PatientRole] &&
                med.patients == old(med.patients)[med.hashId(reply.uid) := map[]] &&
                med.collections == old(med.collections)
    {
      var created := idp.CreateUser(reply);
      if created.Err? {
        return Err(created.error);
      }
      var uid := created.value;
      var record := ShapePatientRecord(info, creator);
      var _ := idp.SetRoleClaim(uid, PatientRole);
      patients := patients[uid := record];
      med.SetPatientDocument(med.hashId(uid));
      r := Ok(uid);
    }

    /** `createPatient` as written: the medical document is created under the
        plain account id instead of its hash. */
    method CreatePatientAsWritten(info: Document, creator: string, idp: Identity.IdentityProvider, med: Med.MedStore,
                                  reply: Identity.CreateReply) returns (r: Result<string>)
      requires idp.Valid()
      requires reply.Created? ==> reply.uid !in idp.accounts
      modifies this, idp, med
      ensures idp.Valid()
      ensures reply.Rejected? ==>
                r == Err(UserInput(reply.message)) &&
                patients == old(patients) && therapists == old(therapists) &&
                idp.accounts == old(idp.accounts) && idp.roleClaims == old(idp.roleClaims) &&
                med.patients == old(med.patients) && med.collections == old(med.collections)
      ensures reply.Created? ==>
                r == Ok(reply.uid) &&
                patients == old(patients)[reply.uid := ShapePatientRecord(info, creator)] &&
                therapists == old(therapists) &&
                idp.accounts == old(idp.accounts) + {reply.uid} &&
                idp.roleClaims == old(idp.roleClaims)[reply.uid := PatientRole] &&
                med.patients == old(med.patients)[reply.uid := map[]] &&
                med.collections == old(med.collections)
    {
      var created := idp.CreateUser(reply);
      if created.Err? {
        return Err(created.error);
      }
      var uid := created.value;
      var record := ShapePatientRecord(info, creator);
      var _ := idp.SetRoleClaim(uid, PatientRole);
      patients := patients[uid := record];
      med.SetPatientDocument(uid);
      r := Ok(uid);
    }
  }

  /** With the medical document written under the plain id, the new patient's
      first task is refused: the store looks the patient up under the hash. */
  method NewPatientFirstTaskAsWritten(users: UserStore, idp: Identity.IdentityProvider, med: Med.MedStore,
                                      info: Document, creator: string, uid: string,
                                      task: Document, taskId: string, now: int) returns (r: Result<string>)
    requires idp.Valid() && uid !in idp.accounts
    requires med.hashId(uid) != uid && med.hashId(uid) !in med.patients
    requires taskId !in med.DocsAt(Med.CollectionPath(med.hashId(uid), Med.Tasks))
    modifies users, idp, med
    ensures r == Err(PatientNotFound(med.hashId(uid)))
  {
    var created := users.CreatePatientAsWritten(info, creator, idp, med, Identity.Created(uid));
    r := med.AddDocument(Med.Tasks, uid, task, taskId, now);
  }

  /** With the medical document written under the hashed id, the new patient's
      first task is stored. */
  method NewPatientFirstTask(users: UserStore, idp: Identity.IdentityProvider, med: Med.MedStore,
                             info: Document, creator: string, uid: string,
                             task: Document, taskId: string, now: int) returns (r: Result<string>)
    requires idp.Valid() && uid !in idp.accounts
    requires taskId !in med.DocsAt(Med.CollectionPath(med.hashId(uid), Med.Tasks))
    modifies users, idp, med
    ensures r == Ok(taskId)
  {
    var created := users.CreatePatient(info, creator, idp, med, Identity.Created(uid));
    r := med.AddDocument(Med.Tasks, uid, task, taskId, now);
  }

  /** `includes` on a string field finds substrings: a patient whose `therapist`
      field is the string "T12" counts therapist "T1" among its therapists,
      while the store's `array-contains` filter does not list that patient. */
  lemma StringTherapistFieldQuirk()
    ensures IncludesId(Str("T12"), "T1") == Ok(true)
    ensures !ArrayContains(Str("T12"), "T1")
  {
    Strings.IncludesAt("T12", "T1", 0);
  }
}
