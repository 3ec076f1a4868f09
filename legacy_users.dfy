/** The older user store operations. They read the same patient and therapist
    documents as the current ones, but check less: listing needs no therapist
    document, a missing patient fails as a property read of `undefined`, and
    creating a patient writes no medical document. */
module LegacyUsers {
  import opened Common
  import Users
  import Identity

  /** `getPatient`: the read never finds the snapshot itself missing, so a
      patient without a document comes back as `undefined` instead of an error. */
  function GetPatient(store: Users.UserStore, id: string): (r: Option<Document>)
    reads store
    ensures r.Some? <==> id in store.patients
    ensures r.Some? ==> r.value == store.patients[id]
  {
    if id in store.patients then Some(store.patients[id]) else None
  }

  /** Where the current read refuses a missing patient, the older one answers
      `undefined`; otherwise both return the same document. */
  lemma GetPatientAgrees(store: Users.UserStore, id: string)
    ensures store.GetPatient(id).Ok? ==> GetPatient(store, id) == Some(store.GetPatient(id).value)
    ensures store.GetPatient(id).Err? ==> GetPatient(store, id).None?
  {
  }

  /** `isTherapistOfPatient`: every failure, a missing patient included, is
      rethrown from the catch block, whose own read of `errorInfo` fails again. */
  function IsTherapistOfPatient(store: Users.UserStore, therapistId: string, patientId: string): (r: Result<bool>)
    reads store
    ensures patientId !in store.patients ==> r == Err(TypeError)
    ensures r.Err? ==> r.error == TypeError
    ensures r.Ok? <==> store.IsTherapistOfPatient(therapistId, patientId).Ok?
    ensures r.Ok? ==> r == store.IsTherapistOfPatient(therapistId, patientId)
  {
    if patientId !in store.patients then Err(TypeError)
    else
      match Users.IncludesId(Field(store.patients[patientId], "therapist"), therapistId)
      case Ok(b) => Ok(b)
      case Err(_) => Err(TypeError)
  }

  /** `getPatientsOfTherapist`: the patients whose `therapist` array holds the
      id, whether or not the id belongs to a therapist. */
  function GetPatientsOfTherapist(store: Users.UserStore, id: string): (r: map<string, Document>)
    reads store
    ensures forall p :: p in r <==> p in store.patients && Users.ArrayContains(Field(store.patients[p], "therapist"), id)
    ensures forall p :: p in r ==> r[p] == store.patients[p]
  {
    map p | p in store.patients && Users.ArrayContains(Field(store.patients[p], "therapist"), id) :: store.patients[p]
  }

  /** For an id with a therapist document the two listings agree; for any other
      id the current one refuses while the older one still answers. */
  lemma ListingsAgreeOnTherapists(store: Users.UserStore, id: string)
    ensures id in store.therapists ==> store.GetPatientsOfTherapist(id) == Ok(GetPatientsOfTherapist(store, id))
    ensures id !in store.therapists ==> store.GetPatientsOfTherapist(id).Err?
  {
  }

  /** `createPatient`: the account gets the role claim `patient` and the shaped
      record is stored under the new id; no medical document is written. */
  method CreatePatient(store: Users.UserStore, info: Document, creator: string, idp: Identity.IdentityProvider,
                       reply: Identity.CreateReply) returns (r: Result<string>)
    requires idp.Valid()
    requires reply.Created? ==> reply.uid !in idp.accounts
    modifies store, idp
    ensures idp.Valid()
    ensures reply.Rejected? ==>
              r == Err(UserInput(reply.message)) &&
              store.patients == old(store.patients) && store.therapists == old(store.therapists) &&
              idp.accounts == old(idp.accounts) && idp.roleClaims == old(idp.roleClaims)
    ensures reply.Created? ==>
              r == Ok(reply.uid) &&
              store.patients == old(store.patients)[reply.uid := Users.ShapePatientRecord(info, creator)] &&
              store.therapists == old(store.therapists) &&
              idp.accounts == old(idp.accounts) + {reply.uid} &&
              idp.roleClaims == old(idp.roleClaims)[reply.uid := PatientRole]
  {
    var created := idp.CreateUser(reply);
    if created.Err? {
      return Err(created.error);
    }
    var uid := created.value;
    var record := Users.ShapePatientRecord(info, creator);
    var _ := idp.SetRoleClaim(uid, PatientRole);
    store.patients := store.patients[uid := record];
    r := Ok(uid);
  }
}
