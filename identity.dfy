/** The identity provider the server administers accounts with: which accounts
    exist and the `role` custom claim each carries. Its calls that can fail
    (creating an account) take the provider's reply as a parameter. */
module Identity {
  import opened Common

  /** What the provider answers to a request to create an account. */
  datatype CreateReply = Created(uid: string) | Rejected(message: string)

  class IdentityProvider {
    var accounts: set<string>
    var roleClaims: map<string, string>

    constructor ()
      ensures accounts == {} && roleClaims == map[]
    {
      accounts := {};
      roleClaims := map[];
    }

    /** Every role claim belongs to an existing account. */
    predicate Valid()
      reads this
    {
      forall uid :: uid in roleClaims ==> uid in accounts
    }

    /** `createUser`: a created account is new and carries no claim yet. */
    method CreateUser(reply: CreateReply) returns (r: Result<string>)
      requires Valid()
      requires reply.Created? ==> reply.uid !in accounts
      modifies this
      ensures Valid()
      ensures reply.Created? ==> r == Ok(reply.uid) && accounts == old(accounts) + {reply.uid}
      ensures reply.Rejected? ==> r == Err(UserInput(reply.message)) && accounts == old(accounts)
      ensures roleClaims == old(roleClaims)
    {
      match reply
      case Created(uid) =>
        accounts := accounts + {uid};
        r := Ok(uid);
      case Rejected(message) =>
        r := Err(UserInput(message));
    }

    /** `setCustomUserClaims(uid, { role })`: replaces the account's claims by the
        one role; an unknown account is an error and changes nothing. */
    method SetRoleClaim(uid: string, role: string) returns (o: Outcome)
      requires Valid()
      modifies this
      ensures Valid()
      ensures accounts == old(accounts)
      ensures uid in accounts ==> o == Pass && roleClaims == old(roleClaims)[uid := role]
      ensures uid !in accounts ==> o == Fail(InvalidArgument) && roleClaims == old(roleClaims)
    {
      if uid !in accounts {
        return Fail(InvalidArgument);
      }
      roleClaims := roleClaims[uid := role];
      o := Pass;
    }

    /** `deleteUser(uid)`: removes the account together with its claims; an
        unknown account is an error and changes nothing. */
    method DeleteUser(uid: string) returns (o: Outcome)
      requires Valid()
      modifies this
      ensures Valid()
      ensures uid in old(accounts) ==> o == Pass && accounts == old(accounts) - {uid} && roleClaims == old(roleClaims) - {uid}
      ensures uid !in old(accounts) ==> o == Fail(InvalidArgument) && accounts == old(accounts) && roleClaims == old(roleClaims)
    {
      if uid !in accounts {
        return Fail(InvalidArgument);
      }
      accounts := accounts - {uid};
      roleClaims := roleClaims - {uid};
      o := Pass;
    }
  }
}
