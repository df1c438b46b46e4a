/** Account creation and role switches of backend/api/controllers/user.controller.js.

    Users and companies live in one collection (a company is a user document
    of the company kind); `User.findById` finds both kinds while the company
    queries see only the company kind. Profile fields, the role among them,
    are a plain JSON object, as are request bodies. */
module Users {
  import opened Common

  datatype Kind = PlainUser | CompanyUser

  datatype Account = Account(kind: Kind, fields: map<string, string>)

  type Body = map<string, string>

  const CompanyRole := "company"
  /** The storage engine's duplicate-key error code. */
  const DuplicateKeyCode := 11000

  /** JavaScript truthiness of a body field. */
  predicate Present(body: Body, key: string)
  {
    Truthy(FieldOf(body, key))
  }

  // ---------------------------------------------------------------------------
  // createUser

  /** The company sign-up fields the handler insists on. */
  predicate HasCompanyFields(data: Body): (ok: bool)
    ensures ok <==> && "companyName" in data && data["companyName"] != ""
                    && "phone" in data && data["phone"] != ""
                    && "sector" in data && data["sector"] != ""
  {
    Present(data, "companyName") && Present(data, "phone") && Present(data, "sector")
  }

  /** A falsy `companyEmail` is replaced by `email` (which may itself be
      absent, and then `companyEmail` is dropped). */
  function WithCompanyEmail(data: Body): (r: Body)
    ensures Present(data, "companyEmail") ==> r == data
    ensures !Present(data, "companyEmail") ==> FieldOf(r, "companyEmail") == FieldOf(data, "email")
    ensures forall k :: k != "companyEmail" ==> FieldOf(r, k) == FieldOf(data, k)
  {
    if Present(data, "companyEmail") then data
    else if "email" in data then data["companyEmail" := data["email"]]
    else data - {"companyEmail"}
  }

  /** `Company.findOne({ companyEmail })`: some company has the same
      (possibly absent) company email. */
  predicate CompanyEmailTaken(accounts: map<Id, Account>, email: Option<string>): (taken: bool)
    ensures forall id :: (id in accounts && accounts[id].kind == CompanyUser
                          && FieldOf(accounts[id].fields, "companyEmail") == email) ==> taken
    ensures taken ==> exists id :: id in accounts && accounts[id].kind == CompanyUser
                                   && FieldOf(accounts[id].fields, "companyEmail") == email
  {
    exists id :: id in accounts && accounts[id].kind == CompanyUser
                 && FieldOf(accounts[id].fields, "companyEmail") == email
  }

  /** The status of a failed create: a duplicate key is the client's fault,
      anything else the server's. */
  function CreateErrorStatus(errorCode: Option<int>): (r: Code)
    ensures r == BadRequest <==> errorCode == Some(DuplicateKeyCode)
    ensures r.Number() == 400 <==> errorCode == Some(DuplicateKeyCode)
    ensures r == BadRequest || r == ServerError
  {
    if errorCode == Some(DuplicateKeyCode) then BadRequest else ServerError
  }

  /** The checks `createUser` makes before inserting: for a company, the
      required fields and a company email no other company has. */
  predicate Admissible(accounts: map<Id, Account>, body: Body): (ok: bool)
    ensures FieldOf(body, "role") != Some(CompanyRole) ==> ok
    ensures ok && FieldOf(body, "role") == Some(CompanyRole) ==> HasCompanyFields(body - {"role"})
    ensures ok && FieldOf(body, "role") == Some(CompanyRole) ==>
              forall id :: id in accounts && accounts[id].kind == CompanyUser ==>
                FieldOf(accounts[id].fields, "companyEmail")
                != FieldOf(WithCompanyEmail(body - {"role"}), "companyEmail")
  {
    FieldOf(body, "role") == Some(CompanyRole) ==>
      && HasCompanyFields(body - {"role"})
      && !CompanyEmailTaken(accounts, FieldOf(WithCompanyEmail(body - {"role"}), "companyEmail"))
  }

  /** The database's answer to an insert: it either succeeds or throws with
      an optional error code. */
  datatype Insert = Inserted | Rejected(errorCode: Option<int>)

  // ---------------------------------------------------------------------------
  // updateUser

  /** The four-way split on the stored and requested role. */
  datatype RoleChange = BecomeCompany | LeaveCompany | UpdateCompany | UpdatePlain

  function RoleChangeOf(oldRole: Option<string>, newRole: Option<string>): (r: RoleChange)
    ensures r == BecomeCompany <==> newRole == Some(CompanyRole) && oldRole != Some(CompanyRole)
    ensures r == LeaveCompany <==> newRole != Some(CompanyRole) && oldRole == Some(CompanyRole)
    ensures r == UpdateCompany <==> newRole == Some(CompanyRole) && oldRole == Some(CompanyRole)
    ensures r == UpdatePlain <==> newRole != Some(CompanyRole) && oldRole != Some(CompanyRole)
  {
    if newRole == Some(CompanyRole) && oldRole != Some(CompanyRole) then BecomeCompany
    else if newRole != Some(CompanyRole) && oldRole == Some(CompanyRole) then LeaveCompany
    else if newRole == Some(CompanyRole) && oldRole == Some(CompanyRole) then UpdateCompany
    else UpdatePlain
  }

  function RoleChangeFor(acc: Account, body: Body): (r: RoleChange)
  {
    RoleChangeOf(FieldOf(acc.fields, "role"), FieldOf(body, "role"))
  }

  /** The record a successful update leaves under the same id: the stored
      fields with the body on top. A switch to `company` creates a company
      record; every other branch keeps the stored kind, since a record that
      leaves the company role is recreated from `toObject()`, which carries
      the company discriminator. */
  function Updated(acc: Account, body: Body): (r: Account)
    ensures r.fields == acc.fields + body
    ensures RoleChangeFor(acc, body) == BecomeCompany ==> r.kind == CompanyUser
    ensures RoleChangeFor(acc, body) != BecomeCompany ==> r.kind == acc.kind
  {
    match RoleChangeFor(acc, body)
    case BecomeCompany => Account(CompanyUser, acc.fields + body)
    case LeaveCompany => acc.(fields := acc.fields + body)
    case UpdateCompany => acc.(fields := acc.fields + body)
    case UpdatePlain => acc.(fields := acc.fields + body)
  }

  /** After a successful update the stored role is the requested one, or the
      old one when the body names none. */
  lemma UpdatedRole(acc: Account, body: Body)
    ensures FieldOf(Updated(acc, body).fields, "role")
            == if "role" in body then FieldOf(body, "role") else FieldOf(acc.fields, "role")
  {
  }

  /** A body without a role sent for a company takes the "leave company"
      branch, since an absent role is not `company`: the company record is
      deleted and recreated as a company whose role is still `company`, so
      the same update can be repeated and the company-only queries still
      find it. */
  lemma CompanyUpdateWithoutRoleRecreatesCompany(acc: Account, body: Body)
    requires acc.kind == CompanyUser && FieldOf(acc.fields, "role") == Some(CompanyRole)
    requires "role" !in body
    ensures RoleChangeFor(acc, body) == LeaveCompany
    ensures Updated(acc, body).kind == CompanyUser
    ensures FieldOf(Updated(acc, body).fields, "role") == Some(CompanyRole)
    ensures RoleChangeFor(Updated(acc, body), body) == LeaveCompany
  {
    UpdatedRole(acc, body);
  }

  /** The company kind is never lost by an update: a record is of the
      company kind afterwards exactly when it was before or the body
      switched it to `company`. */
  lemma UpdatedKeepsCompanyKind(acc: Account, body: Body)
    ensures Updated(acc, body).kind == CompanyUser <==>
              acc.kind == CompanyUser || RoleChangeFor(acc, body) == BecomeCompany
  {
  }

  // ---------------------------------------------------------------------------
  // The handlers

  class AccountStore {
    var accounts: map<Id, Account>

    constructor (initial: map<Id, Account>)
      ensures accounts == initial
    {
      accounts := initial;
    }

    /** `createUser`. `newId` is the id the database gives the new document
        and `insert` its answer to the insert. */
    method CreateUser(body: Body, newId: Id, insert: Insert) returns (status: Code)
      requires newId !in accounts
      modifies this
      ensures status != Created ==> accounts == old(accounts)
      ensures FieldOf(body, "role") == Some(CompanyRole) && !HasCompanyFields(body - {"role"})
              ==> status == BadRequest
      ensures FieldOf(body, "role") == Some(CompanyRole) && HasCompanyFields(body - {"role"})
              && CompanyEmailTaken(old(accounts), FieldOf(WithCompanyEmail(body - {"role"}), "companyEmail"))
              ==> status == BadRequest
      ensures Admissible(old(accounts), body) ==>
                status == if insert.Inserted? then Created else CreateErrorStatus(insert.errorCode)
      ensures status == Created ==> Admissible(old(accounts), body) && insert.Inserted?
      ensures status == Created && FieldOf(body, "role") == Some(CompanyRole) ==>
                accounts == old(accounts)[newId := Account(CompanyUser, WithCompanyEmail(body - {"role"})["role" := CompanyRole])]
      ensures status == Created && FieldOf(body, "role") != Some(CompanyRole) ==>
                accounts == old(accounts)[newId := Account(PlainUser, body)]
    {
      var role := FieldOf(body, "role");
      var data := body - {"role"};
      var record: Account;
      if role == Some(CompanyRole) {
        if !HasCompanyFields(data) {
          return BadRequest;
        }
        data := WithCompanyEmail(data);
        var email := FieldOf(data, "companyEmail");
        if exists id :: id in accounts && accounts[id].kind == CompanyUser
                        && FieldOf(accounts[id].fields, "companyEmail") == email {
          return BadRequest;
        }
        record := Account(CompanyUser, data["role" := CompanyRole]);
      } else {
        // `{ ...userData, role }` is the body again: an absent role stays absent.
        assert role.Some? ==> data["role" := role.value] == body;
        assert role.None? ==> data == body;
        record := Account(PlainUser, body);
      }
      if insert.Rejected? {
        return CreateErrorStatus(insert.errorCode);
      }
      accounts := accounts[newId := record];
      status := Created;
    }

    /** `updateUser`. `writeFails` says that the database write of the
        chosen branch throws; in a role switch that write is the create that
        follows the delete, so the record is lost. Leaving the company role
        from a plain record deletes nothing (the company query does not see
        it), and re-inserting its id then throws a duplicate key. */
    method UpdateUser(id: Id, body: Body, writeFails: bool) returns (status: Code)
      modifies this
      ensures id !in old(accounts) ==> status == NotFound && accounts == old(accounts)
      ensures id in old(accounts) ==>
                var acc := old(accounts)[id];
                var change := RoleChangeFor(acc, body);
                if change == LeaveCompany && acc.kind != CompanyUser then
                  status == ServerError && accounts == old(accounts)
                else if change == BecomeCompany || change == LeaveCompany then
                  if writeFails then status == ServerError && accounts == old(accounts) - {id}
                  else status == Ok && accounts == old(accounts)[id := Updated(acc, body)]
                else if writeFails || (change == UpdateCompany && acc.kind != CompanyUser) then
                  status == ServerError && accounts == old(accounts)
                else
                  status == Ok && accounts == old(accounts)[id := Updated(acc, body)]
    {
      if id !in accounts {
        return NotFound;
      }
      var acc := accounts[id];
      var change := RoleChangeOf(FieldOf(acc.fields, "role"), FieldOf(body, "role"));
      match change {
      case BecomeCompany =>
        accounts := accounts - {id};
        if writeFails {
          return ServerError;
        }
        accounts := accounts[id := Account(CompanyUser, acc.fields + body)];
      case LeaveCompany =>
        if acc.kind != CompanyUser {
          return ServerError;
        }
        accounts := accounts - {id};
        if writeFails {
          return ServerError;
        }
        // The copied discriminator makes the created record a company again.
        accounts := accounts[id := acc.(fields := acc.fields + body)];
      case UpdateCompany =>
        // The company query does not see a plain record: it answers null and
        // reading it throws.
        if acc.kind != CompanyUser || writeFails {
          return ServerError;
        }
        accounts := accounts[id := acc.(fields := acc.fields + body)];
      case UpdatePlain =>
        if writeFails {
          return ServerError;
        }
        accounts := accounts[id := acc.(fields := acc.fields + body)];
      }
      status := Ok;
    }

    /** `updateUserSubscription`: only a company may hold a plan. */
    method UpdateUserSubscription(id: Id, subscriptionId: Id) returns (status: Code)
      modifies this
      ensures id !in old(accounts) ==> status == NotFound
      ensures id in old(accounts) && FieldOf(old(accounts)[id].fields, "role") != Some(CompanyRole)
              ==> status == BadRequest
      ensures id in old(accounts) && FieldOf(old(accounts)[id].fields, "role") == Some(CompanyRole)
              && old(accounts)[id].kind != CompanyUser
              ==> status == NotFound
      ensures status != Ok ==> accounts == old(accounts)
      ensures status == Ok <==>
                id in old(accounts) && FieldOf(old(accounts)[id].fields, "role") == Some(CompanyRole)
                && old(accounts)[id].kind == CompanyUser
      ensures status == Ok ==>
                accounts == old(accounts)[id := old(accounts)[id].(
                  fields := old(accounts)[id].fields["subscription" := subscriptionId])]
    {
      if id !in accounts {
        return NotFound;
      }
      var acc := accounts[id];
      if FieldOf(acc.fields, "role") != Some(CompanyRole) {
        return BadRequest;
      }
      if acc.kind != CompanyUser {
        return NotFound;
      }
      accounts := accounts[id := acc.(fields := acc.fields["subscription" := subscriptionId])];
      status := Ok;
    }
  }
}
