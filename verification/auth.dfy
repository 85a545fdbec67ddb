/**
 * Accounts: registration behind an employee code, case-insensitive
 * usernames, employees waiting for approval, login, and password change.
 *
 * Password hashing is modelled as the identity: an account keeps the
 * password it was given and `matchPassword` compares with it. A token is
 * the id it was signed for. The configured employee code (`EMPLOYEE_CODE`)
 * is a field of the store and may be unset.
 */
module Accounts {
  import opened Common
  import opened Routing
  import opened EditHistory

  datatype AccountStatus = Active | PendingApproval

  datatype User = User(name: string, username: string, email: Option<string>, password: string, role: Role,
                       status: AccountStatus, phone: string)

  /** A signed token; signing and expiry are not modelled. */
  datatype Token = Token(userId: nat)

  // ---------------------------------------------------------------------
  // Request validation of the register route
  // ---------------------------------------------------------------------

  /** The body of a registration request, as sent. */
  datatype RegisterBody = RegisterBody(name: Option<string>, username: Option<string>, email: Option<string>,
                                       password: Option<string>, role: Option<string>, phone: Option<string>,
                                       employeeCode: Option<string>)

  /** A registration that passed the route's validation, with the sanitised fields trimmed. */
  datatype Registration = Registration(name: string, username: string, email: Option<string>, password: string,
                                       role: Role, phone: string, employeeCode: Option<string>)

  /** The `role` rule: absent, or one of the two role names. */
  function ParseRole(role: Option<string>): (r: Option<Role>)
    ensures role.None? ==> r == Some(Customer)
    ensures role.Some? ==> (r == Some(Customer) <==> role.value == "customer")
    ensures role.Some? ==> (r == Some(Employee) <==> role.value == "employee")
  {
    if role.None? || role.value == "customer" then Some(Customer)
    else if role.value == "employee" then Some(Employee)
    else None
  }

  /**
   * `registerValidation`: a name and a phone that are not blank once trimmed,
   * a username of at least three characters once trimmed, a password of at
   * least six characters, and an absent or known role. The trims also
   * change the body that the handler reads.
   */
  function ValidateRegistration(b: RegisterBody): (r: Option<Registration>)
    ensures r.Some? <==>
      b.name.Some? && Trim(b.name.value) != "" && b.username.Some? && |Trim(b.username.value)| >= 3
      && b.password.Some? && |b.password.value| >= 6 && b.phone.Some? && Trim(b.phone.value) != ""
      && ParseRole(b.role).Some?
    ensures r.Some? ==>
      r.value.name == Trim(b.name.value) && r.value.username == Trim(b.username.value)
      && r.value.phone == Trim(b.phone.value) && r.value.password == b.password.value
      && Some(r.value.role) == ParseRole(b.role) && r.value.email == b.email && r.value.employeeCode == b.employeeCode
  {
    if b.name.None? || b.username.None? || b.password.None? || b.phone.None? then None
    else
      var name, username, phone := Trim(b.name.value), Trim(b.username.value), Trim(b.phone.value);
      var role := ParseRole(b.role);
      if name == "" || |username| < 3 || |b.password.value| < 6 || phone == "" || role.None? then None
      else Some(Registration(name, username, b.email, b.password.value, role.value, phone, b.employeeCode))
  }

  // ---------------------------------------------------------------------
  // Decisions of the handlers
  // ---------------------------------------------------------------------

  /** The id of the account holding a (lower-cased) username, if any. */
  ghost predicate Holds(users: map<nat, User>, id: nat, username: string)
  {
    id in users && users[id].username == username
  }

  /** No account holds this username. */
  predicate Available(users: map<nat, User>, username: string)
  {
    forall id :: id in users ==> users[id].username != username
  }

  /** `verifyEmployeeCode`: 400 without a code, otherwise whether it is the configured one. */
  function VerifyEmployeeCode(code: Option<string>, configured: Option<string>): (r: (HttpStatus, bool))
    ensures !Given(code) ==> r == (BadRequest, false)
    ensures Given(code) ==> r.0 == OK && (r.1 <==> configured == Some(code.value))
  {
    if !Given(code) then (BadRequest, false) else (OK, configured == Some(code.value))
  }

  /** The employee-code gate of `register`: `employeeCode !== process.env.EMPLOYEE_CODE`. */
  predicate CodeRefused(reg: Registration, configured: Option<string>)
  {
    reg.role == Employee && reg.employeeCode != configured
  }

  /** An employee who passes the register gate with a code is one the code check calls valid. */
  lemma GateAgreesWithVerify(reg: Registration, configured: Option<string>)
    requires reg.role == Employee && Given(reg.employeeCode)
    ensures !CodeRefused(reg, configured) <==> VerifyEmployeeCode(reg.employeeCode, configured).1
  {
  }

  /** With no code configured, an employee registration that sends no code passes the gate. */
  lemma UnsetCodeAdmitsMissingCode(reg: Registration)
    requires reg.role == Employee && reg.employeeCode.None?
    ensures !CodeRefused(reg, None)
  {
  }

  /** What `register` does with a body. */
  datatype Decision = Invalid | WrongCode | Taken | Accept(user: User)

  /** The account a validated registration creates: lower-cased username, employees pending approval. */
  function NewUser(reg: Registration): (u: User)
    ensures u.username == ToLower(reg.username) && u.role == reg.role
    ensures u.status == PendingApproval <==> reg.role == Employee
    ensures u.name == reg.name && u.email == reg.email && u.password == reg.password && u.phone == reg.phone
  {
    User(reg.name, ToLower(reg.username), reg.email, reg.password, reg.role,
         if reg.role == Employee then PendingApproval else Active, reg.phone)
  }

  /**
   * `register`, in the order the handler checks: validation (400), the
   * employee code (403, before any lookup), the lower-cased username (400).
   */
  function RegisterDecision(users: map<nat, User>, configured: Option<string>, b: RegisterBody): (d: Decision)
    ensures d == Invalid <==> ValidateRegistration(b).None?
    ensures d == WrongCode <==> ValidateRegistration(b).Some? && CodeRefused(ValidateRegistration(b).value, configured)
    ensures d == Taken <==>
      ValidateRegistration(b).Some? && !CodeRefused(ValidateRegistration(b).value, configured)
      && !Available(users, ToLower(ValidateRegistration(b).value.username))
    ensures d.Accept? ==> ValidateRegistration(b).Some? && d.user == NewUser(ValidateRegistration(b).value)
  {
    match ValidateRegistration(b)
    case None => Invalid
    case Some(reg) =>
      if CodeRefused(reg, configured) then WrongCode
      else if !Available(users, ToLower(reg.username)) then Taken
      else Accept(NewUser(reg))
  }

  /** The status `register` answers with. */
  function RegisterStatus(d: Decision): (s: HttpStatus)
    ensures d.Accept? && d.user.role == Employee ==> s == Accepted
    ensures d.Accept? && d.user.role == Customer ==> s == Created
    ensures d == WrongCode <==> s == Forbidden
    ensures d == Invalid || d == Taken <==> s == BadRequest
  {
    match d
    case Invalid => BadRequest
    case WrongCode => Forbidden
    case Taken => BadRequest
    case Accept(u) => if u.role == Employee then Accepted else Created
  }

  /**
   * The uniqueness test of `register` is the availability test of
   * `checkUsername` applied to the trimmed name: `checkUsername` does not
   * trim, so a name with surrounding spaces can be reported available and
   * then be refused.
   */
  lemma SurroundingSpacesFoolCheck()
    ensures var users := map[0 := User("Kim", "kim", None, "secret1", Customer, Active, "010-1234-5678")];
      var b := RegisterBody(Some("Lee"), Some(" kim"), None, Some("secret2"), None, Some("010"), None);
      Available(users, ToLower(" kim")) && RegisterDecision(users, None, b) == Taken
  {
    var users := map[0 := User("Kim", "kim", None, "secret1", Customer, Active, "010-1234-5678")];
    var b := RegisterBody(Some("Lee"), Some(" kim"), None, Some("secret2"), None, Some("010"), None);
    assert ToLower(" kim")[0] == ' ';
    assert Trim(" kim") == "kim" by {
      assert TrimStart(" kim") == TrimStart(" kim"[1..]);
      assert " kim"[1..] == "kim";
      assert TrimStart("kim") == "kim";
      assert TrimEnd("kim") == "kim";
    }
    assert ToLower("kim") == "kim";
    assert users[0].username == "kim";
  }

  /** Usernames are stored lower-cased and no two accounts share one. */
  ghost predicate UsernamesDistinct(users: map<nat, User>)
  {
    (forall id :: id in users ==> ToLower(users[id].username) == users[id].username)
    && (forall i, j :: i in users && j in users && i != j ==> users[i].username != users[j].username)
  }

  /** No two accounts have usernames that differ only in letter case. */
  lemma NoCaseTwins(users: map<nat, User>, i: nat, j: nat)
    requires UsernamesDistinct(users)
    requires i in users && j in users && i != j
    ensures ToLower(users[i].username) != ToLower(users[j].username)
  {
  }

  /** Adding an account under a free, lower-case username keeps usernames distinct. */
  lemma AddKeepsDistinct(users: map<nat, User>, id: nat, u: User)
    requires UsernamesDistinct(users) && id !in users
    requires Available(users, u.username) && ToLower(u.username) == u.username
    ensures UsernamesDistinct(users[id := u])
  {
    var after := users[id := u];
    forall i, j | i in after && j in after && i != j
      ensures after[i].username != after[j].username
    {
      if i != id && j != id {
        assert after[i] == users[i] && after[j] == users[j];
      }
    }
  }

  /** An accepted registration keeps usernames distinct. */
  lemma RegisterKeepsUsernamesDistinct(users: map<nat, User>, configured: Option<string>, b: RegisterBody, id: nat)
    requires UsernamesDistinct(users) && id !in users && RegisterDecision(users, configured, b).Accept?
    ensures UsernamesDistinct(users[id := RegisterDecision(users, configured, b).user])
  {
    var reg := ValidateRegistration(b).value;
    ToLowerIdempotent(reg.username);
    AddKeepsDistinct(users, id, NewUser(reg));
  }

  /**
   * `login`, in the order the handler checks: a username that is blank once
   * trimmed or a missing password (400), an unknown username or a wrong
   * password (401), a pending employee (403); then a token. The route's
   * trim applies to the username, but its validation errors are never read.
   */
  function LoginStatus(users: map<nat, User>, username: Option<string>, password: Option<string>, id: Option<nat>)
    : (s: HttpStatus)
    requires id.Some? ==> id.value in users
    ensures s in {OK, BadRequest, Unauthorized, Forbidden}
    ensures s == BadRequest <==> !(username.Some? && Trim(username.value) != "") || !Given(password)
    ensures s == OK ==> id.Some? && users[id.value].password == password.value
                        && !(users[id.value].role == Employee && users[id.value].status == PendingApproval)
    ensures s == Forbidden ==> id.Some? && users[id.value].password == password.value
                               && users[id.value].role == Employee && users[id.value].status == PendingApproval
  {
    if !(username.Some? && Trim(username.value) != "") || !Given(password) then BadRequest
    else if id.None? then Unauthorized
    else
      var u := users[id.value];
      if u.password != password.value then Unauthorized
      else if u.role == Employee && u.status == PendingApproval then Forbidden
      else OK
  }

  /** A pending employee with the right password is refused, and anyone else with it is let in. */
  lemma LoginOrdering(users: map<nat, User>, username: string, password: string, id: nat)
    requires Trim(username) != "" && password != "" && id in users && users[id].password == password
    ensures LoginStatus(users, Some(username), Some(password), Some(id)) == Forbidden
        <==> users[id].role == Employee && users[id].status == PendingApproval
    ensures LoginStatus(users, Some(username), Some(password), Some(id)) == OK
        <==> !(users[id].role == Employee && users[id].status == PendingApproval)
  {
  }

  // ---------------------------------------------------------------------
  // The account store
  // ---------------------------------------------------------------------

  class AccountStore {
    var users: map<nat, User>
    var nextId: nat
    const configuredCode: Option<string>

    ghost predicate Valid()
      reads this
    {
      UsernamesDistinct(users) && forall id :: id in users ==> id < nextId
    }

    constructor(configuredCode: Option<string>)
      ensures users == map[] && nextId == 0 && this.configuredCode == configuredCode && Valid()
    {
      users, nextId := map[], 0;
      this.configuredCode := configuredCode;
    }

    /** `checkUsername`: 400 without a name, otherwise whether the lower-cased name is free. */
    method CheckUsername(username: Option<string>) returns (status: HttpStatus, available: Option<bool>)
      ensures !Given(username) ==> status == BadRequest && available == None
      ensures Given(username) ==> status == OK && available == Some(Available(users, ToLower(username.value)))
    {
      if !Given(username) {
        return BadRequest, None;
      }
      var key := ToLower(username.value);
      var free := forall id :: id in users ==> users[id].username != key;
      return OK, Some(free);
    }

    /** `register`: the new account and, for a customer, a token; employees get 202 and no token. */
    method Register(b: RegisterBody) returns (status: HttpStatus, token: Option<Token>)
      modifies this
      requires Valid()
      ensures Valid()
      ensures status == RegisterStatus(RegisterDecision(old(users), configuredCode, b))
      ensures !RegisterDecision(old(users), configuredCode, b).Accept? ==>
        users == old(users) && nextId == old(nextId) && token == None
      ensures RegisterDecision(old(users), configuredCode, b).Accept? ==>
        var u := RegisterDecision(old(users), configuredCode, b).user;
        users == old(users)[old(nextId) := u] && nextId == old(nextId) + 1
        && token == (if u.role == Employee then None else Some(Token(old(nextId))))
    {
      var d := RegisterDecision(users, configuredCode, b);
      status := RegisterStatus(d);
      token := None;
      if d.Accept? {
        RegisterKeepsUsernamesDistinct(users, configuredCode, b, nextId);
        users := users[nextId := d.user];
        if d.user.role != Employee {
          token := Some(Token(nextId));
        }
        nextId := nextId + 1;
      }
    }

    /** `login`: the account holding the lower-cased, trimmed username decides the answer. */
    method Login(username: Option<string>, password: Option<string>) returns (status: HttpStatus, token: Option<Token>)
      requires Valid()
      ensures username.Some? && Trim(username.value) != "" && Given(password) ==>
        var key := ToLower(Trim(username.value));
        (Available(users, key) ==> status == Unauthorized && token == None)
        && (forall id :: Holds(users, id, key) ==>
              status == LoginStatus(users, username, password, Some(id))
              && token == (if status == OK then Some(Token(id)) else None))
      ensures !(username.Some? && Trim(username.value) != "" && Given(password)) ==>
        status == BadRequest && token == None
    {
      if !(username.Some? && Trim(username.value) != "") || !Given(password) {
        return BadRequest, None;
      }
      var key := ToLower(Trim(username.value));
      if forall id :: id in users ==> users[id].username != key {
        return Unauthorized, None;
      }
      var id :| id in users && users[id].username == key;
      status := LoginStatus(users, username, password, Some(id));
      token := if status == OK then Some(Token(id)) else None;
    }

    /** `getPendingEmployees`: exactly the employees waiting for approval. */
    method PendingEmployees() returns (r: set<nat>)
      ensures forall id :: id in r <==> id in users && users[id].role == Employee && users[id].status == PendingApproval
    {
      r := set id | id in users && users[id].role == Employee && users[id].status == PendingApproval;
    }

    /** `approveEmployee`: any existing account becomes active, whatever its role or status. */
    method Approve(id: nat) returns (status: HttpStatus)
      modifies this
      requires Valid()
      ensures Valid() && nextId == old(nextId)
      ensures id !in old(users) ==> status == NotFound && users == old(users)
      ensures id in old(users) ==> status == OK && users == old(users)[id := old(users)[id].(status := Active)]
    {
      if id !in users {
        return NotFound;
      }
      users := users[id := users[id].(status := Active)];
      status := OK;
    }

    /** `rejectEmployee`: any existing account is deleted, whatever its role or status. */
    method Reject(id: nat) returns (status: HttpStatus)
      modifies this
      requires Valid()
      ensures Valid() && nextId == old(nextId)
      ensures id !in old(users) ==> status == NotFound && users == old(users)
      ensures id in old(users) ==> status == OK && users == old(users) - {id}
    {
      if id !in users {
        return NotFound;
      }
      users := users - {id};
      status := OK;
    }

    /**
     * `updatePassword` for the signed-in caller: 401 and no change when the
     * current password does not match; otherwise the new password and a
     * fresh token. A caller whose account is gone fails with 500.
     */
    method UpdatePassword(caller: Caller, current: string, newPassword: string)
      returns (status: HttpStatus, token: Option<Token>)
      modifies this
      requires Valid()
      ensures Valid() && nextId == old(nextId)
      ensures caller.id !in old(users) ==> status == ServerError && token == None && users == old(users)
      ensures caller.id in old(users) && old(users)[caller.id].password != current ==>
        status == Unauthorized && token == None && users == old(users)
      ensures caller.id in old(users) && old(users)[caller.id].password == current ==>
        status == OK && token == Some(Token(caller.id))
        && users == old(users)[caller.id := old(users)[caller.id].(password := newPassword)]
    {
      if caller.id !in users {
        return ServerError, None;
      }
      if users[caller.id].password != current {
        return Unauthorized, None;
      }
      users := users[caller.id := users[caller.id].(password := newPassword)];
      status, token := OK, Some(Token(caller.id));
    }
  }

  // ---------------------------------------------------------------------
  // Routes of `/api/auth`
  // ---------------------------------------------------------------------

  datatype AuthHandler = CheckUsernameHandler | VerifyCodeHandler | RegisterHandler | LoginHandler | MeHandler
                       | UpdateDetailsHandler | UpdatePasswordHandler | PendingHandler | ApproveHandler | RejectHandler

  const AuthRoutes: seq<Route<AuthHandler>> := [
    Route(POST, ["check-username"], Public, CheckUsernameHandler),
    Route(POST, ["verify-employee-code"], Public, VerifyCodeHandler),
    Route(POST, ["register"], Public, RegisterHandler),
    Route(POST, ["login"], Public, LoginHandler),
    Route(GET, ["me"], SignedIn, MeHandler),
    Route(PUT, ["updatedetails"], SignedIn, UpdateDetailsHandler),
    Route(PUT, ["updatepassword"], SignedIn, UpdatePasswordHandler),
    Route(GET, ["pending-employees"], SignedIn, PendingHandler),
    Route(PUT, ["approve-employee", ":id"], SignedIn, ApproveHandler),
    Route(DELETE, ["reject-employee", ":id"], SignedIn, RejectHandler)
  ]

  /** Without a token only the four public handlers can be reached. */
  lemma AnonymousReachesOnlyPublic(verb: Verb, path: seq<string>)
    ensures Dispatch(AuthRoutes, verb, path, None).Handled? ==>
      Dispatch(AuthRoutes, verb, path, None).handler in {CheckUsernameHandler, VerifyCodeHandler, RegisterHandler, LoginHandler}
  {
    match FirstMatch(AuthRoutes, verb, path)
    case None =>
    case Some(i) =>
      assert i < 4 ==> AuthRoutes[i].gate == Public;
      assert i >= 4 ==> AuthRoutes[i].gate == SignedIn;
  }

  /** Registration needs no token. */
  lemma RegisterIsPublic()
    ensures Dispatch(AuthRoutes, POST, ["register"], None) == Handled(RegisterHandler, [])
  {
    var path := ["register"];
    assert |"check-username"| != |"register"| && |"verify-employee-code"| != |"register"|;
    assert "register"[0] != ':';
    assert !PathMatches(AuthRoutes[0].pattern, path) by { assert AuthRoutes[0].pattern[0] != path[0]; }
    assert !PathMatches(AuthRoutes[1].pattern, path) by { assert AuthRoutes[1].pattern[0] != path[0]; }
    assert PathMatches(AuthRoutes[2].pattern, path);
    assert FirstMatch(AuthRoutes, POST, path) == Some(2);
  }

  /** Approving an account needs a token but no particular role: a customer may do it. */
  lemma ApprovalNeedsNoRole(caller: Caller, id: string)
    requires id != ""
    ensures Dispatch(AuthRoutes, PUT, ["approve-employee", id], Some(caller)).Handled?
    ensures Dispatch(AuthRoutes, PUT, ["approve-employee", id], None) == Denied(Unauthorized)
  {
    assert ":id"[0] == ':' && "approve-employee"[0] != ':';
    assert forall i :: 0 <= i < 8 ==> |AuthRoutes[i].pattern| == 1;
    assert PathMatches(AuthRoutes[8].pattern, ["approve-employee", id]);
    assert FirstMatch(AuthRoutes, PUT, ["approve-employee", id]) == Some(8);
  }

  /** Rejecting an account needs a token but no particular role. */
  lemma RejectionNeedsNoRole(caller: Caller, id: string)
    requires id != ""
    ensures Dispatch(AuthRoutes, DELETE, ["reject-employee", id], Some(caller)).Handled?
  {
    assert ":id"[0] == ':' && "reject-employee"[0] != ':';
    assert PathMatches(AuthRoutes[9].pattern, ["reject-employee", id]);
    assert FirstMatch(AuthRoutes, DELETE, ["reject-employee", id]) == Some(9);
  }
}
