/**
 * The two sign-up pages of the client: the employee form and the customer
 * form. Both keep the typed fields, a live password-strength summary and
 * the username availability answer; on submit they run a fixed list of
 * checks in order, show the first that fails, and otherwise send a
 * registration body to the server. Server calls (the availability check,
 * the employee-code check, the registration itself) become parameters that
 * carry the server's answer.
 */
module RegisterForms {
  import opened Common
  import Accounts

  // ---------------------------------------------------------------------
  // Password strength
  // ---------------------------------------------------------------------

  datatype PasswordChecks = PasswordChecks(minLength: bool, hasNumber: bool, hasLetter: bool, hasSpecial: bool)

  /** The character class `[!@#$%^&*(),.?":{}|<>]`. */
  predicate IsSpecial(c: char)
  {
    c in "!@#$%^&*(),.?\":{}|<>"
  }

  /** Whether a character-class test finds a match anywhere in `s`. */
  function Contains(s: string, p: char -> bool): (r: bool)
    ensures r <==> exists i :: 0 <= i < |s| && p(s[i])
  {
    if s == [] then false
    else if p(s[0]) then true
    else
      var r := Contains(s[1..], p);
      assert r ==> exists i :: 0 <= i < |s| && p(s[i]) by {
        if r {
          var k :| 0 <= k < |s| - 1 && p(s[1..][k]);
          assert p(s[k + 1]);
        }
      }
      r
  }

  /** The live summary recomputed on every edit of the password field. */
  function CheckPassword(value: string): (c: PasswordChecks)
    ensures c.minLength <==> |value| >= 6
    ensures c.hasNumber <==> exists i :: 0 <= i < |value| && IsDigit(value[i])
    ensures c.hasLetter <==> exists i :: 0 <= i < |value| && IsAsciiLetter(value[i])
    ensures c.hasSpecial <==> exists i :: 0 <= i < |value| && IsSpecial(value[i])
  {
    PasswordChecks(|value| >= 6, Contains(value, IsDigit), Contains(value, IsAsciiLetter), Contains(value, IsSpecial))
  }

  /** What submission demands of the password: the special-character check is shown but not required. */
  predicate Strong(c: PasswordChecks)
  {
    c.minLength && c.hasNumber && c.hasLetter
  }

  /** Letters and digits are outside the special class. */
  lemma AlphanumericNotSpecial(c: char)
    requires IsAsciiLetter(c) || IsDigit(c)
    ensures !IsSpecial(c)
  {
  }

  /** A password without any special character is strong enough to submit. */
  lemma SpecialNotRequired()
    ensures Strong(CheckPassword("abc123")) && !CheckPassword("abc123").hasSpecial
  {
    var p := "abc123";
    assert IsDigit(p[3]) && IsAsciiLetter(p[0]);
    forall i | 0 <= i < |p|
      ensures !IsSpecial(p[i])
    {
      AlphanumericNotSpecial(p[i]);
    }
  }

  // ---------------------------------------------------------------------
  // Form data
  // ---------------------------------------------------------------------

  /** The named inputs; only the customer page has a verification-code input. */
  datatype Field = Name | Username | Password | ConfirmPassword | Phone | VerificationCode

  datatype FormData = FormData(name: string, username: string, password: string, confirmPassword: string,
                               phone: string, verificationCode: string)

  const EmptyForm := FormData("", "", "", "", "", "")

  function Get(d: FormData, f: Field): string
  {
    match f
    case Name => d.name
    case Username => d.username
    case Password => d.password
    case ConfirmPassword => d.confirmPassword
    case Phone => d.phone
    case VerificationCode => d.verificationCode
  }

  /** `{ ...formData, [name]: value }`: the edited input takes the value, every other input keeps its own. */
  function With(d: FormData, f: Field, value: string): (r: FormData)
    ensures Get(r, f) == value
    ensures forall g :: g != f ==> Get(r, g) == Get(d, g)
  {
    match f
    case Name => d.(name := value)
    case Username => d.(username := value)
    case Password => d.(password := value)
    case ConfirmPassword => d.(confirmPassword := value)
    case Phone => d.(phone := value)
    case VerificationCode => d.(verificationCode := value)
  }

  // ---------------------------------------------------------------------
  // Ordered submit checks
  // ---------------------------------------------------------------------

  datatype SubmitError = MissingCode | UsernameUnchecked | PasswordMismatch | WeakPassword | WrongCustomerCode

  /** The error of the first check that fails, taken in order; `None` when every check passes. */
  function FirstFailure<E>(checks: seq<(bool, E)>): (r: Option<E>)
    ensures r.None? <==> forall i :: 0 <= i < |checks| ==> checks[i].0
    ensures r.Some? ==> exists i :: 0 <= i < |checks| && !checks[i].0 && checks[i].1 == r.value
                                     && forall j :: 0 <= j < i ==> checks[j].0
  {
    if checks == [] then None
    else if !checks[0].0 then Some(checks[0].1)
    else
      var r := FirstFailure(checks[1..]);
      assert r.Some? ==> exists i :: 0 <= i < |checks| && !checks[i].0 && checks[i].1 == r.value
                                     && forall j :: 0 <= j < i ==> checks[j].0 by {
        if r.Some? {
          var k :| 0 <= k < |checks| - 1 && !checks[1..][k].0 && checks[1..][k].1 == r.value
                   && forall j :: 0 <= j < k ==> checks[1..][j].0;
          assert forall j :: 0 <= j < k + 1 ==> checks[j].0 by {
            forall j | 0 <= j < k + 1 ensures checks[j].0 {
              if j > 0 { assert checks[j] == checks[1..][j - 1]; }
            }
          }
        }
      }
      assert r.None? ==> forall i :: 0 <= i < |checks| ==> checks[i].0 by {
        if r.None? {
          forall i | 0 <= i < |checks| ensures checks[i].0 {
            if i > 0 { assert checks[i] == checks[1..][i - 1]; }
          }
        }
      }
      r
  }

  /** When check `k` is the first to fail, its error is the one reported. */
  lemma FirstFailureAt<E>(checks: seq<(bool, E)>, k: nat)
    requires k < |checks| && !checks[k].0
    requires forall j :: 0 <= j < k ==> checks[j].0
    ensures FirstFailure(checks) == Some(checks[k].1)
  {
    var i :| 0 <= i < |checks| && !checks[i].0 && checks[i].1 == FirstFailure(checks).value
             && forall j :: 0 <= j < i ==> checks[j].0;
    // neither can precede the other: each is the first to fail
    assert i == k;
  }

  /** The error reported by checks taken in order, stated check by check. */
  lemma FirstOfFour<E>(checks: seq<(bool, E)>)
    requires |checks| == 4
    ensures !checks[0].0 ==> FirstFailure(checks) == Some(checks[0].1)
    ensures checks[0].0 && !checks[1].0 ==> FirstFailure(checks) == Some(checks[1].1)
    ensures checks[0].0 && checks[1].0 && !checks[2].0 ==> FirstFailure(checks) == Some(checks[2].1)
    ensures checks[0].0 && checks[1].0 && checks[2].0 && !checks[3].0 ==> FirstFailure(checks) == Some(checks[3].1)
    ensures checks[0].0 && checks[1].0 && checks[2].0 && checks[3].0 ==> FirstFailure(checks).None?
  {
    if !checks[0].0 {
      FirstFailureAt(checks, 0);
    } else if !checks[1].0 {
      FirstFailureAt(checks, 1);
    } else if !checks[2].0 {
      FirstFailureAt(checks, 2);
    } else if !checks[3].0 {
      FirstFailureAt(checks, 3);
    }
  }

  /** The employee page's checks, in the order it runs them. */
  function EmployeeChecks(code: string, available: Option<bool>, d: FormData, c: PasswordChecks): seq<(bool, SubmitError)>
  {
    [(code != "", MissingCode),
     (available == Some(true), UsernameUnchecked),
     (d.password == d.confirmPassword, PasswordMismatch),
     (Strong(c), WeakPassword)]
  }

  /** The customer page's checks, in the order it runs them. */
  function CustomerChecks(available: Option<bool>, d: FormData, c: PasswordChecks): seq<(bool, SubmitError)>
  {
    [(available == Some(true), UsernameUnchecked),
     (d.password == d.confirmPassword, PasswordMismatch),
     (Strong(c), WeakPassword),
     (d.verificationCode == CustomerCode, WrongCustomerCode)]
  }

  /** The code every customer must type, fixed in the page. */
  const CustomerCode := "15220687"

  /**
   * The error the employee page shows on submit. Only a non-empty code is
   * demanded: whether the code was verified with the server plays no part.
   */
  function EmployeeSubmitError(code: string, available: Option<bool>, d: FormData, c: PasswordChecks): (e: Option<SubmitError>)
    ensures e == Some(MissingCode) <==> code == ""
    ensures e == Some(UsernameUnchecked) <==> code != "" && available != Some(true)
    ensures e == Some(PasswordMismatch) <==> code != "" && available == Some(true) && d.password != d.confirmPassword
    ensures e == Some(WeakPassword) <==>
      code != "" && available == Some(true) && d.password == d.confirmPassword && !Strong(c)
    ensures e != Some(WrongCustomerCode)
  {
    var checks := EmployeeChecks(code, available, d, c);
    FirstOfFour(checks);
    FirstFailure(checks)
  }

  /** The error the customer page shows on submit. */
  function CustomerSubmitError(available: Option<bool>, d: FormData, c: PasswordChecks): (e: Option<SubmitError>)
    ensures e == Some(UsernameUnchecked) <==> available != Some(true)
    ensures e == Some(PasswordMismatch) <==> available == Some(true) && d.password != d.confirmPassword
    ensures e == Some(WeakPassword) <==> available == Some(true) && d.password == d.confirmPassword && !Strong(c)
    ensures e == Some(WrongCustomerCode) <==>
      available == Some(true) && d.password == d.confirmPassword && Strong(c) && d.verificationCode != CustomerCode
    ensures e != Some(MissingCode)
  {
    var checks := CustomerChecks(available, d, c);
    FirstOfFour(checks);
    FirstFailure(checks)
  }

  /** The body the employee page sends: role `employee` and the typed code, no email. */
  function EmployeeRequest(d: FormData, code: string): (b: Accounts.RegisterBody)
    ensures Accounts.ParseRole(b.role) == Some(Employee) && b.employeeCode == Some(code) && b.email.None?
    ensures b.name == Some(d.name) && b.username == Some(d.username) && b.password == Some(d.password)
            && b.phone == Some(d.phone)
  {
    Accounts.RegisterBody(Some(d.name), Some(d.username), None, Some(d.password), Some("employee"), Some(d.phone), Some(code))
  }

  /** The body the customer page sends: role `customer`, and neither the verification code nor an email. */
  function CustomerRequest(d: FormData): (b: Accounts.RegisterBody)
    ensures Accounts.ParseRole(b.role) == Some(Customer) && b.employeeCode.None? && b.email.None?
    ensures b.name == Some(d.name) && b.username == Some(d.username) && b.password == Some(d.password)
            && b.phone == Some(d.phone)
  {
    Accounts.RegisterBody(Some(d.name), Some(d.username), None, Some(d.password), Some("customer"), Some(d.phone), None)
  }

  /**
   * A password that passes the employee page's submit checks, with the
   * summary computed from it, also passes the server's password rule, has
   * a digit and a letter, and equals its confirmation.
   */
  lemma EmployeeSubmitsOnlyStrongPasswords(code: string, available: Option<bool>, d: FormData)
    requires EmployeeSubmitError(code, available, d, CheckPassword(d.password)).None?
    ensures code != "" && available == Some(true) && d.password == d.confirmPassword
    ensures |d.password| >= 6
    ensures exists i :: 0 <= i < |d.password| && IsDigit(d.password[i])
    ensures exists i :: 0 <= i < |d.password| && IsAsciiLetter(d.password[i])
  {
  }

  /** The same for the customer page, which in addition demands the fixed customer code. */
  lemma CustomerSubmitsOnlyStrongPasswords(available: Option<bool>, d: FormData)
    requires CustomerSubmitError(available, d, CheckPassword(d.password)).None?
    ensures available == Some(true) && d.password == d.confirmPassword && d.verificationCode == "15220687"
    ensures |d.password| >= 6
    ensures exists i :: 0 <= i < |d.password| && IsDigit(d.password[i])
    ensures exists i :: 0 <= i < |d.password| && IsAsciiLetter(d.password[i])
  {
  }

  /**
   * A customer body never reaches the server's employee-code gate, whatever
   * code is configured there.
   */
  lemma CustomerBodyPassesCodeGate(d: FormData, configured: Option<string>)
    requires Accounts.ValidateRegistration(CustomerRequest(d)).Some?
    ensures !Accounts.CodeRefused(Accounts.ValidateRegistration(CustomerRequest(d)).value, configured)
  {
  }

  // ---------------------------------------------------------------------
  // After the server's reply
  // ---------------------------------------------------------------------

  /** What the registration call reports back to the page. */
  datatype Reply = Reply(success: bool, pending: bool, message: string)

  datatype Screen = Navigate | ShowSuccess(message: string) | ShowError(message: string)

  /** Employee page: a pending account shows the message and stays on the page. */
  function EmployeeAfterReply(r: Reply): (s: Screen)
    ensures s == Navigate <==> r.success && !r.pending
    ensures s.ShowSuccess? <==> r.success && r.pending
    ensures !s.Navigate? ==> s.message == r.message
  {
    if r.success then (if r.pending then ShowSuccess(r.message) else Navigate) else ShowError(r.message)
  }

  /** Customer page: any success leaves the page; there is no pending state to show. */
  function CustomerAfterReply(r: Reply): (s: Screen)
    ensures s == Navigate <==> r.success
    ensures !s.ShowSuccess?
    ensures s.ShowError? ==> s.message == r.message
  {
    if r.success then Navigate else ShowError(r.message)
  }

  // ---------------------------------------------------------------------
  // The pages' state
  // ---------------------------------------------------------------------

  /** Messages the pages show in their error line. */
  datatype FormError = UsernameTooShort | UsernameTaken | UsernameCheckFailed | Refused(e: SubmitError) | Server(message: string)

  datatype CodeError = CodeMissing | CodeWrong

  function SubmitMessage(e: Option<SubmitError>): Option<FormError>
  {
    if e.Some? then Some(Refused(e.value)) else None
  }

  /** The employee sign-up page. */
  class EmployeeRegisterForm {
    var data: FormData
    var employeeCode: string
    var codeVerified: bool
    var codeError: Option<CodeError>
    var error: Option<FormError>
    var successMessage: Option<string>
    var usernameAvailable: Option<bool>
    var checks: PasswordChecks

    /**
     * The summary always describes the current password, and an answer
     * about availability is only ever held for a username of three or more
     * characters.
     */
    ghost predicate Valid()
      reads this
    {
      checks == CheckPassword(data.password) && (usernameAvailable.Some? ==> |data.username| >= 3)
    }

    constructor ()
      ensures data == EmptyForm && employeeCode == "" && !codeVerified && codeError.None? && error.None?
      ensures successMessage.None? && usernameAvailable.None? && checks == PasswordChecks(false, false, false, false)
      ensures Valid()
    {
      data, employeeCode, codeVerified, codeError, error := EmptyForm, "", false, None, None;
      successMessage, usernameAvailable := None, None;
      checks := PasswordChecks(false, false, false, false);
    }

    /** Typing into one of the page's inputs. */
    method OnChange(field: Field, value: string)
      requires field != VerificationCode
      requires Valid()
      modifies this
      ensures Valid()
      ensures data == With(old(data), field, value)
      ensures usernameAvailable == (if field == Username then None else old(usernameAvailable))
      ensures checks == (if field == Password then CheckPassword(value) else old(checks))
      ensures employeeCode == old(employeeCode) && codeVerified == old(codeVerified) && codeError == old(codeError)
      ensures error == old(error) && successMessage == old(successMessage)
    {
      data := With(data, field, value);
      if field == Password {
        checks := CheckPassword(value);
      }
      if field == Username {
        usernameAvailable := None;
      }
    }

    /** Typing into the employee-code input: any earlier verification no longer holds. */
    method OnCodeChange(value: string)
      requires Valid()
      modifies this
      ensures Valid()
      ensures employeeCode == value && !codeVerified && codeError.None?
      ensures data == old(data) && usernameAvailable == old(usernameAvailable) && checks == old(checks)
      ensures error == old(error) && successMessage == old(successMessage)
    {
      employeeCode, codeVerified, codeError := value, false, None;
    }

    /**
     * Asking the server whether the code is right; `valid` is its answer,
     * `None` when the call failed. The return value says whether the server
     * was asked.
     */
    method VerifyCode(valid: Option<bool>) returns (asked: bool)
      requires Valid()
      modifies this
      ensures Valid()
      ensures asked <==> employeeCode != ""
      ensures !asked ==> codeError == Some(CodeMissing) && codeVerified == old(codeVerified)
      ensures asked ==> (codeVerified <==> valid == Some(true))
      ensures asked ==> codeError == (if valid == Some(true) then None else Some(CodeWrong))
      ensures data == old(data) && employeeCode == old(employeeCode) && usernameAvailable == old(usernameAvailable)
      ensures checks == old(checks) && error == old(error) && successMessage == old(successMessage)
    {
      if employeeCode == "" {
        codeError := Some(CodeMissing);
        return false;
      }
      asked := true;
      codeError := None;
      if valid == Some(true) {
        codeVerified := true;
      } else {
        codeVerified := false;
        codeError := Some(CodeWrong);
      }
    }

    /**
     * The availability button; `available` is the server's answer for the
     * current username, `None` when the call failed. A username shorter than
     * three characters is refused without asking.
     */
    method CheckAvailability(available: Option<bool>) returns (asked: bool)
      requires Valid()
      modifies this
      ensures Valid()
      ensures asked <==> |data.username| >= 3
      ensures !asked ==> error == Some(UsernameTooShort) && usernameAvailable == old(usernameAvailable)
      ensures asked && available.Some? ==>
        usernameAvailable == available && error == (if available.value then None else Some(UsernameTaken))
      ensures asked && available.None? ==> usernameAvailable == old(usernameAvailable) && error == Some(UsernameCheckFailed)
      ensures data == old(data) && employeeCode == old(employeeCode) && codeVerified == old(codeVerified)
      ensures codeError == old(codeError) && checks == old(checks) && successMessage == old(successMessage)
    {
      if |data.username| < 3 {
        error := Some(UsernameTooShort);
        return false;
      }
      asked := true;
      error := None;
      if available.Some? {
        usernameAvailable := available;
        if !available.value {
          error := Some(UsernameTaken);
        }
      } else {
        error := Some(UsernameCheckFailed);
      }
    }

    /**
     * Submitting: the first failing check sets its error and nothing is
     * sent; otherwise the returned body is sent.
     */
    method Submit() returns (request: Option<Accounts.RegisterBody>)
      requires Valid()
      modifies this
      ensures Valid()
      ensures error == SubmitMessage(EmployeeSubmitError(employeeCode, usernameAvailable, data, checks))
      ensures request.Some? <==> EmployeeSubmitError(employeeCode, usernameAvailable, data, checks).None?
      ensures request.Some? ==> request.value == EmployeeRequest(data, employeeCode) && |data.username| >= 3
      ensures data == old(data) && employeeCode == old(employeeCode) && codeVerified == old(codeVerified)
      ensures codeError == old(codeError) && usernameAvailable == old(usernameAvailable) && checks == old(checks)
      ensures successMessage == old(successMessage)
    {
      error := None;
      var e := EmployeeSubmitError(employeeCode, usernameAvailable, data, checks);
      if e.Some? {
        error := Some(Refused(e.value));
        return None;
      }
      request := Some(EmployeeRequest(data, employeeCode));
    }

    /** Handling the registration reply; the result says whether the page navigates away. */
    method Finish(reply: Reply) returns (navigate: bool)
      requires Valid()
      modifies this
      ensures Valid()
      ensures navigate <==> EmployeeAfterReply(reply) == Navigate
      ensures successMessage == (if EmployeeAfterReply(reply).ShowSuccess? then Some(reply.message) else old(successMessage))
      ensures error == (if EmployeeAfterReply(reply).ShowError? then Some(Server(reply.message)) else old(error))
      ensures data == old(data) && employeeCode == old(employeeCode) && codeVerified == old(codeVerified)
      ensures codeError == old(codeError) && usernameAvailable == old(usernameAvailable) && checks == old(checks)
    {
      navigate := false;
      if reply.success {
        if reply.pending {
          successMessage := Some(reply.message);
        } else {
          navigate := true;
        }
      } else {
        error := Some(Server(reply.message));
      }
    }
  }

  /** The customer sign-up page. */
  class CustomerRegisterForm {
    var data: FormData
    var error: Option<FormError>
    var usernameAvailable: Option<bool>
    var checks: PasswordChecks

    ghost predicate Valid()
      reads this
    {
      checks == CheckPassword(data.password) && (usernameAvailable.Some? ==> |data.username| >= 3)
    }

    constructor ()
      ensures data == EmptyForm && error.None? && usernameAvailable.None?
      ensures checks == PasswordChecks(false, false, false, false)
      ensures Valid()
    {
      data, error, usernameAvailable := EmptyForm, None, None;
      checks := PasswordChecks(false, false, false, false);
    }

    /** Typing into one of the page's inputs, the verification code included. */
    method OnChange(field: Field, value: string)
      requires Valid()
      modifies this
      ensures Valid()
      ensures data == With(old(data), field, value)
      ensures usernameAvailable == (if field == Username then None else old(usernameAvailable))
      ensures checks == (if field == Password then CheckPassword(value) else old(checks))
      ensures error == old(error)
    {
      data := With(data, field, value);
      if field == Password {
        checks := CheckPassword(value);
      }
      if field == Username {
        usernameAvailable := None;
      }
    }

    /** The availability button, as on the employee page. */
    method CheckAvailability(available: Option<bool>) returns (asked: bool)
      requires Valid()
      modifies this
      ensures Valid()
      ensures asked <==> |data.username| >= 3
      ensures !asked ==> error == Some(UsernameTooShort) && usernameAvailable == old(usernameAvailable)
      ensures asked && available.Some? ==>
        usernameAvailable == available && error == (if available.value then None else Some(UsernameTaken))
      ensures asked && available.None? ==> usernameAvailable == old(usernameAvailable) && error == Some(UsernameCheckFailed)
      ensures data == old(data) && checks == old(checks)
    {
      if |data.username| < 3 {
        error := Some(UsernameTooShort);
        return false;
      }
      asked := true;
      error := None;
      if available.Some? {
        usernameAvailable := available;
        if !available.value {
          error := Some(UsernameTaken);
        }
      } else {
        error := Some(UsernameCheckFailed);
      }
    }

    /** Submitting: the first failing check sets its error; otherwise the returned body is sent. */
    method Submit() returns (request: Option<Accounts.RegisterBody>)
      requires Valid()
      modifies this
      ensures Valid()
      ensures error == SubmitMessage(CustomerSubmitError(usernameAvailable, data, checks))
      ensures request.Some? <==> CustomerSubmitError(usernameAvailable, data, checks).None?
      ensures request.Some? ==> request.value == CustomerRequest(data) && |data.username| >= 3
      ensures data == old(data) && usernameAvailable == old(usernameAvailable) && checks == old(checks)
    {
      error := None;
      var e := CustomerSubmitError(usernameAvailable, data, checks);
      if e.Some? {
        error := Some(Refused(e.value));
        return None;
      }
      request := Some(CustomerRequest(data));
    }

    /** Handling the registration reply; the result says whether the page navigates away. */
    method Finish(reply: Reply) returns (navigate: bool)
      requires Valid()
      modifies this
      ensures Valid()
      ensures navigate <==> CustomerAfterReply(reply) == Navigate
      ensures error == (if navigate then old(error) else Some(Server(reply.message)))
      ensures data == old(data) && usernameAvailable == old(usernameAvailable) && checks == old(checks)
    {
      navigate := reply.success;
      if !reply.success {
        error := Some(Server(reply.message));
      }
    }
  }

  /**
   * Editing the username after a successful check means the next submit is
   * refused until the name is checked again, whatever else the page holds.
   */
  lemma UsernameEditNeedsRecheck(code: string, d: FormData, c: PasswordChecks, value: string)
    ensures code != "" ==>
      EmployeeSubmitError(code, None, With(d, Username, value), c) == Some(UsernameUnchecked)
    ensures CustomerSubmitError(None, With(d, Username, value), c) == Some(UsernameUnchecked)
  {
  }
}
