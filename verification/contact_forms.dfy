/**
 * Contact forms: a customer submits a message with a name, an e-mail
 * address, an optional phone number and a subject; employees read them,
 * move them through the statuses `new`, `read`, `in-progress` and
 * `resolved`, attach notes to their edit history, and delete them.
 * Every route needs a signed-in caller.
 */
module ContactForms {
  import opened Common
  import opened Routing
  import opened EditHistory
  import opened EmailPattern

  datatype FormStatus = New | Read | InProgress | Resolved

  function FormStatusName(s: FormStatus): string
  {
    match s
    case New => "new"
    case Read => "read"
    case InProgress => "in-progress"
    case Resolved => "resolved"
  }

  /** The schema's status enumeration: the one status with this name, if any. */
  function ParseFormStatus(s: string): (r: Option<FormStatus>)
    ensures r.Some? ==> FormStatusName(r.value) == s
    ensures r.None? ==> forall k :: FormStatusName(k) != s
  {
    if s == "new" then Some(New)
    else if s == "read" then Some(Read)
    else if s == "in-progress" then Some(InProgress)
    else if s == "resolved" then Some(Resolved)
    else None
  }

  /** Each status is read back from its own name. */
  lemma FormStatusNamesParse(s: FormStatus)
    ensures ParseFormStatus(FormStatusName(s)) == Some(s)
  {
  }

  /** A stored contact form. */
  datatype ContactForm = ContactForm(
    customer: nat, name: string, email: string, phone: Option<string>, subject: string, message: string,
    status: FormStatus, editHistory: seq<EditEntry>, createdAt: int, updatedAt: int)

  /** A required, trimmed text field: its trimmed value, or `None` when it is missing or blank. */
  function Required(value: Option<string>): (r: Option<string>)
    ensures r.Some? <==> value.Some? && |Trim(value.value)| > 0
    ensures r.Some? ==> r.value == Trim(value.value)
  {
    if value.Some? && |Trim(value.value)| > 0 then Some(Trim(value.value)) else None
  }

  /**
   * The record `createContactForm` stores for the caller, or `None` when the
   * schema refuses it: a name, e-mail address, subject or message that is
   * missing or blank once trimmed, or an address the e-mail pattern does not
   * match. The status always starts as `new`.
   */
  function NewForm(caller: Caller, name: Option<string>, email: Option<string>, phone: Option<string>,
                   subject: Option<string>, message: Option<string>, now: int): (r: Option<ContactForm>)
    ensures r.Some? <==> Required(name).Some? && Required(email).Some? && Required(subject).Some?
                         && Required(message).Some? && IsValidEmail(Trim(email.value))
    ensures r.Some? ==>
      r.value.customer == caller.id && r.value.status == New && r.value.editHistory == []
      && Some(r.value.name) == Required(name) && Some(r.value.email) == Required(email)
      && Some(r.value.subject) == Required(subject) && Some(r.value.message) == Required(message)
      && r.value.phone == (if phone.Some? then Some(Trim(phone.value)) else None)
      && r.value.createdAt == now && r.value.updatedAt == now
  {
    var n, e, s, m := Required(name), Required(email), Required(subject), Required(message);
    if n.None? then None else if e.None? then None else if s.None? then None else if m.None? then None
    else if !IsValidEmail(e.value) then None
    else Some(ContactForm(caller.id, n.value, e.value, if phone.Some? then Some(Trim(phone.value)) else None,
                          s.value, m.value, New, [], now, now))
  }

  /** The e-mail check of a new form is the schema's pattern, applied to the trimmed address. */
  lemma NewFormFollowsPattern(caller: Caller, name: Option<string>, email: Option<string>, phone: Option<string>,
                              subject: Option<string>, message: Option<string>, now: int)
    requires Required(name).Some? && Required(email).Some? && Required(subject).Some? && Required(message).Some?
    ensures NewForm(caller, name, email, phone, subject, message, now).Some? <==> MatchesEmailPattern(Trim(email.value))
  {
    EmailIff(Trim(email.value));
  }

  /** Whether `getContactForms` lists `f` for `caller`: customers see only their own. */
  predicate Listed(caller: Caller, status: Option<string>, f: ContactForm)
  {
    (caller.role == Customer ==> f.customer == caller.id) && FilterAdmits(status, FormStatusName(f.status))
  }

  /**
   * `updateContactForm`: a note appends one entry to the edit history, a
   * status is set, and empty values change nothing. The result is `None`
   * when the save is refused because the status is outside the
   * enumeration; a save stamps `updatedAt`. The handler does not look at
   * who owns the form.
   */
  function Updated(f: ContactForm, editor: nat, note: Option<string>, status: Option<string>, now: int)
    : (r: Option<ContactForm>)
    ensures r.Some? <==> SetIfGiven(status, ParseFormStatus, f.status).Some?
    ensures r.Some? ==>
      r.value.customer == f.customer && r.value.name == f.name && r.value.email == f.email
      && r.value.phone == f.phone && r.value.subject == f.subject && r.value.message == f.message
      && Some(r.value.status) == SetIfGiven(status, ParseFormStatus, f.status)
      && r.value.editHistory == Record(f.editHistory, editor, note, FormStatusName(f.status), status, now)
      && r.value.createdAt == f.createdAt && r.value.updatedAt == now
  {
    var s := SetIfGiven(status, ParseFormStatus, f.status);
    if s.None? then None
    else Some(f.(editHistory := Record(f.editHistory, editor, note, FormStatusName(f.status), status, now),
                 status := s.value, updatedAt := now))
  }

  /**
   * A saved update records the status it moved to: the new entry's
   * `newStatus` names the form's new status, and `previousStatus` the old one.
   */
  lemma UpdateEntryNamesStatuses(f: ContactForm, editor: nat, note: Option<string>, status: Option<string>, now: int)
    requires Given(note) && Updated(f, editor, note, status, now).Some?
    ensures var g := Updated(f, editor, note, status, now).value;
      |g.editHistory| == |f.editHistory| + 1
      && g.editHistory[|f.editHistory|].previousStatus == FormStatusName(f.status)
      && g.editHistory[|f.editHistory|].newStatus == FormStatusName(g.status)
      && g.editHistory[|f.editHistory|].note == note.value
  {
  }

  /** An update that the schema refuses leaves no trace, not even the note. */
  lemma RefusedStatusRecordsNothing(f: ContactForm, editor: nat, note: Option<string>, status: Option<string>, now: int)
    requires Given(status) && ParseFormStatus(status.value).None?
    ensures Updated(f, editor, note, status, now).None?
  {
  }

  function CreatedAtOf(f: ContactForm): int { f.createdAt }

  class ContactFormStore {
    var forms: map<nat, ContactForm>
    var nextId: nat

    /** Ids are handed out in order. */
    ghost predicate Valid()
      reads this
    {
      forall id :: id in forms ==> id < nextId
    }

    constructor()
      ensures forms == map[] && nextId == 0 && Valid()
    {
      forms, nextId := map[], 0;
    }

    /** `createContactForm`: 201 with the new form, or 500 when the schema refuses it. */
    method Create(caller: Caller, name: Option<string>, email: Option<string>, phone: Option<string>,
                  subject: Option<string>, message: Option<string>, now: int)
      returns (status: HttpStatus, id: Option<nat>)
      modifies this
      requires Valid()
      ensures Valid()
      ensures NewForm(caller, name, email, phone, subject, message, now).Some? ==>
        status == Created && id == Some(old(nextId)) && old(nextId) !in old(forms) && nextId == old(nextId) + 1
        && forms == old(forms)[old(nextId) := NewForm(caller, name, email, phone, subject, message, now).value]
      ensures NewForm(caller, name, email, phone, subject, message, now).None? ==>
        status == ServerError && id == None && forms == old(forms) && nextId == old(nextId)
    {
      var f := NewForm(caller, name, email, phone, subject, message, now);
      if f.None? {
        return ServerError, None;
      }
      id := Some(nextId);
      forms := forms[nextId := f.value];
      nextId := nextId + 1;
      status := Created;
    }

    /** `getContactForms`: the forms the caller may see that pass the status filter, newest first. */
    method List(caller: Caller, status: Option<string>) returns (r: seq<ContactForm>)
      ensures forall x :: x in r <==> x in forms.Values && Listed(caller, status, x)
      ensures forall x :: multiset(r)[x] == if Listed(caller, status, x) then |KeysOf(forms, forms.Keys, x)| else 0
      ensures SortedDesc(r, CreatedAtOf)
    {
      var all := MapValues(forms);
      var listed := Filter(all, x => Listed(caller, status, x));
      assert forall x :: x in listed <==> x in all && Listed(caller, status, x);
      r := SortDesc(listed, CreatedAtOf);
      SortDescSorted(listed, CreatedAtOf);
      assert forall x :: x in r <==> x in multiset(r);
    }

    /** `getContactForm`: 404 for an unknown id, then the ownership check. */
    method Get(caller: Caller, id: nat) returns (status: HttpStatus, form: Option<ContactForm>)
      ensures id !in forms ==> status == NotFound && form == None
      ensures id in forms ==> status == Access(caller, forms[id].customer)
      ensures form.Some? <==> status == OK
      ensures form.Some? ==> form.value == forms[id]
    {
      if id !in forms {
        return NotFound, None;
      }
      status := Access(caller, forms[id].customer);
      form := if status == OK then Some(forms[id]) else None;
    }

    /** `updateContactForm`: 404, then the edit; a refused save answers 500 and stores nothing. */
    method Update(caller: Caller, id: nat, note: Option<string>, status: Option<string>, now: int)
      returns (code: HttpStatus)
      modifies this
      requires Valid()
      ensures Valid() && nextId == old(nextId)
      ensures id !in old(forms) ==> code == NotFound && forms == old(forms)
      ensures id in old(forms) ==>
        match Updated(old(forms)[id], caller.id, note, status, now)
        case Some(g) => code == OK && forms == old(forms)[id := g]
        case None => code == ServerError && forms == old(forms)
    {
      if id !in forms {
        return NotFound;
      }
      var g := Updated(forms[id], caller.id, note, status, now);
      if g.None? {
        return ServerError;
      }
      forms := forms[id := g.value];
      code := OK;
    }

    /** `deleteContactForm`. */
    method Delete(id: nat) returns (status: HttpStatus)
      modifies this
      requires Valid()
      ensures Valid() && nextId == old(nextId)
      ensures id !in old(forms) ==> status == NotFound && forms == old(forms)
      ensures id in old(forms) ==> status == OK && forms == old(forms) - {id}
    {
      if id !in forms {
        return NotFound;
      }
      forms := forms - {id};
      status := OK;
    }
  }

  // ---------------------------------------------------------------------
  // Routes of `/api/contact-forms`
  // ---------------------------------------------------------------------

  datatype FormHandler = ListForms | CreateForm | GetForm | UpdateForm | DeleteForm

  const FormRoutes: seq<Route<FormHandler>> := [
    Route(GET, [], SignedIn, ListForms),
    Route(POST, [], RoleOnly(Customer), CreateForm),
    Route(GET, [":id"], SignedIn, GetForm),
    Route(PUT, [":id"], RoleOnly(Employee), UpdateForm),
    Route(DELETE, [":id"], RoleOnly(Employee), DeleteForm)
  ]

  /** No route serves a request without a valid token. */
  lemma EveryFormRouteNeedsSignIn(verb: Verb, path: seq<string>)
    ensures Dispatch(FormRoutes, verb, path, None) == NoRoute
         || Dispatch(FormRoutes, verb, path, None) == Denied(Unauthorized)
  {
    match FirstMatch(FormRoutes, verb, path)
    case None =>
    case Some(i) =>
      assert FormRoutes[i].gate != Public;
  }

  /**
   * Only customers submit forms, and only employees change or delete them;
   * this gate is the only protection of the update, whose handler does not
   * check ownership.
   */
  lemma FormRoleGates(caller: Caller, id: string)
    requires id != ""
    ensures Dispatch(FormRoutes, POST, [], Some(caller)).Handled? <==> caller.role == Customer
    ensures Dispatch(FormRoutes, PUT, [id], Some(caller)).Handled? <==> caller.role == Employee
    ensures Dispatch(FormRoutes, DELETE, [id], Some(caller)).Handled? <==> caller.role == Employee
  {
    assert ":id"[0] == ':';
    assert FirstMatch(FormRoutes, POST, []) == Some(1);
    assert PathMatches(FormRoutes[3].pattern, [id]);
    assert FirstMatch(FormRoutes, PUT, [id]) == Some(3);
    assert PathMatches(FormRoutes[4].pattern, [id]);
    assert FirstMatch(FormRoutes, DELETE, [id]) == Some(4);
  }
}
