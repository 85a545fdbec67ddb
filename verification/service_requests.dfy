/**
 * After-sales service requests: customers file them, customers see and
 * edit only their own, employees see all of them, change their status and
 * priority with an optional note, and delete them.
 */
module ServiceRequests {
  import opened Common
  import opened Routing
  import opened EditHistory

  datatype Category = Warranty | Repair | Replacement | Consultation | OtherCategory
  datatype Status = Pending | InProgress | Resolved | Closed
  datatype Priority = Low | Medium | High | Urgent

  function CategoryName(c: Category): string
  {
    match c
    case Warranty => "warranty"
    case Repair => "repair"
    case Replacement => "replacement"
    case Consultation => "consultation"
    case OtherCategory => "other"
  }

  /** The schema's category enumeration: the one category with this name, if any. */
  function ParseCategory(s: string): (c: Option<Category>)
    ensures c.Some? ==> CategoryName(c.value) == s
    ensures c.None? ==> forall k :: CategoryName(k) != s
  {
    if s == "warranty" then Some(Warranty)
    else if s == "repair" then Some(Repair)
    else if s == "replacement" then Some(Replacement)
    else if s == "consultation" then Some(Consultation)
    else if s == "other" then Some(OtherCategory)
    else None
  }

  function StatusName(s: Status): string
  {
    match s
    case Pending => "pending"
    case InProgress => "in-progress"
    case Resolved => "resolved"
    case Closed => "closed"
  }

  function ParseStatus(s: string): (r: Option<Status>)
    ensures r.Some? ==> StatusName(r.value) == s
    ensures r.None? ==> forall k :: StatusName(k) != s
  {
    if s == "pending" then Some(Pending)
    else if s == "in-progress" then Some(InProgress)
    else if s == "resolved" then Some(Resolved)
    else if s == "closed" then Some(Closed)
    else None
  }

  function PriorityName(p: Priority): string
  {
    match p
    case Low => "low"
    case Medium => "medium"
    case High => "high"
    case Urgent => "urgent"
  }

  function ParsePriority(s: string): (r: Option<Priority>)
    ensures r.Some? ==> PriorityName(r.value) == s
    ensures r.None? ==> forall k :: PriorityName(k) != s
  {
    if s == "low" then Some(Low)
    else if s == "medium" then Some(Medium)
    else if s == "high" then Some(High)
    else if s == "urgent" then Some(Urgent)
    else None
  }

  /** Each enumeration value is read back from its own name. */
  lemma NamesParse(c: Category, s: Status, p: Priority)
    ensures ParseCategory(CategoryName(c)) == Some(c)
    ensures ParseStatus(StatusName(s)) == Some(s)
    ensures ParsePriority(PriorityName(p)) == Some(p)
  {
  }

  datatype ProductInfo = ProductInfo(name: Option<string>, serialNumber: Option<string>, purchaseDate: Option<int>)

  /** A stored request. */
  datatype ServiceRequest = ServiceRequest(
    customer: nat, subject: string, description: string, category: Category, status: Status, priority: Priority,
    productInfo: Option<ProductInfo>, editHistory: seq<EditEntry>, createdAt: int, updatedAt: int)

  /** An optional enumerated field: the default when absent, and otherwise the value named, if there is one. */
  function ParseOr<E>(value: Option<string>, parse: string -> Option<E>, default: E): (r: Option<E>)
    ensures value.None? ==> r == Some(default)
    ensures value.Some? ==> r == parse(value.value)
  {
    if value.None? then Some(default) else parse(value.value)
  }

  /**
   * The record `createServiceRequest` stores for the caller, or `None` when
   * the schema refuses it: a subject or description that is blank once
   * trimmed, or a category or priority outside its enumeration.
   */
  function NewRequest(caller: Caller, subject: string, description: string, category: Option<string>,
                      priority: Option<string>, productInfo: Option<ProductInfo>, now: int): (r: Option<ServiceRequest>)
    ensures r.Some? <==> Trim(subject) != "" && Trim(description) != ""
                         && ParseOr(category, ParseCategory, OtherCategory).Some?
                         && ParseOr(priority, ParsePriority, Medium).Some?
    ensures r.Some? ==>
      r.value.customer == caller.id && r.value.status == Pending && r.value.editHistory == []
      && r.value.subject == Trim(subject) && r.value.description == Trim(description)
      && Some(r.value.category) == ParseOr(category, ParseCategory, OtherCategory)
      && Some(r.value.priority) == ParseOr(priority, ParsePriority, Medium)
      && r.value.productInfo == productInfo && r.value.createdAt == now && r.value.updatedAt == now
  {
    var c := ParseOr(category, ParseCategory, OtherCategory);
    var p := ParseOr(priority, ParsePriority, Medium);
    if Trim(subject) == "" || Trim(description) == "" || c.None? || p.None? then None
    else Some(ServiceRequest(caller.id, Trim(subject), Trim(description), c.value, Pending, p.value, productInfo, [],
                             now, now))
  }

  /** Query-string filters; an empty value is no filter. */
  datatype Filters = Filters(status: Option<string>, category: Option<string>, priority: Option<string>)

  /** Whether `getServiceRequests` lists `r` for `caller`: customers see only their own. */
  predicate Listed(caller: Caller, filters: Filters, r: ServiceRequest)
  {
    (caller.role == Customer ==> r.customer == caller.id)
    && FilterAdmits(filters.status, StatusName(r.status)) && FilterAdmits(filters.category, CategoryName(r.category))
    && FilterAdmits(filters.priority, PriorityName(r.priority))
  }

  /** The fields an update may carry. */
  datatype Changes = Changes(note: Option<string>, status: Option<string>, priority: Option<string>,
                             subject: Option<string>, description: Option<string>, productInfo: Option<ProductInfo>)

  /**
   * `updateServiceRequest` after the ownership check: an employee records
   * the note and sets status and priority; a customer sets subject,
   * description and product information; empty values change nothing. The
   * result is `None` when the save is refused (a status or priority outside
   * its enumeration, a subject or description blank once trimmed); a save
   * stamps `updatedAt`.
   */
  function Edited(r: ServiceRequest, caller: Caller, c: Changes, now: int): (e: Option<ServiceRequest>)
    ensures e.Some? ==>
      e.value.customer == r.customer && e.value.category == r.category
      && e.value.createdAt == r.createdAt && e.value.updatedAt == now
    ensures caller.role == Employee ==>
      (e.Some? <==> SetIfGiven(c.status, ParseStatus, r.status).Some? && SetIfGiven(c.priority, ParsePriority, r.priority).Some?)
    ensures caller.role == Employee && e.Some? ==>
      e.value.subject == r.subject && e.value.description == r.description && e.value.productInfo == r.productInfo
      && Some(e.value.status) == SetIfGiven(c.status, ParseStatus, r.status)
      && Some(e.value.priority) == SetIfGiven(c.priority, ParsePriority, r.priority)
      && e.value.editHistory == Record(r.editHistory, caller.id, c.note, StatusName(r.status), c.status, now)
    ensures caller.role == Customer ==>
      (e.Some? <==> (Given(c.subject) ==> Trim(c.subject.value) != "") && (Given(c.description) ==> Trim(c.description.value) != ""))
    ensures caller.role == Customer && e.Some? ==>
      e.value.status == r.status && e.value.priority == r.priority && e.value.editHistory == r.editHistory
      && e.value.subject == (if Given(c.subject) then Trim(c.subject.value) else r.subject)
      && e.value.description == (if Given(c.description) then Trim(c.description.value) else r.description)
      && e.value.productInfo == (if c.productInfo.Some? then c.productInfo else r.productInfo)
  {
    match caller.role
    case Employee =>
      var status := SetIfGiven(c.status, ParseStatus, r.status);
      var priority := SetIfGiven(c.priority, ParsePriority, r.priority);
      if status.None? || priority.None? then None
      else Some(r.(editHistory := Record(r.editHistory, caller.id, c.note, StatusName(r.status), c.status, now),
                   status := status.value, priority := priority.value, updatedAt := now))
    case Customer =>
      var subject := if Given(c.subject) then Trim(c.subject.value) else r.subject;
      var description := if Given(c.description) then Trim(c.description.value) else r.description;
      if (Given(c.subject) && subject == "") || (Given(c.description) && description == "") then None
      else Some(r.(subject := subject, description := description,
                   productInfo := if c.productInfo.Some? then c.productInfo else r.productInfo, updatedAt := now))
  }

  /** An employee's note always leaves exactly one entry; without a note the history is unchanged. */
  lemma EmployeeNoteIffEntry(r: ServiceRequest, caller: Caller, c: Changes, now: int)
    requires caller.role == Employee && Edited(r, caller, c, now).Some?
    ensures var e := Edited(r, caller, c, now).value;
      (|e.editHistory| == |r.editHistory| + 1 <==> Given(c.note))
      && (!Given(c.note) ==> e.editHistory == r.editHistory)
      && (Given(c.note) ==> e.editHistory[|r.editHistory|].previousStatus == StatusName(r.status)
                            && e.editHistory[|r.editHistory|].newStatus == StatusName(e.status))
  {
  }

  function CreatedAtOf(r: ServiceRequest): int { r.createdAt }

  class ServiceRequestStore {
    var requests: map<nat, ServiceRequest>
    var nextId: nat

    /** Ids are handed out in order. */
    ghost predicate Valid()
      reads this
    {
      forall id :: id in requests ==> id < nextId
    }

    constructor()
      ensures requests == map[] && nextId == 0 && Valid()
    {
      requests, nextId := map[], 0;
    }

    /** `createServiceRequest`: 201 with the new record, or 500 when the schema refuses it. */
    method Create(caller: Caller, subject: string, description: string, category: Option<string>,
                  priority: Option<string>, productInfo: Option<ProductInfo>, now: int)
      returns (status: HttpStatus, id: Option<nat>)
      modifies this
      requires Valid()
      ensures Valid()
      ensures NewRequest(caller, subject, description, category, priority, productInfo, now).Some? ==>
        status == Created && id == Some(old(nextId)) && old(nextId) !in old(requests) && nextId == old(nextId) + 1
        && requests == old(requests)[old(nextId) := NewRequest(caller, subject, description, category, priority, productInfo, now).value]
      ensures NewRequest(caller, subject, description, category, priority, productInfo, now).None? ==>
        status == ServerError && id == None && requests == old(requests) && nextId == old(nextId)
    {
      var r := NewRequest(caller, subject, description, category, priority, productInfo, now);
      if r.None? {
        return ServerError, None;
      }
      id := Some(nextId);
      requests := requests[nextId := r.value];
      nextId := nextId + 1;
      status := Created;
    }

    /** `getServiceRequests`: the caller's listing under the filters, newest first. */
    method List(caller: Caller, filters: Filters) returns (r: seq<ServiceRequest>)
      ensures forall x :: x in r <==> x in requests.Values && Listed(caller, filters, x)
      ensures forall x :: multiset(r)[x] == if Listed(caller, filters, x) then |KeysOf(requests, requests.Keys, x)| else 0
      ensures SortedDesc(r, CreatedAtOf)
    {
      var all := MapValues(requests);
      var listed := Filter(all, x => Listed(caller, filters, x));
      assert forall x :: x in listed <==> x in all && Listed(caller, filters, x);
      r := SortDesc(listed, CreatedAtOf);
      SortDescSorted(listed, CreatedAtOf);
      assert forall x :: x in r <==> x in multiset(r);
    }

    /** `getServiceRequest`: 404 for an unknown id, then the ownership check. */
    method Get(caller: Caller, id: nat) returns (status: HttpStatus, request: Option<ServiceRequest>)
      ensures id !in requests ==> status == NotFound && request == None
      ensures id in requests ==> status == Access(caller, requests[id].customer)
      ensures request.Some? <==> status == OK
      ensures request.Some? ==> request.value == requests[id]
    {
      if id !in requests {
        return NotFound, None;
      }
      status := Access(caller, requests[id].customer);
      request := if status == OK then Some(requests[id]) else None;
    }

    /**
     * `updateServiceRequest`: 404, then the ownership check, then the edit;
     * a save the schema refuses (a status or priority outside its
     * enumeration, a blank subject) answers 500 and stores nothing.
     */
    method Update(caller: Caller, id: nat, c: Changes, now: int) returns (status: HttpStatus)
      modifies this
      requires Valid()
      ensures Valid() && nextId == old(nextId)
      ensures id !in old(requests) ==> status == NotFound && requests == old(requests)
      ensures id in old(requests) && Access(caller, old(requests)[id].customer) == Forbidden ==>
        status == Forbidden && requests == old(requests)
      ensures id in old(requests) && Access(caller, old(requests)[id].customer) == OK ==>
        match Edited(old(requests)[id], caller, c, now)
        case Some(e) => status == OK && requests == old(requests)[id := e]
        case None => status == ServerError && requests == old(requests)
    {
      if id !in requests {
        return NotFound;
      }
      if Access(caller, requests[id].customer) == Forbidden {
        return Forbidden;
      }
      var e := Edited(requests[id], caller, c, now);
      if e.None? {
        return ServerError;
      }
      requests := requests[id := e.value];
      status := OK;
    }

    /** `deleteServiceRequest`. */
    method Delete(id: nat) returns (status: HttpStatus)
      modifies this
      requires Valid()
      ensures Valid() && nextId == old(nextId)
      ensures id !in old(requests) ==> status == NotFound && requests == old(requests)
      ensures id in old(requests) ==> status == OK && requests == old(requests) - {id}
    {
      if id !in requests {
        return NotFound;
      }
      requests := requests - {id};
      status := OK;
    }
  }

  // ---------------------------------------------------------------------
  // Routes of `/api/service-requests`
  // ---------------------------------------------------------------------

  datatype RequestHandler = ListRequests | CreateRequest | GetRequest | UpdateRequest | DeleteRequest

  const RequestRoutes: seq<Route<RequestHandler>> := [
    Route(GET, [], SignedIn, ListRequests),
    Route(POST, [], RoleOnly(Customer), CreateRequest),
    Route(GET, [":id"], SignedIn, GetRequest),
    Route(PUT, [":id"], SignedIn, UpdateRequest),
    Route(DELETE, [":id"], RoleOnly(Employee), DeleteRequest)
  ]

  /** No route serves a request without a valid token. */
  lemma EveryRouteNeedsSignIn(verb: Verb, path: seq<string>)
    ensures Dispatch(RequestRoutes, verb, path, None) == NoRoute
         || Dispatch(RequestRoutes, verb, path, None) == Denied(Unauthorized)
  {
    match FirstMatch(RequestRoutes, verb, path)
    case None =>
    case Some(i) =>
      assert RequestRoutes[i].gate != Public;
  }

  /** Only customers create requests, and only employees delete them. */
  lemma RoleGates(caller: Caller, id: string)
    requires id != ""
    ensures Dispatch(RequestRoutes, POST, [], Some(caller)).Handled? <==> caller.role == Customer
    ensures Dispatch(RequestRoutes, DELETE, [id], Some(caller)).Handled? <==> caller.role == Employee
    ensures Dispatch(RequestRoutes, PUT, [id], Some(caller)).Handled?
  {
    assert ":id"[0] == ':';
    assert FirstMatch(RequestRoutes, POST, []) == Some(1);
    assert PathMatches(RequestRoutes[4].pattern, [id]);
    assert FirstMatch(RequestRoutes, DELETE, [id]) == Some(4);
    assert PathMatches(RequestRoutes[3].pattern, [id]);
    assert FirstMatch(RequestRoutes, PUT, [id]) == Some(3);
  }
}
