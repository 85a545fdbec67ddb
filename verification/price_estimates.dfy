/**
 * Estimate submissions on the server: the client's IP taken from the proxy
 * headers, the two public submit handlers that force the estimate type and
 * the conversion flag, the mirror row written before the database save,
 * the status update, the listing, and the route table.
 */
module Estimates {
  import opened Common
  import opened Routing
  import opened SheetsMirror
  import Landing

  datatype EstimateType = Quick | Full

  const EstimateStatuses: seq<string> := ["pending", "contacted", "scheduled", "completed", "cancelled"]

  const DefaultStatus := "pending"

  /** The schema's status enumeration. */
  predicate IsEstimateStatus(s: string)
  {
    s in EstimateStatuses
  }

  /**
   * A request body. `kind`, `converted` and `ipAddress` are whatever the
   * client sent; the handlers overwrite all three.
   */
  datatype EstimateBody = EstimateBody(details: Submission, submittedAt: Option<int>, status: Option<string>,
                                       kind: Option<string>, converted: Option<bool>, ipAddress: Option<string>)

  /** A stored estimate. `status` is a string: the status update stores what it is given. */
  datatype Estimate = Estimate(kind: EstimateType, converted: bool, details: Submission, ipAddress: Option<string>,
                               submittedAt: int, status: string)

  // ---------------------------------------------------------------------
  // Client IP
  // ---------------------------------------------------------------------

  /** The text before the first ',' (all of `s` when there is none). */
  function FirstField(s: string): (r: string)
    ensures |r| <= |s| && r == s[..|r|]
    ensures ',' !in r
    ensures |r| < |s| ==> s[|r|] == ','
  {
    if s == [] || s[0] == ',' then [] else [s[0]] + FirstField(s[1..])
  }

  /** A present, non-empty header or address: what `||` keeps. */
  predicate Given(v: Option<string>)
  {
    v.Some? && v.value != ""
  }

  /**
   * The first non-empty of: the first field of `x-forwarded-for`,
   * `x-real-ip`, the connection's and the socket's remote address.
   */
  function ClientIp(forwardedFor: Option<string>, realIp: Option<string>, connectionAddress: Option<string>,
                    socketAddress: Option<string>): (ip: Option<string>)
    ensures forwardedFor.Some? && FirstField(forwardedFor.value) != "" ==> ip == Some(FirstField(forwardedFor.value))
    ensures !(forwardedFor.Some? && FirstField(forwardedFor.value) != "") && Given(realIp) ==> ip == realIp
    ensures (!(forwardedFor.Some? && FirstField(forwardedFor.value) != "") && !Given(realIp)
             && Given(connectionAddress)) ==> ip == connectionAddress
    ensures (!(forwardedFor.Some? && FirstField(forwardedFor.value) != "") && !Given(realIp)
             && !Given(connectionAddress)) ==> ip == socketAddress
    ensures ip.Some? && ip.value != "" ==>
      (forwardedFor.Some? && ip.value == FirstField(forwardedFor.value)) || ip == realIp || ip == connectionAddress
      || ip == socketAddress
  {
    if forwardedFor.Some? && FirstField(forwardedFor.value) != "" then Some(FirstField(forwardedFor.value))
    else if Given(realIp) then realIp
    else if Given(connectionAddress) then connectionAddress
    else socketAddress
  }

  /** Behind several proxies the first hop, which holds no comma, is kept. */
  lemma ClientIpFirstHop(first: string, rest: string, realIp: Option<string>)
    requires first != "" && ',' !in first
    ensures ClientIp(Some(first + "," + rest), realIp, None, None) == Some(first)
  {
    var s := first + "," + rest;
    assert FirstField(s) == first by {
      FirstFieldStops(first, rest);
    }
  }

  lemma {:induction false} FirstFieldStops(first: string, rest: string)
    requires ',' !in first
    ensures FirstField(first + "," + rest) == first
  {
    if first == [] {
      assert (first + "," + rest)[0] == ',';
    } else {
      assert (first + "," + rest)[1..] == first[1..] + "," + rest;
      FirstFieldStops(first[1..], rest);
    }
  }

  // ---------------------------------------------------------------------
  // Submission
  // ---------------------------------------------------------------------

  /**
   * The record a submit handler saves: the handler's type, always
   * converted, the client IP, `submittedAt` defaulting to now and the
   * status defaulting to pending. The handler sets `converted` and
   * `ipAddress` on the one body object that both the mirror and the
   * database receive, so the mirrored details carry them too.
   */
  function Prepared(body: EstimateBody, kind: EstimateType, ip: Option<string>, now: int): (e: Estimate)
    ensures e.kind == kind && e.converted && e.ipAddress == ip
    ensures e.details.converted && e.details.ipAddress == ip
    ensures e.details.(converted := body.details.converted, ipAddress := body.details.ipAddress) == body.details
    ensures e.submittedAt == (if body.submittedAt.Some? then body.submittedAt.value else now)
    ensures e.status == (if body.status.Some? then body.status.value else DefaultStatus)
  {
    Estimate(kind, true, body.details.(ipAddress := ip, converted := true), ip,
             if body.submittedAt.Some? then body.submittedAt.value else now,
             if body.status.Some? then body.status.value else DefaultStatus)
  }

  /**
   * The client cannot choose the type, the conversion flag or the recorded
   * IP, neither on the record nor in the details the mirror writes.
   */
  lemma ClientFieldsIgnored(a: EstimateBody, b: EstimateBody, kind: EstimateType, ip: Option<string>, now: int)
    requires a.details.(converted := false, ipAddress := None) == b.details.(converted := false, ipAddress := None)
    requires a.submittedAt == b.submittedAt && a.status == b.status
    ensures Prepared(a, kind, ip, now) == Prepared(b, kind, ip, now)
  {
    var da, db := Prepared(a, kind, ip, now).details, Prepared(b, kind, ip, now).details;
    assert da == a.details.(converted := false, ipAddress := None).(converted := true, ipAddress := ip);
    assert db == b.details.(converted := false, ipAddress := None).(converted := true, ipAddress := ip);
  }

  /**
   * Every quick estimate is mirrored with `O` in the conversion column,
   * whatever flag the client sent: the restart button's quick estimate,
   * which the client sends as not converted, included.
   */
  lemma QuickMirrorAlwaysConverted(body: EstimateBody, ip: Option<string>, now: int, sheet: Sheet)
    ensures MirroredRow(QuickSheet, sheet, Prepared(body, Quick, ip, now).details)[7] == "O"
  {
  }

  /**
   * The landing page's consultation form posts to the full route without
   * an `appointment`: the estimate is saved whenever the database is up,
   * yet the mirror writes no row for it.
   */
  lemma LandingConsultationSavedNotMirrored(r: Landing.ConsultationRequest, time: string, sentAt: int,
                                            ip: Option<string>, now: int, databaseAvailable: bool)
    ensures var e := Prepared(EstimateBody(Landing.ConsultationSubmission(r, time), Some(sentAt), None, None, None, None),
                              Full, ip, now);
      !Mirrorable(e.details) && (Saves(e, databaseAvailable) <==> databaseAvailable)
  {
  }

  /** The schedule modal's body, which carries an appointment, is mirrored. */
  lemma LandingScheduleMirrored(r: Landing.ScheduleRequest, time: string, dateText: string, sentAt: int,
                                ip: Option<string>, now: int)
    ensures Mirrorable(Prepared(EstimateBody(Landing.ScheduleSubmission(r, time, dateText), Some(sentAt),
                                             None, None, None, None), Full, ip, now).details)
  {
  }

  /** Saving validates the schema: a status outside the enumeration is refused. */
  predicate Saves(e: Estimate, databaseAvailable: bool)
  {
    databaseAvailable && IsEstimateStatus(e.status)
  }

  function SubmittedAtOf(e: Estimate): int { e.submittedAt }

  // ---------------------------------------------------------------------
  // The estimate store
  // ---------------------------------------------------------------------

  class EstimateService {
    var estimates: map<nat, Estimate>
    var nextId: nat
    const mirror: Spreadsheet

    ghost predicate Valid()
      reads this, mirror
    {
      mirror.Valid() && forall id :: id in estimates ==> id < nextId
    }

    constructor(mirror: Spreadsheet)
      requires mirror.Valid()
      ensures estimates == map[] && nextId == 0 && this.mirror == mirror
      ensures Valid()
    {
      estimates, nextId := map[], 0;
      this.mirror := mirror;
    }

    /**
     * `submitPriceEstimate` (kind `Full`) and `submitQuickEstimate` (kind
     * `Quick`): the mirror row is written first, then the record is saved;
     * the answer is 201 either way, with an id only when the save succeeded.
     */
    method Submit(kind: EstimateType, body: EstimateBody, ip: Option<string>, now: int, databaseAvailable: bool)
      returns (status: HttpStatus, id: Option<nat>)
      modifies this, mirror
      requires Valid()
      ensures Valid() && status == Created
      ensures var e := Prepared(body, kind, ip, now);
        if Saves(e, databaseAvailable) then
          id == Some(old(nextId)) && old(nextId) !in old(estimates)
          && estimates == old(estimates)[old(nextId) := e] && nextId == old(nextId) + 1
        else
          id == None && estimates == old(estimates) && nextId == old(nextId)
      ensures var e := Prepared(body, kind, ip, now);
        mirror.kt == old(mirror.kt) && mirror.questions == old(mirror.questions)
        && (!Mirrorable(e.details) ==> mirror.quick == old(mirror.quick) && mirror.salt == old(mirror.salt))
        && (Mirrorable(e.details) && kind == Quick ==>
              mirror.salt == old(mirror.salt)
              && mirror.quick == InsertAtTop(old(mirror.quick), MirroredRow(QuickSheet, old(mirror.quick), e.details)))
        && (Mirrorable(e.details) && kind == Full ==>
              mirror.quick == old(mirror.quick)
              && mirror.salt == InsertAtTop(old(mirror.salt), MirroredRow(SaltSheet, old(mirror.salt), e.details)))
    {
      var e := Prepared(body, kind, ip, now);
      var _ := mirror.AddPriceEstimate(kind == Quick, e.details);
      if Saves(e, databaseAvailable) {
        id := Some(nextId);
        estimates := estimates[nextId := e];
        nextId := nextId + 1;
      } else {
        id := None;
      }
      status := Created;
    }

    /** `updateEstimateStatus`: only the status changes, to whatever string was sent. */
    method UpdateStatus(id: nat, status: string) returns (code: HttpStatus, estimate: Option<Estimate>)
      modifies this
      requires Valid()
      ensures Valid() && nextId == old(nextId)
      ensures id !in old(estimates) ==> code == NotFound && estimate == None && estimates == old(estimates)
      ensures id in old(estimates) ==>
        code == OK && estimate == Some(old(estimates)[id].(status := status))
        && estimates == old(estimates)[id := old(estimates)[id].(status := status)]
    {
      if id !in estimates {
        return NotFound, None;
      }
      var updated := estimates[id].(status := status);
      estimates := estimates[id := updated];
      return OK, Some(updated);
    }

    /** `getEstimateById`. */
    method GetEstimate(id: nat) returns (code: HttpStatus, estimate: Option<Estimate>)
      ensures id !in estimates ==> code == NotFound && estimate == None
      ensures id in estimates ==> code == OK && estimate == Some(estimates[id])
    {
      if id !in estimates {
        return NotFound, None;
      }
      return OK, Some(estimates[id]);
    }

    /** `getAllEstimates`: every estimate, most recently submitted first. */
    method ListEstimates() returns (r: seq<Estimate>)
      ensures |r| == |estimates|
      ensures forall e :: e in r <==> e in estimates.Values
      ensures SortedDesc(r, SubmittedAtOf)
      ensures forall e :: multiset(r)[e] == |KeysOf(estimates, estimates.Keys, e)|
    {
      var s := MapValues(estimates);
      r := SortDesc(s, SubmittedAtOf);
      SortDescSorted(s, SubmittedAtOf);
      assert forall e :: e in r <==> e in multiset(r);
    }
  }

  // ---------------------------------------------------------------------
  // Routes of `/api/price-estimate`
  // ---------------------------------------------------------------------

  datatype EstimateHandler =
    | SubmitPriceEstimate | SubmitQuickEstimate | GetAllEstimates | GetSheetEstimates | GetEstimateById
    | UpdateEstimateStatus

  const EstimateRoutes: seq<Route<EstimateHandler>> := [
    Route(POST, [], Public, SubmitPriceEstimate),
    Route(POST, ["quick"], Public, SubmitQuickEstimate),
    Route(GET, [], SignedIn, GetAllEstimates),
    Route(GET, ["sheets"], SignedIn, GetSheetEstimates),
    Route(GET, [":id"], SignedIn, GetEstimateById),
    Route(PATCH, [":id", "status"], SignedIn, UpdateEstimateStatus)
  ]

  /** Both submit routes are open to anyone. */
  lemma SubmitRoutesPublic(caller: Option<Caller>)
    ensures Dispatch(EstimateRoutes, POST, [], caller) == Handled(SubmitPriceEstimate, [])
    ensures Dispatch(EstimateRoutes, POST, ["quick"], caller) == Handled(SubmitQuickEstimate, [])
  {
    SegmentKinds();
    assert !PathMatches(EstimateRoutes[0].pattern, ["quick"]);
  }

  /** Every reading or updating route turns away a request without a valid token. */
  lemma ReadRoutesNeedSignIn(verb: Verb, path: seq<string>)
    requires verb != POST
    ensures Dispatch(EstimateRoutes, verb, path, None) == NoRoute
         || Dispatch(EstimateRoutes, verb, path, None) == Denied(Unauthorized)
  {
    match FirstMatch(EstimateRoutes, verb, path)
    case None =>
    case Some(i) =>
      assert EstimateRoutes[i].verb != POST;
      assert EstimateRoutes[i].gate == SignedIn;
  }

  lemma SegmentKinds()
    ensures IsParameter(":id") && !IsParameter("sheets") && !IsParameter("quick") && !IsParameter("status")
  {
    assert ":id"[0] == ':' && "sheets"[0] == 's' && "quick"[0] == 'q' && "status"[0] == 's';
  }

  /** "sheets" reaches the sheet listing, never the by-id handler. */
  lemma SheetsBeforeId(caller: Caller)
    ensures Dispatch(EstimateRoutes, GET, ["sheets"], Some(caller)) == Handled(GetSheetEstimates, [])
  {
    SegmentKinds();
    var path := ["sheets"];
    assert EstimateRoutes[3].verb == GET && PathMatches(EstimateRoutes[3].pattern, path);
    assert forall i :: 0 <= i < 3 ==> !(EstimateRoutes[i].verb == GET && PathMatches(EstimateRoutes[i].pattern, path));
    assert FirstMatch(EstimateRoutes, GET, path) == Some(3);
  }

  /** Any other single segment is an id. */
  lemma OtherSegmentIsId(caller: Caller, id: string)
    requires id != "" && id != "sheets"
    ensures Dispatch(EstimateRoutes, GET, [id], Some(caller)) == Handled(GetEstimateById, [id])
  {
    SegmentKinds();
    var path := [id];
    assert EstimateRoutes[3].pattern == ["sheets"];
    assert !PathMatches(EstimateRoutes[3].pattern, path) by {
      assert !SegmentMatches(EstimateRoutes[3].pattern[0], path[0]);
    }
    assert EstimateRoutes[4].verb == GET && PathMatches(EstimateRoutes[4].pattern, path);
    assert forall i :: 0 <= i < 4 ==> !(EstimateRoutes[i].verb == GET && PathMatches(EstimateRoutes[i].pattern, path));
    assert FirstMatch(EstimateRoutes, GET, path) == Some(4);
    assert Params([":id"], path) == [id] + Params([], []);
  }

  /** No route deletes an estimate. */
  lemma NoDeleteRoute(path: seq<string>, caller: Option<Caller>)
    ensures Dispatch(EstimateRoutes, DELETE, path, caller) == NoRoute
  {
  }
}
