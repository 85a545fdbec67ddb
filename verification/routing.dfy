/**
 * Route tables as the server registers them: each route has a verb, a path
 * pattern of segments (a segment starting with ':' is a parameter that
 * matches any non-empty segment), an access gate and a handler. A request
 * is served by the first registered route whose verb and pattern match.
 *
 * The token-checking middleware itself is not part of this model: a caller
 * is `Some` when the request carries a valid token. A gated route answers
 * 401 without one and 403 when the caller has the wrong role.
 */
module Routing {
  import opened Common

  datatype Verb = GET | POST | PUT | PATCH | DELETE

  datatype Gate = Public | SignedIn | RoleOnly(role: Role)

  datatype Route<H> = Route(verb: Verb, pattern: seq<string>, gate: Gate, handler: H)

  /** What a request ends in: no matching route, a refusal by the gate, or a handler. */
  datatype Outcome<H> = NoRoute | Denied(status: HttpStatus) | Handled(handler: H, params: seq<string>)

  predicate IsParameter(segment: string)
  {
    |segment| > 0 && segment[0] == ':'
  }

  predicate SegmentMatches(pattern: string, segment: string)
  {
    if IsParameter(pattern) then segment != "" else pattern == segment
  }

  predicate PathMatches(pattern: seq<string>, path: seq<string>)
  {
    |pattern| == |path| && forall i :: 0 <= i < |path| ==> SegmentMatches(pattern[i], path[i])
  }

  /** The index of the first route that matches, if any. */
  function FirstMatch<H>(routes: seq<Route<H>>, verb: Verb, path: seq<string>): (r: Option<nat>)
    ensures r.None? <==> forall i :: 0 <= i < |routes| ==> !(routes[i].verb == verb && PathMatches(routes[i].pattern, path))
    ensures r.Some? ==> (r.value < |routes| && routes[r.value].verb == verb && PathMatches(routes[r.value].pattern, path)
                         && forall i :: 0 <= i < r.value ==> !(routes[i].verb == verb && PathMatches(routes[i].pattern, path)))
  {
    if routes == [] then None
    else if routes[0].verb == verb && PathMatches(routes[0].pattern, path) then Some(0)
    else match FirstMatch(routes[1..], verb, path)
      case None => None
      case Some(k) => Some(k + 1)
  }

  /** The gate's answer: `OK` lets the request through. */
  function Admit(gate: Gate, caller: Option<Caller>): (s: HttpStatus)
    ensures s == OK || s == Unauthorized || s == Forbidden
    ensures gate == Public ==> s == OK
    ensures gate != Public ==> (s == Unauthorized <==> caller.None?)
    ensures gate.RoleOnly? ==> (s == OK <==> caller.Some? && caller.value.role == gate.role)
  {
    match gate
    case Public => OK
    case SignedIn => if caller.None? then Unauthorized else OK
    case RoleOnly(role) =>
      if caller.None? then Unauthorized else if caller.value.role != role then Forbidden else OK
  }

  /**
   * The ownership check of the handlers that read or change one record:
   * only a customer who does not own it is refused.
   */
  function Access(caller: Caller, owner: nat): (s: HttpStatus)
    ensures s == OK || s == Forbidden
    ensures s == Forbidden <==> caller.role == Customer && owner != caller.id
  {
    if caller.role == Customer && owner != caller.id then Forbidden else OK
  }

  /** The values of the parameter segments, in order. */
  function Params(pattern: seq<string>, path: seq<string>): seq<string>
    requires |pattern| == |path|
  {
    if pattern == [] then []
    else (if IsParameter(pattern[0]) then [path[0]] else []) + Params(pattern[1..], path[1..])
  }

  function Dispatch<H>(routes: seq<Route<H>>, verb: Verb, path: seq<string>, caller: Option<Caller>): (o: Outcome<H>)
    ensures o.NoRoute? <==> FirstMatch(routes, verb, path).None?
    ensures o.Handled? ==> (FirstMatch(routes, verb, path).Some?
                            && o.handler == routes[FirstMatch(routes, verb, path).value].handler
                            && Admit(routes[FirstMatch(routes, verb, path).value].gate, caller) == OK)
    ensures o.Denied? ==> (FirstMatch(routes, verb, path).Some?
                           && o.status == Admit(routes[FirstMatch(routes, verb, path).value].gate, caller)
                           && o.status != OK)
  {
    match FirstMatch(routes, verb, path)
    case None => NoRoute
    case Some(i) =>
      var route := routes[i];
      var s := Admit(route.gate, caller);
      if s == OK then Handled(route.handler, Params(route.pattern, path)) else Denied(s)
  }
}
