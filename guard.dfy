/** `validateHasRoutePermissions`, the query guard that the routes service
    and the route-hosts service each define (the two copies are identical).
    In the route-hosts service it is the `route` default scope, applied
    beside `notDeleted` to every scoped host query.

    What the `v1.routes.resolve` call settles to is a parameter. */
module RouteGuard {
  import opened Common

  /** How the running action declares its `route` parameter. */
  datatype RouteParam = NotDeclared | Declared(optional: bool)

  /** The guard's `ctx`: absent while the adapter initialises, otherwise the
      action's parameter schema, which may itself be missing. */
  datatype Caller = NoContext | Context(schema: Option<RouteParam>)

  /** The five ways the guard ends, a sixth for a resolve call that rejects
      (its error propagates), and a seventh for a context whose action has
      no parameter schema: `ctx.action.params.route` then throws a
      `TypeError`. */
  datatype Verdict =
    | KeepQuery               // `return query` untouched
    | ScopeTo(route: string)  // `query.route = params.route; return query`
    | Forbidden(route: string) // 403 ERR_NO_PERMISSION
    | ResolveFailed(error: string) // the awaited resolve call rejected
    | RouteRequired           // 422 VALIDATION_ERROR on field "route"
    | NoQuery                 // falls off the end: `undefined`
    | SchemaMissing           // TypeError reading `route` of `undefined`

  /** JavaScript truthiness of `params.route`: present and not empty. */
  predicate Truthy(route: Option<string>) {
    route.Some? && route.value != ""
  }

  /** The guard's decision. */
  function Decide(caller: Caller, route: Option<string>, resolved: ResolveReply): (v: Verdict)
    ensures v == KeepQuery <==> caller.NoContext?
    ensures v.ScopeTo? <==> caller.Context? && Truthy(route) && resolved == Answered(true)
    ensures v.ScopeTo? ==> v.route == route.value
    ensures v.Forbidden? <==> caller.Context? && Truthy(route) && resolved == Answered(false)
    ensures v.Forbidden? ==> v.route == route.value
    ensures v.ResolveFailed? <==> caller.Context? && Truthy(route) && resolved.CallFailed?
    ensures v.ResolveFailed? ==> v.error == resolved.error
    ensures v == RouteRequired <==>
      caller.Context? && !Truthy(route) && caller.schema == Some(Declared(false))
    ensures v == NoQuery <==>
      caller.Context? && !Truthy(route) &&
      (caller.schema == Some(NotDeclared) || caller.schema == Some(Declared(true)))
    ensures v == SchemaMissing <==> caller.Context? && !Truthy(route) && caller.schema.None?
  {
    match caller
    case NoContext => KeepQuery
    case Context(schema) =>
      if Truthy(route) then
        match resolved
        case Answered(found) => if found then ScopeTo(route.value) else Forbidden(route.value)
        case CallFailed(e) => ResolveFailed(e)
      else
        match schema
        case None => SchemaMissing
        case Some(Declared(optional)) => if !optional then RouteRequired else NoQuery
        case Some(NotDeclared) => NoQuery
  }

  /** A `MoleculerClientError`: message, code, type and data. */
  datatype ErrorData = NoRightFor(route: string) | RequiredField(field: string)
  datatype ClientError = ClientError(message: string, code: int, kind: string, data: ErrorData)

  function NoPermissionError(route: string): ClientError {
    ClientError("You have no right for the route '" + route + "'", 403, "ERR_NO_PERMISSION", NoRightFor(route))
  }

  const RouteRequiredError := ClientError("route is required", 422, "VALIDATION_ERROR", RequiredField("route"))

  /** A query filter object, which the guard edits in place. */
  class Query {
    var filter: map<string, string>

    constructor (filter: map<string, string>)
      ensures this.filter == filter
    {
      this.filter := filter;
    }
  }

  /** What the guard's promise settles to. */
  datatype Outcome =
    | Returned(query: Query)
    | Undefined
    | Threw(error: ClientError)
    | Propagated(reason: string)  // the resolve call's own rejection
    | TypeError

  /** The guard itself: on success it writes the raw `params.route` into
      `query.route` and hands back the same object. */
  method ValidateHasRoutePermissions(query: Query, caller: Caller, route: Option<string>, resolved: ResolveReply)
    returns (out: Outcome)
    modifies query
    ensures match Decide(caller, route, resolved)
      case KeepQuery => out == Returned(query) && query.filter == old(query.filter)
      case ScopeTo(r) => out == Returned(query) && query.filter == old(query.filter)["route" := r]
      case Forbidden(r) => out == Threw(NoPermissionError(r)) && query.filter == old(query.filter)
      case ResolveFailed(e) => out == Propagated(e) && query.filter == old(query.filter)
      case RouteRequired => out == Threw(RouteRequiredError) && query.filter == old(query.filter)
      case NoQuery => out == Undefined && query.filter == old(query.filter)
      case SchemaMissing => out == TypeError && query.filter == old(query.filter)
  {
    if caller.NoContext? {
      return Returned(query);
    }
    if Truthy(route) {
      match resolved
      case CallFailed(e) =>
        return Propagated(e);
      case Answered(found) =>
        if found {
          query.filter := query.filter["route" := route.value];
          return Returned(query);
        }
        return Threw(NoPermissionError(route.value));
    }
    match caller.schema
    case None =>
      out := TypeError;
    case Some(NotDeclared) =>
      out := Undefined;
    case Some(Declared(optional)) =>
      if !optional {
        return Threw(RouteRequiredError);
      }
      out := Undefined;
  }

  /** The scoped actions of the route-hosts service and how each declares
      `route`: `list` and `count` declare it as a plain string, so required;
      `find` declares no parameters. */
  datatype HostsAction = HostsList | HostsFind | HostsCount

  function HostsRouteParam(a: HostsAction): RouteParam
  {
    match a
    case HostsList => Declared(false)
    case HostsFind => NotDeclared
    case HostsCount => Declared(false)
  }

  /** Without a route, exactly `list` and `count` fail with 422; `find`
      yields no query; a route that resolves scopes every one of them, one
      that does not is refused with 403, and a rejected resolve call fails
      the query with its own error. */
  lemma HostsActionsWithoutRoute(a: HostsAction, route: Option<string>, resolved: ResolveReply)
    ensures var v := Decide(Context(Some(HostsRouteParam(a))), route, resolved);
      (!Truthy(route) ==> (v == RouteRequired <==> a != HostsFind)) &&
      (!Truthy(route) && a == HostsFind ==> v == NoQuery) &&
      (Truthy(route) ==> v == match resolved
        case Answered(found) => if found then ScopeTo(route.value) else Forbidden(route.value)
        case CallFailed(e) => ResolveFailed(e))
  {
  }

  /** The guard never scopes a query to a route it could not resolve, and it
      scopes to the raw parameter, never to anything else. */
  lemma ScopedOnlyToResolvedRoute(caller: Caller, route: Option<string>, resolved: ResolveReply, r: string)
    requires Decide(caller, route, resolved) == ScopeTo(r)
    ensures resolved == Answered(true) && route == Some(r) && r != ""
  {
  }
}
