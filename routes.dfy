/** The route registry of the routes service: the uniqueness validator of
    `vHost` (`validatevHost`) and the creation of a route, which runs it and
    draws the two session tokens. The entity store is modelled as a table of
    rows; a row whose `deletedAt` is set has been soft-deleted. */
module Routes {
  import opened Common
  import Session

  datatype Strategy = RandomStrategy | IPHashStrategy | LatencyStrategy | RoundRobinStrategy

  datatype Route = Route(
    id: nat,
    vHost: string,
    zone: Option<string>,
    metricSession: string,
    logSession: string,
    certs: bool,
    auth: Option<string>,
    strategy: Strategy,
    owner: string,
    deletedAt: Option<int>)

  /** A live route (not soft-deleted) that already carries `vHost`. */
  predicate ClaimsVHost(r: Route, vHost: string) {
    r.vHost == vHost && r.deletedAt.None?
  }

  /** `validatevHost`: count the rows, deleted ones excluded, whose `vHost`
      is the value, and accept only a zero count. A route has no `port`, so
      the message shows `undefined` there. */
  function ValidatevHost(rows: seq<Route>, value: string, paramsVHost: string): (r: Check)
    ensures r == Accepted <==> forall i :: 0 <= i < |rows| ==> !ClaimsVHost(rows[i], value)
    ensures r.Refused? ==> r.message == AlreadyAttached(paramsVHost, "undefined", value)
  {
    CountZero(rows, (row: Route) => ClaimsVHost(row, value));
    if Count(rows, (row: Route) => ClaimsVHost(row, value)) == 0 then Accepted
    else Refused(AlreadyAttached(paramsVHost, "undefined", value))
  }

  /** No two live routes share a vHost. */
  ghost predicate UniqueLiveVHosts(rows: seq<Route>) {
    forall i, j :: 0 <= i < j < |rows| && rows[i].deletedAt.None? && rows[j].deletedAt.None? ==>
      rows[i].vHost != rows[j].vHost
  }

  /** The route table as the entity store keeps it. */
  class RouteTable {
    var rows: seq<Route>
    var nextId: nat

    ghost predicate Valid()
      reads this
    {
      (forall i :: 0 <= i < |rows| ==> rows[i].id < nextId) &&
      (forall i, j :: 0 <= i < j < |rows| ==> rows[i].id != rows[j].id) &&
      UniqueLiveVHosts(rows)
    }

    constructor ()
      ensures Valid() && rows == []
    {
      rows := [];
      nextId := 0;
    }

    /** `create`: validate `vHost`, then store the route with the field
        defaults (no zone, certificates on, no auth, the latency strategy)
        and two fresh session tokens. */
    method Create(vHost: string, zone: Option<string>, certs: Option<bool>, auth: Option<string>,
                  strategy: Option<Strategy>, owner: string,
                  metricRandom: seq<Session.byte>, logRandom: seq<Session.byte>)
      returns (r: Result<Route, string>)
      requires Valid()
      requires |metricRandom| == Session.SessionBytes && |logRandom| == Session.SessionBytes
      modifies this
      ensures Valid()
      ensures r.Ok? <==> forall i :: 0 <= i < |old(rows)| ==> !ClaimsVHost(old(rows)[i], vHost)
      ensures r.Err? ==> rows == old(rows) && r.error == AlreadyAttached(vHost, "undefined", vHost)
      ensures r.Ok? ==> rows == old(rows) + [r.value]
      ensures r.Ok? ==> forall i :: 0 <= i < |old(rows)| ==> old(rows)[i].id != r.value.id
      ensures r.Ok? ==>
        r.value.vHost == vHost && r.value.owner == owner && r.value.deletedAt.None? &&
        r.value.zone == zone &&
        r.value.certs == (if certs.Some? then certs.value else true) &&
        r.value.auth == auth &&
        r.value.strategy == (if strategy.Some? then strategy.value else LatencyStrategy) &&
        r.value.metricSession == Session.GenerateSession(metricRandom) &&
        r.value.logSession == Session.GenerateSession(logRandom)
    {
      var check := ValidatevHost(rows, vHost, vHost);
      if check.Refused? {
        return Err(check.message);
      }
      var route := Route(
        nextId, vHost, zone,
        Session.GenerateSession(metricRandom), Session.GenerateSession(logRandom),
        if certs.Some? then certs.value else true,
        auth,
        if strategy.Some? then strategy.value else LatencyStrategy,
        owner, None);
      rows := rows + [route];
      nextId := nextId + 1;
      r := Ok(route);
    }
  }
}
