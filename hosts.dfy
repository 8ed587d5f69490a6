/** The route-hosts service: a route's pool of backend hosts. Modelled here:
    the field defaults of a new host, the two field validators
    (`validateRoute`, `validateHostname`), creation, `findAndRemove`, and the
    `routes.removed` handler that removes every host of a removed route.

    The entity store is a table of rows. Removing an entity is a soft delete
    (the `deletedAt` field is stamped with the clock), and the clock is a
    parameter. */
module Hosts {
  import opened Common

  datatype Group = Blue | Green
  datatype Protocol = Http | Https  // the enum values "http:" and "https:"

  datatype Host = Host(
    id: nat,
    route: string,
    hostname: string,
    port: int,
    weight: int,
    vnodes: int,
    group: Group,
    protocol: Protocol,
    cluster: string,
    deletedAt: Option<int>)

  const DefaultWeight := 200
  const DefaultVnodes := 50
  const DefaultGroup := Blue
  const DefaultProtocol := Http
  const DefaultCluster := "default"

  /** The optional fields a caller may give when creating a host. */
  datatype HostOptions = HostOptions(
    weight: Option<int>,
    vnodes: Option<int>,
    group: Option<Group>,
    protocol: Option<Protocol>,
    cluster: Option<string>)

  function OrElse<T>(o: Option<T>, fallback: T): T {
    if o.Some? then o.value else fallback
  }

  /** A new live host: every optional field that was not given takes its
      default, every given one is kept. */
  function NewHost(id: nat, route: string, hostname: string, port: int, opts: HostOptions): (h: Host)
    ensures h.id == id && h.route == route && h.hostname == hostname && h.port == port
    ensures h.deletedAt.None?
    ensures opts.weight.None? ==> h.weight == 200
    ensures opts.vnodes.None? ==> h.vnodes == 50
    ensures opts.group.None? ==> h.group == Blue
    ensures opts.protocol.None? ==> h.protocol == Http
    ensures opts.cluster.None? ==> h.cluster == "default"
    ensures opts.weight.Some? ==> h.weight == opts.weight.value
    ensures opts.vnodes.Some? ==> h.vnodes == opts.vnodes.value
    ensures opts.group.Some? ==> h.group == opts.group.value
    ensures opts.protocol.Some? ==> h.protocol == opts.protocol.value
    ensures opts.cluster.Some? ==> h.cluster == opts.cluster.value
  {
    Host(id, route, hostname, port,
         OrElse(opts.weight, DefaultWeight), OrElse(opts.vnodes, DefaultVnodes),
         OrElse(opts.group, DefaultGroup), OrElse(opts.protocol, DefaultProtocol),
         OrElse(opts.cluster, DefaultCluster), None)
  }

  /** How JavaScript writes an integer into a template string. */
  function Decimal(n: int): (s: string)
    ensures |s| > 0
    decreases if n < 0 then 1 - n else n
  {
    if n < 0 then "-" + Decimal(-n)
    else if n < 10 then [('0' as int + n) as char]
    else Decimal(n / 10) + [('0' as int + n % 10) as char]
  }

  /** A live host already bound to this route, port and hostname. */
  predicate Occupies(h: Host, route: string, port: int, hostname: string) {
    h.route == route && h.port == port && h.hostname == hostname && h.deletedAt.None?
  }

  /** `validateHostname`: count the rows, deleted ones excluded, with the
      same route, port and hostname, and accept only a zero count. */
  function ValidateHostname(rows: seq<Host>, route: string, port: int, hostname: string): (r: Check)
    ensures r == Accepted <==> forall i :: 0 <= i < |rows| ==> !Occupies(rows[i], route, port, hostname)
    ensures r.Refused? ==> r.message == AlreadyAttached(route, Decimal(port), hostname)
  {
    CountZero(rows, (h: Host) => Occupies(h, route, port, hostname));
    if Count(rows, (h: Host) => Occupies(h, route, port, hostname)) == 0 then Accepted
    else Refused(AlreadyAttached(route, Decimal(port), hostname))
  }

  /** `validateRoute`: `true` whether or not the route was found; only a
      rejected call, whose error the validator hands back, is not `true`. */
  function ValidateRoute(reply: ResolveReply): (r: Check)
    ensures r == Accepted <==> reply.Answered?
    ensures reply.CallFailed? ==> r == Refused(reply.error)
  {
    match reply
    case Answered(_) => Accepted
    case CallFailed(e) => Refused(e)
  }

  /** `findEntity` without scopes: the first row from `from` on that
      satisfies the query, deleted rows included. The query is whatever
      `{ ...params }` the caller forwards, so it is any test on a row. */
  function FirstMatch(rows: seq<Host>, q: Host -> bool, from: nat := 0): (k: Option<nat>)
    requires from <= |rows|
    ensures k.Some? ==> from <= k.value < |rows| && q(rows[k.value])
    ensures k.Some? ==> forall j :: from <= j < k.value ==> !q(rows[j])
    ensures k.None? ==> forall j :: from <= j < |rows| ==> !q(rows[j])
    decreases |rows| - from
  {
    if from == |rows| then None
    else if q(rows[from]) then Some(from)
    else FirstMatch(rows, q, from + 1)
  }

  function Stamp(h: Host, now: int): Host {
    h.(deletedAt := Some(now))
  }

  /** The table after the `routes.removed` handler: every host of the route
      whose removal did not fail is stamped, deleted or not; the rest is as
      it was. */
  function Cascaded(rows: seq<Host>, routeId: string, now: int, failing: set<nat>): seq<Host>
  {
    seq(|rows|, i requires 0 <= i < |rows| =>
      if rows[i].route == routeId && rows[i].id !in failing then Stamp(rows[i], now) else rows[i])
  }

  /** When no removal fails, no live host of the removed route is left, and
      the hosts of other routes are untouched. */
  lemma CascadeLeavesNoHostBehind(rows: seq<Host>, routeId: string, now: int)
    ensures |Cascaded(rows, routeId, now, {})| == |rows|
    ensures forall i :: 0 <= i < |rows| && rows[i].route == routeId ==>
      Cascaded(rows, routeId, now, {})[i].deletedAt == Some(now)
    ensures forall i :: 0 <= i < |rows| && rows[i].route != routeId ==>
      Cascaded(rows, routeId, now, {})[i] == rows[i]
  {
  }

  /** No two live hosts share a route, port and hostname. */
  ghost predicate UniqueLiveBindings(rows: seq<Host>) {
    forall i, j :: 0 <= i < j < |rows| && rows[i].deletedAt.None? && rows[j].deletedAt.None? ==>
      !Occupies(rows[j], rows[i].route, rows[i].port, rows[i].hostname)
  }

  ghost predicate UniqueIds(rows: seq<Host>) {
    forall i, j :: 0 <= i < j < |rows| ==> rows[i].id != rows[j].id
  }

  /** The host table as the entity store keeps it. */
  class HostTable {
    var rows: seq<Host>
    var nextId: nat

    ghost predicate Valid()
      reads this
    {
      (forall i :: 0 <= i < |rows| ==> rows[i].id < nextId) &&
      UniqueIds(rows) &&
      UniqueLiveBindings(rows)
    }

    constructor ()
      ensures Valid() && rows == []
    {
      rows := [];
      nextId := 0;
    }

    /** `create`: run the validators in field order (`route`, then
        `hostname`), then store the host with its defaults. */
    method Create(route: string, hostname: string, port: int, opts: HostOptions, resolved: ResolveReply)
      returns (r: Result<Host, string>)
      requires Valid()
      modifies this
      ensures Valid()
      ensures r.Ok? <==> resolved.Answered? && ValidateHostname(old(rows), route, port, hostname).Accepted?
      ensures r.Err? ==> rows == old(rows)
      ensures r.Err? && resolved.CallFailed? ==> r.error == resolved.error
      ensures r.Err? && resolved.Answered? ==> r.error == AlreadyAttached(route, Decimal(port), hostname)
      ensures r.Ok? ==> rows == old(rows) + [r.value] && r.value == NewHost(r.value.id, route, hostname, port, opts)
      ensures r.Ok? ==> forall i :: 0 <= i < |old(rows)| ==> old(rows)[i].id != r.value.id
    {
      var routeCheck := ValidateRoute(resolved);
      if routeCheck.Refused? {
        return Err(routeCheck.message);
      }
      var hostCheck := ValidateHostname(rows, route, port, hostname);
      if hostCheck.Refused? {
        return Err(hostCheck.message);
      }
      var host := NewHost(nextId, route, hostname, port, opts);
      rows := rows + [host];
      nextId := nextId + 1;
      r := Ok(host);
    }

    /** `removeEntity(ctx, { id })`: soft-delete the row with that id. */
    method RemoveById(id: nat, now: int)
      requires Valid()
      modifies this
      ensures Valid() && nextId == old(nextId)
      ensures |rows| == |old(rows)|
      ensures forall i :: 0 <= i < |rows| ==>
        rows[i] == if old(rows)[i].id == id then Stamp(old(rows)[i], now) else old(rows)[i]
    {
      rows := seq(|rows|, i requires 0 <= i < |rows| reads this =>
        if rows[i].id == id then Stamp(rows[i], now) else rows[i]);
    }

    /** `findAndRemove`: find the first row matching the query, scopes off;
        if there is one, remove it and answer its id, otherwise answer
        nothing and remove nothing. */
    method FindAndRemove(q: Host -> bool, now: int) returns (removed: Option<nat>)
      requires Valid()
      modifies this
      ensures Valid()
      ensures var k := FirstMatch(old(rows), q);
        (k.None? ==> removed.None? && rows == old(rows)) &&
        (k.Some? ==> removed == Some(old(rows)[k.value].id) &&
                     rows == old(rows)[k.value := Stamp(old(rows)[k.value], now)])
    {
      var k := FirstMatch(rows, q);
      if k.None? {
        return None;
      }
      var id := rows[k.value].id;
      ghost var before := rows;
      RemoveById(id, now);
      assert forall i :: 0 <= i < |before| && i != k.value ==> before[i].id != id;
      removed := Some(id);
    }

    /** The `routes.removed` handler: look up every host of the route with
        scopes off (deleted ones included), then remove each one; the
        removals run together, so one that fails stops none of the others.
        The lookup failing, or any removal failing, is caught and logged:
        the handler itself never fails. */
    method RoutesRemoved(routeId: string, now: int, lookupFails: bool, failing: set<nat>)
      returns (logged: bool)
      requires Valid()
      modifies this
      ensures Valid()
      ensures lookupFails ==> logged && rows == old(rows)
      ensures !lookupFails ==> rows == Cascaded(old(rows), routeId, now, failing)
      ensures !lookupFails ==>
        (logged <==> exists i :: 0 <= i < |old(rows)| && old(rows)[i].route == routeId && old(rows)[i].id in failing)
    {
      if lookupFails {
        return true;
      }
      var attachments := Filter(rows, (h: Host) => h.route == routeId);
      AttachmentsOfRoute(rows, routeId, attachments, failing);
      logged := RemoveEach(attachments, now, failing);
    }

    /** The removals the cascade starts, one per looked-up host; those whose
        id is in `failing` reject, which the handler notices (and logs). */
    method RemoveEach(attachments: seq<Host>, now: int, failing: set<nat>) returns (anyFailed: bool)
      requires Valid()
      modifies this
      ensures Valid()
      ensures rows == Partial(old(rows), Ids(attachments), failing, now)
      ensures anyFailed <==> exists k :: 0 <= k < |attachments| && attachments[k].id in failing
    {
      ghost var rows0 := rows;
      anyFailed := false;
      var index := 0;
      while index < |attachments|
        invariant 0 <= index <= |attachments|
        invariant Valid()
        invariant rows == Partial(rows0, Ids(attachments[..index]), failing, now)
        invariant anyFailed <==> exists k :: 0 <= k < index && attachments[k].id in failing
      {
        var id := attachments[index].id;
        IdsStep(attachments, index);
        ghost var before := rows;
        if id in failing {
          anyFailed := true;
        } else {
          RemoveById(id, now);
        }
        PartialStep(rows0, Ids(attachments[..index]), id, failing, now, before, rows);
        index := index + 1;
      }
      assert attachments[..index] == attachments;
    }
  }

  /** The ids of a list of hosts. */
  function Ids(hosts: seq<Host>): set<nat>
  {
    set k | 0 <= k < |hosts| :: hosts[k].id
  }

  /** The table once the hosts whose ids are in `done` have been removed,
      except those whose removal failed. */
  function Partial(rows: seq<Host>, done: set<nat>, failing: set<nat>, now: int): seq<Host>
  {
    seq(|rows|, i requires 0 <= i < |rows| =>
      if rows[i].id in done && rows[i].id !in failing then Stamp(rows[i], now) else rows[i])
  }

  lemma IdsStep(hosts: seq<Host>, n: nat)
    requires n < |hosts|
    ensures Ids(hosts[..n + 1]) == Ids(hosts[..n]) + {hosts[n].id}
  {
    assert hosts[..n + 1] == hosts[..n] + [hosts[n]];
  }

  /** One more removal: stamping the row with `id` (or not, when its
      removal fails) extends the set of processed ids by `id`. */
  lemma PartialStep(rows: seq<Host>, done: set<nat>, id: nat, failing: set<nat>, now: int,
                    before: seq<Host>, after: seq<Host>)
    requires before == Partial(rows, done, failing, now)
    requires id in failing ==> after == before
    requires id !in failing ==> |after| == |before| && forall i :: 0 <= i < |after| ==>
      after[i] == if before[i].id == id then Stamp(before[i], now) else before[i]
    ensures after == Partial(rows, done + {id}, failing, now)
  {
  }

  /** With unique ids, the lookup's result is exactly the route's hosts, so
      removing all of them gives the cascaded table, and some removal fails
      exactly when a host of the route is among the failing ones. */
  lemma AttachmentsOfRoute(rows: seq<Host>, routeId: string, attachments: seq<Host>, failing: set<nat>)
    requires UniqueIds(rows)
    requires forall k :: 0 <= k < |attachments| ==> attachments[k] in rows && attachments[k].route == routeId
    requires forall i :: 0 <= i < |rows| && rows[i].route == routeId ==> rows[i] in attachments
    ensures forall now :: Partial(rows, Ids(attachments), failing, now) == Cascaded(rows, routeId, now, failing)
    ensures (exists k :: 0 <= k < |attachments| && attachments[k].id in failing) <==>
            (exists i :: 0 <= i < |rows| && rows[i].route == routeId && rows[i].id in failing)
  {
    forall i | 0 <= i < |rows|
      ensures rows[i].id in Ids(attachments) <==> rows[i].route == routeId
    {
      if rows[i].id in Ids(attachments) {
        var k :| 0 <= k < |attachments| && attachments[k].id == rows[i].id;
        var j :| 0 <= j < |rows| && rows[j] == attachments[k];
        assert j == i;
      }
    }
    if exists k :: 0 <= k < |attachments| && attachments[k].id in failing {
      var k :| 0 <= k < |attachments| && attachments[k].id in failing;
      var j :| 0 <= j < |rows| && rows[j] == attachments[k];
    }
  }
}
