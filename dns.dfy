/** The DNS side of the routers service: the `addvHost` and `removevHost`
    actions and the four event handlers (`routes.created`, `routes.removed`,
    `routers.created`, `routers.removed`) that issue A-record calls to the
    DNS provider.

    The provider is an object that records every call made to it, in order,
    and answers call number k with `respond(k)`; a failing answer is how a
    provider error enters the model. The router table and the vHost list
    that `v1.routes.vHosts` answers are parameters: none of these handlers
    writes to them. */
module Dns {
  import opened Common

  datatype Router = Router(ipv4: string, enabled: bool, deletedAt: Option<int>)

  /** One element of the `v1.routes.vHosts` answer. */
  datatype VHostEntry = VHostEntry(vHost: string, owner: string)

  /** The payload of a `routes.*` event: the route, its owner populated. */
  datatype Owner = Owner(id: string)
  datatype RouteData = RouteData(vHost: string, owner: Owner)

  datatype RecordOp = AddRecord | RemoveRecord

  /** `ctx.call("v1.domains.<op>", { fqdn, type, data }, { meta: { userID } })`. */
  datatype DnsCall = DnsCall(op: RecordOp, fqdn: string, recordType: string, data: string, userID: string)

  /** What a provider call settles to: a record, nothing, or an error. */
  datatype Reply = Record(id: string) | NoRecord | Failure(error: string)

  class DnsProvider {
    var log: seq<DnsCall>
    const respond: nat -> Reply

    constructor (respond: nat -> Reply)
      ensures log == [] && this.respond == respond
    {
      log := [];
      this.respond := respond;
    }

    /** One awaited call: it is recorded, then answered. */
    method Call(c: DnsCall) returns (reply: Reply)
      modifies this
      ensures log == old(log) + [c]
      ensures reply == respond(|old(log)|)
    {
      reply := respond(|log|);
      log := log + [c];
    }
  }

  /** Whether an answer ends the loop. An error always does, since nothing
      catches it. `addvHost` logs `record.id`, so there an answer without a
      record ends it too (a `TypeError`); the other loops log `record?.id`. */
  predicate Stops(reply: Reply, readsId: bool) {
    reply.Failure? || (readsId && reply.NoRecord?)
  }

  /** How many of `n` planned calls are issued when the first of them is
      provider call number `base`: up to and including the first answer
      that stops the loop. */
  function Issued(n: nat, base: nat, respond: nat -> Reply, readsId: bool): (k: nat)
    ensures k <= n
    ensures n > 0 ==> k > 0
    decreases n
  {
    if n == 0 then 0
    else if Stops(respond(base), readsId) then 1
    else 1 + Issued(n - 1, base + 1, respond, readsId)
  }

  /** No answer among the `n` calls stops the loop. */
  predicate Completes(n: nat, base: nat, respond: nat -> Reply, readsId: bool) {
    forall c :: base <= c < base + n ==> !Stops(respond(c), readsId)
  }

  /** When nothing fails, every planned call is issued. */
  lemma {:induction false} IssuedAll(n: nat, base: nat, respond: nat -> Reply, readsId: bool)
    requires Completes(n, base, respond, readsId)
    ensures Issued(n, base, respond, readsId) == n
  {
    if n > 0 {
      IssuedAll(n - 1, base + 1, respond, readsId);
    }
  }

  /** When the answer to call `base + k` is the first to stop the loop,
      calls `base` to `base + k` are issued and no later one is. */
  lemma {:induction false} IssuedStopsAtFirstFailure(n: nat, base: nat, respond: nat -> Reply, readsId: bool, k: nat)
    requires k < n
    requires Stops(respond(base + k), readsId)
    requires forall c :: base <= c < base + k ==> !Stops(respond(c), readsId)
    ensures Issued(n, base, respond, readsId) == k + 1
  {
    if k > 0 {
      IssuedStopsAtFirstFailure(n - 1, base + 1, respond, readsId, k - 1);
    }
  }

  /** Issue the planned calls one after another, each awaited; the first
      answer that stops the loop propagates, so later calls are never made. */
  method IssueInOrder(dns: DnsProvider, plan: seq<DnsCall>, readsId: bool) returns (ok: bool)
    modifies dns
    ensures dns.log == old(dns.log) + plan[..Issued(|plan|, |old(dns.log)|, dns.respond, readsId)]
    ensures ok <==> Completes(|plan|, |old(dns.log)|, dns.respond, readsId)
  {
    ghost var base := |dns.log|;
    ghost var log0 := dns.log;
    var index := 0;
    while index < |plan|
      invariant 0 <= index <= |plan|
      invariant dns.log == log0 + plan[..index]
      invariant forall c :: base <= c < base + index ==> !Stops(dns.respond(c), readsId)
      invariant Issued(|plan|, base, dns.respond, readsId) ==
                index + Issued(|plan| - index, base + index, dns.respond, readsId)
    {
      var reply := dns.Call(plan[index]);
      assert plan[..index + 1] == plan[..index] + [plan[index]];
      if Stops(reply, readsId) {
        return false;
      }
      index := index + 1;
    }
    assert plan[..index] == plan;
    ok := true;
  }

  /** `findEntities` with `{ enabled: true }` under the `notDeleted` default
      scope. */
  predicate Active(r: Router) {
    r.enabled && r.deletedAt.None?
  }

  function EnabledRouters(table: seq<Router>): seq<Router> {
    Filter(table, Active)
  }

  /** The calls `addvHost`/`removevHost` plan: one per router, in order. */
  function RouterCalls(op: RecordOp, vHost: string, owner: string, routers: seq<Router>): seq<DnsCall>
  {
    seq(|routers|, i requires 0 <= i < |routers| => DnsCall(op, vHost, "A", routers[i].ipv4, owner))
  }

  /** The calls a router event plans: one per vHost entry, in order. */
  function VHostCalls(op: RecordOp, ipv4: string, vHosts: seq<VHostEntry>): seq<DnsCall>
  {
    seq(|vHosts|, i requires 0 <= i < |vHosts| => DnsCall(op, vHosts[i].vHost, "A", ipv4, vHosts[i].owner))
  }

  /** The route-side plan is exactly one call per active router: each
      carries the vHost, type A, that router's address and the owner, and
      every active router has its call. */
  lemma RouterPlanCoversActiveRouters(op: RecordOp, vHost: string, owner: string, table: seq<Router>)
    ensures |RouterCalls(op, vHost, owner, EnabledRouters(table))| == Count(table, Active)
    ensures forall i :: 0 <= i < |table| && Active(table[i]) ==>
      DnsCall(op, vHost, "A", table[i].ipv4, owner) in RouterCalls(op, vHost, owner, EnabledRouters(table))
    ensures forall c :: c in RouterCalls(op, vHost, owner, EnabledRouters(table)) ==>
      c.op == op && c.fqdn == vHost && c.recordType == "A" && c.userID == owner &&
      exists i :: 0 <= i < |table| && Active(table[i]) && table[i].ipv4 == c.data
  {
    var enabled := EnabledRouters(table);
    var plan := RouterCalls(op, vHost, owner, enabled);
    forall i | 0 <= i < |table| && Active(table[i])
      ensures DnsCall(op, vHost, "A", table[i].ipv4, owner) in plan
    {
      var k :| 0 <= k < |enabled| && enabled[k] == table[i];
      assert plan[k] == DnsCall(op, vHost, "A", table[i].ipv4, owner);
    }
    forall c | c in plan
      ensures exists i :: 0 <= i < |table| && Active(table[i]) && table[i].ipv4 == c.data
    {
      var k :| 0 <= k < |plan| && plan[k] == c;
      assert enabled[k] in table;
    }
  }

  /** The route-side plan follows the order of the router table. */
  lemma RouterPlanFollowsTableOrder(op: RecordOp, vHost: string, owner: string, a: seq<Router>, b: seq<Router>)
    ensures RouterCalls(op, vHost, owner, EnabledRouters(a + b)) ==
            RouterCalls(op, vHost, owner, EnabledRouters(a)) + RouterCalls(op, vHost, owner, EnabledRouters(b))
  {
    FilterAppend(a, b, Active);
    RouterCallsAppend(op, vHost, owner, EnabledRouters(a), EnabledRouters(b));
  }

  lemma RouterCallsAppend(op: RecordOp, vHost: string, owner: string, a: seq<Router>, b: seq<Router>)
    ensures RouterCalls(op, vHost, owner, a + b) ==
            RouterCalls(op, vHost, owner, a) + RouterCalls(op, vHost, owner, b)
  {
    var whole := RouterCalls(op, vHost, owner, a + b);
    var parts := RouterCalls(op, vHost, owner, a) + RouterCalls(op, vHost, owner, b);
    assert |whole| == |parts|;
    forall i | 0 <= i < |whole|
      ensures whole[i] == parts[i]
    {
      if i < |a| {
        assert (a + b)[i] == a[i];
      } else {
        assert (a + b)[i] == b[i - |a|];
      }
    }
  }

  /** With no failing answer, creating or removing a route issues exactly
      one call per active router; with the answer to the k-th call failing,
      exactly the first k + 1 calls. */
  lemma RouteEventCallCount(op: RecordOp, vHost: string, owner: string, table: seq<Router>,
                            base: nat, respond: nat -> Reply, readsId: bool)
    ensures var plan := RouterCalls(op, vHost, owner, EnabledRouters(table));
      Completes(|plan|, base, respond, readsId) ==>
        plan[..Issued(|plan|, base, respond, readsId)] == plan && |plan| == Count(table, Active)
    ensures var plan := RouterCalls(op, vHost, owner, EnabledRouters(table));
      forall k :: 0 <= k < |plan| && Stops(respond(base + k), readsId) && Completes(k, base, respond, readsId) ==>
        plan[..Issued(|plan|, base, respond, readsId)] == plan[..k + 1]
  {
    var plan := RouterCalls(op, vHost, owner, EnabledRouters(table));
    if Completes(|plan|, base, respond, readsId) {
      IssuedAll(|plan|, base, respond, readsId);
    }
    forall k | 0 <= k < |plan| && Stops(respond(base + k), readsId) && Completes(k, base, respond, readsId)
      ensures plan[..Issued(|plan|, base, respond, readsId)] == plan[..k + 1]
    {
      IssuedStopsAtFirstFailure(|plan|, base, respond, readsId, k);
    }
  }

  /** `addvHost`: one `addRecord` per active router, owner as `userID`. */
  method AddvHost(dns: DnsProvider, table: seq<Router>, vHost: string, owner: string) returns (ok: bool)
    modifies dns
    ensures var plan := RouterCalls(AddRecord, vHost, owner, EnabledRouters(table));
      dns.log == old(dns.log) + plan[..Issued(|plan|, |old(dns.log)|, dns.respond, true)] &&
      (ok <==> Completes(|plan|, |old(dns.log)|, dns.respond, true))
  {
    var routers := EnabledRouters(table);
    ok := IssueInOrder(dns, RouterCalls(AddRecord, vHost, owner, routers), true);
  }

  /** `removevHost`: one `removeRecord` per active router, owner as
      `userID`. */
  method RemovevHost(dns: DnsProvider, table: seq<Router>, vHost: string, owner: string) returns (ok: bool)
    modifies dns
    ensures var plan := RouterCalls(RemoveRecord, vHost, owner, EnabledRouters(table));
      dns.log == old(dns.log) + plan[..Issued(|plan|, |old(dns.log)|, dns.respond, false)] &&
      (ok <==> Completes(|plan|, |old(dns.log)|, dns.respond, false))
  {
    var routers := EnabledRouters(table);
    ok := IssueInOrder(dns, RouterCalls(RemoveRecord, vHost, owner, routers), false);
  }

  /** `routes.created`: `addvHost` for the route's vHost and owner id. */
  method RoutesCreated(dns: DnsProvider, table: seq<Router>, route: RouteData) returns (ok: bool)
    modifies dns
    ensures var plan := RouterCalls(AddRecord, route.vHost, route.owner.id, EnabledRouters(table));
      dns.log == old(dns.log) + plan[..Issued(|plan|, |old(dns.log)|, dns.respond, true)] &&
      (ok <==> Completes(|plan|, |old(dns.log)|, dns.respond, true))
  {
    ok := AddvHost(dns, table, route.vHost, route.owner.id);
  }

  /** `routes.removed`: `removevHost` for the route's vHost and owner id. */
  method RoutesRemoved(dns: DnsProvider, table: seq<Router>, route: RouteData) returns (ok: bool)
    modifies dns
    ensures var plan := RouterCalls(RemoveRecord, route.vHost, route.owner.id, EnabledRouters(table));
      dns.log == old(dns.log) + plan[..Issued(|plan|, |old(dns.log)|, dns.respond, false)] &&
      (ok <==> Completes(|plan|, |old(dns.log)|, dns.respond, false))
  {
    ok := RemovevHost(dns, table, route.vHost, route.owner.id);
  }

  /** `routers.created`: nothing for a disabled router; otherwise one
      `addRecord` per vHost entry, each with that entry's owner. */
  method RoutersCreated(dns: DnsProvider, router: Router, vHosts: seq<VHostEntry>) returns (ok: bool)
    modifies dns
    ensures !router.enabled ==> ok && dns.log == old(dns.log)
    ensures router.enabled ==>
      var plan := VHostCalls(AddRecord, router.ipv4, vHosts);
      dns.log == old(dns.log) + plan[..Issued(|plan|, |old(dns.log)|, dns.respond, false)] &&
      (ok <==> Completes(|plan|, |old(dns.log)|, dns.respond, false))
  {
    ok := true;
    if router.enabled {
      ok := IssueInOrder(dns, VHostCalls(AddRecord, router.ipv4, vHosts), false);
    }
  }

  /** `routers.removed`: the mirror of `routers.created`, with
      `removeRecord`, gated on the removed router's `enabled`. */
  method RoutersRemoved(dns: DnsProvider, router: Router, vHosts: seq<VHostEntry>) returns (ok: bool)
    modifies dns
    ensures !router.enabled ==> ok && dns.log == old(dns.log)
    ensures router.enabled ==>
      var plan := VHostCalls(RemoveRecord, router.ipv4, vHosts);
      dns.log == old(dns.log) + plan[..Issued(|plan|, |old(dns.log)|, dns.respond, false)] &&
      (ok <==> Completes(|plan|, |old(dns.log)|, dns.respond, false))
  {
    ok := true;
    if router.enabled {
      ok := IssueInOrder(dns, VHostCalls(RemoveRecord, router.ipv4, vHosts), false);
    }
  }

  /** The router-side plan: one call per vHost entry, in order, each with
      the router's address and that entry's owner. */
  lemma VHostPlanIsOnePerEntry(op: RecordOp, ipv4: string, vHosts: seq<VHostEntry>, i: nat)
    requires i < |vHosts|
    ensures |VHostCalls(op, ipv4, vHosts)| == |vHosts|
    ensures VHostCalls(op, ipv4, vHosts)[i] == DnsCall(op, vHosts[i].vHost, "A", ipv4, vHosts[i].owner)
  {
  }

  /** With no failing answer, creating or removing an enabled router issues
      exactly one call per vHost entry; with the answer to the k-th call the
      first to fail, exactly the first k + 1 calls. */
  lemma RouterEventCallCount(op: RecordOp, ipv4: string, vHosts: seq<VHostEntry>,
                             base: nat, respond: nat -> Reply, readsId: bool)
    ensures var plan := VHostCalls(op, ipv4, vHosts);
      Completes(|plan|, base, respond, readsId) ==>
        plan[..Issued(|plan|, base, respond, readsId)] == plan && |plan| == |vHosts|
    ensures var plan := VHostCalls(op, ipv4, vHosts);
      forall k :: 0 <= k < |plan| && Stops(respond(base + k), readsId) && Completes(k, base, respond, readsId) ==>
        plan[..Issued(|plan|, base, respond, readsId)] == plan[..k + 1]
  {
    var plan := VHostCalls(op, ipv4, vHosts);
    if Completes(|plan|, base, respond, readsId) {
      IssuedAll(|plan|, base, respond, readsId);
    }
    forall k | 0 <= k < |plan| && Stops(respond(base + k), readsId) && Completes(k, base, respond, readsId)
      ensures plan[..Issued(|plan|, base, respond, readsId)] == plan[..k + 1]
    {
      IssuedStopsAtFirstFailure(|plan|, base, respond, readsId, k);
    }
  }
}
