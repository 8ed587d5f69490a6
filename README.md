# Routes control plane: a Dafny model of its decision logic

The routes repository is the control plane of a multi-tenant reverse proxy.
It runs as Moleculer services over a generic entity store. The routes service
tracks virtual hosts (vHosts), the route-hosts service tracks each route's
backend hosts, and the routers service tracks edge routers and advertises
their addresses in DNS. Most of the code is configuration handed to the
entity store. This project models the logic underneath that configuration:

- **DNS fan-out** (`services/routers.service.js`, module `Dns`).
  - Creating or removing a route issues one A-record call per active router (`addvHost`, `removevHost`).
  - Creating or removing an enabled router issues one call per vHost entry.
  - The calls are awaited one at a time, and the first failure ends the loop.
  - The DNS provider is a class that logs every call it receives. It answers
    call number k with `respond(k)`, so a failure at any chosen call can be
    modelled.
- **Scatter-gather** (`scrapeAgents` in `services/routes.service.js`, module
  `ScatterGather`).
  - One call goes to each node, pinned to that node.
  - The settled outcomes are zipped with the node list by index.
  - `sync`, `stats` and `info` keep only the fulfilled entries.
- **Host query guard** (`validateHasRoutePermissions`, module `RouteGuard`).
  The routes service and the route-hosts service each hold an identical copy;
  the model has one. The guard ends in one of five ways: the query unchanged,
  the query scoped to `params.route`, a 403 error, a 422 error, or nothing.
  When the `v1.routes.resolve` call it awaits rejects, the guard rejects with
  that call's error.
- **Uniqueness validators, creation, `findAndRemove` and the cascade**
  (modules `Routes`, `Hosts`, `Session`). Each table is a class holding a
  sequence of rows. A row with `deletedAt` set has been soft-deleted.
  - `validatevHost` and `validateHostname` accept only when no live row
    clashes, and creation keeps that uniqueness as a table invariant.
  - The `routes.removed` handler removes every host of the removed route.

`common.dfy` holds the shared pieces: `Option`, `Result`, the validator
outcome `Check`, and an order-preserving `Filter` with its lemmas.

### Behaviour of the code that a reader might not expect

- The DNS loops have no `try/catch`. A failed provider call ends the handler,
  and the remaining routers or vHosts are never processed. Logging each
  failure and moving on to the next item is not what the code does.
- `addvHost` logs `record.id` without optional chaining. A provider answer
  with no record therefore ends that loop too, with a `TypeError`. The other
  three loops use `record?.id` and do not stop on such an answer.
- The guard writes the raw `params.route` into the query, not the id of the
  resolved route. It tests `params.route` with JavaScript truthiness, so an
  empty string counts as no route.
- The guard throws a `TypeError` when the action has no parameter schema.
- `find` on hosts declares no `route` parameter. Without a route the guard
  returns nothing there, not a 422, so scoping is not enforced for `find`.
  Of `list`, `count` and `find`, only `list` and `count` reach the 422 branch.
- `sync`, `stats` and `info` declare a `target` parameter but never forward
  it. Every agent call carries the default empty parameters.
- The cascade looks hosts up with scopes off, so hosts that are already
  soft-deleted are removed again.
- `validatevHost` puts `params.port` in its message. A route has no port, so
  the message reads `'undefined'` in that place.
- `validateRoute` returns `true` whether or not the route resolves. Only a
  rejected resolve call yields something else: the error itself, through
  `.catch(err => err)`.
- The router event handlers check only the router's `enabled` flag. No
  handler reacts to a router update.

## Model

| member | source | states |
|---|---|---|
| `Common.FilterAppend` | services/routes.service.js:211 | filtering a concatenation is the concatenation of the filtered parts: the filter keeps relative order |
| `Common.FilterKeepsAll` | services/routes.service.js:221 | a filter returns its input unchanged exactly when every element satisfies the test |
| `Common.CountZero` | services/routes.service.js:302-314 | a count query returns 0 exactly when no row satisfies the query |
| `Session.GenerateSession` | services/routes.service.js:272-274 | a session token from 10 random bytes has 20 characters, all lower-case hex digits, and decodes back to those bytes |
| `Session.HexRoundTrip` | services/routes.service.js:273 | decoding the hex text of any byte sequence returns that byte sequence |
| `Session.HexInjective` | services/routes.service.js:60-67 | different random bytes never give the same metric or log session token |
| `ScatterGather.Gathered` | services/routes.service.js:259-268 | one entry per node in node-list order; entry i has node i's id and the status of outcome i; a fulfilled outcome fills `info` and leaves `reason` empty, a rejected one fills `reason` and leaves `info` empty |
| `ScatterGather.ScrapeAgents` | services/routes.service.js:249-271 | exactly one call per node, in list order, with the given action and params and pinned to that node; the result is the per-node zip of node and outcome, and a rejected call becomes an entry instead of an error |
| `ScatterGather.AdminQuery` | services/routes.service.js:204-233 | `sync`/`stats`/`info` call their agent action on every node with empty params whatever `target` is; they return the fulfilled entries of the gathered result, every fulfilled node is present, and nothing rejected is |
| `ScatterGather.FulfilledOnlyAppend` | services/routes.service.js:231 | the fulfilled-only filter preserves the order of the entries it keeps |
| `ScatterGather.AllFulfilledKeepsEveryNode` | services/routes.service.js:211-221 | when every node's call is fulfilled, the administrative query returns every entry |
| `ScatterGather.MiddleNodeFails` | services/routes.service.js:254-268 | for nodes A, B, C with B's call rejected: three entries in order A, B, C, with B rejected and carrying its error; the administrative query returns A and C in that order |
| `RouteGuard.Decide` | services/routes.service.js:276-301 | the guard's case split, as if-and-only-if conditions: no context keeps the query; a truthy route is scoped to exactly that raw value when it resolves, refused with 403 for that route when it does not, and failed with the resolve call's own error when that call rejects; with no route, an action whose `route` is declared non-optional gets 422, one that does not declare it or declares it optional gets nothing, and one with no schema gets a TypeError |
| `RouteGuard.ValidateHasRoutePermissions` | services/routes.hosts.service.js:237-262 | the identical copy in the route-hosts service, which edits the query in place: on scoping, `route` in the filter is set to the raw parameter and the same query object is returned; the 403 error carries code, type and `{ route }`; the 422 error names field `route`; a rejected resolve call's error is passed on; in every other case the filter is untouched |
| `RouteGuard.HostsActionsWithoutRoute` | services/routes.hosts.service.js:113-150 | as the default `route` scope: without a route, `list` and `count` fail with 422 and `find` yields no query; with a route, each action is scoped to it, refused with 403, or failed with the resolve call's error |
| `RouteGuard.ScopedOnlyToResolvedRoute` | services/routes.hosts.service.js:241-249 | a query is only scoped to a route the resolve call found, and only to the non-empty raw `params.route` |
| `Routes.ValidatevHost` | services/routes.service.js:302-316 | accepts exactly when no live route has the vHost; otherwise rejects with the "already attached" message built from `params.vHost`, an undefined port and the value |
| `Routes.RouteTable.Create` | services/routes.service.js:46-85 | creation succeeds exactly when `validatevHost` accepts. On success it appends a live route with a fresh id, the given fields, and the defaults (certs true, strategy `LatencyStrategy`, no zone, no auth), plus two tokens from `generateSession`. On failure the table is unchanged. Live vHosts stay unique |
| `Hosts.NewHost` | services/routes.hosts.service.js:62-91 | a created host takes weight 200, vnodes 50, group BLUE, protocol `http:` and cluster `default` for each field not given, and keeps each field that is given |
| `Hosts.ValidateHostname` | services/routes.hosts.service.js:278-294 | accepts exactly when no live host has the same route, port and hostname; otherwise rejects with the "already attached" message built from route, port and hostname |
| `Hosts.ValidateRoute` | services/routes.hosts.service.js:263-277 | answers `true` whether or not the route resolves; only a rejected resolve call gives something else, namely its error |
| `Hosts.FirstMatch` | services/routes.hosts.service.js:196-200 | the unscoped lookup with whatever query the caller forwards finds the first matching row, deleted rows included, and finds nothing only when no row matches |
| `Hosts.CascadeLeavesNoHostBehind` | services/routes.hosts.service.js:216-226 | after the cascade, with no failing removal, every host of the removed route carries a deletion stamp and every host of another route is unchanged |
| `Hosts.AttachmentsOfRoute` | services/routes.hosts.service.js:219-225 | with unique ids, removing each looked-up host by id gives the cascaded table, and some removal fails exactly when a host of the route is among the failing ones |
| `Hosts.HostTable.Create` | services/routes.hosts.service.js:38-91 | creation succeeds exactly when the resolve call answers and `validateHostname` accepts. On success it appends a host with a fresh id and its defaults. On failure the table is unchanged and the error is the validator's. Live (route, port, hostname) triples stay unique |
| `Hosts.HostTable.RemoveById` | services/routes.hosts.service.js:203 | removing by id stamps the one row with that id and changes no other row |
| `Hosts.HostTable.FindAndRemove` | services/routes.hosts.service.js:189-207 | with no match it removes nothing and answers nothing; otherwise it removes exactly the first match, changes no other row, and answers its id |
| `Hosts.HostTable.RemoveEach` | services/routes.hosts.service.js:224-226 | every looked-up host whose removal does not fail is stamped; a failing removal stops none of the others and is reported |
| `Hosts.HostTable.RoutesRemoved` | services/routes.hosts.service.js:216-230 | if the lookup fails, nothing changes. Otherwise every host of the route, deleted or not, is removed unless its own removal fails. An error is logged exactly when the lookup or some removal failed, and the handler never fails |
| `Dns.DnsProvider.Call` | services/routers.service.js:144-148 | each provider call is appended to the provider's call log and answered by the provider's reply for that call number |
| `Dns.Issued` | services/routers.service.js:142-150 | a loop over n planned calls issues at most n and at least one when n > 0 |
| `Dns.IssuedAll` | services/routers.service.js:142-150 | when no answer stops the loop, every planned call is issued |
| `Dns.IssuedStopsAtFirstFailure` | services/routers.service.js:169-177 | when call k is the first whose answer stops the loop, exactly calls 0..k are issued and no later router or vHost is processed |
| `Dns.IssueInOrder` | services/routers.service.js:142-150 | the calls are issued one by one in plan order and logged; the log grows by exactly the issued prefix; the loop succeeds exactly when no answer stops it |
| `Dns.RouterPlanCoversActiveRouters` | services/routers.service.js:137-148 | the route-side plan has one call per enabled, non-deleted router. Each call carries the vHost, type `A`, the owner as `userID` and the address of an active router. Every active router's address gets its call |
| `Dns.RouterPlanFollowsTableOrder` | services/routers.service.js:164-175 | the route-side plan follows the order of the router table |
| `Dns.RouteEventCallCount` | services/routers.service.js:186-204 | creating or removing a route with N active routers issues exactly those N calls when nothing fails, and exactly the first k + 1 when the k-th answer is the first to fail |
| `Dns.AddvHost` | services/routers.service.js:126-152 | `addRecord(vHost, A, ipv4)` with the owner as `userID`, once per active router in table order, up to and including the first failing or record-less answer; it succeeds exactly when no such answer occurs |
| `Dns.RemovevHost` | services/routers.service.js:153-179 | the same with `removeRecord`; only a failing answer stops it |
| `Dns.RoutesCreated` | services/routers.service.js:187-195 | the `routes.created` handler issues `addvHost` for the route's vHost and owner id |
| `Dns.RoutesRemoved` | services/routers.service.js:196-204 | the `routes.removed` handler issues `removevHost` for the route's vHost and owner id |
| `Dns.RoutersCreated` | services/routers.service.js:205-222 | a disabled router causes no DNS call. An enabled one causes `addRecord(vHost, A, router.ipv4)` for each vHost entry in order, with that entry's owner as `userID`, up to the first failure |
| `Dns.RoutersRemoved` | services/routers.service.js:223-240 | the mirror of `routers.created` with `removeRecord`, gated on the removed router's `enabled` flag |
| `Dns.RouterEventCallCount` | services/routers.service.js:205-240 | creating or removing an enabled router with N vHost entries issues exactly those N calls when nothing fails, and exactly the first k + 1 when the k-th answer is the first to fail |
| `Dns.VHostPlanIsOnePerEntry` | services/routers.service.js:209-217 | the router-side plan has one call per vHost entry; call i targets entry i's vHost and owner with the router's address |

## Left out

- Entity-store and membership machinery is left out: field-schema processing (for example `min: 3` and `lowercase`), REST routes, permission strings, populates, `createdAt`/`updatedAt`, and id encoding. The store is a foreign library. Ids are plain numbers here.
- How the entity store combines default scopes is left out. The guard and `notDeleted` are modelled separately. The scopes the store applies inside `removeEntity` (called by `findAndRemove`) are not modelled.
- What the `v1.routes.resolve` call (made by the guard and by `validateRoute`) and the `v1.routes.vHosts` call look up is left out. Their answers are parameters: a `ResolveReply` (found, not found, or rejected with an error) and the vHost list. The `resolveRoute` and `resolveHost` actions are not modelled.
- `Routes.ValidatevHost`: assumes the `countEntities` call answers. Its `.catch` is commented out, so when that call rejects the validator rejects with the call's error, and the model does not capture that.
- `Hosts.ValidateHostname`: assumes the `countEntities` call answers. Its `.catch` is commented out, so when that call rejects the validator rejects with the call's error, and the model does not capture that.
- `Hosts.FirstMatch`: when several rows match, it picks the first in table order. Which match `findEntity` returns is up to the store.
- Moleculer transport, `$node.list` and the concurrency of `Promise.allSettled` and `Promise.all` are left out. The node list and the settled outcomes are parameters, so a failing node directory is not modelled.
- `crypto.randomBytes` is a parameter. Only the hex encoding of its bytes is modelled.
- The DNS provider's record store and its idempotence are external. The model records the calls made, not which records exist.
- Logger output is left out. The cascade reports only whether it logged an error.
- Lookup failures inside the DNS handlers (`findEntities` on routers, the `v1.routes.vHosts` call) are left out. So is a route event whose `owner` is missing. These lists are parameters.
- `Hosts.HostTable.FindAndRemove`: answers the removed entity's id. What the store's `removeEntity` returns is not modelled.
- `Hosts.HostTable.Create`: runs the two validators in field order (route, then hostname) and reports the first rejection. The order in which the store runs validators is not shown in the source.
- `Hosts.HostTable.RoutesRemoved`: every removal in one cascade takes the same clock value.
- Updating and removing entities through the generic store actions is not modelled. The only removals modelled are the cascade and `findAndRemove`.
