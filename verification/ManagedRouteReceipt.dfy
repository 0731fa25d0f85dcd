/**
 The receipt the VPN worker keeps for server-managed routes: which routes are installed, for which
 connection epoch, server and policy. Connecting, reconnecting, protocol reports, DNS callbacks and
 compare-and-swap requests all invalidate or republish it, while the route service may answer partially
 or not at all. Every slot of the worker is one step; queued callbacks arrive in any order.
 */
module ManagedRouteReceipt {
  import opened Options
  import opened Prefixes
  import opened RouteSplitting
  import opened RouteTexts
  import opened ManagedPolicy
  import opened RuntimeRoutes

  const MAXIMUM_DELTA := 256

  type Hosts = seq<Option<Address>>

  datatype Connection = Disconnected | Connecting | Connected | Reconnecting | Error | Other

  /** Policy revision and content hash: absent, canonical, or anything else. */
  datatype Identity = NoPolicy | Policy(revision: string, contentHash: string) | Malformed

  predicate IdentityFits(id: Identity, empty: bool) {
    !id.Malformed? && (empty || id.Policy?)
  }

  /** Routable entries of the local rules, and how many domains among them are still to be resolved. */
  datatype LocalSites = LocalSites(routes: seq<RouteText>, domains: nat)

  datatype Snapshot = Snapshot(
    server: string, mode: RouteMode, routes: seq<RouteText>, identity: Identity, local: LocalSites)

  datatype Base = Base(mode: RouteMode, routes: seq<Route>, epoch: nat, server: string, identity: Identity)

  /** A route batch waiting for local DNS answers, with everything its callback has captured. */
  datatype Batch = Batch(
    epoch: nat, server: string, mode: RouteMode, hosts: Hosts, local: LocalSites, identity: Identity,
    routes: seq<Route>, confirmable: bool, owned: seq<Route>,
    clientGeneration: nat, managedGeneration: nat, ready: bool, done: bool)

  /** The service's answer to an addition: a full count means all, any other answer an unknown part. */
  datatype AddReply = Unavailable | Full | Short(added: set<Route>)

  /** The service's answer to a clear: true means nothing is left, otherwise an unknown part is. */
  datatype ClearReply = Cleared | Unconfirmed(remaining: set<Route>)

  /** The connection as the worker sees it; `teardown` is the last clear's receipt. */
  datatype Link = Link(
    alive: bool, connection: Connection, epoch: nat, server: string, mode: RouteMode, hosts: Hosts,
    startup: Option<Snapshot>, prepared: Option<Snapshot>, teardown: bool)

  /** `hosts` are the protected hosts the base was published against. */
  datatype Receipt = Receipt(base: Option<Base>, hosts: Hosts, transition: bool, revision: nat, latestRequest: nat)

  /** Outstanding lookups, start timers and batches. */
  datatype Resolver = Resolver(
    clientGeneration: nat, managedGeneration: nat, lookups: nat, reconnectAfterLookups: bool,
    timers: seq<(nat, string)>, batches: seq<Batch>)

  /**
   `installed` is what the service really holds; the worker cannot see it. `announced` (Connected was
   reported in this epoch), `attempted` (managed routes were sent in this epoch) and `drifted` (a batch was
   published against hosts or local rules that had come to claim one of its routes) are histories of the
   current epoch.
   */
  datatype Service = Service(installed: set<Route>, announced: bool, attempted: bool, drifted: bool)

  datatype Worker = Worker(link: Link, receipt: Receipt, resolver: Resolver, service: Service)

  function Fresh(): Worker {
    Worker(Link(true, Disconnected, 0, "", AllSites, [], None, None, false), Receipt(None, [], false, 0, 0),
           Resolver(0, 0, 0, false, [], []), Service({}, false, false, false))
  }

  function At(w: Worker, connection: Connection): Worker {
    w.(link := w.link.(connection := connection))
  }

  function RouteSet(rs: seq<Route>): set<Route> {
    set r | r in rs
  }

  // ------------------------------------------------------------------ primitives

  /** Nothing runs backwards. */
  predicate Follows(w: Worker, r: Worker) {
    && w.link.epoch <= r.link.epoch
    && w.receipt.revision <= r.receipt.revision && w.receipt.latestRequest <= r.receipt.latestRequest
  }

  function Clear(w: Worker, reply: ClearReply): (r: Worker)
    ensures Follows(w, r) && r.resolver.batches == w.resolver.batches
  {
    w.(link := w.link.(teardown := reply.Cleared?),
       service := w.service.(installed := if reply.Cleared? then {} else w.service.installed * reply.remaining))
  }

  function Invalidate(w: Worker): (r: Worker)
    ensures Follows(w, r) && r.resolver.batches == w.resolver.batches
    ensures r.service.installed == w.service.installed && r.receipt.base.None?
  {
    w.(receipt := w.receipt.(revision := w.receipt.revision + 1, base := None, hosts := [], transition := true))
  }

  function InvalidateAll(w: Worker): (r: Worker)
    ensures Follows(w, r) && r.resolver.batches == w.resolver.batches
  {
    Invalidate(w.(resolver := w.resolver.(
      clientGeneration := w.resolver.clientGeneration + 1,
      managedGeneration := w.resolver.managedGeneration + 1,
      lookups := 0, reconnectAfterLookups := false)))
  }

  function NextEpoch(w: Worker): (r: Worker)
    ensures Follows(w, r) && r.resolver.batches == w.resolver.batches
  {
    w.(link := w.link.(epoch := w.link.epoch + 1),
       service := w.service.(announced := false, attempted := false, drifted := false))
  }

  ghost function Publish(w: Worker, mode: RouteMode, managed: seq<RouteText>, local: LocalSites,
                         identity: Identity, confirmed: bool): (r: Worker)
    ensures Follows(w, r) && r.resolver.batches == w.resolver.batches
  {
    var normalized := Normalize(mode, managed, local.routes, w.link.hosts);
    var ok := confirmed && normalized.Some? && IdentityFits(identity, normalized.value == [])
      && w.link.teardown && w.link.server != "";
    w.(receipt := w.receipt.(
      revision := w.receipt.revision + 1, transition := !ok, hosts := if ok then w.link.hosts else [],
      base := if ok then Some(Base(mode, normalized.value, w.link.epoch, w.link.server, identity)) else None))
  }

  /** The managed routes a batch will install, and whether the snapshot survived every check. */
  ghost function Planned(mode: RouteMode, managed: seq<RouteText>, hosts: Hosts): (seq<Route>, bool) {
    var bounded := Validated(managed);
    var first := if bounded.Some? then bounded.value else [];
    var pieces := if mode == AllExceptSites then Split(Texts(first), hosts) else Texts(first);
    var checked := Validated(pieces);
    (if checked.Some? then checked.value else [], bounded.Some? && checked.Some?)
  }

  ghost function ClientRoutes(mode: RouteMode, local: LocalSites, hosts: Hosts): seq<Route> {
    if mode == AllExceptSites then LocalRoutes(local.routes, hosts) else SupportedRoutes(local.routes)
  }

  predicate StartupMatches(w: Worker) {
    && w.link.startup.Some? && w.link.server != ""
    && w.link.startup.value.server == w.link.server && w.link.startup.value.mode == w.link.mode
  }

  ghost function NewBatch(w: Worker): Batch {
    var matches := StartupMatches(w);
    var managed := if matches then w.link.startup.value.routes else [];
    var local := if matches then w.link.startup.value.local else LocalSites([], 0);
    var identity := if matches then w.link.startup.value.identity else NoPolicy;
    var (routes, valid) := Planned(w.link.mode, managed, w.link.hosts);
    Batch(w.link.epoch, w.link.server, w.link.mode, w.link.hosts, local, identity, routes, matches && valid,
          ClientRoutes(w.link.mode, local, w.link.hosts), w.resolver.clientGeneration + 1,
          w.resolver.managedGeneration + 1, local.domains == 0, false)
  }

  /** Queues the managed routes behind the lookups of the local domains. */
  ghost function AddSites(w: Worker): (r: Worker)
    ensures Follows(w, r) && r.resolver.batches == w.resolver.batches + [NewBatch(w)]
  {
    var batch := NewBatch(w);
    w.(resolver := w.resolver.(
      clientGeneration := batch.clientGeneration, managedGeneration := batch.managedGeneration,
      lookups := batch.local.domains, reconnectAfterLookups := false, batches := w.resolver.batches + [batch]))
  }

  // ----------------------------------------------------------------------- slots

  function Connect(w: Worker, server: string, mode: RouteMode, hosts: Hosts, startup: Option<Snapshot>, reply: ClearReply)
    : (r: Worker)
    ensures Follows(w, r) && r.resolver.batches == w.resolver.batches
  {
    var r := NextEpoch(InvalidateAll(Clear(w, reply)));
    r.(link := r.link.(server := server, mode := mode, hosts := hosts, startup := startup, connection := Connecting))
  }

  function Reconnect(w: Worker, mode: RouteMode, hosts: Hosts, startup: Option<Snapshot>, reply: ClearReply): (r: Worker)
    ensures Follows(w, r) && r.resolver.batches == w.resolver.batches
  {
    if w.link.connection != Connected then w
    else
      var r := InvalidateAll(NextEpoch(Clear(w, reply)));
      r.(link := r.link.(mode := mode, hosts := hosts, startup := startup, connection := Reconnecting))
  }

  function Disconnect(w: Worker, reply: ClearReply): (r: Worker)
    ensures Follows(w, r) && r.resolver.batches == w.resolver.batches
  {
    InvalidateAll(NextEpoch(Clear(w, reply)))
  }

  /** Leaving the process; without a disconnect the service keeps its routes. */
  function Exit(w: Worker, disconnect: Option<ClearReply>): (r: Worker)
    ensures Follows(w, r) && r.resolver.batches == w.resolver.batches
  {
    match disconnect
    case Some(reply) =>
      var r := Disconnect(Clear(w, reply), reply);
      r.(link := r.link.(alive := false))
    case None =>
      var r := InvalidateAll(NextEpoch(w));
      r.(link := r.link.(alive := false))
  }

  /** A state report of the current protocol. Connected is announced at most once per epoch. */
  ghost function Report(w: Worker, state: Connection, reply: ClearReply): (r: Worker)
    ensures Follows(w, r)
  {
    if state == Connected && w.service.announced then w
    else
      var handled :=
        if state == Disconnected || state == Error then Clear(w, reply)
        else if state == Connected then Announce(w)
        else w;
      if state == Disconnected && w.link.connection == Reconnecting then handled else At(handled, state)
  }

  ghost function Announce(w: Worker): (r: Worker)
    ensures Follows(w, r)
  {
    var announced := w.(service := w.service.(announced := true));
    match w.link.mode
    case AllExceptSites => AddSites(announced)
    case OnlyForwardSites =>
      announced.(resolver := w.resolver.(timers := w.resolver.timers + [(w.link.epoch, w.link.server)]))
    case AllSites =>
      if StartupMatches(w) then
        var s := w.link.startup.value;
        Publish(announced, AllSites, s.routes, s.local, s.identity, true)
      else Publish(announced, AllSites, [], LocalSites([], 0), NoPolicy, false)
  }

  /** The delayed start of the site routes in forward-only mode. */
  ghost function SitesTimer(w: Worker, i: nat): (r: Worker)
    ensures Follows(w, r)
  {
    if i >= |w.resolver.timers| then w
    else
      var (epoch, server) := w.resolver.timers[i];
      var fired := w.(resolver := w.resolver.(timers := w.resolver.timers[..i] + w.resolver.timers[i + 1..]));
      if epoch == w.link.epoch && server == w.link.server && w.link.connection == Connected
      then AddSites(fired) else fired
  }

  /** One DNS answer of batch `i`; `resolved` are the supported routes among the new client routes. */
  function LookupDone(w: Worker, i: nat, resolved: seq<Route>, sameGateway: bool): (r: Worker)
    ensures Follows(w, r)
  {
    if i >= |w.resolver.batches| || w.resolver.batches[i].clientGeneration != w.resolver.clientGeneration then w
    else
      var usable := w.link.connection == Connected && w.link.server == w.resolver.batches[i].server && sameGateway;
      var last := w.resolver.lookups == 1 && !w.resolver.reconnectAfterLookups;
      var batches := w.resolver.batches[i := Learned(w.resolver.batches[i], if usable then resolved else [], last)];
      w.(resolver := w.resolver.(
        batches := batches,
        lookups := if w.resolver.lookups == 0 then 0 else w.resolver.lookups - 1,
        reconnectAfterLookups := w.resolver.reconnectAfterLookups && w.resolver.lookups != 1))
  }

  function Learned(b: Batch, resolved: seq<Route>, last: bool): Batch {
    b.(owned := b.owned + resolved, ready := b.ready || last)
  }

  function LookupDeadline(w: Worker): (r: Worker)
    ensures Follows(w, r) && r.resolver.batches == w.resolver.batches
  {
    if w.resolver.lookups == 0 then w else w.(resolver := w.resolver.(reconnectAfterLookups := false))
  }

  /** The queued callback of batch `i` runs. */
  ghost function Deliver(w: Worker, i: nat, sameGateway: bool, reply: AddReply): (r: Worker)
    ensures Follows(w, r)
  {
    if i >= |w.resolver.batches| || !w.resolver.batches[i].ready || w.resolver.batches[i].done then w
    else
      var b := w.resolver.batches[i];
      var ran := w.(resolver := w.resolver.(batches := w.resolver.batches[i := b.(done := true)]));
      if && b.managedGeneration == w.resolver.managedGeneration && w.link.connection == Connected
         && w.link.server == b.server && sameGateway
      then Install(ran, b, reply) else ran
  }

  ghost function Install(w: Worker, b: Batch, reply: AddReply): (r: Worker)
    ensures Follows(w, r) && r.resolver.batches == w.resolver.batches
  {
    var wanted := Without(b.routes, b.owned);
    var complete := wanted == [] || reply.Full?;
    var sent := w.(service := w.service.(
      installed := w.service.installed + Added(wanted, reply), attempted := true,
      drifted := w.service.drifted || (b.confirmable && complete && !Harmless(b, w.link.hosts))));
    Publish(sent, b.mode, Texts(Sort(if complete then wanted else [])), b.local, b.identity, b.confirmable && complete)
  }

  /** No host protected now lies inside a route the batch installs, and no local rule owns one now. */
  ghost predicate Harmless(b: Batch, hosts: Hosts) {
    b.mode == AllExceptSites ==>
      && (forall h: Address :: Some(h) in hosts ==> !Covers(Sort(Without(b.routes, b.owned)), h))
      && (forall q :: q in b.routes && q !in b.owned ==> q !in LocalRoutes(b.local.routes, hosts))
  }

  function Added(wanted: seq<Route>, reply: AddReply): set<Route> {
    match reply
    case Unavailable => {}
    case Full => RouteSet(wanted)
    case Short(added) => RouteSet(wanted) * added
  }

  function HostsChanged(w: Worker, hosts: Hosts): Worker {
    w.(link := w.link.(hosts := hosts))
  }

  // ------------------------------------------------------------------ reconciling

  datatype Request = Request(
    generation: nat, epoch: nat, server: string, revision: nat, expected: Identity, mode: Option<RouteMode>,
    oldRoutes: seq<RouteText>, newRoutes: seq<RouteText>, desired: Identity, local: LocalSites)

  datatype UpdateResult = Updated | ReconnectRequired | ReconnectDeferred | RuntimeUncertain

  predicate BindingMatches(w: Worker, q: Request) {
    && q.generation > w.receipt.latestRequest && q.mode.Some?
    && IdentityFits(q.expected, q.oldRoutes == []) && IdentityFits(q.desired, q.newRoutes == [])
    && q.epoch == w.link.epoch && q.server != "" && q.server == w.link.server && w.link.connection == Connected
  }

  /** The installed list a request claims, if it is one: canonical and fit for its mode. */
  function ExpectedOld(q: Request): Option<seq<Route>>
    requires q.mode.Some?
  {
    match Validated(q.oldRoutes)
    case None => None
    case Some(rs) =>
      if Texts(rs) == q.oldRoutes && (q.mode.value == AllExceptSites || q.oldRoutes == []) then Some(rs) else None
  }

  predicate BaseMatches(w: Worker, q: Request, was: seq<Route>) {
    && w.receipt.base.Some? && q.mode.Some?
    && w.receipt.base.value == Base(q.mode.value, was, q.epoch, q.server, q.expected)
    && q.revision == w.receipt.revision
  }

  /** The same literal addresses, whatever their order; host names are compared with the local rules. */
  predicate SameHosts(a: Hosts, b: Hosts) {
    (set h | h in a) == (set h | h in b)
  }

  /** Whether the running connection still is the one the base describes, up to the resolved local rules. */
  predicate ContextMatches(w: Worker, q: Request, sameLocal: bool) {
    && w.receipt.base.Some? && w.receipt.base.value.epoch == w.link.epoch && w.receipt.base.value.server == w.link.server
    && q.mode == Some(w.receipt.base.value.mode) && q.mode == Some(w.link.mode) && sameLocal
    && SameHosts(w.receipt.hosts, w.link.hosts)
  }

  /** What an incremental update did: `sent` is what the service added, if it was asked at all. */
  datatype Outcome = Outcome(result: UpdateResult, bumped: bool, waiting: bool, sent: Option<set<Route>>)

  /** The incremental update proper; only additions are ever attempted in place. */
  function Update(connected: bool, lookups: nat, mode: RouteMode, was: seq<Route>, target: seq<Route>,
                  gatewayOk: bool, reply: AddReply): Outcome
  {
    if !connected || mode != AllExceptSites then Outcome(ReconnectRequired, false, false, None)
    else if lookups > 0 then Outcome(ReconnectDeferred, true, true, None)
    else
      var added, removed := Without(target, was), Without(was, target);
      if added == [] && removed == [] then Outcome(Updated, true, false, None)
      else if |added| + |removed| > MAXIMUM_DELTA || removed != [] || !gatewayOk || reply.Unavailable?
      then Outcome(ReconnectRequired, true, false, None)
      else Outcome(if reply.Full? then Updated else RuntimeUncertain, true, false, Some(Added(added, reply)))
  }

  function Applied(w: Worker, o: Outcome): (r: Worker)
    ensures Follows(w, r) && r.resolver.batches == w.resolver.batches
  {
    w.(resolver := w.resolver.(
         managedGeneration := w.resolver.managedGeneration + (if o.bumped then 1 else 0),
         reconnectAfterLookups := w.resolver.reconnectAfterLookups || o.waiting),
       service := w.service.(
         installed := w.service.installed + (if o.sent.Some? then o.sent.value else {}),
         attempted := w.service.attempted || o.sent.Some?))
  }

  datatype Verdict = Ignored | Refused | AlreadyApplied(target: seq<Route>) | Attempt(was: seq<Route>, target: seq<Route>)

  ghost function Decide(w: Worker, q: Request, sameLocal: bool): Verdict {
    if !BindingMatches(w, q) then Ignored
    else
      var was, target := ExpectedOld(q), Normalize(q.mode.value, q.newRoutes, q.local.routes, w.link.hosts);
      if was.None? || target.None? then Refused
      else if ContextMatches(w, q, sameLocal) && target.value == w.receipt.base.value.routes
      then AlreadyApplied(target.value)
      else if !BaseMatches(w, q, was.value) || !ContextMatches(w, q, sameLocal) then Refused
      else Attempt(was.value, target.value)
  }

  ghost function Reconcile(w: Worker, q: Request, sameLocal: bool, gatewayOk: bool, reply: AddReply): (r: Worker)
    ensures Follows(w, r) && r.resolver.batches == w.resolver.batches
  {
    var verdict := Decide(w, q, sameLocal);
    var noted := Noted(w, q, !verdict.Ignored?);
    match verdict
    case Ignored => noted
    case Refused => noted
    case AlreadyApplied(target) => Settled(noted, q, target)
    case Attempt(was, target) =>
      var connected := w.link.connection == Connected;
      Attempted(noted, q, target, Update(connected, w.resolver.lookups, q.mode.value, was, target, gatewayOk, reply))
  }

  function Noted(w: Worker, q: Request, accepted: bool): (r: Worker)
    ensures Follows(w, r) && r.resolver == w.resolver && r.service == w.service && r.link == w.link
    ensures r.receipt.base == w.receipt.base && r.receipt.revision == w.receipt.revision
  {
    w.(receipt := w.receipt.(
      latestRequest := if q.generation > w.receipt.latestRequest then q.generation else w.receipt.latestRequest,
      transition := w.receipt.transition || accepted))
  }

  function Attempted(w: Worker, q: Request, target: seq<Route>, o: Outcome): (r: Worker)
    requires q.mode.Some?
    ensures Follows(w, r) && r.resolver.batches == w.resolver.batches && w.service.installed <= r.service.installed
    ensures r.service.installed == w.service.installed + (if o.sent.Some? then o.sent.value else {})
    ensures r.link.connection == w.link.connection && r.service.drifted == w.service.drifted
    ensures r.receipt.base.Some? && r.receipt.base != w.receipt.base ==>
              r.receipt.base == Some(Base(q.mode.value, target, w.link.epoch, w.link.server, q.desired))
  {
    match o.result
    case Updated => Settled(Applied(w, o), q, target)
    case RuntimeUncertain => Invalidate(Applied(w, o))
    case _ => Applied(w, o)
  }

  function Settled(w: Worker, q: Request, routes: seq<Route>): (r: Worker)
    requires q.mode.Some?
    ensures Follows(w, r) && r.resolver.batches == w.resolver.batches && r.service.installed == w.service.installed
    ensures r.link.connection == w.link.connection && r.service.drifted == w.service.drifted
    ensures r.receipt.base == Some(Base(q.mode.value, routes, w.link.epoch, w.link.server, q.desired))
  {
    w.(receipt := w.receipt.(
      revision := w.receipt.revision + 1, transition := false,
      base := Some(Base(q.mode.value, routes, w.link.epoch, w.link.server, q.desired))))
  }

  function Rebuild(w: Worker, epoch: nat, server: string): (r: Worker)
    ensures Follows(w, r) && r.resolver.batches == w.resolver.batches
  {
    if epoch != w.link.epoch || server == "" || server != w.link.server || w.link.connection != Connected then w
    else Invalidate(w)
  }

  /** A due reconnect finds the prepared policy already applied and only refreshes the receipt. */
  ghost function Flush(w: Worker, sameLocal: bool): (r: Worker)
    ensures Follows(w, r) && r.resolver.batches == w.resolver.batches
  {
    if w.link.connection == Connected && w.link.server != "" && PreparedIsApplied(w, sameLocal) then
      var s := w.link.prepared.value;
      Publish(w, s.mode, s.routes, s.local, s.identity, true)
    else w
  }

  ghost predicate PreparedIsApplied(w: Worker, sameLocal: bool) {
    && w.link.prepared.Some? && w.receipt.base.Some?
    && w.link.prepared.value.server == w.receipt.base.value.server == w.link.server
    && w.link.prepared.value.mode == w.receipt.base.value.mode == w.link.mode
    && w.receipt.base.value.epoch == w.link.epoch && sameLocal && SameHosts(w.receipt.hosts, w.link.hosts)
    && var s := w.link.prepared.value;
      Normalize(s.mode, s.routes, s.local.routes, w.link.hosts) == Some(w.receipt.base.value.routes)
  }

  // ------------------------------------------------------------------------ runs

  datatype Event =
    | ConnectEvent(server: string, mode: RouteMode, hosts: Hosts, startup: Option<Snapshot>, clear: ClearReply)
    | ReconnectEvent(mode: RouteMode, hosts: Hosts, startup: Option<Snapshot>, clear: ClearReply)
    | DisconnectEvent(clear: ClearReply)
    | ExitEvent(disconnect: Option<ClearReply>)
    | ReportEvent(state: Connection, clear: ClearReply)
    | SitesTimerEvent(index: nat)
    | LookupEvent(index: nat, resolved: seq<Route>, sameGateway: bool)
    | LookupDeadlineEvent
    | DeliverEvent(index: nat, sameGateway: bool, add: AddReply)
    | HostsEvent(hosts: Hosts)
    | PrepareEvent(prepared: Option<Snapshot>)
    | ReconcileEvent(request: Request, sameLocal: bool, gatewayOk: bool, add: AddReply)
    | RebuildEvent(epoch: nat, server: string)
    | FlushEvent(sameLocal: bool)

  ghost function Step(w: Worker, e: Event): (r: Worker)
    ensures Follows(w, r)
  {
    if !w.link.alive then w
    else
      match e
      case ConnectEvent(server, mode, hosts, startup, clear) => Connect(w, server, mode, hosts, startup, clear)
      case ReconnectEvent(mode, hosts, startup, clear) => Reconnect(w, mode, hosts, startup, clear)
      case DisconnectEvent(clear) => Disconnect(w, clear)
      case ExitEvent(disconnect) => Exit(w, disconnect)
      case ReportEvent(state, clear) => Report(w, state, clear)
      case SitesTimerEvent(i) => SitesTimer(w, i)
      case LookupEvent(i, resolved, sameGateway) => LookupDone(w, i, resolved, sameGateway)
      case LookupDeadlineEvent => LookupDeadline(w)
      case DeliverEvent(i, sameGateway, add) => Deliver(w, i, sameGateway, add)
      case HostsEvent(hosts) => HostsChanged(w, hosts)
      case PrepareEvent(prepared) => w.(link := w.link.(prepared := prepared))
      case ReconcileEvent(q, sameLocal, gatewayOk, add) => Reconcile(w, q, sameLocal, gatewayOk, add)
      case RebuildEvent(epoch, server) => Rebuild(w, epoch, server)
      case FlushEvent(sameLocal) => Flush(w, sameLocal)
  }

  ghost function Run(w: Worker, events: seq<Event>): Worker
    decreases |events|
  {
    if events == [] then w else Run(Step(w, events[0]), events[1..])
  }

  // -------------------------------------------------------------------- invariant

  /** While connected, a held receipt lists exactly what is installed. */
  ghost predicate Truthful(w: Worker) {
    w.receipt.base.Some? && w.link.connection == Connected && !w.service.drifted ==>
      RouteSet(w.receipt.base.value.routes) == w.service.installed
  }

  /** A receipt belongs to the current epoch, server and mode, and to a policy if it lists anything. */
  predicate Bound(w: Worker) {
    w.receipt.base.Some? ==>
      && w.receipt.base.value.epoch == w.link.epoch && w.receipt.base.value.server == w.link.server != ""
      && w.receipt.base.value.mode == w.link.mode && w.service.announced
      && IdentityFits(w.receipt.base.value.identity, w.receipt.base.value.routes == [])
  }

  predicate Live(b: Batch, generation: nat) {
    !b.done && b.managedGeneration == generation
  }

  /** A batch keeps clear of the hosts it was computed for and of the local rules. */
  ghost predicate Sound(b: Batch) {
    && NoDuplicates(b.routes) && |b.routes| <= MAXIMUM_ROUTES && (forall q :: q in b.routes ==> Allowed(q))
    && (b.mode == AllExceptSites ==>
          && (forall h: Address :: Some(h) in b.hosts ==> !Covers(b.routes, h))
          && (forall q :: q in LocalRoutes(b.local.routes, b.hosts) ==> q in b.owned))
  }

  /** Nothing has been sent or published in this epoch. */
  predicate Open(w: Worker) {
    !w.service.attempted && w.receipt.base.None?
  }

  /** One batch per epoch; a new epoch leaves all earlier ones behind. */
  ghost predicate Batches(bs: seq<Batch>, epoch: nat, generation: nat, announced: bool, mode: RouteMode, open: bool) {
    && (forall i :: 0 <= i < |bs| ==>
          && bs[i].epoch <= epoch && bs[i].managedGeneration <= generation
          && (bs[i].epoch < epoch ==> bs[i].managedGeneration < generation)
          && (bs[i].epoch == epoch ==> announced && bs[i].mode == mode)
          && Sound(bs[i])
          && (Live(bs[i], generation) ==> open))
    && (forall i, j :: 0 <= i < j < |bs| ==> bs[i].epoch < bs[j].epoch)
  }

  predicate AllBefore(bs: seq<Batch>, epoch: nat) {
    forall j :: 0 <= j < |bs| ==> bs[j].epoch < epoch
  }

  /** A pending start timer of this epoch excludes a batch of this epoch. */
  predicate Timers(ts: seq<(nat, string)>, bs: seq<Batch>, epoch: nat, announced: bool, open: bool) {
    forall i :: 0 <= i < |ts| ==>
      && ts[i].0 <= epoch
      && (ts[i].0 == epoch ==>
            && announced && open && AllBefore(bs, epoch)
            && (forall j :: 0 <= j < |ts| && j != i ==> ts[j].0 < epoch))
  }

  ghost predicate Inv(w: Worker) {
    && Truthful(w) && Bound(w)
    && Batches(w.resolver.batches, w.link.epoch, w.resolver.managedGeneration, w.service.announced, w.link.mode, Open(w))
    && Timers(w.resolver.timers, w.resolver.batches, w.link.epoch, w.service.announced, Open(w))
    && (w.service.attempted ==> w.service.announced)
    && (w.link.alive && w.link.teardown && !w.service.attempted ==> w.service.installed == {})
  }

  lemma FreshInv()
    ensures Inv(Fresh())
  {
  }

  // ------------------------------------------------------------------ epoch changes

  /** What every change of epoch does to the receipt, whatever else it changes. */
  ghost predicate Retired(w: Worker, r: Worker) {
    && r.link.epoch == w.link.epoch + 1 && r.resolver.managedGeneration > w.resolver.managedGeneration
    && r.receipt.base.None? && !r.service.announced && !r.service.attempted
    && r.resolver.batches == w.resolver.batches && r.resolver.timers == w.resolver.timers
    && (r.link.alive && r.link.teardown ==> r.service.installed == {})
  }

  lemma RetiredInv(w: Worker, r: Worker)
    requires Inv(w) && Retired(w, r)
    ensures Inv(r)
  {
    hide Sound;
  }

  // ------------------------------------------------------------------- batches

  lemma NewBatchSound(w: Worker)
    ensures Sound(NewBatch(w))
  {
    hide Split, Allowed, LocalRoutes, SupportedRoutes, Covers, Validated;
    var matches := StartupMatches(w);
    var managed := if matches then w.link.startup.value.routes else [];
    PlannedSound(w.link.mode, managed, w.link.hosts);
  }

  lemma PlannedSound(mode: RouteMode, managed: seq<RouteText>, hosts: Hosts)
    ensures var (routes, ok) := Planned(mode, managed, hosts);
      && NoDuplicates(routes) && |routes| <= MAXIMUM_ROUTES && (forall q :: q in routes ==> Allowed(q))
      && (mode == AllExceptSites ==> forall h: Address :: Some(h) in hosts ==> !Covers(routes, h))
  {
    hide Split, Allowed, Covers, SupportedRoutes;
    var bounded := Validated(managed);
    var first := if bounded.Some? then bounded.value else [];
    var pieces := if mode == AllExceptSites then Split(Texts(first), hosts) else Texts(first);
    var checked := Validated(pieces);
    if checked.Some? {
      ValidatedAreAllowed(pieces);
      if mode == AllExceptSites {
        forall h: Address | Some(h) in hosts
          ensures !Covers(checked.value, h)
        {
          SplitCoverage(Texts(first), hosts, h);
          assert Covers(checked.value, h) <==> TextCovers(pieces, h);
        }
      }
    } else {
      NothingCovers();
    }
  }

  lemma NothingCovers()
    ensures forall h: Address :: !Covers([], h)
  {
  }

  /** Against hosts and local rules that claim none of its routes, a batch is republished as it was installed. */
  lemma BatchRoundTrip(b: Batch, hosts: Hosts)
    requires Sound(b) && Harmless(b, hosts)
    ensures var wanted := Without(b.routes, b.owned);
      var normalized := Normalize(b.mode, Texts(Sort(wanted)), b.local.routes, hosts);
      normalized.Some? ==> RouteSet(normalized.value) == RouteSet(wanted)
  {
    hide Allowed, Covers, LocalRoutes, Split, SupportedRoutes;
    var wanted := Without(b.routes, b.owned);
    var installed := Sort(wanted);
    WithoutKeeps(b.routes, b.owned);
    if b.mode == AllExceptSites {
      NormalizeFixpointIff(installed, b.local.routes, hosts);
    } else {
      EmptyOnly(installed);
    }
  }

  /** The hosts it was computed for are such hosts, so only a change of hosts can make a difference. */
  lemma OwnHostsHarmless(b: Batch)
    requires Sound(b)
    ensures Harmless(b, b.hosts)
  {
    hide Allowed, Covers, LocalRoutes;
    if b.mode == AllExceptSites {
      forall h: Address | Some(h) in b.hosts
        ensures !Covers(Sort(Without(b.routes, b.owned)), h)
      {
        CoversSubset(Sort(Without(b.routes, b.owned)), b.routes, h);
      }
    }
  }

  lemma CoversSubset(part: seq<Route>, all: seq<Route>, a: int)
    requires forall q :: q in part ==> q in all
    ensures Covers(part, a) ==> Covers(all, a)
  {
    hide Contains;
    CoversMember(part, a);
    CoversMember(all, a);
  }

  /** Outside the all-except mode only the empty list normalises. */
  lemma EmptyOnly(rs: seq<Route>)
    ensures Validated(Texts(rs)) == Some([]) ==> rs == []
  {
    hide Allowed;
    if Validated(Texts(rs)).Some? && rs != [] {
      var t := Texts(rs)[0];
      assert t in Texts(rs);
      AllowedIsSupported(t);
      assert t.route in SupportedRoutes(Texts(rs));
    }
  }

  // ------------------------------------------------------- every step keeps it

  lemma ReportInv(w: Worker, state: Connection, reply: ClearReply)
    requires Inv(w) && w.link.alive
    ensures Inv(Report(w, state, reply))
  {
    hide Inv, Announce;
    if state == Connected {
      if !w.service.announced { AnnounceInv(w); }
    } else {
      TeardownInv(w, state, reply, true);
      TeardownInv(w, state, reply, false);
    }
  }

  /** Clearing the service outside Connected does not touch the receipt, and cannot make it count. */
  lemma TeardownInv(w: Worker, state: Connection, reply: ClearReply, clear: bool)
    requires Inv(w) && state != Connected
    ensures var r := if clear then Clear(w, reply) else w;
      Inv(r.(link := r.link.(connection := state))) && (w.link.connection != Connected ==> Inv(r))
  {
    hide Batches, Timers, RouteSet;
  }

  /** Announcing Connected, up to recording the state itself. */
  lemma AnnounceInv(w: Worker)
    requires Inv(w) && w.link.alive && !w.service.announced
    ensures Inv(At(Announce(w), Connected))
  {
    NothingYet(w);
    match w.link.mode
    case AllExceptSites =>
      hide AddSites, Inv, Batches, Timers;
      AddSitesInv(w.(service := w.service.(announced := true)));
    case OnlyForwardSites =>
      hide Batches;
    case AllSites =>
      var s := if StartupMatches(w) then w.link.startup.value else Snapshot("", AllSites, [], NoPolicy, LocalSites([], 0));
      PublishEmptyInv(w, s, StartupMatches(w));
  }

  lemma PublishEmptyInv(w: Worker, s: Snapshot, confirmed: bool)
    requires Inv(w) && w.link.alive && !w.service.announced && w.link.mode == AllSites
    ensures var announced := w.(service := w.service.(announced := true));
      Inv(At(Publish(announced, AllSites, s.routes, s.local, s.identity, confirmed), Connected))
  {
    NothingYet(w);
    AllSitesRoutes(s.routes, s.local.routes, w.link.hosts);
    hide Normalize, Batches, Timers;
  }

  /** Before Connected is announced, no batch or timer of this epoch exists. */
  lemma NothingYet(w: Worker)
    requires Inv(w) && !w.service.announced
    ensures Open(w) && AllBefore(w.resolver.batches, w.link.epoch)
    ensures forall j :: 0 <= j < |w.resolver.timers| ==> w.resolver.timers[j].0 < w.link.epoch
    ensures forall open ::
              Batches(w.resolver.batches, w.link.epoch, w.resolver.managedGeneration, true, w.link.mode, open)
    ensures forall open :: Timers(w.resolver.timers, w.resolver.batches, w.link.epoch, true, open)
  {
    hide Sound;
  }

  lemma AllSitesRoutes(managed: seq<RouteText>, local: seq<RouteText>, hosts: Hosts)
    ensures var n := Normalize(AllSites, managed, local, hosts); n.Some? ==> n.value == []
  {
  }

  lemma AddSitesInv(w: Worker)
    requires Inv(w.(service := w.service.(announced := false))) || Inv(w)
    requires w.service.announced && Open(w) && AllBefore(w.resolver.batches, w.link.epoch)
    requires forall j :: 0 <= j < |w.resolver.timers| ==> w.resolver.timers[j].0 < w.link.epoch
    ensures Inv(AddSites(w)) && Inv(At(AddSites(w), Connected))
  {
    hide Sound, Planned;
    NewBatchSound(w);
  }

  lemma SitesTimerInv(w: Worker, i: nat)
    requires Inv(w) && w.link.alive
    ensures Inv(SitesTimer(w, i))
  {
    if i < |w.resolver.timers| {
      hide Batches, Timers, AddSites, RouteSet;
      var ts := w.resolver.timers;
      var fired := w.(resolver := w.resolver.(timers := ts[..i] + ts[i + 1..]));
      TimerRemoved(ts, w.resolver.batches, w.link.epoch, w.service.announced, Open(w), i);
      assert Inv(fired);
      if ts[i].0 == w.link.epoch && w.link.connection == Connected { AddSitesInv(fired); }
    }
  }

  lemma TimerRemoved(ts: seq<(nat, string)>, bs: seq<Batch>, epoch: nat, announced: bool, open: bool, i: nat)
    requires Timers(ts, bs, epoch, announced, open) && i < |ts|
    ensures var rest := ts[..i] + ts[i + 1..];
      && Timers(rest, bs, epoch, announced, open)
      && (ts[i].0 == epoch ==>
            announced && open && AllBefore(bs, epoch) && forall j :: 0 <= j < |rest| ==> rest[j].0 < epoch)
  {
    hide AllBefore;
    var rest := ts[..i] + ts[i + 1..];
    assert forall j :: 0 <= j < |rest| ==> rest[j] == ts[if j < i then j else j + 1];
  }

  lemma LookupInv(w: Worker, i: nat, resolved: seq<Route>, sameGateway: bool)
    requires Inv(w)
    ensures Inv(LookupDone(w, i, resolved, sameGateway))
  {
    if i < |w.resolver.batches| && w.resolver.batches[i].clientGeneration == w.resolver.clientGeneration {
      var r := LookupDone(w, i, resolved, sameGateway);
      BatchUpdated(w, i, r.resolver.batches[i], Open(w));
      hide Batches, Timers, Learned;
    }
  }

  /** A batch may learn, become ready or finish; once it has finished, the epoch need not stay open. */
  lemma BatchUpdated(w: Worker, i: nat, b: Batch, open: bool)
    requires Inv(w) && i < |w.resolver.batches|
    requires var was := w.resolver.batches[i];
      && b == was.(owned := b.owned, ready := b.ready, done := b.done)
      && was.owned <= b.owned && (was.done ==> b.done)
      && (open == Open(w) || (b.done && was.managedGeneration == w.resolver.managedGeneration))
    ensures Batches(w.resolver.batches[i := b], w.link.epoch, w.resolver.managedGeneration,
                    w.service.announced, w.link.mode, open)
    ensures Timers(w.resolver.timers, w.resolver.batches[i := b], w.link.epoch, w.service.announced, open)
  {
    SoundKept(w.resolver.batches[i], b);
    hide Sound;
    var bs := w.resolver.batches[i := b];
    assert forall j :: 0 <= j < |bs| && j != i ==> bs[j] == w.resolver.batches[j];
  }

  lemma SoundKept(was: Batch, b: Batch)
    requires Sound(was) && was.owned <= b.owned && b == was.(owned := b.owned, ready := b.ready, done := b.done)
    ensures Sound(b)
  {
    hide Allowed, Covers, LocalRoutes;
    assert forall q :: q in was.owned ==> q in b.owned;
  }

  lemma DeliverInv(w: Worker, i: nat, sameGateway: bool, reply: AddReply)
    requires Inv(w) && w.link.alive
    ensures Inv(Deliver(w, i, sameGateway, reply))
  {
    if i < |w.resolver.batches| && w.resolver.batches[i].ready && !w.resolver.batches[i].done {
      var b := w.resolver.batches[i];
      var ran := w.(resolver := w.resolver.(batches := w.resolver.batches[i := b.(done := true)]));
      BatchUpdated(w, i, b.(done := true), Open(w));
      if b.managedGeneration == w.resolver.managedGeneration && w.link.connection == Connected && w.link.server == b.server {
        assert b.epoch == w.link.epoch && b.mode == w.link.mode && w.service.announced && Open(w);
        hide Batches, Timers, RouteSet, Install, Sound;
        InstallTruth(ran, b, reply);
        DeliveredInv(w, i, Install(ran, b, reply));
      } else {
        hide Batches, Timers, RouteSet;
      }
    }
  }

  /** Installing a batch on a cleared service publishes what was installed, or nothing. */
  lemma InstallTruth(w: Worker, b: Batch, reply: AddReply)
    requires Sound(b) && b.mode == w.link.mode && w.service.announced && (w.link.teardown ==> w.service.installed == {})
    ensures var r := Install(w, b, reply);
      && Truthful(r) && Bound(r) && r.service.attempted
      && r.link == w.link && r.resolver == w.resolver && r.service.announced == w.service.announced
  {
    if Harmless(b, w.link.hosts) { BatchRoundTrip(b, w.link.hosts); }
    NothingWanted();
    hide Normalize, Sound, Without, Sort, RouteSet, Harmless;
  }

  /** The live batch has run: whatever it published, no other batch of this epoch can follow. */
  lemma DeliveredInv(w: Worker, i: nat, r: Worker)
    requires Inv(w) && i < |w.resolver.batches| && Live(w.resolver.batches[i], w.resolver.managedGeneration)
    requires w.service.announced && r.service.announced && r.link == w.link
    requires r.resolver == w.resolver.(batches := w.resolver.batches[i := w.resolver.batches[i].(done := true)])
    requires Truthful(r) && Bound(r) && r.service.attempted
    ensures Inv(r)
  {
    BatchUpdated(w, i, w.resolver.batches[i].(done := true), false);
    hide Batches, Timers, RouteSet;
  }

  lemma NothingWanted()
    ensures RouteSet([]) == {}
  {
  }

  lemma ReconcileInv(w: Worker, q: Request, sameLocal: bool, gatewayOk: bool, reply: AddReply)
    requires Inv(w) && w.link.alive
    ensures Inv(Reconcile(w, q, sameLocal, gatewayOk, reply))
  {
    hide Inv, Decide, Update, Settled, Attempted;
    Decided(w, q, sameLocal);
    var verdict := Decide(w, q, sameLocal);
    var noted := Noted(w, q, !verdict.Ignored?);
    NotedInv(w, noted.receipt.latestRequest, noted.receipt.transition);
    match verdict
    case AlreadyApplied(target) => SettledInv(noted, q);
    case Attempt(was, target) => UpdateInv(noted, q, was, target, gatewayOk, reply);
    case _ =>
  }

  /** What a verdict other than a refusal says about the request and the held base. */
  lemma Decided(w: Worker, q: Request, sameLocal: bool)
    ensures var verdict := Decide(w, q, sameLocal);
      (verdict.AlreadyApplied? || verdict.Attempt?) ==>
        && w.receipt.base.Some? && w.link.connection == Connected && q.mode == Some(w.receipt.base.value.mode)
        && Normalize(q.mode.value, q.newRoutes, q.local.routes, w.link.hosts) == Some(verdict.target)
        && IdentityFits(q.desired, verdict.target == [])
        && (verdict.AlreadyApplied? ==> verdict.target == w.receipt.base.value.routes)
        && (verdict.Attempt? ==>
              && verdict.was == w.receipt.base.value.routes && q.revision == w.receipt.revision
              && w.receipt.base.value == Base(q.mode.value, verdict.was, q.epoch, q.server, q.expected)
              && q.oldRoutes == Texts(verdict.was))
  {
    hide Normalize, Validated;
    if q.mode.Some? { NothingNormalizes(q.mode.value, q.local.routes, w.link.hosts); }
  }

  lemma NothingNormalizes(mode: RouteMode, local: seq<RouteText>, hosts: Hosts)
    ensures Normalize(mode, [], local, hosts) == Some([])
  {
    hide Allowed, LocalRoutes, Covers;
    assert Validated([]) == Some([]);
    if mode == AllExceptSites {
      assert forall h: Address :: Some(h) in hosts ==> !Covers([], h) by { NothingCovers(); }
      assert Texts([]) == [];
      NormalizeFixpointIff([], local, hosts);
    }
  }

  lemma NotedInv(w: Worker, latest: nat, transition: bool)
    requires Inv(w)
    ensures Inv(w.(receipt := w.receipt.(latestRequest := latest, transition := transition)))
  {
    hide Batches, Timers, RouteSet;
  }

  lemma SettledInv(w: Worker, q: Request)
    requires Inv(w) && w.receipt.base.Some? && q.mode == Some(w.receipt.base.value.mode)
    requires IdentityFits(q.desired, w.receipt.base.value.routes == [])
    ensures Inv(Settled(w, q, w.receipt.base.value.routes))
  {
    hide Batches, Timers, RouteSet;
    HeldInv(w, Settled(w, q, w.receipt.base.value.routes));
  }

  lemma UpdateInv(w: Worker, q: Request, was: seq<Route>, target: seq<Route>, gatewayOk: bool, reply: AddReply)
    requires Inv(w) && w.receipt.base.Some?
    requires w.receipt.base.value.routes == was && q.mode == Some(w.receipt.base.value.mode)
    requires w.link.connection == Connected && IdentityFits(q.desired, target == [])
    ensures Inv(Attempted(w, q, target, Update(true, w.resolver.lookups, q.mode.value, was, target, gatewayOk, reply)))
  {
    hide Inv, RouteSet, Update, Settled, Applied, Invalidate;
    UpdateEffect(true, w.resolver.lookups, q.mode.value, was, target, gatewayOk, reply);
    var o := Update(true, w.resolver.lookups, q.mode.value, was, target, gatewayOk, reply);
    match o.result
    case Updated => UpdatedInv(w, q, o, target);
    case RuntimeUncertain => UncertainInv(w, o);
    case _ => UnsentInv(w, o);
  }

  lemma UpdatedInv(w: Worker, q: Request, o: Outcome, target: seq<Route>)
    requires Inv(w) && w.receipt.base.Some? && w.link.connection == Connected && q.mode == Some(w.receipt.base.value.mode)
    requires RouteSet(w.receipt.base.value.routes) + (if o.sent.Some? then o.sent.value else {}) == RouteSet(target)
    requires IdentityFits(q.desired, target == [])
    ensures Inv(Settled(Applied(w, o), q, target))
  {
    hide Batches, Timers, RouteSet;
    HeldInv(w, Settled(Applied(w, o), q, target));
  }

  lemma UncertainInv(w: Worker, o: Outcome)
    requires Inv(w) && w.receipt.base.Some?
    ensures Inv(Invalidate(Applied(w, o)))
  {
    hide Batches, Timers, RouteSet;
    HeldInv(w, Invalidate(Applied(w, o)));
  }

  lemma UnsentInv(w: Worker, o: Outcome)
    requires Inv(w) && w.receipt.base.Some? && o.sent.None?
    ensures Inv(Applied(w, o))
  {
    hide Batches, Timers, RouteSet;
    HeldInv(w, Applied(w, o));
  }

  /** From a held receipt, any step inside the epoch that keeps the receipt true or drops it. */
  lemma HeldInv(w: Worker, r: Worker)
    requires Inv(w) && w.receipt.base.Some?
    requires r.link == w.link && r.service.announced == w.service.announced
    requires && r.resolver.batches == w.resolver.batches && r.resolver.timers == w.resolver.timers
      && r.resolver.managedGeneration >= w.resolver.managedGeneration
    requires var base := r.receipt.base;
      base.Some? ==>
        && base.value.epoch == r.link.epoch && base.value.server == r.link.server && base.value.mode == r.link.mode
        && IdentityFits(base.value.identity, base.value.routes == [])
    requires Truthful(r) && r.link.teardown == w.link.teardown
    requires r.service.attempted || (!w.service.attempted && r.service.installed == w.service.installed)
    ensures Inv(r)
  {
    NoneLive(w);
    hide Batches, Timers, RouteSet;
  }

  /** Once a receipt is held, no batch or timer of this epoch is still to come. */
  lemma NoneLive(w: Worker)
    requires Inv(w) && w.receipt.base.Some?
    ensures forall open, generation: nat :: generation >= w.resolver.managedGeneration ==>
              Batches(w.resolver.batches, w.link.epoch, generation, w.service.announced, w.link.mode, open)
    ensures forall open :: Timers(w.resolver.timers, w.resolver.batches, w.link.epoch, w.service.announced, open)
  {
    hide Sound;
  }

  /** An in-place update reaches its target exactly, changes nothing, or is known to be uncertain. */
  lemma UpdateEffect(connected: bool, lookups: nat, mode: RouteMode, was: seq<Route>, target: seq<Route>,
                     gatewayOk: bool, reply: AddReply)
    ensures var o := Update(connected, lookups, mode, was, target, gatewayOk, reply);
      && (o.result == Updated ==> RouteSet(was) + (if o.sent.Some? then o.sent.value else {}) == RouteSet(target))
      && (o.result == ReconnectRequired || o.result == ReconnectDeferred ==> o.sent.None?)
      && (o.sent.Some? ==> mode == AllExceptSites && lookups == 0 && |o.sent.value| <= MAXIMUM_DELTA)
  {
    hide Without, RouteSet;
    DeltaReached(was, target);
    AddedIsBounded(Without(target, was), reply);
  }

  lemma AddedIsBounded(wanted: seq<Route>, reply: AddReply)
    ensures |Added(wanted, reply)| <= |wanted|
  {
    hide RouteSet;
    RouteSetSize(wanted);
    SubsetSize(Added(wanted, reply), RouteSet(wanted));
  }

  lemma {:induction false} RouteSetSize(rs: seq<Route>)
    ensures |RouteSet(rs)| <= |rs|
  {
    if rs != [] {
      var n := |rs| - 1;
      RouteSetSize(rs[..n]);
      assert rs == rs[..n] + [rs[n]];
      assert RouteSet(rs) == RouteSet(rs[..n]) + {rs[n]};
    }
  }

  lemma {:induction false} SubsetSize(part: set<Route>, all: set<Route>)
    requires part <= all
    ensures |part| <= |all|
  {
    if part != {} {
      var r :| r in part;
      SubsetSize(part - {r}, all - {r});
    }
  }

  lemma DeltaReached(was: seq<Route>, target: seq<Route>)
    ensures Without(was, target) == [] ==> RouteSet(was) + RouteSet(Without(target, was)) == RouteSet(target)
    ensures Without(was, target) == [] && Without(target, was) == [] ==> RouteSet(was) == RouteSet(target)
  {
    hide Without;
    var added, removed := Without(target, was), Without(was, target);
    assert removed == [] ==> forall x :: x in was ==> x in target;
    assert added == [] ==> forall x :: x in target ==> x in was;
    assert forall x :: x in RouteSet(added) <==> x in target && x !in was;
  }

  lemma FlushInv(w: Worker, sameLocal: bool)
    requires Inv(w) && w.link.alive
    ensures Inv(Flush(w, sameLocal))
  {
    if w.link.connection == Connected && PreparedIsApplied(w, sameLocal) {
      hide Batches, Timers, Normalize, RouteSet;
      HeldInv(w, Flush(w, sameLocal));
    }
  }

  lemma StepInv(w: Worker, e: Event)
    requires Inv(w)
    ensures Inv(Step(w, e))
  {
    hide Inv, Retired, Connect, Reconnect, Disconnect, Exit, Report, SitesTimer, LookupDone, Deliver, Reconcile, Flush;
    if w.link.alive {
      match e
      case ConnectEvent(server, mode, hosts, startup, clear) =>
        ConnectRetires(w, server, mode, hosts, startup, clear);
        RetiredInv(w, Connect(w, server, mode, hosts, startup, clear));
      case ReconnectEvent(mode, hosts, startup, clear) => ReconnectInv(w, mode, hosts, startup, clear);
      case DisconnectEvent(clear) =>
        DisconnectRetires(w, clear);
        RetiredInv(w, Disconnect(w, clear));
      case ExitEvent(disconnect) =>
        ExitRetires(w, disconnect);
        RetiredInv(w, Exit(w, disconnect));
      case ReportEvent(state, clear) => ReportInv(w, state, clear);
      case SitesTimerEvent(i) => SitesTimerInv(w, i);
      case LookupEvent(i, resolved, sameGateway) => LookupInv(w, i, resolved, sameGateway);
      case DeliverEvent(i, sameGateway, add) => DeliverInv(w, i, sameGateway, add);
      case ReconcileEvent(q, sameLocal, gatewayOk, add) => ReconcileInv(w, q, sameLocal, gatewayOk, add);
      case FlushEvent(sameLocal) => FlushInv(w, sameLocal);
      case _ => QuietInv(w, e);
    }
  }

  lemma ConnectRetires(w: Worker, server: string, mode: RouteMode, hosts: Hosts, startup: Option<Snapshot>, reply: ClearReply)
    ensures Retired(w, Connect(w, server, mode, hosts, startup, reply))
  {
  }

  lemma ReconnectRetires(w: Worker, mode: RouteMode, hosts: Hosts, startup: Option<Snapshot>, reply: ClearReply)
    requires w.link.connection == Connected
    ensures Retired(w, Reconnect(w, mode, hosts, startup, reply))
  {
  }

  lemma DisconnectRetires(w: Worker, reply: ClearReply)
    ensures Retired(w, Disconnect(w, reply))
  {
  }

  lemma ReconnectInv(w: Worker, mode: RouteMode, hosts: Hosts, startup: Option<Snapshot>, reply: ClearReply)
    requires Inv(w)
    ensures Inv(Reconnect(w, mode, hosts, startup, reply))
  {
    hide Inv, Retired;
    if w.link.connection == Connected {
      ReconnectRetires(w, mode, hosts, startup, reply);
      RetiredInv(w, Reconnect(w, mode, hosts, startup, reply));
    }
  }

  lemma ExitRetires(w: Worker, disconnect: Option<ClearReply>)
    ensures Retired(w, Exit(w, disconnect))
  {
  }

  /** Steps that at most drop the receipt. */
  lemma QuietInv(w: Worker, e: Event)
    requires Inv(w) && (e.HostsEvent? || e.PrepareEvent? || e.RebuildEvent? || e.LookupDeadlineEvent?)
    ensures Inv(Step(w, e))
  {
    if w.receipt.base.Some? { NoneLive(w); }
    hide Batches, Timers;
  }

  lemma {:induction false} RunInv(w: Worker, events: seq<Event>)
    requires Inv(w)
    ensures Inv(Run(w, events))
    decreases |events|
  {
    hide Inv, Step;
    if events != [] {
      StepInv(w, events[0]);
      RunInv(Step(w, events[0]), events[1..]);
    }
  }

  // --------------------------------------------------------------- main results

  /**
   In every run, a receipt held while connected lists exactly the managed routes that are installed, and
   belongs to the current epoch and server. The one exception is a batch published after the protected hosts
   had moved into one of its routes; `PublishedExactly` shows that the receipt is then wrong.
   */
  lemma ReceiptTruth(events: seq<Event>)
    ensures var w := Run(Fresh(), events);
      w.receipt.base.Some? ==>
        && w.receipt.base.value.epoch == w.link.epoch && w.receipt.base.value.server == w.link.server != ""
        && w.receipt.base.value.mode == w.link.mode
        && IdentityFits(w.receipt.base.value.identity, w.receipt.base.value.routes == [])
        && (w.link.connection == Connected && !w.service.drifted ==>
              RouteSet(w.receipt.base.value.routes) == w.service.installed)
  {
    FreshInv();
    RunInv(Fresh(), events);
    hide Run, Batches, Timers;
  }

  /**
   Without the restriction to Connected the statement is false: a reported error clears the service and
   keeps the receipt. It survives exactly when the clear changed nothing.
   */
  lemma TeardownKeepsReceiptIff(w: Worker, state: Connection, reply: ClearReply)
    requires Inv(w) && w.link.alive && w.receipt.base.Some? && (state == Error || state == Disconnected)
    ensures var r, routes := Report(w, state, reply), RouteSet(w.receipt.base.value.routes);
      && r.receipt.base == w.receipt.base && r.link.connection != Connected
      && (routes == r.service.installed
          <==> if reply.Cleared? then w.receipt.base.value.routes == []
               else if w.link.connection == Connected && !w.service.drifted then routes <= reply.remaining
               else routes == w.service.installed * reply.remaining)
  {
    hide Batches, Timers, Announce;
    var routes := w.receipt.base.value.routes;
    assert routes != [] ==> routes[0] in RouteSet(routes);
  }

  /** A four-step run that ends with a receipt for a route that is gone. */
  lemma ReceiptOutlivesTeardown(server: string, id: Identity, r: Route)
    requires server != "" && id.Policy? && Allowed(r)
    ensures var end := Run(Fresh(), [ConnectEvent(server, AllExceptSites, [], Some(OneRoute(server, id, r)), Cleared),
                                     ReportEvent(Connected, Cleared), DeliverEvent(0, true, Full),
                                     ReportEvent(Error, Cleared)]);
      end.receipt.base.Some? && end.receipt.base.value.routes == [r] && end.service.installed == {}
  {
    hide Allowed, Connect, Report, Deliver, Run, OneRouteBatch;
    var e1 := ConnectEvent(server, AllExceptSites, [], Some(OneRoute(server, id, r)), Cleared);
    FourSteps(Fresh(), e1, ReportEvent(Connected, Cleared), DeliverEvent(0, true, Full), ReportEvent(Error, Cleared));
    OneRouteConnected(server, id, r);
    var w1 := Connect(Fresh(), server, AllExceptSites, [], Some(OneRoute(server, id, r)), Cleared);
    var w2 := Report(w1, Connected, Cleared);
    OneRouteInstalled(w2, server, id, r);
    ClearedReport(Deliver(w2, 0, true, Full));
  }

  /**
   A four-step run that ends connected with a wrong receipt: once a host moves into the route before its batch
   is delivered, the receipt lists the pieces around the host while the service holds the whole route.
   */
  lemma ReceiptMissesMovedHost(server: string, id: Identity, r: Route, h: Address)
    requires server != "" && id.Policy? && Allowed(r) && r.prefix <= 31 && Contains(r, h)
    ensures var end := Run(Fresh(), [ConnectEvent(server, AllExceptSites, [], Some(OneRoute(server, id, r)), Cleared),
                                     ReportEvent(Connected, Cleared), HostsEvent([Some(h)]),
                                     DeliverEvent(0, true, Full)]);
      && end.link.connection == Connected && end.receipt.base.Some? && end.service.installed == {r}
      && RouteSet(end.receipt.base.value.routes) != end.service.installed
  {
    hide Allowed, Connect, Report, Deliver, Run, OneRouteBatch, Contains, Inv, Harmless, RouteSet;
    var e1 := ConnectEvent(server, AllExceptSites, [], Some(OneRoute(server, id, r)), Cleared);
    FourSteps(Fresh(), e1, ReportEvent(Connected, Cleared), HostsEvent([Some(h)]), DeliverEvent(0, true, Full));
    OneRouteConnected(server, id, r);
    var w1 := Connect(Fresh(), server, AllExceptSites, [], Some(OneRoute(server, id, r)), Cleared);
    var w2 := Report(w1, Connected, Cleared);
    FreshInv();
    StepInv(Fresh(), e1);
    StepInv(w1, ReportEvent(Connected, Cleared));
    StepInv(w2, HostsEvent([Some(h)]));
    MovedHostDelivered(HostsChanged(w2, [Some(h)]), server, id, r, h);
  }

  lemma MovedHostDelivered(w: Worker, server: string, id: Identity, r: Route, h: Address)
    requires Inv(w) && Allowed(r) && r.prefix <= 31 && Contains(r, h)
    requires w.link.alive && w.link.teardown && w.link.connection == Connected && w.resolver.managedGeneration == 2
    requires w.link.server == server != "" && id.Policy? && w.link.hosts == [Some(h)]
    requires w.resolver.batches == [OneRouteBatch(server, id, r)] && w.service.installed == {}
    ensures var end := Deliver(w, 0, true, Full);
      && end.link.connection == Connected && end.receipt.base.Some? && end.service.installed == {r}
      && RouteSet(end.receipt.base.value.routes) != end.service.installed
  {
    hide Allowed, Contains, Inv, Harmless, Normalize, Without, Sort, Install, Deliver;
    var b := OneRouteBatch(server, id, r);
    MovedHostHarms(server, id, r, h);
    OneRoutePlan(r);
    OneHostNormalizes(r, h);
    MovedHostInstalled(w, b, r, [Some(h)]);
    PublishedExactly(w, 0);
  }

  lemma MovedHostHarms(server: string, id: Identity, r: Route, h: Address)
    requires Contains(r, h) && Allowed(r)
    ensures !Harmless(OneRouteBatch(server, id, r), [Some(h)])
  {
    hide Allowed, Contains, LocalRoutes, Sort, Without;
    OneRoutePlan(r);
    assert Covers([r], h) by { assert [r][0] == r; }
    assert Some(h) in [Some(h)];
  }

  lemma MovedHostInstalled(w: Worker, b: Batch, r: Route, hosts: Hosts)
    requires w.resolver.batches == [b] && b.ready && !b.done && b.managedGeneration == w.resolver.managedGeneration
    requires w.link.connection == Connected && w.link.server == b.server != "" && w.link.hosts == hosts && w.link.teardown
    requires Without(b.routes, b.owned) == [r] && Sort([r]) == [r] && b.confirmable && b.identity.Policy?
    requires Normalize(b.mode, Texts([r]), b.local.routes, hosts).Some? && w.service.installed == {}
    ensures var end := Deliver(w, 0, true, Full);
      end.link.connection == Connected && end.receipt.base.Some? && end.service.installed == {r}
  {
    hide Normalize, Without, Sort, Harmless;
    assert RouteSet([r]) == {r};
  }

  /** One route around one host stays within the budget. */
  lemma OneHostNormalizes(r: Route, h: Address)
    requires Allowed(r) && r.prefix <= 31
    ensures Normalize(AllExceptSites, Texts([r]), [], [Some(h)]).Some?
  {
    hide Allowed, Split, Validated, Normalize;
    OneValidated(r);
    NormalizeValidIff(Texts([r]), [], [Some(h)]);
    OneHostPieces(r, h);
  }

  lemma OneValidated(r: Route)
    requires Allowed(r)
    ensures Texts([r]) == [Plain(r)] && Validated([Plain(r)]) == Some([r])
  {
    hide Allowed;
    assert Texts([r]) == [Plain(r)];
    AllowedIsSupported(Plain(r));
    assert SupportedRoutes([Plain(r)]) == [r];
  }

  lemma OneAddress(h: Address)
    ensures ProtectedAddresses([Some(h)]) == [h]
  {
    assert [Some(h)][..0] == [];
  }

  lemma OneText(t: RouteText, hosts: seq<Address>)
    ensures SplitEach([t], hosts) == SplitTexts([t], hosts)
  {
    assert [t][1..] == [];
  }

  lemma OneHostPieces(r: Route, h: Address)
    requires r.prefix <= 31
    ensures |Split([Plain(r)], [Some(h)])| <= 32
  {
    hide SplitPieces, SplitTexts, SplitEach, ProtectedAddresses, PairwiseDisjoint, Covers, Contains;
    OneRouteFewPieces(r, h);
    OneAddress(h);
    SplitOfOneText(Plain(r), [h]);
    OneText(Plain(r), [h]);
  }

  lemma OneRouteFewPieces(r: Route, h: Address)
    requires r.prefix <= 31
    ensures |SplitPieces([r], [h])| <= 32
  {
    hide SplitPieces, PairwiseDisjoint, Covers, Contains;
    SplitOneRoute(r, [h]);
    assert |[h]| * (31 - r.prefix) == 31 - r.prefix;
  }

  function OneRoute(server: string, id: Identity, r: Route): Snapshot {
    Snapshot(server, AllExceptSites, [Plain(r)], id, LocalSites([], 0))
  }

  function OneRouteBatch(server: string, id: Identity, r: Route): Batch {
    Batch(1, server, AllExceptSites, [], LocalSites([], 0), id, [r], true, [], 2, 2, true, false)
  }

  lemma OneRouteConnected(server: string, id: Identity, r: Route)
    requires server != "" && Allowed(r)
    ensures var w1 := Connect(Fresh(), server, AllExceptSites, [], Some(OneRoute(server, id, r)), Cleared);
      var w := Report(w1, Connected, Cleared);
      && w1.link.alive && w.link.alive && w.link.teardown && w.link.connection == Connected
      && w.resolver.managedGeneration == 2
      && w.link.server == server && w.link.hosts == [] && w.resolver.batches == [OneRouteBatch(server, id, r)]
      && w.service.installed == {}
  {
    hide Allowed, NewBatch, OneRouteBatch, Publish;
    var w1 := Connect(Fresh(), server, AllExceptSites, [], Some(OneRoute(server, id, r)), Cleared);
    assert w1.link.epoch == 1 && w1.resolver.clientGeneration == 1 && w1.resolver.managedGeneration == 1;
    assert w1.resolver.batches == [] && !w1.service.announced;
    OneRouteNewBatch(w1.(service := w1.service.(announced := true)), server, id, r);
    hide Connect;
    BatchGenerations(w1.(service := w1.service.(announced := true)));
  }

  lemma BatchGenerations(w: Worker)
    ensures NewBatch(w).managedGeneration == w.resolver.managedGeneration + 1
  {
    hide Planned, ClientRoutes;
  }

  lemma OneRouteNewBatch(w: Worker, server: string, id: Identity, r: Route)
    requires server != "" && Allowed(r)
    requires w.link.epoch == 1 && w.resolver.clientGeneration == 1 && w.resolver.managedGeneration == 1
    requires w.link.server == server && w.link.mode == AllExceptSites && w.link.hosts == []
    requires w.link.startup == Some(OneRoute(server, id, r))
    ensures NewBatch(w) == OneRouteBatch(server, id, r)
  {
    OneRoutePlan(r);
    hide Allowed, Planned, LocalRoutes;
  }

  lemma ClearedReport(w: Worker)
    ensures Report(w, Error, Cleared).receipt == w.receipt && Report(w, Error, Cleared).service.installed == {}
  {
    hide Announce;
  }

  lemma OneRouteInstalled(w: Worker, server: string, id: Identity, r: Route)
    requires Allowed(r) && w.link.teardown && w.link.connection == Connected && w.resolver.managedGeneration == 2
    requires w.link.server == server != "" && id.Policy? && w.link.hosts == []
    requires w.resolver.batches == [OneRouteBatch(server, id, r)]
    ensures var end := Deliver(w, 0, true, Full);
      end.receipt.base == Some(Base(AllExceptSites, [r], w.link.epoch, server, id)) && end.link.alive == w.link.alive
  {
    OneRoutePlan(r);
    hide Allowed, Normalize, Without, Sort, Install;
    var b := OneRouteBatch(server, id, r);
    InstallComplete(w.(resolver := w.resolver.(batches := w.resolver.batches[0 := b.(done := true)])), b, [r]);
  }

  lemma InstallComplete(w: Worker, b: Batch, routes: seq<Route>)
    requires Without(b.routes, b.owned) == routes && Sort(routes) == routes
    requires Normalize(b.mode, Texts(routes), b.local.routes, w.link.hosts) == Some(routes)
    requires w.link.teardown && w.link.server != "" && b.confirmable && b.identity.Policy?
    ensures var r := Install(w, b, Full);
      r.receipt.base == Some(Base(b.mode, routes, w.link.epoch, w.link.server, b.identity)) && r.link.alive == w.link.alive
  {
    hide Normalize, Without, Sort, Added;
  }

  lemma FourSteps(w: Worker, e1: Event, e2: Event, e3: Event, e4: Event)
    ensures Run(w, [e1, e2, e3, e4]) == Step(Step(Step(Step(w, e1), e2), e3), e4)
  {
    hide Step;
    var w1 := Step(w, e1);
    var w2 := Step(w1, e2);
    var w3 := Step(w2, e3);
    assert [e1, e2, e3, e4][1..] == [e2, e3, e4] && [e2, e3, e4][1..] == [e3, e4];
    assert [e3, e4][1..] == [e4] && [e4][1..] == [];
    assert Run(w3, [e4]) == Step(w3, e4);
    assert Run(w2, [e3, e4]) == Run(w3, [e4]);
    assert Run(w1, [e2, e3, e4]) == Run(w2, [e3, e4]);
  }

  lemma OneRoutePlan(r: Route)
    requires Allowed(r)
    ensures Planned(AllExceptSites, [Plain(r)], []) == ([r], true)
    ensures LocalRoutes([], []) == []
    ensures Without([r], []) == [r] && Sort([r]) == [r]
    ensures Normalize(AllExceptSites, Texts([r]), [], []) == Some([r])
  {
    hide Allowed;
    assert Texts([r]) == [Plain(r)];
    AllowedIsSupported(Plain(r));
    assert SupportedRoutes([Plain(r)]) == [r];
    assert Validated([Plain(r)]) == Some([r]);
    assert ProtectedAddresses([]) == [];
    NormalizeFixpointIff([r], [], []);
  }

  lemma {:induction false} AscendingUnique(a: seq<Route>, b: seq<Route>)
    requires Ascending(a) && Ascending(b) && RouteSet(a) == RouteSet(b)
    ensures a == b
    decreases |a|
  {
    EmptySet(a);
    EmptySet(b);
    if a != [] {
      assert a[0] in RouteSet(b);
      assert b[0] in RouteSet(a);
      LeastIsFirst(a, b[0]);
      LeastIsFirst(b, a[0]);
      assert a[0] == b[0];
      assert forall x :: x in a[1..] <==> x in a && x != a[0];
      assert forall x :: x in b[1..] <==> x in b && x != b[0];
      forall x
        ensures x in RouteSet(a[1..]) <==> x in RouteSet(b[1..])
      {
        assert x in a <==> x in RouteSet(a);
        assert x in b <==> x in RouteSet(b);
      }
      AscendingUnique(a[1..], b[1..]);
    }
  }

  lemma EmptySet(s: seq<Route>)
    ensures s == [] <==> RouteSet(s) == {}
  {
    if s != [] { assert s[0] in RouteSet(s); }
  }

  lemma LeastIsFirst(s: seq<Route>, x: Route)
    requires Ascending(s) && x in s
    ensures x == s[0] || Before(s[0], x)
  {
  }

  /**
   A complete batch published after the hosts moved: the receipt equals what is installed exactly when no
   host protected now lies inside an installed route and no local rule owns one now.
   */
  lemma PublishedExactly(w: Worker, i: nat)
    requires Inv(w) && w.link.alive && w.link.connection == Connected && w.link.teardown && w.link.server != ""
    requires i < |w.resolver.batches|
    requires var b := w.resolver.batches[i];
      && b.ready && !b.done && b.managedGeneration == w.resolver.managedGeneration && b.server == w.link.server
      && b.confirmable && b.identity.Policy? && b.mode == AllExceptSites
    ensures var r, b := Deliver(w, i, true, Full), w.resolver.batches[i];
      (r.receipt.base.Some? && RouteSet(r.receipt.base.value.routes) == r.service.installed)
      <==> Harmless(b, w.link.hosts)
  {
    hide Allowed, Covers, LocalRoutes, Split, Normalize, Without, Sort, Timers;
    var b, r := w.resolver.batches[i], Deliver(w, i, true, Full);
    var wanted := Without(b.routes, b.owned);
    var installed := Sort(wanted);
    WithoutKeeps(b.routes, b.owned);
    NormalizeFixpointIff(installed, b.local.routes, w.link.hosts);
    assert w.service.installed == {};
    assert r.service.installed == RouteSet(installed);
    var normalized := Normalize(AllExceptSites, Texts(installed), b.local.routes, w.link.hosts);
    if normalized.Some? {
      NormalizeSound(Texts(installed), b.local.routes, w.link.hosts);
      if RouteSet(normalized.value) == RouteSet(installed) { AscendingUnique(normalized.value, installed); }
    }
  }

  lemma {:induction false} RunFollows(w: Worker, events: seq<Event>)
    ensures Follows(w, Run(w, events)) && SameEpochs(w.resolver.batches, Run(w, events).resolver.batches)
    decreases |events|
  {
    hide Step;
    if events != [] {
      StepBatches(w, events[0]);
      RunFollows(Step(w, events[0]), events[1..]);
    }
  }

  /** Batches are only added, and keep their epoch. */
  predicate SameEpochs(was: seq<Batch>, now: seq<Batch>) {
    |was| <= |now| && forall i :: 0 <= i < |was| ==> now[i].epoch == was[i].epoch
  }

  lemma StepBatches(w: Worker, e: Event)
    ensures SameEpochs(w.resolver.batches, Step(w, e).resolver.batches)
  {
    hide Connect, Reconnect, Disconnect, Exit, Report, SitesTimer, LookupDone, LookupDeadline, Deliver;
    hide Reconcile, Rebuild, Flush;
    match e
    case ReportEvent(state, clear) => ReportBatches(w, state, clear);
    case SitesTimerEvent(i) => SitesBatches(w, i);
    case LookupEvent(i, resolved, sameGateway) => LookupBatches(w, i, resolved, sameGateway);
    case DeliverEvent(i, sameGateway, add) => DeliverBatches(w, i, sameGateway, add);
    case _ =>
  }

  lemma ReportBatches(w: Worker, state: Connection, reply: ClearReply)
    ensures SameEpochs(w.resolver.batches, Report(w, state, reply).resolver.batches)
  {
    hide Clear, AddSites, Publish, NewBatch;
  }

  lemma SitesBatches(w: Worker, i: nat)
    ensures SameEpochs(w.resolver.batches, SitesTimer(w, i).resolver.batches)
  {
    hide AddSites, NewBatch;
  }

  lemma LookupBatches(w: Worker, i: nat, resolved: seq<Route>, sameGateway: bool)
    ensures SameEpochs(w.resolver.batches, LookupDone(w, i, resolved, sameGateway).resolver.batches)
  {
  }

  lemma DeliverBatches(w: Worker, i: nat, sameGateway: bool, reply: AddReply)
    ensures SameEpochs(w.resolver.batches, Deliver(w, i, sameGateway, reply).resolver.batches)
  {
    hide Install;
  }

  /** A callback captured before an epoch change never alters the receipt or the service, however late. */
  lemma LateCallbackHarmless(before: seq<Event>, i: nat, after: seq<Event>, sameGateway: bool, reply: AddReply)
    requires i < |Run(Fresh(), before).resolver.batches|
    requires Run(Run(Fresh(), before), after).link.epoch != Run(Fresh(), before).link.epoch
    ensures var w := Run(Run(Fresh(), before), after);
      var r := Deliver(w, i, sameGateway, reply);
      r.receipt == w.receipt && r.service == w.service
  {
    var w0 := Run(Fresh(), before);
    FreshInv();
    RunInv(Fresh(), before);
    RunInv(w0, after);
    RunFollows(w0, after);
    StaleBatch(Run(w0, after), i, sameGateway, reply);
    hide Run, Deliver, Timers, Sound;
  }

  lemma StaleBatch(w: Worker, i: nat, sameGateway: bool, reply: AddReply)
    requires Inv(w) && i < |w.resolver.batches|
    ensures var r := Deliver(w, i, sameGateway, reply);
      w.resolver.batches[i].epoch != w.link.epoch ==>
        r.receipt == w.receipt && r.service == w.service
  {
    hide Timers, Sound, Install;
  }

  /** A request with a stale generation, epoch or server, or outside Connected, is only noted. */
  lemma StaleRequestIgnored(w: Worker, q: Request, sameLocal: bool, gatewayOk: bool, reply: AddReply)
    requires || q.generation <= w.receipt.latestRequest || q.epoch != w.link.epoch || q.server != w.link.server
      || w.link.connection != Connected
    ensures var r := Reconcile(w, q, sameLocal, gatewayOk, reply);
      r.receipt == w.receipt.(latestRequest := r.receipt.latestRequest) && r.service == w.service && r.link == w.link
  {
  }

  /**
   Compare and swap: the service is touched only for a request that names the exact base held, routes are
   only ever added in place, and a successful request leaves exactly its desired list installed.
   */
  lemma ReconcileSwaps(events: seq<Event>, q: Request, sameLocal: bool, gatewayOk: bool, reply: AddReply)
    ensures var w := Run(Fresh(), events);
      var r := Reconcile(w, q, sameLocal, gatewayOk, reply);
      && w.service.installed <= r.service.installed
      && (r.service.installed != w.service.installed ==>
            && w.receipt.base.Some? && q.mode == Some(AllExceptSites) && q.revision == w.receipt.revision
            && w.resolver.lookups == 0 && |r.service.installed - w.service.installed| <= MAXIMUM_DELTA
            && w.receipt.base.value == Base(AllExceptSites, w.receipt.base.value.routes, q.epoch, q.server, q.expected)
            && q.oldRoutes == Texts(w.receipt.base.value.routes))
      && (r.receipt.base.Some? && r.receipt.base != w.receipt.base && w.link.alive && !w.service.drifted ==>
            && q.mode.Some? && r.receipt.base.value.identity == q.desired
            && Normalize(q.mode.value, q.newRoutes, q.local.routes, w.link.hosts) == Some(r.receipt.base.value.routes)
            && RouteSet(r.receipt.base.value.routes) == r.service.installed)
  {
    FreshInv();
    RunInv(Fresh(), events);
    hide Run, Reconcile, Normalize, RouteSet, Inv;
    var w := Run(Fresh(), events);
    SwapInstalled(w, q, sameLocal, gatewayOk, reply);
    SwapTruth(w, q, sameLocal, gatewayOk, reply);
  }

  lemma SwapInstalled(w: Worker, q: Request, sameLocal: bool, gatewayOk: bool, reply: AddReply)
    ensures var r := Reconcile(w, q, sameLocal, gatewayOk, reply);
      && w.service.installed <= r.service.installed
      && (r.service.installed != w.service.installed ==>
            && w.receipt.base.Some? && q.mode == Some(AllExceptSites) && q.revision == w.receipt.revision
            && w.resolver.lookups == 0 && |r.service.installed - w.service.installed| <= MAXIMUM_DELTA
            && w.receipt.base.value == Base(AllExceptSites, w.receipt.base.value.routes, q.epoch, q.server, q.expected)
            && q.oldRoutes == Texts(w.receipt.base.value.routes))
  {
    hide Decide, Update, Attempted, Settled, RouteSet;
    Decided(w, q, sameLocal);
    var verdict := Decide(w, q, sameLocal);
    if verdict.Attempt? {
      UpdateEffect(w.link.connection == Connected, w.resolver.lookups, q.mode.value, verdict.was, verdict.target,
                   gatewayOk, reply);
      var o := Update(w.link.connection == Connected, w.resolver.lookups, q.mode.value, verdict.was, verdict.target,
                      gatewayOk, reply);
      var r := Reconcile(w, q, sameLocal, gatewayOk, reply);
      if o.sent.Some? { SubsetSize(r.service.installed - w.service.installed, o.sent.value); }
    }
  }

  lemma SwapTruth(w: Worker, q: Request, sameLocal: bool, gatewayOk: bool, reply: AddReply)
    requires Inv(w)
    ensures var r := Reconcile(w, q, sameLocal, gatewayOk, reply);
      r.receipt.base.Some? && r.receipt.base != w.receipt.base && w.link.alive && !w.service.drifted ==>
        && q.mode.Some? && r.receipt.base.value.identity == q.desired
        && Normalize(q.mode.value, q.newRoutes, q.local.routes, w.link.hosts) == Some(r.receipt.base.value.routes)
        && RouteSet(r.receipt.base.value.routes) == r.service.installed
  {
    hide Decide, Inv, Normalize, RouteSet, Update, Attempted, Settled;
    if w.link.alive {
      ReconcileInv(w, q, sameLocal, gatewayOk, reply);
      TruthOf(Reconcile(w, q, sameLocal, gatewayOk, reply));
    }
    Decided(w, q, sameLocal);
  }

  lemma TruthOf(w: Worker)
    requires Inv(w)
    ensures Truthful(w)
  {
    hide Batches, Timers, RouteSet;
  }
}
