/**
 The VPN worker as an object, as far as managed routes are concerned. Every slot keeps the invariant of the
 receipt protocol and moves the object as the protocol says, so a run of slots is a run of the protocol.
 */
module RouteWorker {
  import opened Options
  import opened Prefixes
  import opened RouteTexts
  import opened ManagedPolicy
  import opened RuntimeRoutes
  import R = ManagedRouteReceipt
  import RouteSwap

  class VpnWorker {
    var link: R.Link
    var receipt: R.Receipt
    var resolver: R.Resolver
    /** What the route service really holds, and the histories; the worker cannot read any of it. */
    ghost var service: R.Service

    ghost function View(): R.Worker
      reads this
    {
      R.Worker(link, receipt, resolver, service)
    }

    /** In particular a receipt held while connected is what the service holds. */
    ghost predicate Valid()
      reads this
    {
      R.Inv(View())
    }

    /** No batch queued so far can publish any more. */
    ghost predicate Superseded()
      reads this
    {
      forall i :: 0 <= i < |resolver.batches| ==> resolver.batches[i].managedGeneration < resolver.managedGeneration
    }

    /** What a receipt is worth to whoever reads it. */
    ghost predicate Exact()
      reads this
    {
      receipt.base.Some? && link.connection == R.Connected && !service.drifted ==>
        R.RouteSet(receipt.base.value.routes) == service.installed
    }

    constructor ()
      ensures View() == R.Fresh() && Valid()
    {
      link := R.Link(true, R.Disconnected, 0, "", AllSites, [], None, None, false);
      receipt := R.Receipt(None, [], false, 0, 0);
      resolver := R.Resolver(0, 0, 0, false, [], []);
      service := R.Service({}, false, false, false);
      new;
      R.FreshInv();
    }

    // ---------------------------------------------------------------- parts of slots

    method InvalidateAuthoritativeBase()
      modifies this`receipt
      ensures View() == R.Invalidate(old(View()))
    {
      receipt := receipt.(revision := receipt.revision + 1, base := None, hosts := [], transition := true);
    }

    method InvalidateAllResolutions()
      modifies this`resolver, this`receipt
      ensures View() == R.InvalidateAll(old(View()))
    {
      resolver := resolver.(clientGeneration := resolver.clientGeneration + 1,
                            managedGeneration := resolver.managedGeneration + 1,
                            lookups := 0, reconnectAfterLookups := false);
      InvalidateAuthoritativeBase();
    }

    method ClearSavedRoutes(reply: R.ClearReply)
      modifies this`link, this`service
      ensures View() == R.Clear(old(View()), reply)
    {
      link := link.(teardown := reply.Cleared?);
      service := service.(installed := if reply.Cleared? then {} else service.installed * reply.remaining);
    }

    method PublishManagedRouteBase(mode: RouteMode, managed: seq<RouteText>, local: R.LocalSites,
                                   identity: R.Identity, confirmed: bool)
      modifies this`receipt
      ensures View() == R.Publish(old(View()), mode, managed, local, identity, confirmed)
    {
      hide Normalize;
      var normalized, valid := NormalizedManagedRoutesForRuntime(mode, managed, local.routes, link.hosts);
      var identityValid := R.IdentityFits(identity, normalized == []);
      var ok := confirmed && valid && identityValid && link.teardown && link.server != "";
      receipt := receipt.(revision := receipt.revision + 1, transition := !ok, hosts := if ok then link.hosts else [],
                          base := if ok then Some(R.Base(mode, normalized, link.epoch, link.server, identity)) else None);
    }

    /** The first half of the site routes: what will be installed, and behind which lookups. */
    method AddSitesRoutes()
      modifies this`resolver
      ensures View() == R.AddSites(old(View()))
    {
      hide Split, Validated, SupportedRoutes, R.Planned;
      var mode, hosts := link.mode, link.hosts;
      var matches := && link.startup.Some? && link.server != ""
        && link.startup.value.server == link.server && link.startup.value.mode == mode;
      var managed := if matches then link.startup.value.routes else [];
      var local := if matches then link.startup.value.local else R.LocalSites([], 0);
      var identity := if matches then link.startup.value.identity else R.NoPolicy;
      var routes, valid := PlanRoutes(mode, managed, hosts);
      var client := local.routes;
      if mode == AllExceptSites {
        client := SplitRoutesKeepingHostsInVpn(client, hosts);
      }
      var owned, _ := NormalizedSupportedIpv4Routes(client);
      var batch := R.Batch(link.epoch, link.server, mode, hosts, local, identity, routes, matches && valid, owned,
                           resolver.clientGeneration + 1, resolver.managedGeneration + 1, local.domains == 0, false);
      resolver := resolver.(clientGeneration := batch.clientGeneration, managedGeneration := batch.managedGeneration,
                            lookups := local.domains, reconnectAfterLookups := false,
                            batches := resolver.batches + [batch]);
    }

    /** The in-place part of a reconciliation. */
    method UpdateManagedRoutes(mode: RouteMode, was: seq<Route>, target: seq<Route>, gatewayOk: bool, reply: R.AddReply)
      returns (result: R.UpdateResult)
      modifies this`resolver, this`service
      ensures var o := R.Update(link.connection == R.Connected, old(resolver.lookups), mode, was, target, gatewayOk, reply);
        View() == R.Applied(old(View()), o) && result == o.result
      ensures var before, after := R.RouteSet(was), R.RouteSet(target);
        var tried := link.connection == R.Connected && mode == AllExceptSites && old(resolver.lookups) == 0;
        var asked := tried && before < after && |after - before| <= 256 && gatewayOk;
        NoDuplicates(target) ==>
          && (result == R.Updated <==> (tried && before == after) || (asked && reply.Full?))
          && (result == R.RuntimeUncertain <==> asked && reply.Short?)
          && (asked && reply.Full? ==> service.installed == old(service.installed) + (after - before))
          && (!asked ==> service == old(service))
    {
      hide Without, R.Added, R.RouteSet, NoDuplicates;
      if NoDuplicates(target) {
        RouteSwap.UpdateIff(link.connection == R.Connected, resolver.lookups, mode, was, target, gatewayOk, reply);
      }
      if link.connection != R.Connected || mode != AllExceptSites {
        return R.ReconnectRequired;
      }
      resolver := resolver.(managedGeneration := resolver.managedGeneration + 1);
      if resolver.lookups > 0 {
        resolver := resolver.(reconnectAfterLookups := true);
        return R.ReconnectDeferred;
      }
      var added := DropOwned(target, was);
      var removed := DropOwned(was, target);
      if added == [] && removed == [] {
        return R.Updated;
      }
      if |added| + |removed| > R.MAXIMUM_DELTA || removed != [] || !gatewayOk || reply.Unavailable? {
        return R.ReconnectRequired;
      }
      service := service.(installed := service.installed + R.Added(added, reply), attempted := true);
      return if reply.Full? then R.Updated else R.RuntimeUncertain;
    }

    /** What becomes of a request, decided before anything is touched. */
    method Judge(q: R.Request, sameLocal: bool) returns (verdict: R.Verdict)
      ensures verdict == R.Decide(View(), q, sameLocal)
    {
      hide Normalize, Validated, R.IdentityFits, R.SameHosts;
      if !(&& q.generation > receipt.latestRequest && q.mode.Some?
           && R.IdentityFits(q.expected, q.oldRoutes == []) && R.IdentityFits(q.desired, q.newRoutes == [])
           && q.epoch == link.epoch && q.server != "" && q.server == link.server && link.connection == R.Connected) {
        return R.Ignored;
      }
      var was := ValidatedManagedRoutes(q.oldRoutes);
      var target, targetValid := NormalizedManagedRoutesForRuntime(q.mode.value, q.newRoutes, q.local.routes, link.hosts);
      var oldValid := was.Some? && Texts(was.value) == q.oldRoutes && (q.mode.value == AllExceptSites || q.oldRoutes == []);
      if !oldValid || !targetValid {
        return R.Refused;
      }
      var base := receipt.base;
      var context := && base.Some? && base.value.epoch == link.epoch && base.value.server == link.server
        && q.mode == Some(base.value.mode) && q.mode == Some(link.mode) && sameLocal
        && R.SameHosts(receipt.hosts, link.hosts);
      if context && target == base.value.routes {
        return R.AlreadyApplied(target);
      }
      var same := && base == Some(R.Base(q.mode.value, was.value, q.epoch, q.server, q.expected))
        && q.revision == receipt.revision;
      return if context && same then R.Attempt(was.value, target) else R.Refused;
    }

    method ApplyUpdate(q: R.Request, was: seq<Route>, target: seq<Route>, gatewayOk: bool, reply: R.AddReply)
      requires q.mode.Some?
      modifies this`receipt, this`resolver, this`service
      ensures View() == R.Attempted(old(View()), q, target,
                                    R.Update(link.connection == R.Connected, old(resolver.lookups), q.mode.value, was, target,
                                             gatewayOk, reply))
    {
      hide R.Update, R.Applied;
      var result := UpdateManagedRoutes(q.mode.value, was, target, gatewayOk, reply);
      match result {
        case Updated => Settle(q, target);
        case RuntimeUncertain => InvalidateAuthoritativeBase();
        case _ =>
      }
    }

    method Settle(q: R.Request, routes: seq<Route>)
      requires q.mode.Some?
      modifies this`receipt
      ensures View() == R.Settled(old(View()), q, routes)
    {
      receipt := receipt.(revision := receipt.revision + 1, transition := false,
                          base := Some(R.Base(q.mode.value, routes, link.epoch, link.server, q.desired)));
    }

    method AdvanceEpoch()
      modifies this`link, this`service
      ensures View() == R.NextEpoch(old(View()))
    {
      link := link.(epoch := link.epoch + 1);
      service := service.(announced := false, attempted := false, drifted := false);
    }

    method OnConnected()
      modifies this
      ensures View() == R.Announce(old(View()))
    {
      hide Normalize, R.AddSites, R.Publish;
      service := service.(announced := true);
      match link.mode {
        case AllExceptSites => AddSitesRoutes();
        case OnlyForwardSites =>
          resolver := resolver.(timers := resolver.timers + [(link.epoch, link.server)]);
        case AllSites =>
          var s := link.startup;
          if s.Some? && link.server != "" && s.value.server == link.server && s.value.mode == AllSites {
            PublishManagedRouteBase(AllSites, s.value.routes, s.value.local, s.value.identity, true);
          } else {
            PublishManagedRouteBase(AllSites, [], R.LocalSites([], 0), R.NoPolicy, false);
          }
      }
    }

    // ------------------------------------------------------------------------- slots

    /** A new connection: the receipt is gone, and nothing queued for an earlier one can bring it back. */
    method ConnectToVpn(server: string, mode: RouteMode, hosts: R.Hosts, startup: Option<R.Snapshot>,
                        reply: R.ClearReply)
      requires Valid()
      modifies this
      ensures Valid() && View() == R.Connect(old(View()), server, mode, hosts, startup, reply)
      ensures link.epoch > old(link.epoch) && receipt.base.None? && Superseded()
      ensures reply.Cleared? ==> service.installed == {}
    {
      hide R.Inv, R.Retired;
      R.ConnectRetires(View(), server, mode, hosts, startup, reply);
      RetiredForgets(View(), R.Connect(View(), server, mode, hosts, startup, reply));
      ClearSavedRoutes(reply);
      InvalidateAllResolutions();
      AdvanceEpoch();
      link := link.(server := server, mode := mode, hosts := hosts, startup := startup, connection := R.Connecting);
    }

    /** Only a connected worker reconnects, and then forgets as for a new connection. */
    method ReconnectToVpn(mode: RouteMode, hosts: R.Hosts, startup: Option<R.Snapshot>, reply: R.ClearReply)
      requires Valid()
      modifies this
      ensures Valid() && View() == R.Reconnect(old(View()), mode, hosts, startup, reply)
      ensures if old(link.connection) == R.Connected
              then link.epoch > old(link.epoch) && receipt.base.None? && Superseded()
              else View() == old(View())
    {
      hide R.Inv, R.Retired;
      if link.connection != R.Connected {
        return;
      }
      R.ReconnectRetires(View(), mode, hosts, startup, reply);
      RetiredForgets(View(), R.Reconnect(View(), mode, hosts, startup, reply));
      ClearSavedRoutes(reply);
      AdvanceEpoch();
      InvalidateAllResolutions();
      link := link.(mode := mode, hosts := hosts, startup := startup, connection := R.Reconnecting);
    }

    method DisconnectFromVpn(reply: R.ClearReply)
      requires Valid()
      modifies this
      ensures Valid() && View() == R.Disconnect(old(View()), reply)
      ensures link.epoch > old(link.epoch) && receipt.base.None? && Superseded()
      ensures reply.Cleared? ==> service.installed == {}
    {
      hide R.Inv, R.Retired;
      R.DisconnectRetires(View(), reply);
      RetiredForgets(View(), R.Disconnect(View(), reply));
      ClearSavedRoutes(reply);
      AdvanceEpoch();
      InvalidateAllResolutions();
    }

    /** Leaving the process: with a disconnect the service is cleared first, without one it keeps its routes. */
    method AboutToExit(disconnect: Option<R.ClearReply>)
      requires Valid()
      modifies this
      ensures Valid() && View() == R.Exit(old(View()), disconnect)
      ensures !link.alive && receipt.base.None? && Superseded()
      ensures disconnect.None? ==> service.installed == old(service.installed)
    {
      hide R.Inv, R.Retired;
      R.ExitRetires(View(), disconnect);
      RetiredForgets(View(), R.Exit(View(), disconnect));
      if disconnect.Some? {
        ClearSavedRoutes(disconnect.value);
        ClearSavedRoutes(disconnect.value);
      }
      AdvanceEpoch();
      InvalidateAllResolutions();
      link := link.(alive := false);
    }

    /**
     A report of the current protocol; Connected is announced at most once per epoch. Outside Connected the
     receipt is left alone, even by a report that clears the service.
     */
    method SetConnectionState(state: R.Connection, reply: R.ClearReply)
      requires Valid() && link.alive && (state == R.Connected ==> !service.announced)
      modifies this
      ensures Valid() && Exact() && View() == R.Report(old(View()), state, reply)
      ensures state != R.Connected ==> receipt == old(receipt)
      ensures state == R.Connected ==> link.connection == R.Connected && service.installed == old(service.installed)
    {
      hide R.Inv, R.AddSites, R.Publish, R.Clear;
      R.ReportInv(View(), state, reply);
      R.TruthOf(R.Report(View(), state, reply));
      ReportFrame(View(), state, reply);
      var reconnecting := link.connection == R.Reconnecting;
      if state == R.Disconnected || state == R.Error {
        ClearSavedRoutes(reply);
      }
      if state == R.Connected {
        OnConnected();
      }
      if !(state == R.Disconnected && reconnecting) {
        link := link.(connection := state);
      }
    }

    /** The delayed start of the site routes: a timer of an earlier epoch or server starts nothing. */
    method SitesTimerFired(i: nat)
      requires Valid() && link.alive && i < |resolver.timers|
      modifies this
      ensures Valid() && View() == R.SitesTimer(old(View()), i) && receipt == old(receipt) && service == old(service)
      ensures old(resolver.timers[i]).0 != link.epoch ==> resolver.batches == old(resolver.batches)
    {
      hide R.Inv, R.AddSites;
      R.SitesTimerInv(View(), i);
      SitesFrame(View(), i);
      var (epoch, server) := resolver.timers[i];
      resolver := resolver.(timers := resolver.timers[..i] + resolver.timers[i + 1..]);
      if epoch == link.epoch && server == link.server && link.connection == R.Connected {
        AddSitesRoutes();
      }
    }

    /** A DNS answer never touches the receipt or the service, and a late one touches nothing. */
    method LookupAnswered(i: nat, resolved: seq<Route>, sameGateway: bool)
      requires Valid() && i < |resolver.batches|
      modifies this
      ensures Valid() && View() == R.LookupDone(old(View()), i, resolved, sameGateway)
      ensures receipt == old(receipt) && service == old(service)
      ensures old(resolver.batches[i].clientGeneration != resolver.clientGeneration) ==> View() == old(View())
    {
      hide R.Inv;
      R.LookupInv(View(), i, resolved, sameGateway);
      var b := resolver.batches[i];
      if b.clientGeneration != resolver.clientGeneration {
        return;
      }
      var usable := link.connection == R.Connected && link.server == b.server && sameGateway;
      var last := resolver.lookups == 1 && !resolver.reconnectAfterLookups;
      var learned := b.(owned := b.owned + (if usable then resolved else []), ready := b.ready || last);
      resolver := resolver.(
        batches := resolver.batches[i := learned],
        lookups := if resolver.lookups == 0 then 0 else resolver.lookups - 1,
        reconnectAfterLookups := resolver.reconnectAfterLookups && resolver.lookups != 1);
    }

    method LookupDeadlinePassed()
      requires Valid() && link.alive
      modifies this
      ensures Valid() && View() == R.LookupDeadline(old(View())) && receipt == old(receipt) && service == old(service)
    {
      hide R.Inv;
      R.StepInv(View(), R.LookupDeadlineEvent);
      if resolver.lookups > 0 {
        resolver := resolver.(reconnectAfterLookups := false);
      }
    }

    /** The callback of a batch: installs its managed routes and publishes the result, or nothing. */
    method StartManagedRoutes(i: nat, sameGateway: bool, reply: R.AddReply)
      requires Valid() && link.alive
      requires i < |resolver.batches| && resolver.batches[i].ready && !resolver.batches[i].done
      modifies this
      ensures Valid() && Exact() && View() == R.Deliver(old(View()), i, sameGateway, reply)
      ensures receipt.base.Some? && receipt.base != old(receipt.base) ==> link.teardown && service.attempted
    {
      hide Normalize, Sort, R.Publish, R.Added, R.Inv, R.Harmless;
      R.DeliverInv(View(), i, sameGateway, reply);
      R.TruthOf(R.Deliver(View(), i, sameGateway, reply));
      InstallBatch(i, sameGateway, reply);
    }

    method InstallBatch(i: nat, sameGateway: bool, reply: R.AddReply)
      requires i < |resolver.batches| && resolver.batches[i].ready && !resolver.batches[i].done
      modifies this
      ensures View() == R.Deliver(old(View()), i, sameGateway, reply)
      ensures receipt.base.Some? && receipt.base != old(receipt.base) ==> link.teardown && service.attempted
    {
      hide Normalize, Sort, R.Added, R.Harmless;
      var b := resolver.batches[i];
      resolver := resolver.(batches := resolver.batches[i := b.(done := true)]);
      if || b.managedGeneration != resolver.managedGeneration || link.connection != R.Connected
         || link.server != b.server || !sameGateway {
        return;
      }
      var wanted := DropOwned(b.routes, b.owned);
      var complete := wanted == [] || reply.Full?;
      service := service.(installed := service.installed + R.Added(wanted, reply), attempted := true,
                          drifted := service.drifted || (b.confirmable && complete && !R.Harmless(b, link.hosts)));
      PublishManagedRouteBase(b.mode, Texts(Sort(if complete then wanted else [])), b.local, b.identity,
                              b.confirmable && complete);
    }

    /**
     Compare and swap. Routes are only ever added, and only for a request that names the base held; a request
     that changes the receipt leaves it exact, under the policy it asked for.
     */
    method ReconcileManagedRoutes(q: R.Request, sameLocal: bool, gatewayOk: bool, reply: R.AddReply)
      requires Valid() && link.alive
      modifies this
      ensures Valid() && Exact() && View() == R.Reconcile(old(View()), q, sameLocal, gatewayOk, reply)
      ensures old(service.installed) <= service.installed
      ensures service.installed != old(service.installed) ==>
                old(receipt.base).Some? && q.oldRoutes == Texts(old(receipt.base).value.routes)
      ensures receipt.base.Some? && receipt.base != old(receipt.base) && !old(service.drifted) ==>
                receipt.base.value.identity == q.desired && R.RouteSet(receipt.base.value.routes) == service.installed
    {
      hide Normalize, R.Decide, R.Update, R.Attempted, R.Settled, R.Inv, R.RouteSet;
      R.ReconcileInv(View(), q, sameLocal, gatewayOk, reply);
      R.TruthOf(R.Reconcile(View(), q, sameLocal, gatewayOk, reply));
      R.SwapInstalled(View(), q, sameLocal, gatewayOk, reply);
      R.SwapTruth(View(), q, sameLocal, gatewayOk, reply);
      var verdict := Judge(q, sameLocal);
      Act(q, verdict, sameLocal, gatewayOk, reply);
    }

    /** Carries a verdict out. */
    method Act(q: R.Request, verdict: R.Verdict, ghost sameLocal: bool, gatewayOk: bool, reply: R.AddReply)
      requires verdict == R.Decide(View(), q, sameLocal)
      modifies this
      ensures View() == R.Reconcile(old(View()), q, sameLocal, gatewayOk, reply)
    {
      hide R.Decide, R.Update, R.Attempted, R.Settled;
      R.Decided(View(), q, sameLocal);
      if q.generation > receipt.latestRequest {
        receipt := receipt.(latestRequest := q.generation);
      }
      if verdict.Ignored? {
        return;
      }
      receipt := receipt.(transition := true);
      match verdict {
        case AlreadyApplied(target) => Settle(q, target);
        case Attempt(was, target) => ApplyUpdate(q, was, target, gatewayOk, reply);
        case _ =>
      }
    }

    /** A rebuild asked for by this very connection drops the receipt; any other changes nothing. */
    method RebuildManagedRoutes(epoch: nat, server: string)
      requires Valid() && link.alive
      modifies this
      ensures Valid() && View() == R.Rebuild(old(View()), epoch, server) && service == old(service)
      ensures if epoch == link.epoch && server != "" && server == link.server && link.connection == R.Connected
              then receipt.base.None? && receipt.revision > old(receipt.revision)
              else receipt == old(receipt)
    {
      hide R.Inv;
      R.StepInv(View(), R.RebuildEvent(epoch, server));
      if epoch == link.epoch && server != "" && server == link.server && link.connection == R.Connected {
        InvalidateAuthoritativeBase();
      }
    }

    /** A due reconnect that finds the prepared policy applied already only renews the receipt. */
    method FlushReconnect(sameLocal: bool)
      requires Valid() && link.alive
      modifies this
      ensures Valid() && Exact() && View() == R.Flush(old(View()), sameLocal) && service == old(service)
      ensures receipt.base.Some? && receipt != old(receipt) ==>
                old(receipt.base).Some? && receipt.base.value.routes == old(receipt.base).value.routes
    {
      hide Normalize, R.Inv, R.RouteSet, R.SameHosts;
      R.FlushInv(View(), sameLocal);
      R.TruthOf(R.Flush(View(), sameLocal));
      if link.connection != R.Connected || link.server == "" || link.prepared.None? || receipt.base.None? {
        return;
      }
      var s, base := link.prepared.value, receipt.base.value;
      var normalized, valid := NormalizedManagedRoutesForRuntime(s.mode, s.routes, s.local.routes, link.hosts);
      if && s.server == base.server == link.server && s.mode == base.mode == link.mode && base.epoch == link.epoch
         && sameLocal && R.SameHosts(receipt.hosts, link.hosts) && valid && normalized == base.routes {
        PublishManagedRouteBase(s.mode, s.routes, s.local, s.identity, true);
      }
    }

    method PrepareSnapshot(prepared: Option<R.Snapshot>)
      requires Valid() && link.alive
      modifies this`link
      ensures Valid() && View() == R.Step(old(View()), R.PrepareEvent(prepared))
    {
      hide R.Inv;
      R.StepInv(View(), R.PrepareEvent(prepared));
      link := link.(prepared := prepared);
    }

    method HostsMoved(hosts: R.Hosts)
      requires Valid() && link.alive
      modifies this`link
      ensures Valid() && View() == R.HostsChanged(old(View()), hosts)
    {
      hide R.Inv;
      R.StepInv(View(), R.HostsEvent(hosts));
      link := link.(hosts := hosts);
    }

    // ------------------------------------------------------------------- runs of slots

    /** Any event of the protocol, whenever it arrives. */
    method Handle(e: R.Event)
      requires Valid() && !Repeated(View(), e)
      modifies this
      ensures Valid() && View() == R.Step(old(View()), e)
    {
      hide R.Inv, R.Connect, R.Reconnect, R.Disconnect, R.Exit, R.Report, R.SitesTimer, R.LookupDone, R.Deliver;
      hide R.Reconcile, R.Rebuild, R.Flush, R.LookupDeadline;
      if !link.alive {
        return;
      }
      OutOfRange(View(), e);
      match e {
        case ConnectEvent(server, mode, hosts, startup, clear) => ConnectToVpn(server, mode, hosts, startup, clear);
        case ReconnectEvent(mode, hosts, startup, clear) => ReconnectToVpn(mode, hosts, startup, clear);
        case DisconnectEvent(clear) => DisconnectFromVpn(clear);
        case ExitEvent(disconnect) => AboutToExit(disconnect);
        case ReportEvent(state, clear) => SetConnectionState(state, clear);
        case SitesTimerEvent(i) => if i < |resolver.timers| { SitesTimerFired(i); }
        case LookupEvent(i, resolved, sameGateway) =>
          if i < |resolver.batches| { LookupAnswered(i, resolved, sameGateway); }
        case LookupDeadlineEvent => LookupDeadlinePassed();
        case DeliverEvent(i, sameGateway, add) =>
          if i < |resolver.batches| && resolver.batches[i].ready && !resolver.batches[i].done {
            StartManagedRoutes(i, sameGateway, add);
          }
        case HostsEvent(hosts) => HostsMoved(hosts);
        case PrepareEvent(prepared) => PrepareSnapshot(prepared);
        case ReconcileEvent(q, sameLocal, gatewayOk, add) => ReconcileManagedRoutes(q, sameLocal, gatewayOk, add);
        case RebuildEvent(epoch, server) => RebuildManagedRoutes(epoch, server);
        case FlushEvent(sameLocal) => FlushReconnect(sameLocal);
      }
    }

    /** A whole life of the worker: at its end, as after every slot, the receipt is exact. */
    method Drive(events: seq<R.Event>)
      requires View() == R.Fresh() && Valid() && AnnouncedOnce(R.Fresh(), events)
      modifies this
      ensures Valid() && Exact() && View() == R.Run(R.Fresh(), events)
    {
      hide R.Inv, R.Step, Repeated;
      var i := 0;
      while i < |events|
        invariant 0 <= i <= |events| && Valid()
        invariant R.Run(View(), events[i..]) == R.Run(R.Fresh(), events) && AnnouncedOnce(View(), events[i..])
      {
        assert events[i..][0] == events[i] && events[i..][1..] == events[i + 1..];
        Handle(events[i]);
        i := i + 1;
      }
      R.TruthOf(View());
    }
  }

  /** Connected reported again in the same epoch. */
  ghost predicate Repeated(w: R.Worker, e: R.Event) {
    w.link.alive && e.ReportEvent? && e.state == R.Connected && w.service.announced
  }

  ghost predicate AnnouncedOnce(w: R.Worker, events: seq<R.Event>)
    decreases |events|
  {
    events == [] || (!Repeated(w, events[0]) && AnnouncedOnce(R.Step(w, events[0]), events[1..]))
  }

  /** A change of epoch keeps the invariant and leaves every queued batch behind. */
  lemma RetiredForgets(w: R.Worker, r: R.Worker)
    requires R.Inv(w) && R.Retired(w, r)
    ensures R.Inv(r) && r.link.epoch > w.link.epoch && r.receipt.base.None?
    ensures forall i :: 0 <= i < |r.resolver.batches| ==>
              r.resolver.batches[i].managedGeneration < r.resolver.managedGeneration
  {
    R.RetiredInv(w, r);
    hide R.Timers, R.Sound, R.RouteSet;
  }

  lemma ReportFrame(w: R.Worker, state: R.Connection, reply: R.ClearReply)
    requires state == R.Connected ==> !w.service.announced
    ensures var r := R.Report(w, state, reply);
      && (state != R.Connected ==> r.receipt == w.receipt)
      && (state == R.Connected ==> r.link.connection == R.Connected && r.service.installed == w.service.installed)
  {
    hide Normalize, R.NewBatch;
  }

  lemma SitesFrame(w: R.Worker, i: nat)
    requires i < |w.resolver.timers|
    ensures var r := R.SitesTimer(w, i);
      && r.receipt == w.receipt && r.service == w.service
      && (w.resolver.timers[i].0 != w.link.epoch ==> r.resolver.batches == w.resolver.batches)
  {
    hide R.NewBatch;
  }

  /** Events about batches or timers that do not exist, or have had their turn, change nothing. */
  lemma OutOfRange(w: R.Worker, e: R.Event)
    ensures e.SitesTimerEvent? && e.index >= |w.resolver.timers| ==> R.SitesTimer(w, e.index) == w
    ensures e.LookupEvent? && e.index >= |w.resolver.batches| ==>
              R.LookupDone(w, e.index, e.resolved, e.sameGateway) == w
    ensures e.DeliverEvent? && (|| e.index >= |w.resolver.batches| || !w.resolver.batches[e.index].ready
                                || w.resolver.batches[e.index].done) ==>
              R.Deliver(w, e.index, e.sameGateway, e.add) == w
  {
    hide R.Install, R.AddSites;
  }

  /** Validates, splits and revalidates a managed list, emptying it whenever a check fails. */
  method PlanRoutes(mode: RouteMode, managed: seq<RouteText>, hosts: R.Hosts) returns (routes: seq<Route>, valid: bool)
    ensures (routes, valid) == R.Planned(mode, managed, hosts)
  {
    hide Split, Validated, Allowed;
    var bounded := ValidatedManagedRoutes(managed);
    valid := bounded.Some?;
    var pieces := Texts(if bounded.Some? then bounded.value else []);
    if mode == AllExceptSites {
      pieces := SplitRoutesKeepingHostsInVpn(pieces, hosts);
    }
    var checked := ValidatedManagedRoutes(pieces);
    valid := valid && checked.Some?;
    var unsupported;
    routes, unsupported := NormalizedSupportedIpv4Routes(Texts(if checked.Some? then checked.value else []));
    valid := valid && unsupported == [];
    SupportedAgain(pieces);
  }

  /** The last filter changes nothing: what passed the policy is supported, and listed once. */
  lemma SupportedAgain(pieces: seq<RouteText>)
    ensures var checked := Validated(pieces);
      var rs := if checked.Some? then checked.value else [];
      SupportedRoutes(Texts(rs)) == rs && forall t :: t in Texts(rs) ==> Supported(t)
  {
    hide Allowed;
    var checked := Validated(pieces);
    var rs := if checked.Some? then checked.value else [];
    if checked.Some? { ValidatedAreAllowed(pieces); }
    AllowedAreCanonical(rs);
    SupportedOfTexts(rs);
  }
}
