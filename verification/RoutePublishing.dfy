/**
 When the VPN worker publishes a receipt, exactly, and what a clean connection ends with: the list its policy stands
 for is installed, and the receipt names it.
 */
module RoutePublishing {
  import opened Options
  import opened Prefixes
  import opened RouteSplitting
  import opened RouteTexts
  import opened ManagedPolicy
  import opened RuntimeRoutes
  import opened ManagedRouteReceipt
  import RouteSwap

  /** A policy, or none for an empty list. */
  predicate Fits(identity: Identity, routes: seq<Route>) {
    identity.Policy? || (identity.NoPolicy? && routes == [])
  }

  // ------------------------------------------------------------------------ batches

  lemma SortedWanted(b: Batch, rs: seq<Route>)
    requires NoDuplicates(b.routes) && Ascending(rs) && RouteSet(rs) == RouteSet(b.routes) - RouteSet(b.owned)
    ensures Sort(Without(b.routes, b.owned)) == rs
    ensures RouteSet(Without(b.routes, b.owned)) == RouteSet(rs)
    ensures Without(b.routes, b.owned) == [] <==> rs == []
  {
    hide Without, Sort;
    var wanted := Without(b.routes, b.owned);
    WithoutKeeps(b.routes, b.owned);
    assert RouteSet(wanted) == RouteSet(b.routes) - RouteSet(b.owned);
    assert RouteSet(Sort(wanted)) == RouteSet(wanted);
    AscendingUnique(Sort(wanted), rs);
  }

  /**
   The callback of a batch, exactly. It does something only if it is ready, has not run, is the latest, and finds
   its own connection up. Then the routes no local rule owns are sent, and the receipt is published exactly if the
   batch may be confirmed, the service took everything, what it took normalises, the policy fits, and the last clear
   was confirmed; otherwise the receipt is dropped.
   */
  lemma DeliveredIff(w: Worker, i: nat, sameGateway: bool, reply: AddReply, rs: seq<Route>)
    requires i < |w.resolver.batches|
    requires var b := w.resolver.batches[i];
      NoDuplicates(b.routes) && Ascending(rs) && RouteSet(rs) == RouteSet(b.routes) - RouteSet(b.owned)
    ensures var r, b := Deliver(w, i, sameGateway, reply), w.resolver.batches[i];
      var runs := && b.ready && !b.done && b.managedGeneration == w.resolver.managedGeneration
        && w.link.connection == Connected && w.link.server == b.server && sameGateway;
      var taken := if rs == [] || reply.Full? then rs else [];
      var published := Normalize(b.mode, Texts(taken), b.local.routes, w.link.hosts);
      && (!runs ==> r.receipt == w.receipt && r.service == w.service)
      && (runs ==>
            && (r.receipt.base.Some? <==>
                  && b.confirmable && (rs == [] || reply.Full?) && published.Some? && Fits(b.identity, published.value)
                  && w.link.teardown && w.link.server != "")
            && (r.receipt.base.Some? ==>
                  && r.receipt.base.value == Base(b.mode, published.value, w.link.epoch, w.link.server, b.identity)
                  && r.receipt.hosts == w.link.hosts)
            && (r.receipt.transition <==> r.receipt.base.None?) && r.receipt.revision == w.receipt.revision + 1
            && r.service.installed == w.service.installed + (match reply
                                                             case Full => RouteSet(rs)
                                                             case Short(added) => RouteSet(rs) * added
                                                             case Unavailable => {}))
  {
    hide Normalize, Without, Sort, Harmless, RouteSet, NoDuplicates, Ascending;
    SortedWanted(w.resolver.batches[i], rs);
  }

  // -------------------------------------------------------------------- announcements

  /** A list of allowed routes normalises to nothing outside the all-except mode exactly if it is empty. */
  lemma EmptyNormalizes(mode: RouteMode, managed: seq<RouteText>, local: seq<RouteText>, hosts: Hosts)
    requires mode != AllExceptSites
    ensures Normalize(mode, managed, local, hosts) == if managed == [] then Some([]) else None
  {
    hide Allowed;
    if Validated(managed).Some? && managed != [] {
      var t := managed[0];
      assert t in managed;
      AllowedIsSupported(t);
      assert t.route in SupportedRoutes(managed);
    }
  }

  /**
   Connected is reported for the first time, exactly. Without site rules the receipt is published at once, for an
   empty list, if the prepared snapshot is for this server and mode, lists nothing and has a sound identity, and the
   last clear was confirmed. With site rules the routes are queued: as a batch, or behind a timer.
   */
  lemma AnnouncedIff(w: Worker, reply: ClearReply)
    requires !w.service.announced
    ensures var r := Report(w, Connected, reply);
      && r.link == w.link.(connection := Connected) && r.service == w.service.(announced := true)
      && (w.link.mode == AllSites ==>
            && r.resolver == w.resolver && (r.receipt.transition <==> r.receipt.base.None?)
            && (r.receipt.base.Some? <==>
                  && w.link.startup.Some? && w.link.startup.value.server == w.link.server && w.link.server != ""
                  && w.link.startup.value.mode == AllSites && w.link.startup.value.routes == []
                  && !w.link.startup.value.identity.Malformed? && w.link.teardown)
            && (r.receipt.base.Some? ==>
                  r.receipt.base.value
                  == Base(AllSites, [], w.link.epoch, w.link.server, w.link.startup.value.identity)))
      && (w.link.mode == OnlyForwardSites ==>
            && r.receipt == w.receipt && r.resolver.batches == w.resolver.batches
            && r.resolver.timers == w.resolver.timers + [(w.link.epoch, w.link.server)])
      && (w.link.mode == AllExceptSites ==>
            && r.receipt == w.receipt && r.resolver.timers == w.resolver.timers
            && |r.resolver.batches| == |w.resolver.batches| + 1 && w.resolver.batches <= r.resolver.batches)
  {
    hide Normalize, NewBatch;
    if w.link.startup.Some? {
      EmptyNormalizes(AllSites, w.link.startup.value.routes, w.link.startup.value.local.routes, w.link.hosts);
    }
  }

  /**
   Any other state reported, exactly: the receipt stays, a disconnect or an error has the service cleared, and the
   state is taken over, except that a worker on its way to reconnect does not become disconnected.
   */
  lemma ReportedIff(w: Worker, state: Connection, reply: ClearReply)
    requires state != Connected
    ensures var r := Report(w, state, reply);
      && r.receipt == w.receipt && r.resolver == w.resolver
      && r.link == w.link.(
           connection := if state == Disconnected && w.link.connection == Reconnecting then Reconnecting else state,
           teardown := if state == Disconnected || state == Error then reply.Cleared? else w.link.teardown)
      && r.service == w.service.(
           installed := if state != Disconnected && state != Error then w.service.installed
                        else if reply.Cleared? then {} else w.service.installed * reply.remaining)
  {
    hide Announce;
  }

  /**
   The three ways a connection is given up, exactly: the service is asked to clear, the epoch moves on, the receipt is
   dropped with everything queued for it, and the worker is connecting, reconnecting, or left in its state. A worker
   that is not connected does not reconnect.
   */
  lemma GivenUpIff(w: Worker, server: string, mode: RouteMode, hosts: Hosts, startup: Option<Snapshot>, reply: ClearReply)
    ensures var c, k, d := Connect(w, server, mode, hosts, startup, reply), Reconnect(w, mode, hosts, startup, reply),
                           Disconnect(w, reply);
      var up := w.link.connection == Connected;
      var link := w.link.(epoch := w.link.epoch + 1, teardown := reply.Cleared?);
      && c.link == link.(server := server, mode := mode, hosts := hosts, startup := startup, connection := Connecting)
      && k.link == (if up then link.(mode := mode, hosts := hosts, startup := startup, connection := Reconnecting) else w.link)
      && d.link == link && c.receipt == d.receipt && c.resolver == d.resolver && c.service == d.service
      && d.receipt == w.receipt.(base := None, hosts := [], transition := true, revision := w.receipt.revision + 1)
      && d.resolver == w.resolver.(clientGeneration := w.resolver.clientGeneration + 1,
                                   managedGeneration := w.resolver.managedGeneration + 1,
                                   lookups := 0, reconnectAfterLookups := false)
      && d.service == Service(if reply.Cleared? then {} else w.service.installed * reply.remaining, false, false, false)
      && (if up then k.receipt == d.receipt && k.resolver == d.resolver && k.service == d.service else k == w)
  {
  }

  // --------------------------------------------------------------------------- flushing

  /** A due reconnect that finds its policy applied renews the receipt, exactly if it fits and the clear was confirmed. */
  lemma FlushedIff(w: Worker, sameLocal: bool)
    ensures var r, base, prepared := Flush(w, sameLocal), w.receipt.base, w.link.prepared;
      var applied :=
        && w.link.connection == Connected && w.link.server != "" && prepared.Some? && base.Some?
        && prepared.value.server == w.link.server && base.value.server == w.link.server
        && prepared.value.mode == w.link.mode && base.value.mode == w.link.mode && base.value.epoch == w.link.epoch
        && sameLocal && (forall h :: h in w.receipt.hosts ==> h in w.link.hosts)
        && (forall h :: h in w.link.hosts ==> h in w.receipt.hosts)
        && Normalize(w.link.mode, prepared.value.routes, prepared.value.local.routes, w.link.hosts)
           == Some(base.value.routes);
      && (!applied ==> r == w)
      && (applied ==>
            && r.service == w.service && r.resolver == w.resolver && r.link == w.link
            && r.receipt.revision == w.receipt.revision + 1
            && r.receipt.base == if Fits(prepared.value.identity, base.value.routes) && w.link.teardown
                                 then Some(base.value.(identity := prepared.value.identity)) else None)
  {
    hide Normalize, SameHosts;
    RouteSwap.HostsAlike(w.receipt.hosts, w.link.hosts);
  }

  // ------------------------------------------------------------------- plans and timers

  /** What a batch installs is what its policy stands for. */
  lemma PlanIsTarget(managed: seq<RouteText>, local: seq<RouteText>, hosts: Hosts, target: seq<Route>)
    requires Normalize(AllExceptSites, managed, local, hosts) == Some(target)
    ensures var (routes, ok) := Planned(AllExceptSites, managed, hosts);
      && ok && NoDuplicates(routes) && Ascending(target)
      && RouteSet(target) == RouteSet(routes) - RouteSet(LocalRoutes(local, hosts))
  {
    hide Split, Allowed, SupportedRoutes, LocalRoutes, Covers;
    NormalizeSound(managed, local, hosts);
    var pieces := NormalizeUnfolded(managed, local, hosts);
    ValidatedOfTexts(pieces);
    hide Normalize;
    var wanted := Without(pieces, LocalRoutes(local, hosts));
    assert RouteSet(Sort(wanted)) == RouteSet(pieces) - RouteSet(LocalRoutes(local, hosts));
  }

  /** The delayed start, exactly: a timer starts the site routes only for the connection it was set for, if that is up. */
  lemma TimedIff(w: Worker, i: nat)
    requires i < |w.resolver.timers|
    ensures var r := SitesTimer(w, i);
      var starts := w.resolver.timers[i] == (w.link.epoch, w.link.server) && w.link.connection == Connected;
      && r.receipt == w.receipt && r.service == w.service && r.link == w.link
      && r.resolver.timers == w.resolver.timers[..i] + w.resolver.timers[i + 1..]
      && (starts ==> |r.resolver.batches| == |w.resolver.batches| + 1 && w.resolver.batches <= r.resolver.batches)
      && (!starts ==> r.resolver == w.resolver.(timers := r.resolver.timers))
  {
    hide NewBatch;
  }

  // ------------------------------------------------------------------- a clean connection

  /** The answers of the local lookups of batch `i`, one by one. */
  ghost function Answered(w: Worker, i: nat, answers: seq<seq<Route>>): Worker
    decreases |answers|
  {
    if answers == [] then w else Answered(Step(w, LookupEvent(i, answers[0], true)), i, answers[1..])
  }

  function Joined(answers: seq<seq<Route>>): seq<Route> {
    if answers == [] then [] else answers[0] + Joined(answers[1..])
  }

  /** Once every local lookup has been answered the batch is ready, and leaves out everything that was resolved. */
  lemma {:induction false} AllAnswered(w: Worker, i: nat, answers: seq<seq<Route>>)
    requires w.link.alive && w.link.connection == Connected && i < |w.resolver.batches|
    requires var b := w.resolver.batches[i];
      b.clientGeneration == w.resolver.clientGeneration && b.server == w.link.server && (answers == [] ==> b.ready)
    requires w.resolver.lookups == |answers| && !w.resolver.reconnectAfterLookups
    ensures var b := w.resolver.batches[i];
      Answered(w, i, answers)
      == w.(resolver := w.resolver.(
              lookups := 0, batches := w.resolver.batches[i := b.(owned := b.owned + Joined(answers), ready := true)]))
    decreases |answers|
  {
    var b, bs := w.resolver.batches[i], w.resolver.batches;
    if answers == [] {
      assert b.owned + [] == b.owned;
      assert bs[i := b] == bs;
    } else {
      var next := Step(w, LookupEvent(i, answers[0], true));
      var learned := b.(owned := b.owned + answers[0], ready := b.ready || |answers| == 1);
      assert next == w.(resolver := w.resolver.(lookups := |answers| - 1, batches := bs[i := learned]));
      hide Step;
      AllAnswered(next, i, answers[1..]);
      assert b.owned + answers[0] + Joined(answers[1..]) == b.owned + Joined(answers);
    }
  }

  predicate CleanStart(s: Snapshot, server: string) {
    server != "" && s.server == server && s.mode == AllExceptSites
  }

  lemma NewBatchIs(w: Worker, s: Snapshot, target: seq<Route>)
    requires CleanStart(s, w.link.server) && w.link.startup == Some(s) && w.link.mode == AllExceptSites
    requires Normalize(AllExceptSites, s.routes, s.local.routes, w.link.hosts) == Some(target)
    ensures var b := NewBatch(w);
      && b.server == w.link.server && b.mode == AllExceptSites && b.local == s.local && b.identity == s.identity
      && b.confirmable && !b.done && b.managedGeneration == w.resolver.managedGeneration + 1
      && b.clientGeneration == w.resolver.clientGeneration + 1 && (b.ready <==> s.local.domains == 0)
      && NoDuplicates(b.routes) && Ascending(target) && RouteSet(target) == RouteSet(b.routes) - RouteSet(b.owned)
  {
    hide Normalize, Planned, LocalRoutes, RouteSet, NoDuplicates, Ascending;
    PlanIsTarget(s.routes, s.local.routes, w.link.hosts, target);
  }

  /**
   After every run: connecting over a confirmed clear with a policy that normalises, a report of Connected, an answer
   to each lookup of a local domain and a full answer of the service end with exactly the normalised list, without
   what the lookups resolved to, installed and in the receipt, under this policy.
   */
  lemma ConnectPublishes(events: seq<Event>, server: string, hosts: Hosts, s: Snapshot, target: seq<Route>,
                         answers: seq<seq<Route>>, rest: seq<Route>)
    requires Run(Fresh(), events).link.alive && CleanStart(s, server) && s.local.domains == |answers|
    requires Normalize(AllExceptSites, s.routes, s.local.routes, hosts) == Some(target)
    requires Ascending(rest) && RouteSet(rest) == RouteSet(target) - RouteSet(Joined(answers)) && Fits(s.identity, rest)
    ensures var w := Run(Fresh(), events);
      var n := |w.resolver.batches|;
      var up := Step(Step(w, ConnectEvent(server, AllExceptSites, hosts, Some(s), Cleared)), ReportEvent(Connected, Cleared));
      var end := Step(Answered(up, n, answers), DeliverEvent(n, true, Full));
      && end.receipt.base == Some(Base(AllExceptSites, rest, w.link.epoch + 1, server, s.identity))
      && end.service.installed == RouteSet(rest) && end.link.connection == Connected && !end.receipt.transition
  {
    hide Run, Step, Normalize, RouteSet, Ascending;
    var w := Run(Fresh(), events);
    var n := |w.resolver.batches|;
    var w1 := Step(w, ConnectEvent(server, AllExceptSites, hosts, Some(s), Cleared));
    ConnectStarts(w, server, hosts, s);
    var w2 := Step(w1, ReportEvent(Connected, Cleared));
    ReportQueues(w1, s, target);
    AllAnswered(w2, n, answers);
    var w3 := Answered(w2, n, answers);
    LeftOut(w2.resolver.batches[n], answers, target, rest);
    RestNormalizes(s, hosts, target, answers, rest);
    DeliverInstalls(w3, n, s, rest);
    SetEmpty(rest);
  }

  lemma SetEmpty(rest: seq<Route>)
    ensures {} + RouteSet(rest) == RouteSet(rest)
  {
  }

  lemma LeftOut(b: Batch, answers: seq<seq<Route>>, target: seq<Route>, rest: seq<Route>)
    requires RouteSet(target) == RouteSet(b.routes) - RouteSet(b.owned)
    requires RouteSet(rest) == RouteSet(target) - RouteSet(Joined(answers))
    ensures RouteSet(rest) == RouteSet(b.routes) - RouteSet(b.owned + Joined(answers))
  {
    assert RouteSet(b.owned + Joined(answers)) == RouteSet(b.owned) + RouteSet(Joined(answers));
  }

  /** Part of a normalised list normalises to itself. */
  lemma RestNormalizes(s: Snapshot, hosts: Hosts, target: seq<Route>, answers: seq<seq<Route>>, rest: seq<Route>)
    requires Normalize(AllExceptSites, s.routes, s.local.routes, hosts) == Some(target)
    requires Ascending(rest) && RouteSet(rest) == RouteSet(target) - RouteSet(Joined(answers))
    ensures Normalize(AllExceptSites, Texts(rest), s.local.routes, hosts) == Some(rest)
  {
    NormalizeSound(s.routes, s.local.routes, hosts);
    hide Normalize, Allowed, LocalRoutes, Covers, Ascending;
    PartOf(rest, target);
    forall h: Address | Some(h) in hosts
      ensures !Covers(rest, h)
    {
      CoversSubset(rest, target, h);
    }
    NormalizeFixpointIff(rest, s.local.routes, hosts);
  }

  lemma PartOf(rest: seq<Route>, target: seq<Route>)
    requires RouteSet(rest) <= RouteSet(target) && Ascending(rest) && Ascending(target)
    ensures |rest| <= |target| && forall q :: q in rest ==> q in target
  {
    hide Ascending;
    SortAscending(rest);
    SortAscending(target);
    RouteSwap.SizeOfDistinct(rest);
    RouteSwap.SizeOfDistinct(target);
    SubsetSize(RouteSet(rest), RouteSet(target));
    forall q | q in rest
      ensures q in target
    {
      assert q in RouteSet(rest);
    }
  }

  lemma ConnectStarts(w: Worker, server: string, hosts: Hosts, s: Snapshot)
    requires w.link.alive
    ensures var r := Step(w, ConnectEvent(server, AllExceptSites, hosts, Some(s), Cleared));
      && r.link.alive && r.link.teardown && r.link.server == server && r.link.mode == AllExceptSites
      && r.link.hosts == hosts && r.link.startup == Some(s) && r.link.epoch == w.link.epoch + 1
      && !r.service.announced && r.service.installed == {} && r.resolver.batches == w.resolver.batches
  {
  }

  lemma ReportQueues(w: Worker, s: Snapshot, target: seq<Route>)
    requires w.link.alive && !w.service.announced && w.link.mode == AllExceptSites && w.link.startup == Some(s)
    requires CleanStart(s, w.link.server)
    requires Normalize(AllExceptSites, s.routes, s.local.routes, w.link.hosts) == Some(target)
    ensures var r, n := Step(w, ReportEvent(Connected, Cleared)), |w.resolver.batches|;
      && r.link == w.link.(connection := Connected) && r.service.installed == w.service.installed
      && r.resolver.lookups == s.local.domains && !r.resolver.reconnectAfterLookups
      && |r.resolver.batches| == n + 1
      && r.resolver.batches[n].clientGeneration == r.resolver.clientGeneration
      && (r.resolver.batches[n].ready <==> s.local.domains == 0)
      && Awaiting(r, r.resolver.batches[n], s, target)
  {
    hide Normalize, NewBatch, RouteSet, NoDuplicates, Ascending;
    NewBatchIs(w.(service := w.service.(announced := true)), s, target);
  }

  /** A batch of the connection that is up, about to install a list. */
  ghost predicate Awaiting(w: Worker, b: Batch, s: Snapshot, list: seq<Route>) {
    && b.server == w.link.server && b.mode == AllExceptSites && b.local == s.local && b.identity == s.identity
    && b.confirmable && !b.done && b.managedGeneration == w.resolver.managedGeneration
    && NoDuplicates(b.routes) && Ascending(list) && RouteSet(list) == RouteSet(b.routes) - RouteSet(b.owned)
  }

  lemma DeliverInstalls(w: Worker, i: nat, s: Snapshot, list: seq<Route>)
    requires w.link.alive && w.link.teardown && w.link.connection == Connected && w.link.server != ""
    requires i < |w.resolver.batches| && Awaiting(w, w.resolver.batches[i], s, list) && w.resolver.batches[i].ready
    requires Fits(s.identity, list)
    requires Normalize(AllExceptSites, Texts(list), s.local.routes, w.link.hosts) == Some(list)
    ensures var r := Step(w, DeliverEvent(i, true, Full));
      && r.receipt.base == Some(Base(AllExceptSites, list, w.link.epoch, w.link.server, s.identity))
      && r.service.installed == w.service.installed + RouteSet(list)
      && r.link == w.link && !r.receipt.transition
  {
    hide Normalize, Deliver, Step, RouteSet, NoDuplicates, Ascending;
    StepDelivers(w, i);
    DeliveredIff(w, i, true, Full, list);
    DeliverKeepsLink(w, i, true, Full);
  }

  lemma StepDelivers(w: Worker, i: nat)
    requires w.link.alive
    ensures Step(w, DeliverEvent(i, true, Full)) == Deliver(w, i, true, Full)
  {
    hide Deliver;
  }

  lemma DeliverKeepsLink(w: Worker, i: nat, sameGateway: bool, reply: AddReply)
    ensures Deliver(w, i, sameGateway, reply).link == w.link
  {
    hide Normalize, Without, Sort, Harmless, RouteSet;
  }
}
