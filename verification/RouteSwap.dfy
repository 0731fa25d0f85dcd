/**
 When a request to change the managed routes of a running connection succeeds. Over every run of the worker, what a
 request does to the receipt and to the service is decided by its own fields, the held receipt and the two answers
 it meets, and by nothing else.
 */
module RouteSwap {
  import opened Options
  import opened Prefixes
  import opened RouteTexts
  import opened ManagedPolicy
  import opened RuntimeRoutes
  import opened ManagedRouteReceipt

  // ------------------------------------------------------------- what a receipt lists

  /** A list as the worker keeps it: ascending, allowed, within the budget, and empty outside the all-except mode. */
  ghost predicate Kept(mode: RouteMode, routes: seq<Route>) {
    && Ascending(routes) && |routes| <= 4096 && (forall q :: q in routes ==> Allowed(q))
    && (mode != AllExceptSites ==> routes == [])
  }

  ghost predicate Listed(w: Worker) {
    w.receipt.base.Some? ==> Kept(w.receipt.base.value.mode, w.receipt.base.value.routes)
  }

  lemma NormalizedIsKept(mode: RouteMode, managed: seq<RouteText>, local: seq<RouteText>, hosts: Hosts)
    ensures var n := Normalize(mode, managed, local, hosts); n.Some? ==> Kept(mode, n.value)
  {
    if mode == AllExceptSites && Normalize(mode, managed, local, hosts).Some? {
      NormalizeSound(managed, local, hosts);
      hide Normalize, Allowed, Covers;
    }
  }

  lemma PublishListed(w: Worker, mode: RouteMode, managed: seq<RouteText>, local: LocalSites, identity: Identity,
                      confirmed: bool)
    ensures Listed(Publish(w, mode, managed, local, identity, confirmed))
  {
    hide Normalize, Kept;
    NormalizedIsKept(mode, managed, local.routes, w.link.hosts);
  }

  lemma ReportListed(w: Worker, state: Connection, reply: ClearReply)
    requires Listed(w)
    ensures Listed(Report(w, state, reply))
  {
    hide Publish, AddSites, Kept;
    var announced := w.(service := w.service.(announced := true));
    if StartupMatches(w) {
      var s := w.link.startup.value;
      PublishListed(announced, AllSites, s.routes, s.local, s.identity, true);
    }
    PublishListed(announced, AllSites, [], LocalSites([], 0), NoPolicy, false);
    AddSitesKeeps(announced);
  }

  lemma AddSitesKeeps(w: Worker)
    ensures AddSites(w).receipt == w.receipt
  {
    hide NewBatch;
  }

  lemma SitesTimerListed(w: Worker, i: nat)
    requires Listed(w)
    ensures Listed(SitesTimer(w, i))
  {
    hide AddSites, Kept;
    if i < |w.resolver.timers| {
      AddSitesKeeps(w.(resolver := w.resolver.(timers := w.resolver.timers[..i] + w.resolver.timers[i + 1..])));
    }
  }

  lemma DeliverListed(w: Worker, i: nat, sameGateway: bool, reply: AddReply)
    requires Listed(w)
    ensures Listed(Deliver(w, i, sameGateway, reply))
  {
    hide Install, Kept;
    if i < |w.resolver.batches| {
      var b := w.resolver.batches[i];
      var ran := w.(resolver := w.resolver.(batches := w.resolver.batches[i := b.(done := true)]));
      InstallListed(ran, b, reply);
    }
  }

  lemma InstallListed(w: Worker, b: Batch, reply: AddReply)
    ensures Listed(Install(w, b, reply))
  {
    hide Publish, Kept, Harmless, Without, Sort, Added;
    var wanted := Without(b.routes, b.owned);
    var complete := wanted == [] || reply.Full?;
    var sent := w.(service := w.service.(
      installed := w.service.installed + Added(wanted, reply), attempted := true,
      drifted := w.service.drifted || (b.confirmable && complete && !Harmless(b, w.link.hosts))));
    PublishListed(sent, b.mode, Texts(Sort(if complete then wanted else [])), b.local, b.identity, b.confirmable && complete);
  }

  lemma ReconcileListed(w: Worker, q: Request, sameLocal: bool, gatewayOk: bool, reply: AddReply)
    requires Listed(w)
    ensures Listed(Reconcile(w, q, sameLocal, gatewayOk, reply))
  {
    hide Decide, Normalize, Kept, Update, Applied;
    Decided(w, q, sameLocal);
    if q.mode.Some? { NormalizedIsKept(q.mode.value, q.newRoutes, q.local.routes, w.link.hosts); }
  }

  lemma FlushListed(w: Worker, sameLocal: bool)
    requires Listed(w)
    ensures Listed(Flush(w, sameLocal))
  {
    hide Publish, Kept, Normalize;
    if w.link.prepared.Some? {
      var s := w.link.prepared.value;
      PublishListed(w, s.mode, s.routes, s.local, s.identity, true);
    }
  }

  lemma StepListed(w: Worker, e: Event)
    requires Listed(w)
    ensures Listed(Step(w, e))
  {
    hide Kept, Report, SitesTimer, Deliver, Reconcile, Flush;
    match e
    case ReportEvent(state, clear) => ReportListed(w, state, clear);
    case SitesTimerEvent(i) => SitesTimerListed(w, i);
    case DeliverEvent(i, sameGateway, add) => DeliverListed(w, i, sameGateway, add);
    case ReconcileEvent(q, sameLocal, gatewayOk, add) => ReconcileListed(w, q, sameLocal, gatewayOk, add);
    case FlushEvent(sameLocal) => FlushListed(w, sameLocal);
    case _ =>
  }

  lemma {:induction false} RunListed(w: Worker, events: seq<Event>)
    requires Listed(w)
    ensures Listed(Run(w, events))
    decreases |events|
  {
    hide Listed, Step;
    if events != [] {
      StepListed(w, events[0]);
      RunListed(Step(w, events[0]), events[1..]);
    }
  }

  // ------------------------------------------------------------------ counting routes

  lemma {:induction false} SizeOfDistinct(rs: seq<Route>)
    requires NoDuplicates(rs)
    ensures |RouteSet(rs)| == |rs|
  {
    if rs != [] {
      var n := |rs| - 1;
      SizeOfDistinct(rs[..n]);
      assert rs == rs[..n] + [rs[n]];
      assert rs[n] !in rs[..n];
      assert RouteSet(rs) == RouteSet(rs[..n]) + {rs[n]};
    }
  }

  /** The two differences of an update, as sets. */
  lemma Differences(was: seq<Route>, target: seq<Route>)
    requires NoDuplicates(target)
    ensures RouteSet(Without(target, was)) == RouteSet(target) - RouteSet(was)
    ensures |Without(target, was)| == |RouteSet(target) - RouteSet(was)|
    ensures Without(was, target) == [] <==> RouteSet(was) <= RouteSet(target)
    ensures Without(target, was) == [] <==> RouteSet(target) <= RouteSet(was)
  {
    hide Without;
    WithoutKeeps(target, was);
    SizeOfDistinct(Without(target, was));
    assert RouteSet(Without(target, was)) == RouteSet(target) - RouteSet(was);
    if Without(was, target) != [] {
      var x := Without(was, target)[0];
      assert x in RouteSet(was) && x !in RouteSet(target);
    }
    if Without(target, was) != [] {
      var x := Without(target, was)[0];
      assert x in RouteSet(target) && x !in RouteSet(was);
    }
    assert Without(was, target) == [] ==> forall x :: x in was ==> x in target;
    assert Without(target, was) == [] ==> forall x :: x in target ==> x in was;
  }

  /**
   The incremental update, exactly. It is done when there is nothing to change, or the service confirms every one of
   at most 256 additions and there is nothing to remove; only a partial answer leaves it uncertain.
   */
  lemma UpdateIff(connected: bool, lookups: nat, mode: RouteMode, was: seq<Route>, target: seq<Route>,
                  gatewayOk: bool, reply: AddReply)
    requires NoDuplicates(target)
    ensures var o := Update(connected, lookups, mode, was, target, gatewayOk, reply);
      var before, after := RouteSet(was), RouteSet(target);
      var tried := connected && mode == AllExceptSites && lookups == 0;
      var asked := tried && before < after && |after - before| <= 256 && gatewayOk;
      && (o.result == Updated <==> (tried && before == after) || (asked && reply.Full?))
      && (o.result == RuntimeUncertain <==> asked && reply.Short?)
      && (o.result == ReconnectDeferred <==> connected && mode == AllExceptSites && lookups > 0)
      && o.sent == (if !asked || reply.Unavailable? then None
                    else Some(if reply.Full? then after - before else (after - before) * reply.added))
      && (o.bumped <==> connected && mode == AllExceptSites) && (o.waiting <==> o.result == ReconnectDeferred)
  {
    hide Without, RouteSet;
    Differences(was, target);
  }

  // ---------------------------------------------------------------- what a request says

  /** The request is newer than any before it and made for this very connection, with identities that fit. */
  predicate Accepted(w: Worker, q: Request) {
    && q.generation > w.receipt.latestRequest && q.mode.Some?
    && q.epoch == w.link.epoch && q.server == w.link.server && q.server != "" && w.link.connection == Connected
    && (q.expected.Policy? || (q.expected.NoPolicy? && q.oldRoutes == []))
    && (q.desired.Policy? || (q.desired.NoPolicy? && q.newRoutes == []))
  }

  /** The list it expects to find is a list of allowed routes, printed canonically, each once, and fits the mode. */
  ghost predicate OldReads(q: Request) {
    && q.mode.Some? && (q.mode.value == AllExceptSites || q.oldRoutes == [])
    && exists rs :: NoDuplicates(rs) && |rs| <= 4096 && (forall r :: r in rs ==> Allowed(r)) && Texts(rs) == q.oldRoutes
  }

  /** The running connection is the one the held receipt describes, and the request is for its mode. */
  predicate SameContext(w: Worker, q: Request, sameLocal: bool) {
    && w.receipt.base.Some? && w.receipt.base.value.epoch == w.link.epoch && w.receipt.base.value.server == w.link.server
    && q.mode == Some(w.receipt.base.value.mode) && w.receipt.base.value.mode == w.link.mode && sameLocal
    && (forall h :: h in w.receipt.hosts ==> h in w.link.hosts) && (forall h :: h in w.link.hosts ==> h in w.receipt.hosts)
  }

  /** The request names the held receipt: its revision, its list and its policy. */
  predicate NamesReceipt(w: Worker, q: Request) {
    && w.receipt.base.Some? && q.revision == w.receipt.revision
    && q.oldRoutes == Texts(w.receipt.base.value.routes) && q.expected == w.receipt.base.value.identity
  }

  ghost function Target(w: Worker, q: Request): Option<seq<Route>>
    requires q.mode.Some?
  {
    Normalize(q.mode.value, q.newRoutes, q.local.routes, w.link.hosts)
  }

  lemma OldReadsIff(q: Request)
    requires q.mode.Some?
    ensures OldReads(q) <==> ExpectedOld(q).Some?
    ensures ExpectedOld(q).Some? ==> Texts(ExpectedOld(q).value) == q.oldRoutes
  {
    hide Allowed;
    if ExpectedOld(q).Some? {
      ValidatedAreAllowed(q.oldRoutes);
      ValidatedIsBounded(q.oldRoutes);
      var rs := ExpectedOld(q).value;
      assert NoDuplicates(rs) && |rs| <= 4096 && Texts(rs) == q.oldRoutes;
    }
    if OldReads(q) {
      var rs :| NoDuplicates(rs) && |rs| <= 4096 && (forall r :: r in rs ==> Allowed(r)) && Texts(rs) == q.oldRoutes;
      ValidatedOfTexts(rs);
    }
  }

  lemma ValidatedIsBounded(ts: seq<RouteText>)
    requires Validated(ts).Some?
    ensures |Validated(ts).value| <= 4096
  {
    hide Allowed;
  }

  lemma HostsAlike(a: Hosts, b: Hosts)
    ensures SameHosts(a, b) <==> (forall h :: h in a ==> h in b) && (forall h :: h in b ==> h in a)
  {
    var left, right := set h | h in a, set h | h in b;
    if left == right {
      forall h | h in a
        ensures h in b
      {
        assert h in left;
        assert h in right;
      }
      forall h | h in b
        ensures h in a
      {
        assert h in right;
        assert h in left;
      }
    }
    if (forall h :: h in a ==> h in b) && (forall h :: h in b ==> h in a) {
      assert left == right;
    }
  }

  lemma ContextIff(w: Worker, q: Request, sameLocal: bool)
    ensures ContextMatches(w, q, sameLocal) <==> SameContext(w, q, sameLocal)
  {
    hide SameHosts;
    HostsAlike(w.receipt.hosts, w.link.hosts);
  }

  /** The held list reads back as itself. */
  lemma HeldReads(w: Worker, q: Request)
    requires Listed(w) && w.receipt.base.Some? && q.mode == Some(w.receipt.base.value.mode)
    requires q.oldRoutes == Texts(w.receipt.base.value.routes)
    ensures ExpectedOld(q) == Some(w.receipt.base.value.routes)
  {
    hide Allowed;
    var routes := w.receipt.base.value.routes;
    SortAscending(routes);
    ValidatedOfTexts(routes);
  }

  lemma ExpectedIsHeld(w: Worker, q: Request)
    requires Listed(w) && w.receipt.base.Some? && q.mode == Some(w.receipt.base.value.mode)
    requires ExpectedOld(q) == Some(w.receipt.base.value.routes)
    ensures q.oldRoutes == Texts(w.receipt.base.value.routes)
  {
    OldReadsIff(q);
  }

  /** What is decided about a request, from its fields. */
  lemma Decision(w: Worker, q: Request, sameLocal: bool)
    requires Listed(w)
    ensures var verdict := Decide(w, q, sameLocal);
      && (verdict.Ignored? <==> !Accepted(w, q))
      && (verdict.AlreadyApplied? <==>
            Accepted(w, q) && OldReads(q) && SameContext(w, q, sameLocal)
            && Target(w, q) == Some(w.receipt.base.value.routes))
      && (verdict.Attempt? <==>
            && Accepted(w, q) && SameContext(w, q, sameLocal) && NamesReceipt(w, q)
            && Target(w, q).Some? && Target(w, q).value != w.receipt.base.value.routes)
      && (verdict.AlreadyApplied? ==> verdict.target == w.receipt.base.value.routes)
      && (verdict.Attempt? ==> verdict.was == w.receipt.base.value.routes && Target(w, q) == Some(verdict.target))
  {
    hide Normalize, ContextMatches, SameContext, OldReads, ExpectedOld, Kept;
    AcceptedIff(w, q);
    if Accepted(w, q) {
      OldReadsIff(q);
      ContextIff(w, q, sameLocal);
      NamesIff(w, q, sameLocal);
    }
  }

  lemma AcceptedIff(w: Worker, q: Request)
    ensures BindingMatches(w, q) <==> Accepted(w, q)
  {
  }

  lemma NamesIff(w: Worker, q: Request, sameLocal: bool)
    requires Listed(w) && Accepted(w, q)
    ensures SameContext(w, q, sameLocal) ==>
              (NamesReceipt(w, q)
               <==> ExpectedOld(q).Some? && BaseMatches(w, q, ExpectedOld(q).value))
    ensures SameContext(w, q, sameLocal) && NamesReceipt(w, q) ==> ExpectedOld(q) == Some(w.receipt.base.value.routes)
  {
    hide ExpectedOld, Kept;
    if SameContext(w, q, sameLocal) {
      if NamesReceipt(w, q) { HeldReads(w, q); }
      if ExpectedOld(q).Some? && BaseMatches(w, q, ExpectedOld(q).value) { ExpectedIsHeld(w, q); }
    }
  }

  // ---------------------------------------------------------------------- main results

  /**
   Over every run: a request for the running connection that names the held receipt and asks for another list
   succeeds exactly if no lookup is pending, nothing installed would have to be removed, there are at most 256
   additions, the gateway is in order and the service confirms all of them. Then the receipt names the new list and
   policy, and exactly the additions were made. Only a partial answer drops the receipt. In every other case receipt
   and service stay as they are, and pending lookups make the worker reconnect later.
   */
  lemma SwapIff(events: seq<Event>, q: Request, sameLocal: bool, gatewayOk: bool, reply: AddReply, target: seq<Route>)
    requires var w := Run(Fresh(), events);
      && Accepted(w, q) && SameContext(w, q, sameLocal) && NamesReceipt(w, q)
      && Target(w, q) == Some(target) && target != w.receipt.base.value.routes
    ensures var w := Run(Fresh(), events);
      var r := Reconcile(w, q, sameLocal, gatewayOk, reply);
      var before, after := RouteSet(w.receipt.base.value.routes), RouteSet(target);
      var asked := w.resolver.lookups == 0 && before <= after && |after - before| <= 256 && gatewayOk;
      && (r.receipt.base == Some(Base(w.link.mode, target, w.link.epoch, w.link.server, q.desired))
          <==> asked && reply.Full?)
      && (r.receipt.base.None? <==> asked && reply.Short?)
      && (!asked || reply.Unavailable? <==> r.receipt.base == w.receipt.base)
      && r.service.installed == (if !asked || reply.Unavailable? then w.service.installed
                                 else if reply.Full? then w.service.installed + (after - before)
                                 else w.service.installed + (after - before) * reply.added)
      && (r.receipt.transition <==> !(asked && reply.Full?))
      && r.receipt.revision == w.receipt.revision + (if asked && !reply.Unavailable? then 1 else 0)
      && r.receipt.latestRequest == q.generation && r.link == w.link
      && r.resolver == w.resolver.(managedGeneration := w.resolver.managedGeneration + 1,
                                   reconnectAfterLookups := w.resolver.reconnectAfterLookups || w.resolver.lookups > 0)
  {
    RunListed(Fresh(), events);
    hide Run, Listed;
    Swap(Run(Fresh(), events), q, sameLocal, gatewayOk, reply, target);
  }

  lemma Swap(w: Worker, q: Request, sameLocal: bool, gatewayOk: bool, reply: AddReply, target: seq<Route>)
    requires Listed(w) && Accepted(w, q) && SameContext(w, q, sameLocal) && NamesReceipt(w, q)
    requires Target(w, q) == Some(target) && target != w.receipt.base.value.routes
    ensures var r := Reconcile(w, q, sameLocal, gatewayOk, reply);
      var before, after := RouteSet(w.receipt.base.value.routes), RouteSet(target);
      var asked := w.resolver.lookups == 0 && before <= after && |after - before| <= 256 && gatewayOk;
      && r.receipt.base == (if !asked || reply.Unavailable? then w.receipt.base
                            else if reply.Full?
                            then Some(Base(w.link.mode, target, w.link.epoch, w.link.server, q.desired))
                            else None)
      && r.service.installed == (if !asked || reply.Unavailable? then w.service.installed
                                 else if reply.Full? then w.service.installed + (after - before)
                                 else w.service.installed + (after - before) * reply.added)
      && (r.receipt.transition <==> !(asked && reply.Full?))
      && r.receipt.revision == w.receipt.revision + (if asked && !reply.Unavailable? then 1 else 0)
      && r.receipt.latestRequest == q.generation && r.link == w.link
      && r.resolver == w.resolver.(managedGeneration := w.resolver.managedGeneration + 1,
                                   reconnectAfterLookups := w.resolver.reconnectAfterLookups || w.resolver.lookups > 0)
  {
    hide Decide, Update, RouteSet, Listed, Target, Reconcile, Attempted;
    Decision(w, q, sameLocal);
    var was := w.receipt.base.value.routes;
    Distinguished(w, q, target);
    UpdateIff(true, w.resolver.lookups, AllExceptSites, was, target, gatewayOk, reply);
    AttemptReconciles(w, q, sameLocal, gatewayOk, reply, was, target);
    var o := Update(true, w.resolver.lookups, AllExceptSites, was, target, gatewayOk, reply);
    AttemptedExactly(Noted(w, q, true), q, target, o);
  }

  lemma AttemptReconciles(w: Worker, q: Request, sameLocal: bool, gatewayOk: bool, reply: AddReply,
                          was: seq<Route>, target: seq<Route>)
    requires q.mode == Some(AllExceptSites) && w.link.connection == Connected
    requires Decide(w, q, sameLocal) == Attempt(was, target)
    ensures Reconcile(w, q, sameLocal, gatewayOk, reply)
         == Attempted(Noted(w, q, true), q, target,
                      Update(true, w.resolver.lookups, AllExceptSites, was, target, gatewayOk, reply))
  {
    hide Decide, Update, Attempted;
  }

  /** What an outcome of the update does to the worker. */
  lemma AttemptedExactly(w: Worker, q: Request, target: seq<Route>, o: Outcome)
    requires q.mode.Some?
    ensures var r := Attempted(w, q, target, o);
      && r.receipt.base == (match o.result
                            case Updated => Some(Base(q.mode.value, target, w.link.epoch, w.link.server, q.desired))
                            case RuntimeUncertain => None
                            case _ => w.receipt.base)
      && r.service.installed == w.service.installed + (if o.sent.Some? then o.sent.value else {})
      && (r.receipt.transition <==> o.result.RuntimeUncertain? || (w.receipt.transition && !o.result.Updated?))
      && r.receipt.revision == w.receipt.revision + (if o.result.Updated? || o.result.RuntimeUncertain? then 1 else 0)
      && r.receipt.latestRequest == w.receipt.latestRequest && r.link == w.link
      && r.resolver == w.resolver.(managedGeneration := w.resolver.managedGeneration + (if o.bumped then 1 else 0),
                                   reconnectAfterLookups := w.resolver.reconnectAfterLookups || o.waiting)
  {
  }

  /** Two different kept lists are different sets, and only the all-except mode has two. */
  lemma Distinguished(w: Worker, q: Request, target: seq<Route>)
    requires Listed(w) && w.receipt.base.Some? && q.mode == Some(w.receipt.base.value.mode)
    requires Target(w, q) == Some(target) && target != w.receipt.base.value.routes
    ensures q.mode == Some(AllExceptSites) && NoDuplicates(target)
    ensures RouteSet(target) != RouteSet(w.receipt.base.value.routes)
  {
    NormalizedIsKept(q.mode.value, q.newRoutes, q.local.routes, w.link.hosts);
    hide Normalize, Allowed, RouteSet;
    SortAscending(target);
    if RouteSet(target) == RouteSet(w.receipt.base.value.routes) {
      AscendingUnique(target, w.receipt.base.value.routes);
    }
  }

  /**
   Over every run: a request for the running connection that asks for the very list held only renews the receipt,
   whatever revision or policy it expected, and nothing is sent.
   */
  lemma RenewIff(events: seq<Event>, q: Request, sameLocal: bool, gatewayOk: bool, reply: AddReply)
    ensures var w := Run(Fresh(), events);
      var r := Reconcile(w, q, sameLocal, gatewayOk, reply);
      var renewed := Accepted(w, q) && OldReads(q) && SameContext(w, q, sameLocal)
        && Target(w, q) == Some(w.receipt.base.value.routes);
      var named := Accepted(w, q) && SameContext(w, q, sameLocal) && NamesReceipt(w, q)
        && Target(w, q).Some? && Target(w, q).value != w.receipt.base.value.routes;
      && (renewed ==>
            && r.receipt.base == Some(w.receipt.base.value.(identity := q.desired)) && !r.receipt.transition
            && r.receipt.revision == w.receipt.revision + 1 && r.receipt.latestRequest == q.generation
            && r.service == w.service && r.resolver == w.resolver && r.link == w.link)
      && (!renewed && !named ==>
            && r.receipt == w.receipt.(latestRequest := r.receipt.latestRequest, transition := r.receipt.transition)
            && (r.receipt.transition <==> w.receipt.transition || Accepted(w, q))
            && r.service == w.service && r.resolver == w.resolver && r.link == w.link)
  {
    RunListed(Fresh(), events);
    hide Run, Listed;
    Renew(Run(Fresh(), events), q, sameLocal, gatewayOk, reply);
  }

  lemma Renew(w: Worker, q: Request, sameLocal: bool, gatewayOk: bool, reply: AddReply)
    requires Listed(w)
    ensures var r := Reconcile(w, q, sameLocal, gatewayOk, reply);
      var renewed := Accepted(w, q) && OldReads(q) && SameContext(w, q, sameLocal)
        && Target(w, q) == Some(w.receipt.base.value.routes);
      var named := Accepted(w, q) && SameContext(w, q, sameLocal) && NamesReceipt(w, q)
        && Target(w, q).Some? && Target(w, q).value != w.receipt.base.value.routes;
      && (renewed ==>
            && r.receipt.base == Some(w.receipt.base.value.(identity := q.desired)) && !r.receipt.transition
            && r.receipt.revision == w.receipt.revision + 1 && r.receipt.latestRequest == q.generation
            && r.service == w.service && r.resolver == w.resolver && r.link == w.link)
      && (!renewed && !named ==>
            && r.receipt == w.receipt.(latestRequest := r.receipt.latestRequest, transition := r.receipt.transition)
            && (r.receipt.transition <==> w.receipt.transition || Accepted(w, q))
            && r.service == w.service && r.resolver == w.resolver && r.link == w.link)
  {
    Decision(w, q, sameLocal);
    hide Decide, Update, Listed, Target, OldReads;
  }
}
