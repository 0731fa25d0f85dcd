/**
 Who owns the tunnel and the routes in the headless daemon. Every call into the backend or the routing
 controller may spin a nested event loop, so commands and timers can arrive in the middle of another one. A
 non-reentrant scope keeps them from doing anything, except while the daemon stops: stopping takes no scope.
 */
module DaemonOwnership {

  /** `NotRunning`: the process did not start, and nothing is delivered to it. */
  datatype State = Disconnected | Connected | CleanupFailed | RecoveryRequired | NotRunning

  /** The phase of the migration journal. */
  datatype Phase = NoAttempt | Staged | Trying | Committed | RolledBack

  /** What is really up, whoever owns it: put there by a candidate, or by the profile as it was imported. */
  datatype Remains = Remains(candidateRoutes: bool, candidateInterface: bool, legacyRoutes: bool, legacyInterface: bool)

  /** A legacy connection attempt, with what was up and the journal's phase when it started. */
  datatype LegacyTry = LegacyTry(remains: Remains, journal: Phase)

  /**
   What outlives the process: what is up, and the journal with the phase an open attempt came from. Histories: the
   legacy attempts, and how often an interface was taken down under routes that were still owned.
   */
  datatype Trace = Trace(remains: Remains, journal: Phase, previous: Phase, tries: seq<LegacyTry>, stranded: nat)

  /** `session` is the backend's own record of an active profile. */
  datatype Daemon = Daemon(state: State, backendOwned: bool, routingOwned: bool, session: bool, trace: Trace)

  const NO_REMAINS := Remains(false, false, false, false)

  const STARTED := Daemon(Disconnected, false, false, false, Trace(NO_REMAINS, NoAttempt, NoAttempt, [], 0))

  /** `depth` operations are in progress; `overlaps` counts the operations performed inside another. */
  datatype System = System(daemon: Daemon, depth: nat, overlaps: nat)

  const IDLE := System(STARTED, 0, 0)

  // -------------------------------------------------------------------- events

  /** Events delivered while a call waits. */
  datatype Events = Nothing | Then(head: Event, tail: Events)

  /**
   The outcome of one outside call. A failed call may leave a backend session or other native residue;
   routing may be degraded, or ask for recovery.
   */
  datatype Call = Call(ok: bool, degraded: bool, recovery: bool, sessionLeft: bool, residue: bool, nested: Events)

  datatype HealthScript = HealthScript(alive: bool, backend: Call, routing: Call)

  datatype ConnectScript = ConnectScript(
    candidate: bool, begun: bool, candidateConnect: Call, candidateRouting: Call, verify: Call, committed: bool,
    routesCleanup: Call, interfaceCleanup: Call, abandoned: bool, legacy: LegacyScript)

  datatype LegacyScript = LegacyScript(connect: Call, routing: Call, cleanup: Call)

  datatype Event =
    | ConnectCommand(health: HealthScript, known: bool, script: ConnectScript)
    | DisconnectCommand(health: HealthScript, routing: Call, backend: Call)
    | OtherMutation(health: HealthScript, work: Call)
    | ReadOnlyCommand(health: HealthScript)
    | RefreshTimer(health: HealthScript, refresh: Call)
    | AutoConnectTimer(recovery: bool, profile: bool, script: ConnectScript)
    | MigrationTimer(work: Call, staged: bool)
    | UpdateTimer(work: Call)

  /**
   What happens to the daemon at the outermost level. Stopping is never delivered by an event loop. A restart
   follows a crash, between two operations or inside a candidate attempt. By then an interface or routes may be
   gone; the state files may be rejected; the routes may be those of a validated offline window.
   */
  datatype Occurrence =
    | Delivered(event: Event)
    | Stop(routing: Call, backend: Call)
    | Restart(crash: Crash, interfaceGone: bool, routesGone: bool, rejected: bool, offline: bool)

  datatype Crash = BetweenOperations | DuringCandidate(interfaceUp: bool, routesUp: bool)

  // ---------------------------------------------------------------- specification

  function WithoutRoutes(r: Remains): Remains { r.(candidateRoutes := false, legacyRoutes := false) }

  function WithoutInterface(r: Remains): Remains { r.(candidateInterface := false, legacyInterface := false) }

  predicate InterfaceUp(r: Remains) { r.candidateInterface || r.legacyInterface }

  predicate RoutesUp(r: Remains) { r.candidateRoutes || r.legacyRoutes }

  /** The routing controller has removed its routes. */
  function RoutesGone(d: Daemon): Daemon {
    d.(routingOwned := false, trace := d.trace.(remains := WithoutRoutes(d.trace.remains)))
  }

  /** A failed call that still dropped the session had taken the interface down before. */
  function InterfaceDown(d: Daemon, call: Call): Daemon {
    if call.ok || !call.sessionLeft
    then d.(session := false, trace := d.trace.(remains := WithoutInterface(d.trace.remains)))
    else d
  }

  function Counted(d: Daemon): Daemon {
    d.(trace := d.trace.(stranded := d.trace.stranded + (if d.routingOwned then 1 else 0)))
  }

  /** Without a session the backend has nothing to take down and says so at once. */
  function TakenDown(d: Daemon, call: Call): Daemon {
    if d.session then InterfaceDown(Counted(d), call) else d
  }

  predicate Stopped(d: Daemon, call: Call) { !d.session || call.ok }

  /** A dead session is taken down, the interface before the routes. */
  function Health(d: Daemon, h: HealthScript): Daemon {
    if d.state != Connected || (d.session && h.alive) then d
    else
      var down := if d.backendOwned then TakenDown(d, h.backend) else d;
      if d.backendOwned && !Stopped(d, h.backend) then down.(state := CleanupFailed)
      else
        var released := down.(backendOwned := false);
        if !released.routingOwned then released.(state := Disconnected)
        else if !h.routing.ok then released.(state := CleanupFailed)
        else RoutesGone(released).(state := Disconnected)
  }

  predicate LegacyRouted(routing: Call) { routing.ok || (routing.degraded && !routing.recovery) }

  function Tried(d: Daemon): Daemon {
    d.(trace := d.trace.(tries := d.trace.tries + [LegacyTry(d.trace.remains, d.trace.journal)]))
  }

  function WithLegacyInterface(d: Daemon, up: bool): Daemon {
    d.(trace := d.trace.(remains := d.trace.remains.(legacyInterface := d.trace.remains.legacyInterface || up)))
  }

  function WithLegacyRoutes(d: Daemon, up: bool): Daemon {
    d.(trace := d.trace.(remains := d.trace.remains.(legacyRoutes := d.trace.remains.legacyRoutes || up)))
  }

  /** Connects the profile as it was imported. */
  function Legacy(d: Daemon, s: LegacyScript): (Daemon, bool) {
    if !s.connect.ok then (WithLegacyInterface(Tried(d), s.connect.residue), false)
    else LegacyUp(WithLegacyInterface(Tried(d), true).(session := true, backendOwned := true), s)
  }

  /** The imported profile's interface is up: route it, or take it down again. */
  function LegacyUp(d: Daemon, s: LegacyScript): (Daemon, bool) {
    var routed := WithLegacyRoutes(d, LegacyRouted(s.routing) || s.routing.recovery);
    if LegacyRouted(s.routing) then (routed.(routingOwned := true), true)
    else
      var down := TakenDown(routed, s.cleanup);
      if Stopped(routed, s.cleanup) then (down.(backendOwned := false), false)
      else (down.(state := CleanupFailed), false)
  }

  /** The journal offers a candidate only while it is staged or committed. */
  predicate Usable(journal: Phase) { journal == Staged || journal == Committed }

  /** Candidate first, and the legacy profile only once the candidate is retired. */
  function Managed(d: Daemon, s: ConnectScript): (Daemon, bool) {
    if d.session then (d, false)
    else if !s.candidate || !Usable(d.trace.journal) then Legacy(d, s.legacy)
    else if !s.begun then (d, false)
    else
      var (attempted, outcome) := Candidate(Begun(d), s);
      match outcome
      case Succeeded => (attempted, true)
      case Stuck => (attempted, false)
      case Retired => Fallback(attempted, s)
  }

  function Begun(d: Daemon): Daemon {
    d.(trace := d.trace.(journal := Trying, previous := d.trace.journal))
  }

  datatype CandidateOutcome = Succeeded | Stuck | Retired

  function Candidate(d: Daemon, s: ConnectScript): (Daemon, CandidateOutcome) {
    if !s.candidateConnect.ok then Refused(d, s.candidateConnect)
    else Route(d, s)
  }

  /** A candidate that did not come up: a session, or an interface found by looking for it, needs recovery. */
  function Refused(d: Daemon, call: Call): (Daemon, CandidateOutcome) {
    var left := call.residue || call.sessionLeft;
    var seen := d.(trace := d.trace.(remains := d.trace.remains.(
      candidateInterface := d.trace.remains.candidateInterface || left)));
    if InterfaceUp(seen.trace.remains)
    then (seen.(backendOwned := call.sessionLeft, session := call.sessionLeft, state := RecoveryRequired), Stuck)
    else (seen, Retired)
  }

  function CandidateUp(d: Daemon, routing: Call): Daemon {
    var routed := routing.ok || routing.degraded;
    var remains := d.trace.remains.(
      candidateInterface := true,
      candidateRoutes := d.trace.remains.candidateRoutes || routed || routing.recovery);
    d.(session := true, backendOwned := true, routingOwned := d.routingOwned || routed,
       trace := d.trace.(remains := remains))
  }

  /** The candidate interface is up: route, verify, commit, or retire it. */
  function Route(d: Daemon, s: ConnectScript): (Daemon, CandidateOutcome) {
    var up := CandidateUp(d, s.candidateRouting);
    if s.candidateRouting.ok && s.verify.ok && s.committed
    then (up.(trace := up.trace.(journal := Committed)), Succeeded)
    else if s.candidateRouting.recovery then (up.(state := RecoveryRequired), Stuck)
    else RetireCandidate(up, s)
  }

  /** Routes first, then the interface. */
  function RetireCandidate(d: Daemon, s: ConnectScript): (Daemon, CandidateOutcome) {
    if d.routingOwned && !s.routesCleanup.ok then (d.(state := RecoveryRequired), Stuck)
    else
      var unrouted := if d.routingOwned then RoutesGone(d) else d;
      var down := TakenDown(unrouted, s.interfaceCleanup);
      if !Stopped(unrouted, s.interfaceCleanup) then (down.(state := RecoveryRequired), Stuck)
      else (down.(backendOwned := false), Retired)
  }

  function Fallback(d: Daemon, s: ConnectScript): (Daemon, bool) {
    if !s.abandoned then (d.(state := RecoveryRequired), false)
    else
      var (tried, ok) := Legacy(d.(trace := d.trace.(journal := RolledBack)), s.legacy);
      if ok then (tried, true) else (tried.(state := RecoveryRequired), false)
  }

  /** What the callers of a managed connection do with its result. */
  function Adopted(result: (Daemon, bool)): Daemon {
    if result.1 then result.0.(backendOwned := true, routingOwned := true, state := Connected) else result.0
  }

  function Disconnecting(d: Daemon, routing: Call, backend: Call): Daemon {
    if d.routingOwned && !routing.ok then d.(state := CleanupFailed)
    else
      var unrouted := if d.routingOwned then RoutesGone(d) else d;
      var down := if d.backendOwned then TakenDown(unrouted, backend) else unrouted;
      if d.backendOwned && !Stopped(unrouted, backend) then down.(state := CleanupFailed)
      else down.(backendOwned := false, state := Disconnected)
  }

  /** One event, delivered while nothing holds the scope. */
  function Handled(d: Daemon, e: Event): Daemon {
    match e
    case ConnectCommand(health, known, script) =>
      var healthy := Health(d, health);
      if healthy.state == CleanupFailed || healthy.state == RecoveryRequired || !known then healthy
      else Adopted(Managed(healthy, script))
    case DisconnectCommand(health, routing, backend) => Disconnecting(Health(d, health), routing, backend)
    case OtherMutation(health, _) => Health(d, health)
    case ReadOnlyCommand(health) => Health(d, health)
    case RefreshTimer(health, refresh) =>
      var healthy := Health(d, health);
      if healthy.state == Connected && !refresh.ok && refresh.recovery
      then healthy.(state := RecoveryRequired) else healthy
    case AutoConnectTimer(recovery, profile, script) =>
      if d.state != Disconnected then d
      else if recovery then d.(state := RecoveryRequired)
      else if !profile then d
      else Adopted(Managed(d, script))
    case MigrationTimer(_, staged) =>
      if d.state == Connected && staged && d.trace.journal != Committed
      then d.(trace := d.trace.(journal := Staged)) else d
    case UpdateTimer(_) => d
  }

  // ------------------------------------------------------------- operations and runs

  function Within(w: System, d: Daemon): System { w.(daemon := d) }

  /** An operation is performed: inside another one if there is one in progress. */
  function Enter(w: System): System {
    System(w.daemon, w.depth + 1, w.overlaps + (if w.depth > 0 then 1 else 0))
  }

  function Leave(w: System): System { w.(depth := if w.depth == 0 then 0 else w.depth - 1) }

  /** Any event: with a mutation in flight, nothing is performed. */
  function Step(w: System, inFlight: bool, e: Event): System {
    if inFlight then w else Leave(Within(Enter(w), Handled(w.daemon, e)))
  }

  /** Events that arrive inside an operation that holds no scope: each is handled there and then. */
  function Inside(w: System, nested: Events): System
    decreases nested
  {
    match nested
    case Nothing => w
    case Then(head, tail) => Inside(Step(w, false, head), tail)
  }

  /** The first half of stopping: the routes, with whatever arrives meanwhile. */
  function Unrouting(w: System, routing: Call): System {
    if !w.daemon.routingOwned then w
    else
      var waited := Inside(w, routing.nested);
      if routing.ok then Within(waited, RoutesGone(waited.daemon)) else waited
  }

  /** Whether stopping waits for the backend once the routes are gone. */
  predicate Waits(d: Daemon) { d.backendOwned && d.session }

  /** The second half: the interface. */
  function Lowering(w: System, backend: Call): System {
    if !Waits(w.daemon) then w
    else
      var waited := Inside(w, backend.nested);
      Within(waited, InterfaceDown(waited.daemon, backend))
  }

  function Stopping(w: System, routing: Call, backend: Call): System {
    var unrouted := Unrouting(w, routing);
    if w.daemon.routingOwned && !routing.ok then Within(unrouted, unrouted.daemon.(state := CleanupFailed))
    else
      var down := Lowering(unrouted, backend);
      if Waits(unrouted.daemon) && !backend.ok then Within(down, down.daemon.(state := CleanupFailed))
      else Within(down, down.daemon.(backendOwned := false, state := Disconnected))
  }

  /** A crash inside a candidate attempt leaves it open, with as much of it up as there was. */
  function Crashed(d: Daemon, crash: Crash): Daemon {
    match crash
    case BetweenOperations => d
    case DuringCandidate(interfaceUp, routesUp) =>
      if d.state != Disconnected || d.session || !Usable(d.trace.journal) then d
      else
        var begun, r := Begun(d), d.trace.remains;
        begun.(trace := begun.trace.(remains := r.(candidateInterface := r.candidateInterface || interfaceUp,
                                                   candidateRoutes := r.candidateRoutes || routesUp)))
  }

  /** The process is gone, and with it the owner flags and the session; what is still up stays up. */
  function Gone(d: Daemon, interfaceGone: bool, routesGone: bool): Daemon {
    var r1 := if interfaceGone then WithoutInterface(d.trace.remains) else d.trace.remains;
    var r2 := if routesGone then WithoutRoutes(r1) else r1;
    d.(backendOwned := false, routingOwned := false, session := false, trace := d.trace.(remains := r2))
  }

  /** Reading the journal takes an open attempt back to where it came from. */
  function Loaded(d: Daemon): Daemon {
    if d.trace.journal != Trying then d
    else d.(trace := d.trace.(journal := if d.trace.previous == Committed then Committed else RolledBack))
  }

  /** A new process after a crash. */
  function Restarted(d: Daemon, o: Occurrence): Daemon
    requires o.Restart?
  {
    Probed(Gone(Crashed(d, o.crash), o.interfaceGone, o.routesGone), o)
  }

  /** Starting is refused over an interface that is up, and over routes unless they are those of an offline window. */
  function Probed(d: Daemon, o: Occurrence): Daemon
    requires o.Restart?
  {
    if o.rejected then d.(state := NotRunning)
    else
      var loaded := Loaded(d);
      if InterfaceUp(loaded.trace.remains) || (RoutesUp(loaded.trace.remains) && !o.offline)
      then loaded.(state := NotRunning) else loaded.(state := Disconnected)
  }

  function Next(w: System, o: Occurrence): System {
    match o
    case Restart(_, _, _, _, _) => System(Restarted(w.daemon, o), 0, w.overlaps)
    case Delivered(event) => if !Running(w.daemon) then w else Step(w, false, event)
    case Stop(routing, backend) =>
      if !Running(w.daemon) then w else Leave(Stopping(Enter(w), routing, backend))
  }

  function Run(w: System, run: seq<Occurrence>): System
    decreases |run|
  {
    if run == [] then w else Run(Next(w, run[0]), run[1..])
  }

  // -------------------------------------------------------------------- invariant

  /** Nothing of a candidate is left, and no attempt is open. */
  predicate Clean(t: LegacyTry) {
    !t.remains.candidateRoutes && !t.remains.candidateInterface && t.journal != Trying
  }

  predicate TriesClean(tries: seq<LegacyTry>) {
    forall i :: 0 <= i < |tries| ==> Clean(tries[i])
  }

  /** A candidate's interface that is up has a session, or its attempt is still open, or nothing runs. */
  predicate Accounted(d: Daemon) {
    && (d.trace.remains.candidateInterface ==> d.session || d.trace.journal == Trying || !Running(d))
    && (d.state == Connected ==> d.trace.journal != Trying)
  }

  /** The same for its routes, which a restart into an offline window may leave without an owner. */
  predicate RoutesHeld(d: Daemon) {
    d.trace.remains.candidateRoutes ==> d.routingOwned || d.trace.journal == Trying || !Running(d)
  }

  predicate Consistent(d: Daemon) {
    && (d.session ==> d.backendOwned)
    && (d.state == Connected ==> d.session)
    && (d.state == Disconnected ==> !d.backendOwned)
  }

  predicate Running(d: Daemon) { d.state != NotRunning }

  /** What holds at every point, also for an event handled while the daemon stops. */
  predicate Inv(d: Daemon) {
    && Consistent(d)
    && (TriesClean(d.trace.tries) ==> Accounted(d))
  }

  /** Connected means both owners are held, disconnected means neither. */
  predicate Owned(d: Daemon) {
    && (d.state == Connected ==> d.backendOwned && d.routingOwned && d.session)
    && (d.state == Disconnected ==> !d.backendOwned && !d.routingOwned && !d.session)
  }

  // ----------------------------------------------------------- one event at a time

  lemma HealthInv(d: Daemon, h: HealthScript)
    requires Inv(d)
    ensures var r := Health(d, h);
      && Inv(r) && (Owned(d) ==> Owned(r))
      && r.trace.tries == d.trace.tries && r.trace.journal == d.trace.journal
      && (r.state == Connected ==> r == d)
      && (d.state != Connected ==> r == d) && (Running(d) ==> Running(r))
  {
  }

  /** A legacy attempt records what it found, and owns either a whole connection or what it could not undo. */
  lemma LegacyEffect(d: Daemon, s: LegacyScript)
    requires d.state == Disconnected && !d.session && !d.backendOwned
    ensures var (r, ok) := Legacy(d, s);
      && r.trace.tries == d.trace.tries + [LegacyTry(d.trace.remains, d.trace.journal)]
      && r.trace.journal == d.trace.journal
      && r.trace.remains.candidateRoutes == d.trace.remains.candidateRoutes
      && (r.trace.remains.candidateInterface ==> d.trace.remains.candidateInterface)
      && (ok ==> r.session && r.backendOwned && r.routingOwned && r.state == d.state)
      && (!ok ==> r.routingOwned == d.routingOwned && (r.session ==> r.backendOwned))
      && (!ok && r.state == d.state ==> !r.backendOwned)
      && (r.state == d.state || r.state == CleanupFailed)
  {
  }

  lemma OneMoreTry(tries: seq<LegacyTry>, t: LegacyTry)
    ensures TriesClean(tries + [t]) <==> TriesClean(tries) && Clean(t)
  {
    if TriesClean(tries + [t]) {
      forall i | 0 <= i < |tries| ensures Clean(tries[i]) { assert tries[i] == (tries + [t])[i]; }
      assert Clean((tries + [t])[|tries|]);
    }
  }

  /** The candidate did not come up, and nothing native is found where it would have been. */
  predicate Absent(d: Daemon, call: Call) {
    !call.ok && !call.residue && !call.sessionLeft && !InterfaceFound(d)
  }

  /** A disconnected daemon finds an interface up; a dead session is taken down before anything is looked for. */
  predicate InterfaceFound(d: Daemon) {
    d.state == Disconnected && (d.trace.remains.candidateInterface || d.trace.remains.legacyInterface)
  }

  /** A candidate is retired that put no routes up, and nobody holds any. */
  predicate Unrouted(d: Daemon, s: ConnectScript) {
    if s.candidateConnect.ok
    then && !d.routingOwned && !s.candidateRouting.ok && !s.candidateRouting.degraded && !s.candidateRouting.recovery
         && s.interfaceCleanup.ok
    else Absent(d, s.candidateConnect)
  }

  /** A candidate ends working, or in need of recovery, or retired with nothing of its own left. */
  lemma CandidateEffect(d: Daemon, s: ConnectScript)
    requires !d.session && !d.backendOwned && d.state == Disconnected && d.trace.journal == Trying
    ensures var (r, outcome) := Candidate(d, s);
      && r.trace.tries == d.trace.tries
      && (r.session ==> r.backendOwned)
      && (outcome == Succeeded ==> r.session && r.backendOwned && r.routingOwned && r.trace.journal == Committed)
      && (outcome != Succeeded ==> r.trace.journal == Trying)
      && (outcome == Stuck ==> r.state == RecoveryRequired)
      && (outcome == Retired ==>
            && !r.session && !r.backendOwned && r.state == d.state && (!d.routingOwned ==> !r.routingOwned)
            && !r.trace.remains.candidateInterface)
  {
  }

  /** Routes of an earlier candidate outlive one that is retired only if nobody held any. */
  lemma CandidateRetires(d: Daemon, s: ConnectScript)
    requires !d.session && d.state == Disconnected
    ensures var (r, outcome) := Candidate(d, s);
      outcome == Retired && r.trace.remains.candidateRoutes
      <==> d.trace.remains.candidateRoutes && Unrouted(d, s)
  {
  }

  /** A candidate is at hand, and the journal is in a phase that offers it. */
  predicate OffersCandidate(d: Daemon, s: ConnectScript) {
    s.candidate && (d.trace.journal == Staged || d.trace.journal == Committed)
  }

  /** A legacy attempt will be made over an attempt still open, or over routes of a candidate still up. */
  predicate Reckless(d: Daemon, s: ConnectScript) {
    && !d.session
    && if OffersCandidate(d, s)
       then s.begun && s.abandoned && Unrouted(d, s) && d.trace.remains.candidateRoutes
       else d.trace.journal == Trying || d.trace.remains.candidateRoutes
  }

  lemma FallbackInv(d: Daemon, s: ConnectScript)
    requires d.state == Disconnected && !d.session && !d.backendOwned
    requires !d.trace.remains.candidateInterface && d.trace.journal == Trying
    ensures var r := Adopted(Fallback(d, s));
      && Inv(r) && Running(r) && (!d.routingOwned ==> Owned(r))
      && (TriesClean(r.trace.tries)
          <==> TriesClean(d.trace.tries) && (s.abandoned ==> !d.trace.remains.candidateRoutes))
  {
    hide TriesClean;
    var rolledBack := d.(trace := d.trace.(journal := RolledBack));
    LegacyEffect(rolledBack, s.legacy);
    OneMoreTry(d.trace.tries, LegacyTry(rolledBack.trace.remains, RolledBack));
  }

  /** With clean attempts so far: every branch keeps the invariant, and it is known which attempt is unclean. */
  lemma ManagedInv(d: Daemon, s: ConnectScript)
    requires Inv(d) && Running(d) && (d.state == Disconnected || d.session) && TriesClean(d.trace.tries)
    ensures var r := Adopted(Managed(d, s));
      && Inv(r) && Running(r) && (Owned(d) ==> Owned(r))
      && (TriesClean(r.trace.tries) <==> !Reckless(d, s))
  {
    hide Candidate, Fallback, Legacy, TriesClean, Unrouted;
    if d.session {
    } else if !s.candidate || !Usable(d.trace.journal) {
      LegacyEffect(d, s.legacy);
      OneMoreTry(d.trace.tries, LegacyTry(d.trace.remains, d.trace.journal));
    } else if s.begun {
      var begun := Begun(d);
      CandidateEffect(begun, s);
      CandidateRetires(begun, s);
      UnroutedAlike(d, s);
      var (attempted, outcome) := Candidate(begun, s);
      if outcome == Retired { FallbackInv(attempted, s); }
    }
  }

  lemma UnroutedAlike(d: Daemon, s: ConnectScript)
    ensures Unrouted(Begun(d), s) == Unrouted(d, s)
  {
  }

  /** What a managed connection keeps whatever happened before. */
  lemma ManagedConsistent(d: Daemon, s: ConnectScript)
    requires Consistent(d) && Running(d) && (d.state == Disconnected || d.session)
    ensures var r := Adopted(Managed(d, s));
      && Consistent(r) && Running(r) && (Owned(d) ==> Owned(r)) && d.trace.tries <= r.trace.tries
  {
    hide Candidate, Legacy, TriesClean;
    if d.session {
    } else if !s.candidate || !Usable(d.trace.journal) {
      LegacyEffect(d, s.legacy);
    } else if s.begun {
      var begun := Begun(d);
      CandidateEffect(begun, s);
      var (attempted, outcome) := Candidate(begun, s);
      if outcome == Retired { LegacyEffect(attempted.(trace := attempted.trace.(journal := RolledBack)), s.legacy); }
    }
  }

  lemma DisconnectingInv(d: Daemon, routing: Call, backend: Call)
    requires Inv(d) && Running(d)
    ensures var r := Disconnecting(d, routing, backend);
      && Inv(r) && Owned(r) && Running(r) && r.trace.tries == d.trace.tries && r.trace.journal == d.trace.journal
  {
  }

  /** The session is found dead, and what it leaves is cleaned up. */
  predicate CleansUp(d: Daemon, h: HealthScript) {
    d.state == Connected && !h.alive && h.backend.ok && (d.routingOwned ==> h.routing.ok)
  }

  /** A connect is accepted, and there is no session: there was none, or it was found dead and cleaned up. */
  predicate Starts(d: Daemon, e: Event) {
    match e
    case ConnectCommand(health, known, _) => known && (d.state == Disconnected || CleansUp(d, health))
    case AutoConnectTimer(recovery, profile, _) => d.state == Disconnected && !recovery && profile
    case _ => false
  }

  /** A connect is accepted. */
  predicate Connects(d: Daemon, e: Event) {
    Starts(d, e) || (e.ConnectCommand? && e.known && d.state == Connected && e.health.alive)
  }

  /** The state it starts from. */
  function From(d: Daemon, e: Event): Daemon {
    if e.ConnectCommand? then Health(d, e.health) else d
  }

  lemma ConnectsFrom(d: Daemon, e: Event)
    requires Consistent(d)
    ensures e.ConnectCommand? ==>
              var state := Health(d, e.health).state;
              Connects(d, e) <==> e.known && (state == Connected || state == Disconnected)
    ensures Starts(d, e) <==> Connects(d, e) && !From(d, e).session
    ensures Starts(d, e) ==> From(d, e).state == Disconnected && From(d, e).trace.journal == d.trace.journal
    ensures Starts(d, e) ==> InterfaceFound(From(d, e)) == InterfaceFound(d)
    ensures Starts(d, e) ==> From(d, e).routingOwned == (d.state == Disconnected && d.routingOwned)
    ensures Connects(d, e) && !Starts(d, e) ==> From(d, e) == d
  {
  }

  lemma HandledInv(d: Daemon, e: Event)
    requires Inv(d) && Running(d)
    ensures var r := Handled(d, e);
      && Inv(r) && Running(r) && (Owned(d) ==> Owned(r))
      && (TriesClean(r.trace.tries)
          <==> TriesClean(d.trace.tries) && !(Connects(d, e) && Reckless(From(d, e), e.script)))
  {
    hide Managed, Adopted, TriesClean, Health, Reckless, Disconnecting;
    ConnectsFrom(d, e);
    match e
    case ConnectCommand(health, known, script) =>
      HealthInv(d, health);
      if Connects(d, e) { ConnectInv(From(d, e), script); }
    case AutoConnectTimer(recovery, profile, script) =>
      if Connects(d, e) { ConnectInv(d, script); }
    case DisconnectCommand(health, routing, backend) =>
      HealthInv(d, health);
      DisconnectingInv(Health(d, health), routing, backend);
    case OtherMutation(health, _) => HealthInv(d, health);
    case ReadOnlyCommand(health) => HealthInv(d, health);
    case RefreshTimer(health, refresh) => HealthInv(d, health);
    case MigrationTimer(_, _) =>
    case UpdateTimer(_) =>
  }

  lemma ConnectInv(d: Daemon, s: ConnectScript)
    requires Inv(d) && (d.state == Disconnected || d.state == Connected)
    ensures var r := Adopted(Managed(d, s));
      && Inv(r) && Running(r) && (Owned(d) ==> Owned(r))
      && (TriesClean(r.trace.tries) <==> TriesClean(d.trace.tries) && !Reckless(d, s))
  {
    hide Managed, Adopted, Reckless;
    if TriesClean(d.trace.tries) {
      ManagedInv(d, s);
    } else {
      ManagedConsistent(d, s);
      var i :| 0 <= i < |d.trace.tries| && !Clean(d.trace.tries[i]);
      assert Adopted(Managed(d, s)).trace.tries[i] == d.trace.tries[i];
    }
  }

  // ------------------------------------------------------------------------ stopping

  predicate RecklessEvent(d: Daemon, e: Event) {
    Connects(d, e) && Reckless(From(d, e), e.script)
  }

  predicate CarefulInside(d: Daemon, nested: Events)
    decreases nested
  {
    match nested
    case Nothing => true
    case Then(head, tail) => !RecklessEvent(d, head) && CarefulInside(Handled(d, head), tail)
  }

  lemma HandledAs(d: Daemon, e: Event)
    requires Inv(d) && Running(d)
    ensures var r := Handled(d, e);
      && Inv(r) && Running(r) && (Owned(d) ==> Owned(r))
      && (TriesClean(r.trace.tries) <==> TriesClean(d.trace.tries) && !RecklessEvent(d, e))
  {
    HandledInv(d, e);
  }

  lemma {:induction false} InsideInv(w: System, nested: Events)
    requires Inv(w.daemon) && Running(w.daemon)
    ensures var r := Inside(w, nested).daemon;
      && Inv(r) && Running(r) && (Owned(w.daemon) ==> Owned(r))
      && (TriesClean(r.trace.tries) <==> TriesClean(w.daemon.trace.tries) && CarefulInside(w.daemon, nested))
    decreases nested
  {
    hide Handled, TriesClean, RecklessEvent;
    match nested
    case Nothing =>
    case Then(head, tail) =>
      HandledAs(w.daemon, head);
      InsideInv(Step(w, false, head), tail);
  }

  /** Stopping got past the routes and now waits for the backend. */
  predicate WaitsForBackend(w: System, routing: Call) {
    (w.daemon.routingOwned ==> routing.ok) && Waits(Unrouting(w, routing).daemon)
  }

  predicate CarefulStop(w: System, routing: Call, backend: Call) {
    && (w.daemon.routingOwned ==> CarefulInside(w.daemon, routing.nested))
    && (WaitsForBackend(w, routing) ==> CarefulInside(Unrouting(w, routing).daemon, backend.nested))
  }

  lemma UnroutingInv(w: System, routing: Call)
    requires Inv(w.daemon) && Running(w.daemon)
    ensures var d, r := w.daemon, Unrouting(w, routing).daemon;
      && Inv(r) && Running(r)
      && (TriesClean(r.trace.tries)
          <==> TriesClean(d.trace.tries) && (d.routingOwned ==> CarefulInside(d, routing.nested)))
      && ((d.routingOwned ==> routing.ok) ==> !r.routingOwned)
  {
    hide Inside, TriesClean, CarefulInside;
    if w.daemon.routingOwned { InsideInv(w, routing.nested); }
  }

  lemma LoweringInv(w: System, backend: Call)
    requires Inv(w.daemon) && Running(w.daemon)
    ensures var d, r := w.daemon, Lowering(w, backend).daemon;
      && (TriesClean(r.trace.tries)
          <==> TriesClean(d.trace.tries) && (Waits(d) ==> CarefulInside(d, backend.nested)))
      && Inv(r.(state := CleanupFailed))
      && (!(Waits(d) && !backend.ok) ==> !r.session && Inv(r.(backendOwned := false, state := Disconnected)))
  {
    hide Inside, TriesClean, CarefulInside;
    if Waits(w.daemon) { InsideInv(w, backend.nested); }
  }

  // ------------------------------------------------- which events leave routes owned

  /** The imported profile connects, and its routing is in order, or degraded without asking for recovery. */
  predicate LegacyWorks(s: LegacyScript) {
    s.connect.ok && (s.routing.ok || (s.routing.degraded && !s.routing.recovery))
  }

  /** A connection from here ends with routes owned: it works, or it gets stuck over routes it has put up. */
  predicate ConnectRoutes(d: Daemon, s: ConnectScript) {
    if OffersCandidate(d, s) then s.begun && CandidateRoutes(d, s) else LegacyWorks(s.legacy)
  }

  predicate CandidateRoutes(d: Daemon, s: ConnectScript) {
    var routed := s.candidateRouting.ok || s.candidateRouting.degraded;
    if !s.candidateConnect.ok then Absent(d, s.candidateConnect) && s.abandoned && LegacyWorks(s.legacy)
    else if s.candidateRouting.ok && s.verify.ok && s.committed then true
    else if s.candidateRouting.recovery then routed
    else if routed && !s.routesCleanup.ok then true
    else s.interfaceCleanup.ok && s.abandoned && LegacyWorks(s.legacy)
  }

  /** A connect is accepted, there is no session, and it is routed. */
  predicate BringsRoutes(d: Daemon, e: Event) {
    Starts(d, e) && ConnectRoutes(d, e.script)
  }

  predicate Watches(e: Event) {
    e.ConnectCommand? || e.DisconnectCommand? || e.OtherMutation? || e.ReadOnlyCommand? || e.RefreshTimer?
  }

  /** A health check finds the session dead and cleans up, or a disconnect removes the routes. */
  predicate RemovesRoutes(d: Daemon, e: Event) {
    || (Watches(e) && d.state == Connected && !e.health.alive && e.health.backend.ok && e.health.routing.ok)
    || (e.DisconnectCommand? && e.routing.ok)
  }

  /** No event takes the routes away without bringing routes itself. */
  predicate RoutesStay(d: Daemon, nested: Events)
    decreases nested
  {
    match nested
    case Nothing => true
    case Then(head, tail) => (RemovesRoutes(d, head) ==> BringsRoutes(d, head)) && RoutesStay(Handled(d, head), tail)
  }

  /** Some event brings routes, and no later one takes them away again. */
  predicate LeavesRoutes(d: Daemon, nested: Events)
    decreases nested
  {
    match nested
    case Nothing => false
    case Then(head, tail) =>
      (BringsRoutes(d, head) && RoutesStay(Handled(d, head), tail)) || LeavesRoutes(Handled(d, head), tail)
  }

  /** Disconnected means that no routes are owned. */
  predicate Routeless(d: Daemon) { d.state == Disconnected ==> !d.routingOwned }

  lemma CandidateRouted(d: Daemon, s: ConnectScript)
    requires d.state == Disconnected && !d.session && !d.routingOwned && Usable(d.trace.journal)
    requires s.candidate && s.begun
    ensures var r := Adopted(Managed(d, s)); (r.routingOwned <==> CandidateRoutes(d, s)) && Routeless(r)
  {
    var (attempted, outcome) := Candidate(Begun(d), s);
    if outcome == Retired {
      CandidateRetiresIff(d, s);
      hide Candidate;
      LegacyRoutedIff(attempted.(trace := attempted.trace.(journal := RolledBack)), s.legacy);
    }
  }

  lemma CandidateRetiresIff(d: Daemon, s: ConnectScript)
    requires d.state == Disconnected && !d.session && !d.routingOwned && Candidate(Begun(d), s).1 == Retired
    ensures var r := Candidate(Begun(d), s).0; !r.routingOwned && !r.session && r.state == Disconnected
    ensures CandidateRoutes(d, s) <==> s.abandoned && LegacyWorks(s.legacy)
  {
  }

  lemma LegacyRoutedIff(d: Daemon, s: LegacyScript)
    requires !d.routingOwned && !d.session
    ensures var (r, ok) := Legacy(d, s); ok == LegacyWorks(s) && r.routingOwned == ok
  {
  }

  lemma ManagedRoutes(d: Daemon, s: ConnectScript)
    requires Consistent(d) && Routeless(d) && (d.state == Disconnected || d.state == Connected)
    ensures var r := Adopted(Managed(d, s));
      (r.routingOwned <==> (!d.session && ConnectRoutes(d, s)) || d.routingOwned) && Routeless(r)
  {
    hide Candidate, Legacy, CandidateRoutes, LegacyWorks;
    if d.session {
    } else if !s.candidate || !Usable(d.trace.journal) {
      LegacyRoutedIff(d, s.legacy);
    } else if s.begun {
      hide Managed;
      CandidateRouted(d, s);
    }
  }

  lemma HealthRoutes(d: Daemon, e: Event)
    requires Consistent(d) && Routeless(d) && Watches(e)
    ensures var r := Health(d, e.health);
      && Consistent(r) && Routeless(r) && (Running(d) ==> Running(r))
      && (!e.DisconnectCommand? ==> (r.routingOwned <==> d.routingOwned && !RemovesRoutes(d, e)))
      && (e.DisconnectCommand? ==> (Disconnecting(r, e.routing, e.backend).routingOwned
                                    <==> d.routingOwned && !RemovesRoutes(d, e)))
      && (e.DisconnectCommand? ==> Routeless(Disconnecting(r, e.routing, e.backend)))
  {
  }

  lemma RoutesAlike(d: Daemon, e: Event)
    requires Consistent(d) && Starts(d, e)
    ensures ConnectRoutes(From(d, e), e.script) == ConnectRoutes(d, e.script)
  {
    hide InterfaceFound, From, Starts;
    ConnectsFrom(d, e);
  }

  /** One event: routes are owned afterwards exactly if it brings some, or some were owned and it leaves them. */
  lemma HandledRoutes(d: Daemon, e: Event)
    requires Inv(d) && Running(d) && Routeless(d)
    ensures Handled(d, e).routingOwned <==> BringsRoutes(d, e) || (d.routingOwned && !RemovesRoutes(d, e))
    ensures Routeless(Handled(d, e))
  {
    hide Managed, Adopted, Health, Disconnecting, ConnectRoutes, TriesClean;
    ConnectsFrom(d, e);
    if Starts(d, e) { RoutesAlike(d, e); }
    match e
    case ConnectCommand(health, known, script) =>
      HealthRoutes(d, e);
      if Connects(d, e) { ManagedRoutes(From(d, e), script); }
    case AutoConnectTimer(recovery, profile, script) => if Connects(d, e) { ManagedRoutes(d, script); }
    case DisconnectCommand(health, routing, backend) => HealthRoutes(d, e);
    case OtherMutation(health, _) => HealthRoutes(d, e);
    case ReadOnlyCommand(health) => HealthRoutes(d, e);
    case RefreshTimer(health, refresh) => HealthRoutes(d, e);
    case MigrationTimer(_, _) =>
    case UpdateTimer(_) =>
  }

  /** Any events: routes are owned at the end exactly if the last word on them left some. */
  lemma {:induction false} InsideRoutes(w: System, nested: Events)
    requires Inv(w.daemon) && Running(w.daemon) && Routeless(w.daemon)
    ensures Inside(w, nested).daemon.routingOwned
       <==> (w.daemon.routingOwned && RoutesStay(w.daemon, nested)) || LeavesRoutes(w.daemon, nested)
    decreases nested
  {
    hide Handled, BringsRoutes, RemovesRoutes, Inv;
    match nested
    case Nothing =>
    case Then(head, tail) =>
      HandledAs(w.daemon, head);
      HandledRoutes(w.daemon, head);
      InsideRoutes(Step(w, false, head), tail);
  }

  /** The stop gets through, and what it handles while it waits for the backend leaves routes owned. */
  predicate LosesRoutes(w: System, routing: Call, backend: Call) {
    WaitsForBackend(w, routing) && backend.ok && LeavesRoutes(Unrouting(w, routing).daemon, backend.nested)
  }

  /**
   Stopping keeps the invariant whatever is handled during its two waits. It ends with ownership matching the
   state exactly if no connection is accepted and routed in the second wait, or a later event of that wait removes
   its routes again.
   */
  lemma StoppingInv(w: System, routing: Call, backend: Call)
    requires Inv(w.daemon) && Running(w.daemon)
    ensures var r := Stopping(w, routing, backend).daemon;
      && Inv(r) && Running(r)
      && (TriesClean(r.trace.tries) <==> TriesClean(w.daemon.trace.tries) && CarefulStop(w, routing, backend))
      && (Owned(r) <==> !LosesRoutes(w, routing, backend))
  {
    hide Inside, TriesClean, CarefulInside, LeavesRoutes;
    var unrouted := Unrouting(w, routing);
    UnroutingInv(w, routing);
    if w.daemon.routingOwned && !routing.ok {
    } else {
      LoweringInv(unrouted, backend);
      LoweringRoutes(unrouted, backend);
    }
  }

  lemma LoweringRoutes(w: System, backend: Call)
    requires Inv(w.daemon) && Running(w.daemon) && !w.daemon.routingOwned
    ensures Lowering(w, backend).daemon.routingOwned <==> Waits(w.daemon) && LeavesRoutes(w.daemon, backend.nested)
  {
    hide Inside, LeavesRoutes, RoutesStay;
    if Waits(w.daemon) { InsideRoutes(w, backend.nested); }
  }

  predicate NoConnect(nested: Events) {
    match nested
    case Nothing => true
    case Then(head, tail) => !head.ConnectCommand? && !head.AutoConnectTimer? && NoConnect(tail)
  }

  lemma {:induction false} NoConnectNoRoutes(d: Daemon, nested: Events)
    requires NoConnect(nested)
    ensures !LeavesRoutes(d, nested)
    decreases nested
  {
    hide Handled;
    match nested
    case Nothing =>
    case Then(head, tail) => NoConnectNoRoutes(Handled(d, head), tail);
  }

  /** A stop during which no connection is asked for loses no routes. */
  lemma StopWithoutConnect(w: System, routing: Call, backend: Call)
    requires Inv(w.daemon) && Running(w.daemon) && NoConnect(backend.nested)
    ensures Owned(Stopping(w, routing, backend).daemon)
  {
    hide Stopping, LeavesRoutes;
    StoppingInv(w, routing, backend);
    NoConnectNoRoutes(Unrouting(w, routing).daemon, backend.nested);
  }

  /** No wait of the stop delivers anything. */
  predicate QuietStop(w: System, routing: Call, backend: Call) {
    && (w.daemon.routingOwned ==> routing.nested.Nothing?)
    && (WaitsForBackend(w, routing) ==> backend.nested.Nothing?)
  }

  /** A quiet stop is a disconnect. */
  lemma QuietStopDisconnects(w: System, routing: Call, backend: Call)
    requires QuietStop(w, routing, backend)
    ensures Stopping(w, routing, backend) == Within(w, Disconnecting(w.daemon, routing, backend))
  {
  }

  function Count(nested: Events): nat {
    match nested
    case Nothing => 0
    case Then(_, tail) => 1 + Count(tail)
  }

  /** Inside an operation every event handled is an operation inside another, on its own it is none. */
  lemma {:induction false} InsideOverlaps(w: System, nested: Events)
    ensures var r := Inside(w, nested);
      r.depth == w.depth && r.overlaps == w.overlaps + (if w.depth > 0 then Count(nested) else 0)
    decreases nested
  {
    hide Handled;
    match nested
    case Nothing =>
    case Then(head, tail) => InsideOverlaps(Step(w, false, head), tail);
  }

  lemma StopOverlaps(w: System, routing: Call, backend: Call)
    requires w.depth > 0
    ensures var r := Stopping(w, routing, backend);
      r.depth == w.depth && r.overlaps >= w.overlaps && (r.overlaps == w.overlaps <==> QuietStop(w, routing, backend))
  {
    hide Inside;
    InsideOverlaps(w, routing.nested);
    InsideOverlaps(Unrouting(w, routing), backend.nested);
  }

  // ---------------------------------------------------------------------- restarting

  /**
   However a process ended, the next one starts with nothing owned, no attempt open and no interface up, or does
   not start; it starts over routes only in an offline window.
   */
  lemma RestartedInv(d: Daemon, o: Occurrence)
    requires o.Restart?
    ensures var r := Restarted(d, o);
      && Inv(r) && Owned(r) && r.trace.tries == d.trace.tries && r.trace.stranded == d.trace.stranded
      && (Running(r) ==> !InterfaceUp(r.trace.remains) && r.trace.journal != Trying)
      && (Running(r) && RoutesUp(r.trace.remains) ==> o.offline && !o.routesGone)
  {
  }

  // --------------------------------------------------------------------- whole runs

  predicate Careful(w: System, o: Occurrence) {
    match o
    case Restart(_, _, _, _, _) => true
    case Delivered(event) => Running(w.daemon) ==> !RecklessEvent(w.daemon, event)
    case Stop(routing, backend) => Running(w.daemon) ==> CarefulStop(Enter(w), routing, backend)
  }

  predicate CarefulRun(w: System, run: seq<Occurrence>)
    decreases |run|
  {
    run == [] || (Careful(w, run[0]) && CarefulRun(Next(w, run[0]), run[1..]))
  }

  /** A stop that is performed loses routes. */
  predicate Loses(w: System, o: Occurrence) {
    o.Stop? && Running(w.daemon) && LosesRoutes(Enter(w), o.routing, o.backend)
  }

  lemma NextInv(w: System, o: Occurrence)
    requires Inv(w.daemon)
    ensures var d, r := w.daemon, Next(w, o).daemon;
      && Inv(r) && (TriesClean(r.trace.tries) <==> TriesClean(d.trace.tries) && Careful(w, o))
      && (Owned(d) ==> (Owned(r) <==> !Loses(w, o)))
  {
    hide Handled, Stopping, Restarted, TriesClean, RecklessEvent, CarefulStop, LosesRoutes;
    match o
    case Restart(_, _, _, _, _) => RestartedInv(w.daemon, o);
    case Delivered(event) => if Running(w.daemon) { HandledAs(w.daemon, event); }
    case Stop(routing, backend) => if Running(w.daemon) { StoppingInv(Enter(w), routing, backend); }
  }

  lemma {:induction false} RunInv(w: System, run: seq<Occurrence>)
    requires Inv(w.daemon)
    ensures var r := Run(w, run).daemon;
      && Inv(r) && (TriesClean(r.trace.tries) <==> TriesClean(w.daemon.trace.tries) && CarefulRun(w, run))
    decreases |run|
  {
    hide Next, TriesClean, Careful;
    if run != [] {
      NextInv(w, run[0]);
      RunInv(Next(w, run[0]), run[1..]);
    }
  }

  /**
   Over every run, with stops, crashes and restarts: the legacy profile is only ever tried with nothing of a
   candidate up and no attempt open if, and only if, no connection is accepted while an attempt is still open, or
   while routes of a candidate are up that its own candidate does not get rid of.
   */
  lemma LegacyTriesCleanIff(run: seq<Occurrence>)
    ensures TriesClean(Run(IDLE, run).daemon.trace.tries) <==> CarefulRun(IDLE, run)
  {
    hide Run, CarefulRun;
    RunInv(IDLE, run);
  }

  /** Disconnected, with the attempt neither committed nor rolled back. */
  predicate Forgotten(d: Daemon) { d.state == Disconnected && d.trace.journal == Trying }

  /**
   With clean attempts so far, an event forgets an open attempt exactly if it is a disconnect accepted over one
   whose cleanups, if it has any to make, succeed.
   */
  lemma ForgottenIff(d: Daemon, e: Event)
    requires Inv(d) && Running(d) && TriesClean(d.trace.tries) && !Forgotten(d)
    ensures Forgotten(Handled(d, e))
      <==> && e.DisconnectCommand? && d.trace.journal == Trying
           && (d.routingOwned ==> e.routing.ok) && (d.session ==> e.backend.ok)
  {
    hide Managed, Adopted, TriesClean, Disconnecting;
    match e
    case ConnectCommand(health, known, script) =>
      HealthInv(d, health);
      if Connects(d, e) { ConnectForgets(From(d, e), script); }
    case AutoConnectTimer(recovery, profile, script) => if Connects(d, e) { ConnectForgets(d, script); }
    case DisconnectCommand(health, routing, backend) =>
      HealthInv(d, health);
      DisconnectForgets(Health(d, health), routing, backend);
    case _ =>
  }

  lemma ConnectForgets(d: Daemon, s: ConnectScript)
    requires Inv(d) && TriesClean(d.trace.tries) && !Forgotten(d) && (d.state == Disconnected || d.state == Connected)
    ensures !Forgotten(Adopted(Managed(d, s)))
  {
    hide Candidate, Legacy, TriesClean;
    if d.session {
    } else if !s.candidate || !Usable(d.trace.journal) {
      LegacyEffect(d, s.legacy);
    } else if s.begun {
      CandidateEffect(Begun(d), s);
    }
  }

  lemma DisconnectForgets(d: Daemon, routing: Call, backend: Call)
    requires Consistent(d)
    ensures Forgotten(Disconnecting(d, routing, backend))
      <==> d.trace.journal == Trying && (d.routingOwned ==> routing.ok) && (d.session ==> backend.ok)
  {
  }

  /** Whatever connects next from there makes an unclean legacy attempt: the journal offers no candidate. */
  lemma ForgottenIsReckless(d: Daemon, e: Event)
    requires Inv(d) && Forgotten(d) && Connects(d, e)
    ensures !TriesClean(Handled(d, e).trace.tries)
  {
    HandledAs(d, e);
  }

  /** As long as ownership matches the state and routes are held, an open attempt is all there is to fear. */
  lemma RecklessIffForgotten(d: Daemon, s: ConnectScript)
    requires Inv(d) && Owned(d) && RoutesHeld(d) && d.state == Disconnected && TriesClean(d.trace.tries)
    ensures Reckless(d, s) <==> Forgotten(d)
  {
  }

  predicate KeepsRoutes(w: System, run: seq<Occurrence>)
    decreases |run|
  {
    run == [] || (!Loses(w, run[0]) && KeepsRoutes(Next(w, run[0]), run[1..]))
  }

  predicate AlwaysOwned(w: System, run: seq<Occurrence>)
    decreases |run|
  {
    Owned(w.daemon) && (run == [] || AlwaysOwned(Next(w, run[0]), run[1..]))
  }

  lemma {:induction false} OwnedIff(w: System, run: seq<Occurrence>)
    requires Inv(w.daemon) && Owned(w.daemon)
    ensures AlwaysOwned(w, run) <==> KeepsRoutes(w, run)
    decreases |run|
  {
    hide Next, Loses, Owned;
    if run != [] {
      NextInv(w, run[0]);
      if Owned(Next(w, run[0]).daemon) { OwnedIff(Next(w, run[0]), run[1..]); }
    }
  }

  /**
   Over every run, after each occurrence: connected means both owners are held, disconnected means neither, if
   and only if there is no stop that gets through with a connection accepted and routed while it waits for the
   backend, and nothing in that wait removes its routes again.
   */
  lemma OwnershipMatchesState(run: seq<Occurrence>)
    ensures AlwaysOwned(IDLE, run) <==> KeepsRoutes(IDLE, run)
  {
    OwnedIff(IDLE, run);
  }

  lemma {:induction false} AlwaysOwnedLast(w: System, run: seq<Occurrence>)
    requires AlwaysOwned(w, run)
    ensures Owned(Run(w, run).daemon)
    decreases |run|
  {
    hide Next, Owned;
    if run != [] { AlwaysOwnedLast(Next(w, run[0]), run[1..]); }
  }

  predicate Quiet(w: System, o: Occurrence) {
    o.Stop? && Running(w.daemon) ==> QuietStop(Enter(w), o.routing, o.backend)
  }

  predicate QuietRun(w: System, run: seq<Occurrence>)
    decreases |run|
  {
    run == [] || (Quiet(w, run[0]) && QuietRun(Next(w, run[0]), run[1..]))
  }

  lemma NextOverlaps(w: System, o: Occurrence)
    requires w.depth == 0
    ensures var r := Next(w, o);
      r.depth == 0 && r.overlaps >= w.overlaps && (r.overlaps == w.overlaps <==> Quiet(w, o))
  {
    hide Handled, Stopping, Restarted, QuietStop;
    if o.Stop? { StopOverlaps(Enter(w), o.routing, o.backend); }
  }

  lemma {:induction false} RunOverlaps(w: System, run: seq<Occurrence>)
    requires w.depth == 0
    ensures Run(w, run).overlaps >= w.overlaps
    ensures Run(w, run).overlaps == w.overlaps <==> QuietRun(w, run)
    decreases |run|
  {
    hide Next, Quiet;
    if run != [] {
      NextOverlaps(w, run[0]);
      RunOverlaps(Next(w, run[0]), run[1..]);
    }
  }

  /** Over every run: no operation is performed inside another exactly if nothing arrives while a stop waits. */
  lemma NonReentrantIff(run: seq<Occurrence>)
    ensures Run(IDLE, run).overlaps == 0 <==> QuietRun(IDLE, run)
  {
    RunOverlaps(IDLE, run);
  }

  // ------------------------------------------------------------------ undisturbed runs

  /** The process starts again over routes of a candidate. */
  predicate Carries(d: Daemon, o: Occurrence)
    requires o.Restart?
  {
    Running(Restarted(d, o)) && Restarted(d, o).trace.remains.candidateRoutes
  }

  /** No stop is disturbed, and no restart carries routes of a candidate over. */
  predicate Undisturbed(w: System, o: Occurrence) {
    Quiet(w, o) && (o.Restart? ==> !Carries(w.daemon, o))
  }

  predicate UndisturbedRun(w: System, run: seq<Occurrence>)
    decreases |run|
  {
    run == [] || (Undisturbed(w, run[0]) && UndisturbedRun(Next(w, run[0]), run[1..]))
  }

  /** What undisturbed runs keep in addition. */
  predicate Orderly(d: Daemon) { Inv(d) && Owned(d) && RoutesHeld(d) && TriesClean(d.trace.tries) }

  lemma ManagedHeld(d: Daemon, s: ConnectScript)
    requires Inv(d) && RoutesHeld(d) && TriesClean(d.trace.tries) && !Reckless(d, s)
    requires d.state == Disconnected || d.state == Connected
    ensures RoutesHeld(Adopted(Managed(d, s)))
  {
    hide Legacy, TriesClean, Candidate, Unrouted;
    if d.session {
    } else if !s.candidate || !Usable(d.trace.journal) {
      LegacyEffect(d, s.legacy);
    } else if s.begun {
      var begun := Begun(d);
      CandidateEffect(begun, s);
      CandidateRetires(begun, s);
      UnroutedAlike(d, s);
      var (attempted, outcome) := Candidate(begun, s);
      if outcome == Retired { LegacyEffect(attempted.(trace := attempted.trace.(journal := RolledBack)), s.legacy); }
    }
  }

  lemma HandledHeld(d: Daemon, e: Event)
    requires Inv(d) && Running(d) && RoutesHeld(d) && TriesClean(d.trace.tries) && !RecklessEvent(d, e)
    ensures RoutesHeld(Handled(d, e))
  {
    hide Managed, Adopted, Reckless, TriesClean, Health, Disconnecting;
    if Watches(e) {
      HealthInv(d, e.health);
      HealthHeld(d, e.health);
    }
    ConnectsFrom(d, e);
    match e
    case ConnectCommand(health, known, script) => if Connects(d, e) { ManagedHeld(From(d, e), script); }
    case AutoConnectTimer(recovery, profile, script) => if Connects(d, e) { ManagedHeld(d, script); }
    case DisconnectCommand(health, routing, backend) => DisconnectingHeld(Health(d, health), routing, backend);
    case _ =>
  }

  lemma HealthHeld(d: Daemon, h: HealthScript)
    requires Consistent(d) && RoutesHeld(d)
    ensures RoutesHeld(Health(d, h))
  {
  }

  /** A connection is accepted while the daemon is disconnected and an attempt is still open. */
  predicate OverOpenAttempt(w: System, o: Occurrence) {
    o.Delivered? && Forgotten(w.daemon) && Connects(w.daemon, o.event)
  }

  lemma EventOrderly(d: Daemon, e: Event)
    requires Orderly(d) && Running(d)
    ensures RecklessEvent(d, e) <==> Forgotten(d) && Connects(d, e)
  {
    hide Reckless, TriesClean;
    if Connects(d, e) {
      var from := From(d, e);
      if e.ConnectCommand? { HealthInv(d, e.health); }
      if from.state == Disconnected {
        RecklessIffForgotten(from, e.script);
      } else {
        ConnectedIsCareful(from, e.script);
      }
    }
  }

  lemma ConnectedIsCareful(d: Daemon, s: ConnectScript)
    requires d.session
    ensures !Reckless(d, s)
  {
  }

  lemma OrderlyNext(w: System, o: Occurrence)
    requires Orderly(w.daemon) && Undisturbed(w, o)
    ensures var r := Next(w, o).daemon;
      && Inv(r) && (TriesClean(r.trace.tries) <==> !OverOpenAttempt(w, o))
      && (!OverOpenAttempt(w, o) ==> Orderly(r))
  {
    hide Handled, Stopping, Disconnecting, Restarted, TriesClean, RecklessEvent, Connects;
    match o
    case Restart(_, _, _, _, _) => RestartedInv(w.daemon, o);
    case Delivered(event) =>
      if Running(w.daemon) {
        HandledAs(w.daemon, event);
        EventOrderly(w.daemon, event);
        if !RecklessEvent(w.daemon, event) { HandledHeld(w.daemon, event); }
      }
    case Stop(routing, backend) =>
      if Running(w.daemon) {
        QuietStopDisconnects(Enter(w), routing, backend);
        DisconnectingInv(w.daemon, routing, backend);
        DisconnectingHeld(w.daemon, routing, backend);
      }
  }

  lemma DisconnectingHeld(d: Daemon, routing: Call, backend: Call)
    requires RoutesHeld(d) && Running(d)
    ensures RoutesHeld(Disconnecting(d, routing, backend))
  {
  }

  predicate NeverOverOpenAttempt(w: System, run: seq<Occurrence>)
    decreases |run|
  {
    run == [] || (!OverOpenAttempt(w, run[0]) && NeverOverOpenAttempt(Next(w, run[0]), run[1..]))
  }

  lemma {:induction false} OpenAttemptRun(w: System, run: seq<Occurrence>)
    requires Orderly(w.daemon) && UndisturbedRun(w, run)
    ensures TriesClean(Run(w, run).daemon.trace.tries) <==> NeverOverOpenAttempt(w, run)
    decreases |run|
  {
    hide Next, TriesClean, Undisturbed, OverOpenAttempt, Inv, Owned, RoutesHeld;
    if run != [] {
      OrderlyNext(w, run[0]);
      var next := Next(w, run[0]);
      if OverOpenAttempt(w, run[0]) {
        RunInv(next, run[1..]);
      } else {
        OpenAttemptRun(next, run[1..]);
      }
    }
  }

  /**
   Over every undisturbed run: the legacy profile is only ever tried with nothing of a candidate up and no attempt
   open if, and only if, no connection is accepted while disconnected with an attempt still open.
   */
  lemma OpenAttemptIff(run: seq<Occurrence>)
    requires UndisturbedRun(IDLE, run)
    ensures TriesClean(Run(IDLE, run).daemon.trace.tries) <==> NeverOverOpenAttempt(IDLE, run)
  {
    OpenAttemptRun(IDLE, run);
  }

  predicate NeverForgotten(w: System, run: seq<Occurrence>)
    decreases |run|
  {
    !Forgotten(w.daemon) && (run == [] || NeverForgotten(Next(w, run[0]), run[1..]))
  }

  lemma {:induction false} NeverForgottenNeverOver(w: System, run: seq<Occurrence>)
    requires NeverForgotten(w, run)
    ensures NeverOverOpenAttempt(w, run)
    decreases |run|
  {
    hide Next, Connects, Forgotten;
    if run != [] { NeverForgottenNeverOver(Next(w, run[0]), run[1..]); }
  }

  /** If no disconnect of an undisturbed run forgets an open attempt, every legacy attempt is clean. */
  lemma ClosedAttemptsClean(run: seq<Occurrence>)
    requires UndisturbedRun(IDLE, run) && NeverForgotten(IDLE, run)
    ensures TriesClean(Run(IDLE, run).daemon.trace.tries)
  {
    hide Run, UndisturbedRun, NeverForgotten, NeverOverOpenAttempt;
    NeverForgottenNeverOver(IDLE, run);
    OpenAttemptIff(run);
  }

  // ------------------------------------------------------------ where it goes wrong

  const FINE := Call(true, false, false, false, false, Nothing)
  const FAILS := Call(false, false, false, false, false, Nothing)
  const ALIVE := HealthScript(true, FINE, FINE)
  const DEAD := HealthScript(false, FINE, FINE)
  const LEGACY_WORKS := LegacyScript(FINE, FINE, FINE)

  /** A connection of the imported profile that works, with no candidate on offer. */
  const PLAIN := ConnectScript(false, false, FINE, FINE, FINE, false, FINE, FINE, false, LEGACY_WORKS)

  /** A candidate that fails and leaves an interface behind. */
  const LEAVES_INTERFACE := PLAIN.(candidate := true, begun := true, candidateConnect := FAILS.(residue := true))

  /** A candidate that comes up but whose routing fails and asks for recovery. */
  const LEAVES_ROUTES := PLAIN.(candidate := true, begun := true, candidateRouting := FAILS.(recovery := true))

  function Connecting(script: ConnectScript): Event { ConnectCommand(ALIVE, true, script) }

  const CONNECT := Connecting(PLAIN)
  const RECONNECT := ConnectCommand(DEAD, true, PLAIN)
  const DISCONNECT := DisconnectCommand(ALIVE, FINE, FINE)

  /** Connected once, enrolled, and disconnected again: a candidate is staged. */
  const ENROLMENT := [Delivered(CONNECT), Delivered(MigrationTimer(FINE, true)), Delivered(DISCONNECT)]

  const ENROLLED := System(STARTED.(trace := STARTED.trace.(
    tries := [LegacyTry(NO_REMAINS, NoAttempt)], journal := Staged)), 0, 0)

  lemma EnrolledReached()
    ensures Run(IDLE, ENROLMENT) == ENROLLED
  {
    var one, two, three := Delivered(CONNECT), Delivered(MigrationTimer(FINE, true)), Delivered(DISCONNECT);
    ThreeSteps(IDLE, one, two, three);
    FirstConnection(Next(IDLE, one));
    assert Next(Next(Next(IDLE, one), two), three) == ENROLLED;
  }

  lemma FirstConnection(w: System)
    requires w == Next(IDLE, Delivered(CONNECT))
    ensures var trace := STARTED.trace.(
        remains := Remains(false, false, true, true), tries := [LegacyTry(NO_REMAINS, NoAttempt)]);
      w == System(Daemon(Connected, true, true, true, trace), 0, 0)
  {
  }

  lemma ThreeSteps(w: System, one: Occurrence, two: Occurrence, three: Occurrence)
    ensures Run(w, [one, two, three]) == Next(Next(Next(w, one), two), three)
  {
    hide Next;
    var run := [one, two, three];
    assert run[1..] == [two, three] && [two, three][1..] == [three] && [three][1..] == [];
    assert Run(w, run) == Run(Next(w, one), [two, three]);
    assert Run(Next(w, one), [two, three]) == Run(Next(Next(w, one), two), [three]);
    assert Run(Next(Next(w, one), two), [three]) == Next(Next(Next(w, one), two), three);
  }

  lemma {:induction false} RunConcat(w: System, first: seq<Occurrence>, second: seq<Occurrence>)
    ensures Run(w, first + second) == Run(Run(w, first), second)
    decreases |first|
  {
    hide Next;
    if first == [] {
      assert first + second == second;
    } else {
      assert (first + second)[1..] == first[1..] + second;
      RunConcat(Next(w, first[0]), first[1..], second);
    }
  }

  /** The last legacy attempt of a run that ends connected. */
  predicate EndsWith(w: System, t: LegacyTry) {
    w.daemon.state == Connected && |w.daemon.trace.tries| == 2 && w.daemon.trace.tries[1] == t
  }

  /**
   The failing runs: a candidate needs recovery, a disconnect is accepted, and the next connection tries the
   legacy profile beside the candidate's interface, or its routes, with the attempt still open.
   */
  lemma LegacyBesideCandidate()
    ensures EndsWith(
      Run(IDLE, ENROLMENT + [Delivered(Connecting(LEAVES_INTERFACE)), Delivered(DISCONNECT), Delivered(CONNECT)]),
      LegacyTry(Remains(false, true, false, false), Trying))
    ensures EndsWith(
      Run(IDLE, ENROLMENT + [Delivered(Connecting(LEAVES_ROUTES)), Delivered(DISCONNECT), Delivered(CONNECT)]),
      LegacyTry(Remains(true, false, false, false), Trying))
  {
    Beside(LEAVES_INTERFACE, Delivered(DISCONNECT));
    Beside(LEAVES_ROUTES, Delivered(DISCONNECT));
  }

  const INTO_OFFLINE_WINDOW := Restart(BetweenOperations, true, false, false, true)

  /**
   A restart is a further way there: the interface of a candidate that needs recovery dies with the process, its
   routes do not, and the next process, which takes the attempt for rolled back, starts in the offline window.
   */
  lemma RestartBesideCandidate()
    ensures EndsWith(
      Run(IDLE, ENROLMENT + [Delivered(Connecting(LEAVES_ROUTES)), INTO_OFFLINE_WINDOW, Delivered(CONNECT)]),
      LegacyTry(Remains(true, false, false, false), RolledBack))
  {
    Beside(LEAVES_ROUTES, INTO_OFFLINE_WINDOW);
  }

  /** An interface of which there is no session, or routes nobody owns. */
  function LeftBy(script: ConnectScript): Remains {
    if script == LEAVES_INTERFACE then Remains(false, true, false, false) else Remains(true, false, false, false)
  }

  lemma Beside(script: ConnectScript, o: Occurrence)
    requires || (script == LEAVES_INTERFACE && o == Delivered(DISCONNECT))
             || (script == LEAVES_ROUTES && (o == Delivered(DISCONNECT) || o == INTO_OFFLINE_WINDOW))
    ensures EndsWith(
      Run(IDLE, ENROLMENT + [Delivered(Connecting(script)), o, Delivered(CONNECT)]),
      LegacyTry(LeftBy(script), if o.Restart? then RolledBack else Trying))
  {
    var one := Delivered(Connecting(script));
    EnrolledReached();
    RunConcat(IDLE, ENROLMENT, [one, o, Delivered(CONNECT)]);
    ThreeSteps(ENROLLED, one, o, Delivered(CONNECT));
    StuckCandidate(script);
    LeftBehind(script, Next(ENROLLED, one), o);
    hide Next;
    LegacyConnects(Next(Next(ENROLLED, one), o));
  }

  lemma LeftBehind(script: ConnectScript, w: System, o: Occurrence)
    requires || (script == LEAVES_INTERFACE && o == Delivered(DISCONNECT))
             || (script == LEAVES_ROUTES && (o == Delivered(DISCONNECT) || o == INTO_OFFLINE_WINDOW))
    requires w.daemon == StuckOver(script)
    ensures var d := Next(w, o).daemon;
      && d.state == Disconnected && !d.session && d.trace.tries == ENROLLED.daemon.trace.tries
      && d.trace.remains == LeftBy(script)
      && d.trace.journal == if o.Restart? then RolledBack else Trying
  {
  }

  lemma StuckCandidate(script: ConnectScript)
    requires script == LEAVES_INTERFACE || script == LEAVES_ROUTES
    ensures Next(ENROLLED, Delivered(Connecting(script))).daemon == StuckOver(script)
  {
  }

  /** A candidate that has left its interface up, and its routes, if it got that far. */
  function StuckOver(script: ConnectScript): Daemon {
    var routed := script == LEAVES_ROUTES;
    var trace := ENROLLED.daemon.trace.(
      journal := Trying, previous := Staged, remains := Remains(routed, true, false, false));
    Daemon(RecoveryRequired, routed, false, routed, trace)
  }

  lemma LegacyConnects(w: System)
    requires w.daemon.state == Disconnected && !w.daemon.session && !Usable(w.daemon.trace.journal)
    ensures var d, r := w.daemon, Next(w, Delivered(CONNECT)).daemon;
      r.state == Connected && r.trace.tries == d.trace.tries + [LegacyTry(d.trace.remains, d.trace.journal)]
  {
  }

  /**
   The failing stop, from every connected daemon: a connect command handled while the stop waits for the backend
   finds the session dead, cleans up and connects anew. The stop then ends disconnected with routes owned, having
   performed one operation inside another.
   */
  lemma StopLosesRoutes(w: System)
    requires Inv(w.daemon) && w.daemon.state == Connected && Owned(w.daemon) && w.depth == 0
    ensures var r := Next(w, Stop(FINE, FINE.(nested := Then(RECONNECT, Nothing))));
      r.daemon.state == Disconnected && r.daemon.routingOwned && !r.daemon.backendOwned && r.overlaps == w.overlaps + 1
  {
    var backend := FINE.(nested := Then(RECONNECT, Nothing));
    var unrouted := Unrouting(Enter(w), FINE);
    assert unrouted == Within(Enter(w), RoutesGone(w.daemon));
    Reconnects(unrouted.daemon);
    hide Handled;
    var inside := Inside(unrouted, backend.nested);
    assert inside == Step(unrouted, false, RECONNECT);
  }

  lemma Reconnects(d: Daemon)
    requires d.state == Connected && d.session && d.backendOwned && !d.routingOwned
    ensures var r := Handled(d, RECONNECT); r.state == Connected && r.routingOwned && r.session
  {
    var healthy := Health(d, DEAD);
    assert healthy.state == Disconnected && !healthy.session && !healthy.backendOwned;
  }

  // ------------------------------------------------------- what is really left behind

  /** Routes that are up are owned, and an interface that is up belongs to a session. */
  predicate Tidy(d: Daemon) {
    && (d.trace.remains.candidateRoutes || d.trace.remains.legacyRoutes ==> d.routingOwned)
    && (d.trace.remains.candidateInterface || d.trace.remains.legacyInterface ==> d.session)
  }

  predicate LegacyStrays(s: LegacyScript) {
    if s.connect.ok then !s.routing.ok && s.routing.recovery else s.connect.residue
  }

  /** The candidate is retired and its attempt rolled back. */
  predicate Retires(s: ConnectScript) {
    if s.candidateConnect.ok
    then && !(s.candidateRouting.ok && s.verify.ok && s.committed) && !s.candidateRouting.recovery
         && (s.candidateRouting.ok || s.candidateRouting.degraded ==> s.routesCleanup.ok) && s.interfaceCleanup.ok
    else !s.candidateConnect.residue && !s.candidateConnect.sessionLeft
  }

  predicate CandidateStrays(s: ConnectScript) {
    if s.candidateConnect.ok
    then !s.candidateRouting.ok && !s.candidateRouting.degraded && s.candidateRouting.recovery
    else s.candidateConnect.residue && !s.candidateConnect.sessionLeft
  }

  /** A connection that leaves something up without owning it. */
  predicate Strays(d: Daemon, s: ConnectScript) {
    if OffersCandidate(d, s)
    then s.begun && (CandidateStrays(s) || (Retires(s) && s.abandoned && LegacyStrays(s.legacy)))
    else LegacyStrays(s.legacy)
  }

  lemma LegacyTidyIff(d: Daemon, s: LegacyScript)
    requires d.state == Disconnected && !d.session && !d.backendOwned && !d.routingOwned
    requires d.trace.remains == NO_REMAINS
    ensures Tidy(Legacy(d, s).0) <==> !LegacyStrays(s)
    ensures Legacy(d, s).1 ==> !LegacyStrays(s) && Tidy(Adopted(Legacy(d, s)))
  {
  }

  lemma CandidateTidyIff(d: Daemon, s: ConnectScript)
    requires d.state == Disconnected && !d.session && !d.backendOwned && !d.routingOwned
    requires d.trace.remains == NO_REMAINS
    ensures var (r, outcome) := Candidate(d, s);
      && (Tidy(r) <==> !CandidateStrays(s)) && (outcome == Retired <==> Retires(s))
      && (outcome == Retired ==> r.trace.remains == NO_REMAINS && !r.backendOwned && !r.routingOwned && !r.session
                                 && r.state == d.state)
      && (outcome == Succeeded ==> !CandidateStrays(s) && Tidy(Adopted((r, true))))
  {
  }

  lemma ManagedTidyIff(d: Daemon, s: ConnectScript)
    requires Inv(d) && Owned(d) && Tidy(d) && (d.state == Disconnected || d.state == Connected)
    ensures Tidy(Adopted(Managed(d, s))) <==> d.session || !Strays(d, s)
  {
    hide Candidate, Legacy, TriesClean, LegacyStrays, CandidateStrays, Retires;
    if d.session {
    } else if !s.candidate || !Usable(d.trace.journal) {
      LegacyTidyIff(d, s.legacy);
    } else if s.begun {
      var begun := Begun(d);
      CandidateTidyIff(begun, s);
      var (attempted, outcome) := Candidate(begun, s);
      if outcome == Retired {
        LegacyTidyIff(attempted.(trace := attempted.trace.(journal := RolledBack)), s.legacy);
      }
    }
  }

  /** One event: everything up stays owned exactly if the connection it makes, if any, leaves nothing astray. */
  lemma TidyIff(d: Daemon, e: Event)
    requires Inv(d) && Running(d) && Owned(d) && Tidy(d)
    ensures Tidy(Handled(d, e)) <==> !(Starts(d, e) && Strays(d, e.script))
  {
    hide Managed, Adopted, TriesClean, Disconnecting, CandidateStrays, LegacyStrays, Retires;
    ConnectsFrom(d, e);
    match e
    case ConnectCommand(health, known, script) =>
      HealthTidy(d, health);
      if Connects(d, e) { ManagedTidyIff(From(d, e), script); }
    case AutoConnectTimer(recovery, profile, script) => if Connects(d, e) { ManagedTidyIff(d, script); }
    case DisconnectCommand(health, routing, backend) =>
      HealthTidy(d, health);
      DisconnectTidy(Health(d, health), routing, backend);
    case OtherMutation(health, _) => HealthTidy(d, health);
    case ReadOnlyCommand(health) => HealthTidy(d, health);
    case RefreshTimer(health, refresh) => HealthTidy(d, health);
    case MigrationTimer(_, _) =>
    case UpdateTimer(_) =>
  }

  lemma HealthTidy(d: Daemon, h: HealthScript)
    requires Inv(d) && Owned(d) && Tidy(d)
    ensures var r := Health(d, h); Inv(r) && Owned(r) && Tidy(r) && (Running(d) ==> Running(r))
  {
    HealthInv(d, h);
  }

  lemma DisconnectTidy(d: Daemon, routing: Call, backend: Call)
    requires Inv(d) && Running(d) && Owned(d) && Tidy(d)
    ensures Tidy(Disconnecting(d, routing, backend))
  {
  }

  predicate Keeps(w: System, o: Occurrence) {
    match o
    case Restart(_, _, _, _, _) => var r := Restarted(w.daemon, o); Running(r) ==> !RoutesUp(r.trace.remains)
    case Delivered(event) =>
      Running(w.daemon) ==> !(Starts(w.daemon, event) && Strays(w.daemon, event.script))
    case Stop(routing, backend) => Running(w.daemon) ==> QuietStop(Enter(w), routing, backend)
  }

  /** No connection strays, nothing arrives while a stop waits, and no restart carries routes over. */
  predicate KeepingRun(w: System, run: seq<Occurrence>)
    decreases |run|
  {
    run == [] || (Keeps(w, run[0]) && KeepingRun(Next(w, run[0]), run[1..]))
  }

  /** What is up is owned, as long as the process runs. */
  predicate Kept(d: Daemon) { Inv(d) && Owned(d) && (Running(d) ==> Tidy(d)) }

  lemma NextKept(w: System, o: Occurrence)
    requires Kept(w.daemon) && Keeps(w, o)
    ensures Kept(Next(w, o).daemon)
  {
    hide Handled, Stopping, Restarted, Disconnecting, TriesClean, Strays, Starts;
    match o
    case Restart(_, _, _, _, _) => RestartedInv(w.daemon, o);
    case Delivered(event) =>
      if Running(w.daemon) {
        HandledAs(w.daemon, event);
        TidyIff(w.daemon, event);
      }
    case Stop(routing, backend) =>
      if Running(w.daemon) {
        QuietStopDisconnects(Enter(w), routing, backend);
        DisconnectingInv(w.daemon, routing, backend);
        DisconnectTidy(w.daemon, routing, backend);
      }
  }

  lemma {:induction false} KeepingTidy(w: System, run: seq<Occurrence>)
    requires Kept(w.daemon) && KeepingRun(w, run)
    ensures Kept(Run(w, run).daemon)
    decreases |run|
  {
    hide Next, Keeps, Kept;
    if run != [] {
      NextKept(w, run[0]);
      KeepingTidy(Next(w, run[0]), run[1..]);
    }
  }

  /**
   If no connection strays, nothing arrives while a stop waits and no restart carries routes over, disconnected
   means that no session is recorded and that neither routes nor an interface are really left.
   */
  lemma DisconnectedIsBare(run: seq<Occurrence>)
    requires KeepingRun(IDLE, run)
    ensures var d := Run(IDLE, run).daemon;
      d.state == Disconnected ==> !d.session && d.trace.remains == NO_REMAINS
  {
    KeepingTidy(IDLE, run);
  }

  /** Otherwise it does not: legacy routing that fails and asks for recovery leaves its routes behind. */
  lemma DisconnectedOverRoutes()
    ensures var script := PLAIN.(legacy := LegacyScript(FINE, FAILS.(recovery := true), FINE));
      var d := Run(IDLE, [Delivered(Connecting(script)), Delivered(DISCONNECT), Delivered(DISCONNECT)]).daemon;
      d.state == Disconnected && !d.routingOwned && d.trace.remains.legacyRoutes
  {
    var script := PLAIN.(legacy := LegacyScript(FINE, FAILS.(recovery := true), FINE));
    ThreeSteps(IDLE, Delivered(Connecting(script)), Delivered(DISCONNECT), Delivered(DISCONNECT));
    assert Next(IDLE, Delivered(Connecting(script))).daemon == STARTED.(trace := STARTED.trace.(
      remains := Remains(false, false, true, false), tries := [LegacyTry(NO_REMAINS, NoAttempt)]));
  }

  // -------------------------------------------------- interfaces taken down under routes

  /** The event looks after the session first, and finds it dead. */
  predicate FindsDead(d: Daemon, e: Event) {
    d.state == Connected && Watches(e) && !e.health.alive
  }

  lemma HealthStrands(d: Daemon, h: HealthScript)
    requires Owned(d)
    ensures var r := Health(d, h);
      && Owned(r) && (Running(d) ==> Running(r))
      && r.trace.stranded == d.trace.stranded + (if d.state == Connected && !h.alive then 1 else 0)
  {
  }

  lemma CandidateStrandsNone(d: Daemon, s: ConnectScript)
    requires !d.routingOwned
    ensures Candidate(d, s).0.trace.stranded == d.trace.stranded
    ensures Candidate(d, s).1 == Retired ==> !Candidate(d, s).0.routingOwned
  {
  }

  lemma LegacyStrandsNone(d: Daemon, s: LegacyScript)
    requires !d.routingOwned
    ensures Legacy(d, s).0.trace.stranded == d.trace.stranded
  {
  }

  lemma ManagedStrandsNone(d: Daemon, s: ConnectScript)
    requires !d.routingOwned || d.session
    ensures Adopted(Managed(d, s)).trace.stranded == d.trace.stranded
  {
    hide Candidate, Legacy;
    if !d.session {
      LegacyStrandsNone(d, s.legacy);
      var begun := Begun(d);
      CandidateStrandsNone(begun, s);
      var (attempted, outcome) := Candidate(begun, s);
      var rolledBack := attempted.(trace := attempted.trace.(journal := RolledBack));
      if outcome == Retired { LegacyStrandsNone(rolledBack, s.legacy); }
    }
  }

  /** An interface goes down under routes that are still owned exactly if an event finds the session dead. */
  lemma StrandedIff(d: Daemon, e: Event)
    requires Owned(d) && Running(d)
    ensures Handled(d, e).trace.stranded == d.trace.stranded + (if FindsDead(d, e) then 1 else 0)
  {
    hide Managed, Adopted, Health, Disconnecting;
    match e
    case ConnectCommand(health, known, script) =>
      HealthStrands(d, health);
      var healthy := Health(d, health);
      if healthy.state == Connected || healthy.state == Disconnected { ManagedStrandsNone(healthy, script); }
    case AutoConnectTimer(recovery, profile, script) => if d.state == Disconnected { ManagedStrandsNone(d, script); }
    case DisconnectCommand(health, routing, backend) =>
      HealthStrands(d, health);
      DisconnectStrandsNone(Health(d, health), routing, backend);
    case OtherMutation(health, _) => HealthStrands(d, health);
    case ReadOnlyCommand(health) => HealthStrands(d, health);
    case RefreshTimer(health, refresh) => HealthStrands(d, health);
    case MigrationTimer(_, _) =>
    case UpdateTimer(_) =>
  }

  lemma DisconnectStrandsNone(d: Daemon, routing: Call, backend: Call)
    ensures Disconnecting(d, routing, backend).trace.stranded == d.trace.stranded
  {
  }

  function Deaths(w: System, run: seq<Occurrence>): nat
    decreases |run|
  {
    if run == [] then 0
    else (if run[0].Delivered? && FindsDead(w.daemon, run[0].event) then 1 else 0) + Deaths(Next(w, run[0]), run[1..])
  }

  lemma NextStrands(w: System, o: Occurrence)
    requires Inv(w.daemon) && Owned(w.daemon) && Quiet(w, o)
    ensures var d, r := w.daemon, Next(w, o).daemon;
      && Inv(r) && Owned(r)
      && r.trace.stranded == d.trace.stranded + (if o.Delivered? && FindsDead(d, o.event) then 1 else 0)
  {
    hide Handled, Stopping, Restarted, Disconnecting, TriesClean, QuietStop;
    match o
    case Restart(_, _, _, _, _) => RestartedInv(w.daemon, o);
    case Delivered(event) =>
      if Running(w.daemon) {
        HandledAs(w.daemon, event);
        StrandedIff(w.daemon, event);
      }
    case Stop(routing, backend) =>
      if Running(w.daemon) {
        QuietStopDisconnects(Enter(w), routing, backend);
        DisconnectingInv(w.daemon, routing, backend);
        DisconnectStrandsNone(w.daemon, routing, backend);
      }
  }

  /**
   Over a run whose stops are not disturbed, interfaces were taken down under owned routes as often as a dead
   session was found, and never otherwise: every other operation removes the routes first.
   */
  lemma {:induction false} StrandedCount(w: System, run: seq<Occurrence>)
    requires Inv(w.daemon) && Owned(w.daemon) && QuietRun(w, run)
    ensures Run(w, run).daemon.trace.stranded == w.daemon.trace.stranded + Deaths(w, run)
    decreases |run|
  {
    hide Next, FindsDead, Owned, Inv, Quiet;
    if run != [] {
      NextStrands(w, run[0]);
      StrandedCount(Next(w, run[0]), run[1..]);
    }
  }

  // ------------------------------------------------------ the state an event ends in

  predicate CandidateWorks(s: ConnectScript) {
    s.candidateConnect.ok && s.candidateRouting.ok && s.verify.ok && s.committed
  }

  /**
   A candidate that does not work goes without a trace: it never came up, or its routing does not ask for recovery
   and its routes, if any are owned, and its interface are removed.
   */
  predicate CandidateGoes(d: Daemon, s: ConnectScript) {
    if !s.candidateConnect.ok
    then !s.candidateConnect.residue && !s.candidateConnect.sessionLeft && !InterfaceFound(d)
    else
      && !(s.candidateRouting.ok && s.verify.ok && s.committed) && !s.candidateRouting.recovery
      && (s.candidateRouting.ok || s.candidateRouting.degraded || (d.state == Disconnected && d.routingOwned)
          ==> s.routesCleanup.ok)
      && s.interfaceCleanup.ok
  }

  /** A connection that is started works: its candidate does, or the imported profile once nothing else is left. */
  predicate ConnectWorks(d: Daemon, s: ConnectScript) {
    if OffersCandidate(d, s)
    then s.begun && (CandidateWorks(s) || (CandidateGoes(d, s) && s.abandoned && LegacyWorks(s.legacy)))
    else LegacyWorks(s.legacy)
  }

  /** It fails and leaves the daemon disconnected: no attempt could be begun, or the imported profile is down again. */
  predicate ConnectFailsCleanly(d: Daemon, s: ConnectScript) {
    if OffersCandidate(d, s) then !s.begun
    else !s.legacy.connect.ok || (!LegacyWorks(s.legacy) && s.legacy.cleanup.ok)
  }

  predicate StaysConnected(d: Daemon, e: Event) {
    && d.state == Connected && (Watches(e) ==> e.health.alive) && !e.DisconnectCommand?
    && !(e.RefreshTimer? && !e.refresh.ok && e.refresh.recovery)
  }

  lemma CandidateOutcomes(d: Daemon, s: ConnectScript)
    requires d.state == Disconnected && !d.session && !d.backendOwned
    ensures var (r, outcome) := Candidate(d, s);
      && (outcome == Succeeded <==> CandidateWorks(s)) && (outcome == Retired <==> CandidateGoes(d, s))
      && (outcome != Succeeded ==> r.trace.journal == d.trace.journal)
      && (outcome == Stuck ==> r.state == RecoveryRequired)
  {
  }

  lemma LegacyOutcomes(d: Daemon, s: LegacyScript)
    requires d.state == Disconnected && !d.session && !d.backendOwned
    ensures var (r, ok) := Legacy(d, s);
      && ok == LegacyWorks(s) && r.trace.journal == d.trace.journal
      && (r.state == CleanupFailed <==> s.connect.ok && !LegacyWorks(s) && !s.cleanup.ok)
      && (r.state != CleanupFailed ==> r.state == Disconnected)
  {
  }

  /** What a connection that is started ends in, and the phase it leaves the journal in. */
  lemma ManagedOutcomes(d: Daemon, s: ConnectScript)
    requires d.state == Disconnected && !d.session && !d.backendOwned
    ensures var r := Adopted(Managed(d, s));
      && (r.state == Connected <==> ConnectWorks(d, s))
      && (r.state == Disconnected <==> ConnectFailsCleanly(d, s))
      && (r.state == RecoveryRequired <==> OffersCandidate(d, s) && s.begun && !ConnectWorks(d, s))
      && r.state != NotRunning
      && (OffersCandidate(d, s) && s.begun ==>
            && (r.trace.journal == Committed <==> CandidateWorks(s))
            && (r.trace.journal == RolledBack <==> CandidateGoes(d, s) && s.abandoned)
            && (r.trace.journal == Trying <==> !CandidateWorks(s) && !(CandidateGoes(d, s) && s.abandoned)))
      && (!(OffersCandidate(d, s) && s.begun) ==> r.trace.journal == d.trace.journal)
  {
    hide Candidate, Legacy, CandidateWorks, CandidateGoes;
    if !OffersCandidate(d, s) {
      LegacyOutcomes(d, s.legacy);
    } else if s.begun {
      var begun := Begun(d);
      CandidateOutcomes(begun, s);
      GoesAlike(d, s);
      CandidateEffect(begun, s);
      var (attempted, outcome) := Candidate(begun, s);
      if outcome == Retired { LegacyOutcomes(attempted.(trace := attempted.trace.(journal := RolledBack)), s.legacy); }
    }
  }

  lemma GoesAlike(d: Daemon, s: ConnectScript)
    ensures CandidateGoes(Begun(d), s) == CandidateGoes(d, s)
  {
  }

  lemma StartAlike(d: Daemon, e: Event)
    requires Consistent(d) && Starts(d, e)
    ensures var from := From(d, e);
      && from.state == Disconnected && !from.session && !from.backendOwned && from.trace.journal == d.trace.journal
      && ConnectWorks(from, e.script) == ConnectWorks(d, e.script)
      && ConnectFailsCleanly(from, e.script) == ConnectFailsCleanly(d, e.script)
      && OffersCandidate(from, e.script) == OffersCandidate(d, e.script)
      && CandidateGoes(from, e.script) == CandidateGoes(d, e.script)
      && Handled(d, e) == Adopted(Managed(from, e.script))
  {
    hide Managed, Adopted, InterfaceFound, LegacyWorks, CandidateWorks;
    ConnectsFrom(d, e);
  }

  /** Without a start, a connect does no more than the health check before it, and the timer at most asks for recovery. */
  lemma NotStarted(d: Daemon, e: Event)
    requires Consistent(d) && Running(d) && !Starts(d, e)
    ensures e.ConnectCommand? ==> Handled(d, e) == Health(d, e.health)
    ensures e.AutoConnectTimer? ==>
              Handled(d, e) == if d.state == Disconnected && e.recovery then d.(state := RecoveryRequired) else d
  {
    hide Candidate, Legacy, Fallback;
    ConnectsFrom(d, e);
  }

  /**
   Connected afterwards, exactly: it was connected, and the event found nothing wrong; or a connect was accepted
   without a session, and its candidate, or the imported profile after it, works.
   */
  lemma ConnectedIff(d: Daemon, e: Event)
    requires Inv(d) && Running(d)
    ensures Handled(d, e).state == Connected
      <==> StaysConnected(d, e) || (Starts(d, e) && ConnectWorks(d, e.script))
  {
    hide Managed, Adopted, ConnectWorks, TriesClean;
    if Starts(d, e) {
      StartAlike(d, e);
      ManagedOutcomes(From(d, e), e.script);
    } else {
      NotStarted(d, e);
    }
  }

  /** In need of recovery afterwards, exactly: it was and is not told to disconnect, or one of three things failed. */
  lemma RecoveryRequiredIff(d: Daemon, e: Event)
    requires Inv(d) && Running(d)
    ensures Handled(d, e).state == RecoveryRequired
      <==> || (d.state == RecoveryRequired && !e.DisconnectCommand?)
           || (&& e.RefreshTimer? && d.state == Connected && e.health.alive && !e.refresh.ok && e.refresh.recovery)
           || (e.AutoConnectTimer? && d.state == Disconnected && e.recovery)
           || (Starts(d, e) && OffersCandidate(d, e.script) && e.script.begun && !ConnectWorks(d, e.script))
  {
    hide Managed, Adopted, ConnectWorks, TriesClean;
    if Starts(d, e) {
      StartAlike(d, e);
      ManagedOutcomes(From(d, e), e.script);
    } else {
      NotStarted(d, e);
    }
  }

  /** At a disconnect: every owner that the health check before it has not released is released. */
  predicate Releases(d: Daemon, e: Event)
    requires e.DisconnectCommand?
  {
    var dead := d.state == Connected && !e.health.alive;
    && (d.routingOwned && !(dead && e.health.backend.ok && e.health.routing.ok) ==> e.routing.ok)
    && (d.session && !(dead && (e.health.backend.ok || !e.health.backend.sessionLeft)) ==> e.backend.ok)
  }

  /** Disconnected afterwards, exactly. */
  lemma DisconnectedIff(d: Daemon, e: Event)
    requires Inv(d) && Running(d)
    ensures Handled(d, e).state == Disconnected
      <==> if e.DisconnectCommand? then Releases(d, e)
           else if Starts(d, e) then ConnectFailsCleanly(d, e.script)
           else || (d.state == Disconnected && !(e.AutoConnectTimer? && e.recovery))
                || (Watches(e) && CleansUp(d, e.health))
  {
    hide Managed, Adopted, ConnectFailsCleanly, TriesClean;
    if Starts(d, e) {
      StartAlike(d, e);
      ManagedOutcomes(From(d, e), e.script);
    } else {
      NotStarted(d, e);
    }
  }

  /** Never not running; so the remaining state, a failed cleanup, is exact as well. */
  lemma CleanupFailedIff(d: Daemon, e: Event)
    requires Inv(d) && Running(d)
    ensures Handled(d, e).state == CleanupFailed
      <==> if e.DisconnectCommand? then !Releases(d, e)
           else if Starts(d, e)
           then && !OffersCandidate(d, e.script) && e.script.legacy.connect.ok
                && !LegacyWorks(e.script.legacy) && !e.script.legacy.cleanup.ok
           else || d.state == CleanupFailed
                || (Watches(e) && d.state == Connected && !e.health.alive && !CleansUp(d, e.health))
  {
    hide Managed, Adopted, TriesClean;
    if Starts(d, e) {
      StartAlike(d, e);
      ManagedOutcomes(From(d, e), e.script);
    } else {
      NotStarted(d, e);
    }
  }

  /** The phase of the journal afterwards, exactly. */
  lemma JournalIff(d: Daemon, e: Event)
    requires Inv(d) && Running(d)
    ensures var phase := Handled(d, e).trace.journal;
      if Starts(d, e) && OffersCandidate(d, e.script) && e.script.begun then
        && (phase == Committed <==> CandidateWorks(e.script))
        && (phase == RolledBack <==> CandidateGoes(d, e.script) && e.script.abandoned)
        && (phase == Trying <==> !CandidateWorks(e.script) && !(CandidateGoes(d, e.script) && e.script.abandoned))
      else if e.MigrationTimer? && e.staged && d.state == Connected && d.trace.journal != Committed then phase == Staged
      else phase == d.trace.journal
  {
    hide Managed, Adopted, TriesClean, CandidateWorks, CandidateGoes;
    if Starts(d, e) {
      StartAlike(d, e);
      ManagedOutcomes(From(d, e), e.script);
    } else {
      NotStarted(d, e);
    }
  }

  /** A stop ends disconnected exactly if every release it has to make succeeds, and with a failed cleanup otherwise. */
  lemma StoppedIff(w: System, routing: Call, backend: Call)
    ensures var state := Stopping(w, routing, backend).daemon.state;
      && (state == Disconnected <==>
            && (w.daemon.routingOwned ==> routing.ok)
            && (Unrouting(w, routing).daemon.backendOwned && Unrouting(w, routing).daemon.session ==> backend.ok))
      && (state != Disconnected ==> state == CleanupFailed)
  {
    hide Unrouting, Inside;
  }

  /** The process died inside a candidate attempt. */
  predicate DiesTrying(d: Daemon, o: Occurrence)
    requires o.Restart?
  {
    o.crash.DuringCandidate? && d.state == Disconnected && !d.session
    && (d.trace.journal == Staged || d.trace.journal == Committed)
  }

  /**
   A process starts again exactly if its files are accepted, no interface is left, and no routes are, or those of an
   offline window. An attempt that was open, also one it died in, is taken back to where it came from.
   */
  lemma RestartedIff(d: Daemon, o: Occurrence)
    requires o.Restart?
    ensures var r, was := Restarted(d, o), d.trace.remains;
      var interface := was.candidateInterface || was.legacyInterface || (DiesTrying(d, o) && o.crash.interfaceUp);
      var routes := was.candidateRoutes || was.legacyRoutes || (DiesTrying(d, o) && o.crash.routesUp);
      && (r.state == Disconnected <==>
            !o.rejected && (interface ==> o.interfaceGone) && (routes ==> o.routesGone || o.offline))
      && (r.state != Disconnected ==> r.state == NotRunning)
      && (!o.rejected ==>
            r.trace.journal == if DiesTrying(d, o) then (if d.trace.journal == Committed then Committed else RolledBack)
                               else if d.trace.journal != Trying then d.trace.journal
                               else if d.trace.previous == Committed then Committed else RolledBack)
  {
  }

  // ------------------------------------------------------------------- the daemon

  class HeadlessDaemon {
    var state: State
    var backendOwned: bool
    var routingOwned: bool
    var mutationInFlight: bool
    /** Whether the backend reports an active profile. */
    var session: bool
    /** The phase in the journal file. */
    var journal: Phase
    var previousPhase: Phase
    /** The host: the daemon looks at it only to find an interface left behind. */
    var remains: Remains
    ghost var tries: seq<LegacyTry>
    ghost var stranded: nat
    /** Operations in progress, and operations performed inside another. */
    ghost var depth: nat
    ghost var overlaps: nat

    ghost function View(): Daemon
      reads this
    {
      Daemon(state, backendOwned, routingOwned, session, Trace(remains, journal, previousPhase, tries, stranded))
    }

    ghost function Whole(): System
      reads this
    {
      System(View(), depth, overlaps)
    }

    constructor ()
      ensures Whole() == IDLE && !mutationInFlight
    {
      state, backendOwned, routingOwned, mutationInFlight, session := Disconnected, false, false, false, false;
      journal, previousPhase, remains, tries, stranded := NoAttempt, NoAttempt, NO_REMAINS, [], 0;
      depth, overlaps := 0, 0;
    }

    /** A nested event loop: whatever arrives while a mutation is in flight changes nothing. */
    method Await(nested: Events)
      requires mutationInFlight
      modifies this
      ensures Whole() == old(Whole()) && mutationInFlight
      decreases nested, 0
    {
      hide Handled, Inv, Owned;
      match nested {
        case Nothing =>
        case Then(head, tail) =>
          Dispatch(head);
          Await(tail);
      }
    }

    /** An outside call made inside an operation. */
    method Wait(call: Call)
      requires mutationInFlight
      modifies this
      ensures Whole() == old(Whole()) && mutationInFlight
      decreases call, 0
    {
      Await(call.nested);
    }

    /** Any command or timer, whenever it arrives. Between operations it leaves ownership matching the state. */
    method Dispatch(e: Event)
      modifies this
      ensures Whole() == Step(old(Whole()), old(mutationInFlight), e)
      ensures mutationInFlight == old(mutationInFlight)
      ensures Inv(old(View())) && Running(old(View())) ==> Inv(View()) && (Owned(old(View())) ==> Owned(View()))
      ensures Inv(old(View())) && Running(old(View())) && !mutationInFlight ==>
                (state == Connected
                 <==> StaysConnected(old(View()), e) || (Starts(old(View()), e) && ConnectWorks(old(View()), e.script)))
      decreases e, 3
    {
      hide Handled, ConnectWorks, Starts, StaysConnected, Inv;
      // A mutating command is refused, a timer skips its turn, an observer does without the health check.
      if mutationInFlight {
        return;
      }
      if Inv(View()) && Running(View()) {
        HandledAs(View(), e);
        ConnectedIff(View(), e);
      }
      overlaps, depth := overlaps + (if depth > 0 then 1 else 0), depth + 1;
      mutationInFlight := true;
      Perform(e);
      mutationInFlight := false;
      depth := depth - 1;
    }

    method Perform(e: Event)
      requires mutationInFlight
      modifies this
      ensures Whole() == Within(old(Whole()), Handled(old(View()), e)) && mutationInFlight
      decreases e, 2
    {
      hide Health, Managed, Disconnecting;
      match e {
        case ConnectCommand(health, known, script) =>
          EnsureHealthy(health);
          if state == CleanupFailed || state == RecoveryRequired || !known {
            return;
          }
          Adopt(script);
        case DisconnectCommand(health, routing, backend) =>
          EnsureHealthy(health);
          Disconnect(e);
        case OtherMutation(health, work) =>
          EnsureHealthy(health);
          Wait(work);
        case ReadOnlyCommand(health) =>
          EnsureHealthy(health);
        case RefreshTimer(health, refresh) =>
          EnsureHealthy(health);
          if state != Connected {
            return;
          }
          Wait(refresh);
          if !refresh.ok && refresh.recovery {
            state := RecoveryRequired;
          }
        case AutoConnectTimer(recovery, profile, script) =>
          if state != Disconnected {
            return;
          }
          if recovery {
            state := RecoveryRequired;
            return;
          }
          if profile {
            Adopt(script);
          }
        case MigrationTimer(work, staged) =>
          if state == Connected {
            Wait(work);
            if staged && journal != Committed {
              journal := Staged;
            }
          }
        case UpdateTimer(work) =>
          Wait(work);
      }
    }

    /** The routing controller removes the routes it is known to own. */
    method RemoveRoutes(call: Call) returns (ok: bool)
      requires mutationInFlight
      modifies this
      ensures ok == call.ok && mutationInFlight
      ensures Whole() == if ok then Within(old(Whole()), RoutesGone(old(View()))) else old(Whole())
      decreases call, 1
    {
      Wait(call);
      if call.ok {
        routingOwned := false;
        remains := WithoutRoutes(remains);
      }
      return call.ok;
    }

    /** The backend ends its session, if it has one. */
    method StopBackend(call: Call) returns (ok: bool)
      requires mutationInFlight
      modifies this
      ensures ok == Stopped(old(View()), call) && mutationInFlight
      ensures Whole() == Within(old(Whole()), TakenDown(old(View()), call))
      decreases call, 1
    {
      if !session {
        return true;
      }
      stranded := stranded + if routingOwned then 1 else 0;
      Wait(call);
      if call.ok || !call.sessionLeft {
        session := false;
        remains := WithoutInterface(remains);
      }
      return call.ok;
    }

    method EnsureHealthy(h: HealthScript)
      requires mutationInFlight
      modifies this
      ensures Whole() == Within(old(Whole()), Health(old(View()), h)) && mutationInFlight
      decreases h, 1
    {
      hide TakenDown, Stopped, RoutesGone;
      if state != Connected || (session && h.alive) {
        return;
      }
      var ok := true;
      if backendOwned {
        ok := StopBackend(h.backend);
      }
      if !ok {
        state := CleanupFailed;
        return;
      }
      backendOwned := false;
      if routingOwned {
        ok := RemoveRoutes(h.routing);
      }
      state := if ok then Disconnected else CleanupFailed;
    }

    method Disconnect(e: Event)
      requires mutationInFlight && e.DisconnectCommand?
      modifies this
      ensures Whole() == Within(old(Whole()), Disconnecting(old(View()), e.routing, e.backend)) && mutationInFlight
      decreases e, 1
    {
      hide TakenDown, Stopped;
      var ok := true;
      if routingOwned {
        ok := RemoveRoutes(e.routing);
      }
      if !ok {
        state := CleanupFailed;
        return;
      }
      if backendOwned {
        ok := StopBackend(e.backend);
      }
      if !ok {
        state := CleanupFailed;
        return;
      }
      backendOwned, state := false, Disconnected;
    }

    /** Connects a profile and takes ownership of a working connection. */
    method Adopt(s: ConnectScript)
      requires mutationInFlight
      modifies this
      ensures Whole() == Within(old(Whole()), Adopted(Managed(old(View()), s))) && mutationInFlight
      decreases s, 4
    {
      hide Managed;
      var ok := ConnectManagedProfile(s);
      if ok {
        backendOwned, routingOwned, state := true, true, Connected;
      }
    }

    method ConnectManagedProfile(s: ConnectScript) returns (ok: bool)
      requires mutationInFlight
      modifies this
      ensures var (r, result) := Managed(old(View()), s);
        Whole() == Within(old(Whole()), r) && ok == result && mutationInFlight
      decreases s, 3
    {
      hide Candidate, Legacy, Fallback;
      if session {
        return false;
      }
      if !s.candidate || !Usable(journal) {
        ok := ConnectLegacy(s.legacy);
        return;
      }
      if !s.begun {
        return false;
      }
      journal, previousPhase := Trying, journal;
      var outcome := ConnectCandidate(s);
      if outcome != Retired {
        return outcome == Succeeded;
      }
      ok := FallBack(s);
    }

    /** The candidate is retired: roll its attempt back and return to the imported profile. */
    method FallBack(s: ConnectScript) returns (ok: bool)
      requires mutationInFlight
      modifies this
      ensures var (r, result) := Fallback(old(View()), s);
        Whole() == Within(old(Whole()), r) && ok == result && mutationInFlight
      decreases s, 0
    {
      hide Legacy;
      if !s.abandoned {
        state := RecoveryRequired;
        return false;
      }
      journal := RolledBack;
      ok := ConnectLegacy(s.legacy);
      if !ok {
        state := RecoveryRequired;
      }
    }

    method ConnectLegacy(s: LegacyScript) returns (ok: bool)
      requires mutationInFlight
      modifies this
      ensures var (r, result) := Legacy(old(View()), s);
        Whole() == Within(old(Whole()), r) && ok == result && mutationInFlight
      ensures ok <==> s.connect.ok && (s.routing.ok || (s.routing.degraded && !s.routing.recovery))
      ensures ok ==> session && backendOwned && routingOwned && remains.legacyInterface && remains.legacyRoutes
      decreases s, 1
    {
      hide LegacyUp;
      tries := tries + [LegacyTry(remains, journal)];
      Wait(s.connect);
      if !s.connect.ok {
        remains := remains.(legacyInterface := remains.legacyInterface || s.connect.residue);
        return false;
      }
      remains := remains.(legacyInterface := true);
      session, backendOwned := true, true;
      ok := RouteLegacy(s);
    }

    method RouteProfile(routing: Call)
      requires mutationInFlight
      modifies this
      ensures mutationInFlight
      ensures var up := LegacyRouted(routing) || routing.recovery;
        Whole() == Within(old(Whole()), WithLegacyRoutes(old(View()), up))
      decreases routing, 1
    {
      Wait(routing);
      remains := remains.(legacyRoutes := remains.legacyRoutes || LegacyRouted(routing) || routing.recovery);
    }

    method RouteLegacy(s: LegacyScript) returns (ok: bool)
      requires mutationInFlight
      modifies this
      ensures var (r, result) := LegacyUp(old(View()), s);
        Whole() == Within(old(Whole()), r) && ok == result && mutationInFlight
      ensures ok <==> s.routing.ok || (s.routing.degraded && !s.routing.recovery)
      ensures ok ==> session == old(session) && backendOwned == old(backendOwned) && routingOwned
      ensures ok ==> remains.legacyInterface == old(remains.legacyInterface) && remains.legacyRoutes
      decreases s, 0
    {
      hide TakenDown, Stopped;
      RouteProfile(s.routing);
      if LegacyRouted(s.routing) {
        routingOwned := true;
        return true;
      }
      var cleaned := StopBackend(s.cleanup);
      if cleaned {
        backendOwned := false;
      } else {
        state := CleanupFailed;
      }
      return false;
    }

    method ConnectCandidate(s: ConnectScript) returns (outcome: CandidateOutcome)
      requires mutationInFlight
      modifies this
      ensures var (r, result) := Candidate(old(View()), s);
        Whole() == Within(old(Whole()), r) && outcome == result && mutationInFlight
      decreases s, 2
    {
      hide Route, Refused;
      Wait(s.candidateConnect);
      if s.candidateConnect.ok {
        outcome := RouteAndVerify(s);
      } else {
        outcome := CandidateFailed(s.candidateConnect);
      }
    }

    /** A candidate that did not come up must not have left anything native. */
    method CandidateFailed(call: Call) returns (outcome: CandidateOutcome)
      modifies this
      ensures var (r, result) := Refused(old(View()), call);
        Whole() == Within(old(Whole()), r) && outcome == result && mutationInFlight == old(mutationInFlight)
    {
      remains := remains.(candidateInterface := remains.candidateInterface || call.residue || call.sessionLeft);
      if !InterfaceUp(remains) {
        return Retired;
      }
      session, backendOwned := call.sessionLeft, call.sessionLeft;
      state := RecoveryRequired;
      return Stuck;
    }

    method RouteCandidate(routing: Call)
      requires mutationInFlight
      modifies this
      ensures Whole() == Within(old(Whole()), CandidateUp(old(View()), routing)) && mutationInFlight
      decreases routing, 1
    {
      session, backendOwned := true, true;
      Wait(routing);
      var routed := routing.ok || routing.degraded;
      routingOwned := routingOwned || routed;
      remains := remains.(candidateInterface := true,
        candidateRoutes := remains.candidateRoutes || routed || routing.recovery);
    }

    method RouteAndVerify(s: ConnectScript) returns (outcome: CandidateOutcome)
      requires mutationInFlight
      modifies this
      ensures var (r, result) := Route(old(View()), s);
        Whole() == Within(old(Whole()), r) && outcome == result && mutationInFlight
      decreases s, 1
    {
      hide RetireCandidate, CandidateUp;
      RouteCandidate(s.candidateRouting);
      if s.candidateRouting.ok {
        Wait(s.verify);
        if s.verify.ok && s.committed {
          journal := Committed;
          return Succeeded;
        }
      }
      if s.candidateRouting.recovery {
        state := RecoveryRequired;
        return Stuck;
      }
      outcome := Retire(s);
    }

    method Retire(s: ConnectScript) returns (outcome: CandidateOutcome)
      requires mutationInFlight
      modifies this
      ensures var (r, result) := RetireCandidate(old(View()), s);
        Whole() == Within(old(Whole()), r) && outcome == result && mutationInFlight
      decreases s, 0
    {
      hide TakenDown, Stopped;
      var ok := true;
      if routingOwned {
        ok := RemoveRoutes(s.routesCleanup);
      }
      if ok {
        ok := StopBackend(s.interfaceCleanup);
        if ok {
          backendOwned := false;
          return Retired;
        }
      }
      state := RecoveryRequired;
      return Stuck;
    }

    /** A nested event loop of an operation that holds no scope: whatever arrives is handled. */
    method Handle(nested: Events)
      requires !mutationInFlight
      modifies this
      ensures Whole() == Inside(old(Whole()), nested) && !mutationInFlight
      decreases nested
    {
      hide Handled, Inv, Owned;
      match nested {
        case Nothing =>
        case Then(head, tail) =>
          Dispatch(head);
          Handle(tail);
      }
    }

    /**
     Shutting down: routes first, then the interface, taking no scope. It is called when the outermost event loop
     has ended, so no operation is in flight, but both its waits spin nested ones. Whatever was handled meanwhile,
     ownership then matches the state exactly if routes were not made owned again during the second wait.
     */
    method ShutDown(routing: Call, backend: Call)
      requires !mutationInFlight
      modifies this
      ensures Whole() == Leave(Stopping(Enter(old(Whole())), routing, backend)) && !mutationInFlight
      ensures Inv(old(View())) && Running(old(View())) ==>
                Inv(View()) && (Owned(View()) <==> !LosesRoutes(Enter(old(Whole())), routing, backend))
    {
      hide Stopping, LosesRoutes, Inv;
      if Inv(View()) && Running(View()) { StoppingInv(Enter(Whole()), routing, backend); }
      StopOverlaps(Enter(Whole()), routing, backend);
      overlaps, depth := overlaps + (if depth > 0 then 1 else 0), depth + 1;
      TearDown(routing, backend);
      depth := depth - 1;
    }

    method TearDown(routing: Call, backend: Call)
      requires !mutationInFlight
      modifies this
      ensures Whole() == Stopping(old(Whole()), routing, backend) && !mutationInFlight
    {
      hide Inside;
      if routingOwned {
        Handle(routing.nested);
        if !routing.ok {
          state := CleanupFailed;
          return;
        }
        routingOwned := false;
        remains := WithoutRoutes(remains);
      }
      if backendOwned && session {
        Handle(backend.nested);
        if backend.ok || !backend.sessionLeft {
          session := false;
          remains := WithoutInterface(remains);
        }
        if !backend.ok {
          state := CleanupFailed;
          return;
        }
      }
      backendOwned, state := false, Disconnected;
    }

    /** A new process after a crash: everything but the files and the host is forgotten. */
    method StartAgain(o: Occurrence)
      requires o.Restart? && !mutationInFlight
      modifies this
      ensures Whole() == Next(old(Whole()), o) && !mutationInFlight
      ensures Inv(View()) && Owned(View())
      ensures Running(View()) ==> !InterfaceUp(remains) && journal != Trying
    {
      hide Probed, Gone, Crashed, Inv, Owned, InterfaceUp;
      RestartedInv(View(), o);
      Crash(o.crash);
      Perish(o.interfaceGone, o.routesGone);
      LoadAndProbe(o);
    }

    /** A crash may fall inside a candidate attempt. */
    method Crash(crash: Crash)
      modifies this`journal, this`previousPhase, this`remains
      ensures View() == Crashed(old(View()), crash)
    {
      if crash.DuringCandidate? && state == Disconnected && !session && Usable(journal) {
        journal, previousPhase := Trying, journal;
        remains := remains.(candidateInterface := remains.candidateInterface || crash.interfaceUp,
                            candidateRoutes := remains.candidateRoutes || crash.routesUp);
      }
    }

    /** What the process kept in memory is gone, and what was up may be. */
    method Perish(interfaceGone: bool, routesGone: bool)
      modifies this
      ensures Whole() == System(Gone(old(View()), interfaceGone, routesGone), 0, old(overlaps))
      ensures mutationInFlight == old(mutationInFlight)
    {
      backendOwned, routingOwned, session := false, false, false;
      depth := 0;
      if interfaceGone {
        remains := WithoutInterface(remains);
      }
      if routesGone {
        remains := WithoutRoutes(remains);
      }
    }

    /** Start-up: read the journal, then refuse to run over anything that may be an orphan. */
    method LoadAndProbe(o: Occurrence)
      requires o.Restart?
      modifies this`state, this`journal
      ensures View() == Probed(old(View()), o)
    {
      state := NotRunning;
      if o.rejected {
        return;
      }
      if journal == Trying {
        journal := if previousPhase == Committed then Committed else RolledBack;
      }
      if !InterfaceUp(remains) && (!RoutesUp(remains) || o.offline) {
        state := Disconnected;
      }
    }

    /** A whole run of the daemon, over any number of processes. */
    method Drive(run: seq<Occurrence>)
      requires !mutationInFlight && Whole() == IDLE
      modifies this
      ensures Whole() == Run(IDLE, run)
      ensures KeepsRoutes(IDLE, run) ==> Owned(View())
      ensures CarefulRun(IDLE, run) <==> TriesClean(View().trace.tries)
    {
      hide Handled, Stopping, Restarted, TriesClean, LosesRoutes, Careful, Owned, KeepsRoutes, CarefulRun, AlwaysOwned;
      hide Inv, InterfaceUp;
      var i := 0;
      while i < |run|
        invariant 0 <= i <= |run| && !mutationInFlight
        invariant Run(Whole(), run[i..]) == Run(IDLE, run)
      {
        assert run[i..][0] == run[i] && run[i..][1..] == run[i + 1..];
        match run[i] {
          case Restart(_, _, _, _, _) => StartAgain(run[i]);
          case Delivered(event) => if state != NotRunning { Dispatch(event); }
          case Stop(routing, backend) => if state != NotRunning { ShutDown(routing, backend); }
        }
        i := i + 1;
      }
      LegacyTriesCleanIff(run);
      OwnershipMatchesState(run);
      if AlwaysOwned(IDLE, run) { AlwaysOwnedLast(IDLE, run); }
    }
  }
}
