/**
 * The whole server: sessions, drain tasks and process ticks interleaved at every await, each running
 * request acting on the one process and emitting its audit event under its own task's context.
 */
module AuditedServer {
  import opened Wrappers
  import opened Framing
  import opened RegisterMaps
  import opened WetWell
  import opened Protocol
  import opened AtomicWrites
  import opened ServerSystem
  import opened Attribution
  import opened Log = AuditLog

  /** What a request's protocol data unit asks of the datastore. */
  datatype Plan = Plan(functionCode: int, address: int, count: nat, values: Option<seq<Raw>>)

  /** The process's configuration, the server's, and how the library reads a request. */
  datatype Site = Site(config: Config, setup: Setup, reading: Pdu -> Plan)

  ghost predicate ValidSite(site: Site) {
    && site.config.registers.Complete() && site.config.registers.WellFormed()
    && AllServiced(site.config.registers) && site.config.capacityLiters > 0.0
  }

  /** The sessions and the process, with the session steps and the process calls that led there. */
  datatype World = World(system: System, served: Served, steps: seq<ServerSystem.Step>, calls: seq<Call>)

  /** A step of the sessions, the datastore hook run for a task's request or its read-back, or a tick. */
  datatype Move =
    | Net(step: ServerSystem.Step)
    | Perform(task: nat, readBack: bool)
    | Pass(seconds: real)

  function CallOf(plan: Plan, readBack: bool): Call {
    Ask(plan.functionCode, plan.address, plan.count, if readBack then None else plan.values)
  }

  /** The hook: one atomic act on the process, and one event if it reports. */
  function OnPerform(site: Site, w: World, t: nat, readBack: bool): World
    requires site.config.registers.Complete() && site.config.capacityLiters > 0.0
    requires Enabled(w.system, Emit(t))
  {
    var call := CallOf(site.reading(w.system.tasks[t].running.value), readBack);
    var served := Log.Step(site.config, w.served, call);
    var emits := |served.log| > |w.served.log|;
    World(
      if emits then Next(site.setup, w.system, Emit(t)) else w.system,
      served,
      if emits then w.steps + [Emit(t)] else w.steps,
      w.calls + [call])
  }

  function OnMove(site: Site, w: World, move: Move): World
    requires site.config.registers.Complete() && site.config.capacityLiters > 0.0
  {
    match move
    case Net(step) =>
      if step.Emit? then w else w.(system := Next(site.setup, w.system, step), steps := w.steps + [step])
    case Perform(t, readBack) => if Enabled(w.system, Emit(t)) then OnPerform(site, w, t, readBack) else w
    case Pass(seconds) =>
      w.(served := Log.Step(site.config, w.served, Elapse(seconds)), calls := w.calls + [Elapse(seconds)])
  }

  function Play(site: Site, moves: seq<Move>): World
    requires site.config.registers.Complete() && site.config.capacityLiters > 0.0
  {
    if moves == [] then World(START, Served(Reset(site.config), []), [], [])
    else OnMove(site, Play(site, moves[..|moves| - 1]), moves[|moves| - 1])
  }

  /** The report is of this plan: its function, its address and, for a completed write, its values. */
  predicate Reports(plan: Plan, r: Report) {
    && r.functionCode == plan.functionCode && r.address == plan.address
    && (r.after.Some? ==> IsWrite(plan.functionCode) && plan.values.Some? && r.count == |plan.values.value|)
  }

  /** The world is an interleaving of sessions and an audited run, event by event. */
  ghost predicate Coupled(site: Site, w: World)
    requires site.config.registers.Complete() && site.config.capacityLiters > 0.0
  {
    && w.system == Reach(site.setup, w.steps)
    && w.served == Serve(site.config, w.calls)
    && |w.system.events| == |w.served.log|
    && (forall i :: 0 <= i < |w.served.log| ==>
          Reports(site.reading(w.system.events[i].cause.pdu), w.served.log[i].report))
  }

  lemma ActReports(c: Config, s: State, plan: Plan, readBack: bool)
    requires c.registers.Complete()
    ensures var call := CallOf(plan, readBack);
      var r := Act(c, s, call.functionCode, call.address, call.count, call.values).report;
      r.Some? ==> Reports(plan, r.value)
  {
    hide Resolve, CoerceAll, StoreAll, Values, KeysIn;
  }

  lemma OneMoreCall(c: Config, calls: seq<Call>, call: Call)
    requires c.registers.Complete() && c.capacityLiters > 0.0
    ensures Serve(c, calls + [call]) == Log.Step(c, Serve(c, calls), call)
  {
    hide Log.Step;
    assert (calls + [call])[..|calls|] == calls;
  }

  lemma OneMoreStep(p: Setup, steps: seq<ServerSystem.Step>, step: ServerSystem.Step)
    ensures Reach(p, steps + [step]) == Next(p, Reach(p, steps), step)
  {
    hide Next;
    assert (steps + [step])[..|steps|] == steps;
  }

  /** Session steps other than emitting leave the events alone. */
  lemma OtherStepsKeepEvents(p: Setup, x: System, step: ServerSystem.Step)
    requires !step.Emit?
    ensures Next(p, x, step).events == x.events
  {
    hide DeliveryOf;
  }

  lemma PerformCoupled(site: Site, w: World, t: nat, readBack: bool)
    requires ValidSite(site) && Coupled(site, w) && Enabled(w.system, Emit(t))
    ensures Coupled(site, OnPerform(site, w, t, readBack))
  {
    hide Reach, Serve, Act, Reports, AllServiced, RegisterMap.WellFormed;
    var plan := site.reading(w.system.tasks[t].running.value);
    ActReports(site.config, w.served.process, plan, readBack);
    OneMoreCall(site.config, w.calls, CallOf(plan, readBack));
    OneMoreStep(site.setup, w.steps, Emit(t));
  }

  lemma {:induction false} PlayCoupled(site: Site, moves: seq<Move>)
    requires ValidSite(site)
    ensures Coupled(site, Play(site, moves))
  {
    if moves != [] {
      hide Reach, Serve, Act, Reports, AllServiced, RegisterMap.WellFormed, Next, OnPerform, Log.Step;
      var w, move := Play(site, moves[..|moves| - 1]), moves[|moves| - 1];
      PlayCoupled(site, moves[..|moves| - 1]);
      match move
      case Net(step) =>
        if !step.Emit? {
          OneMoreStep(site.setup, w.steps, step);
          OtherStepsKeepEvents(site.setup, w.system, step);
        }
      case Perform(t, readBack) =>
        if Enabled(w.system, Emit(t)) { PerformCoupled(site, w, t, readBack); }
      case Pass(seconds) =>
        OneMoreCall(site.config, w.calls, Elapse(seconds));
    }
  }

  /**
   * In every interleaving of sessions, drain tasks and ticks, the event log is the audit log of the acts
   * in the order they happened: it replays to the live values of the writable registers, and each
   * `before` map is the replay of the log before it.
   */
  lemma InterleavedLogReplays(site: Site, moves: seq<Move>)
    requires ValidSite(site)
    ensures var w := Play(site, moves);
      && w.served == Serve(site.config, w.calls)
      && Replay(site.config, w.served.log) == Values(site.config, w.served.process, WRITABLE)
      && Chained(site.config, w.served.log)
  {
    hide Play, Reach, Serve, Replay, Values, Chained, AllServiced, RegisterMap.WellFormed;
    PlayCoupled(site, moves);
    ReplayIsLive(site.config, Play(site, moves).calls);
    LogIsChained(site.config, Play(site, moves).calls);
  }

  /**
   * In every such interleaving each event, and so each `after` map, carries the context of the session
   * and request that asked for it: a request the session began, whose function and address the event
   * reports, bound under that session's own peer and the request's own transaction identifier.
   */
  lemma InterleavedEventsAttributed(site: Site, moves: seq<Move>, i: nat)
    requires ValidSite(site) && i < |Play(site, moves).served.log|
    ensures var w := Play(site, moves);
      && w.system == Reach(site.setup, w.steps)
      && |w.system.events| == |w.served.log|
      && var e, r := w.system.events[i], w.served.log[i].report;
      && e.cause.conn < |w.system.conns| && e.cause.pdu in w.system.conns[e.cause.conn].begun
      && e.origin == ContextOf(w.system.conns[e.cause.conn].peer, e.cause.conn, e.cause.pdu)
      && Reports(site.reading(e.cause.pdu), r)
  {
    hide Play, Reach, Serve, AllServiced, RegisterMap.WellFormed, Reports;
    PlayCoupled(site, moves);
    var w := Play(site, moves);
    ReachAttributed(site.setup, w.steps);
    assert w.system.events[i] in w.system.events;
    assert Attributed(w.system, w.system.events[i]);
  }
}
