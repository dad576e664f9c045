/**
 * Command delivery from end to end: the API, its agents and the messages
 * between them. Poll answers and acknowledgements can be lost or late, saves
 * land in any order or not at all, handlers can throw, and both sides restart.
 */
module Delivery {
  import opened Wrappers
  import opened Entities
  import opened Commands
  import opened Sessions
  import opened Lifecycle
  import opened AppliedSet

  datatype Phase =
    | Polling
    | Received(id: CommandId)
    | Running(id: CommandId)
    | Acking(id: CommandId)

  /**
   * `applied`, `phase` and `writes` (saves requested but not landed) die with
   * the process; `file` does not. `finishes` counts the handlers that ran to
   * completion on this agent, `booted` is that count when the process started.
   */
  datatype Agent = Agent(
    phase: Phase,
    applied: seq<CommandId>,
    writes: seq<Save>,
    file: File,
    finishes: nat,
    booted: nat)

  const NEW_AGENT := Agent(Polling, [], [], NoList, 0, 0)

  /** `acks` holds acknowledgements posted and not yet processed; they may never be. */
  datatype World = World(
    api: Api,
    agents: map<AgentId, Agent>,
    acks: set<(AgentId, CommandId)>,
    clock: Millis)

  /** What one agent does on its own, between messages. */
  datatype Act =
    | Begin(id: CommandId)
    | Refuse(id: CommandId)
    | Finish(id: CommandId)
    | Throw(id: CommandId)
    | Acked(id: CommandId)
    | SaveLands(write: nat)
    | SaveFails(write: nat, spoiled: bool)
    | Restarts(spoiled: bool, readable: bool)

  datatype Event =
    | Advance(elapsed: nat)
    | Serve(request: Request)
    | HandedOut(agentId: AgentId, id: CommandId, arrives: bool)
    | AckArrives(agentId: AgentId, id: CommandId)
    | Enrol(agentId: AgentId)
    | Does(agentId: AgentId, act: Act)

  // -------------------------------------------------------------- agent steps

  function Without(writes: seq<Save>, k: nat): seq<Save>
    requires k < |writes|
  {
    writes[..k] + writes[k + 1..]
  }

  function Spoil(file: File, spoiled: bool): File {
    if spoiled then NoList else file
  }

  function Finished(agent: Agent, id: CommandId): Agent {
    var applied := agent.applied + [id];
    agent.(
      phase := Acking(id),
      applied := applied,
      finishes := agent.finishes + 1,
      writes := agent.writes + [SaveOf(applied, agent.finishes + 1)])
  }

  /** The process dies, perhaps in the middle of a write, and a new one loads what it can. */
  function Restarted(agent: Agent, spoiled: bool, readable: bool): Agent {
    var file := Spoil(agent.file, spoiled && agent.writes != []);
    Agent(Polling, Load(file, readable), [], file, agent.finishes, agent.finishes)
  }

  predicate AgentCan(agent: Agent, act: Act) {
    match act
    case Begin(id) => agent.phase == Received(id) && id !in agent.applied
    case Refuse(id) => agent.phase == Received(id) && id in agent.applied
    case Finish(id) => agent.phase == Running(id)
    case Throw(id) => agent.phase == Running(id)
    case Acked(id) => agent.phase == Acking(id)
    case SaveLands(k) => k < |agent.writes|
    case SaveFails(k, _) => k < |agent.writes|
    case Restarts(_, _) => true
  }

  function AgentStep(agent: Agent, act: Act): Agent
    requires AgentCan(agent, act)
  {
    match act
    case Begin(id) => agent.(phase := Running(id))
    case Refuse(id) => agent.(phase := Acking(id))
    case Finish(id) => Finished(agent, id)
    case Throw(id) => agent.(phase := Polling)
    case Acked(id) => agent.(phase := Polling)
    case SaveLands(k) => agent.(writes := Without(agent.writes, k), file := Holds(agent.writes[k]))
    case SaveFails(k, spoiled) => agent.(writes := Without(agent.writes, k), file := Spoil(agent.file, spoiled))
    case Restarts(spoiled, readable) => Restarted(agent, spoiled, readable)
  }

  /** The acknowledgements an act posts. */
  function Posts(a: AgentId, act: Act): set<(AgentId, CommandId)> {
    match act
    case Finish(id) => {(a, id)}
    case Refuse(id) => {(a, id)}
    case _ => {}
  }

  // -------------------------------------------------------------- world steps

  ghost predicate Can(w: World, e: Event) {
    match e
    case Advance(_) => true
    case Serve(request) => !request.HandOutReq? && !request.AckReq? && Possible(w.api, Call(w.clock, request))
    case HandedOut(a, id, arrives) =>
      && IsNext(w.api.commands, a, w.clock, id)
      && (arrives ==> a in w.agents && w.agents[a].phase == Polling)
    case AckArrives(a, id) => (a, id) in w.acks
    case Enrol(a) => a !in w.agents
    case Does(a, act) => a in w.agents && AgentCan(w.agents[a], act)
  }

  ghost function Next(w: World, e: Event, utc: Calendar): World
    requires Can(w, e)
  {
    match e
    case Advance(elapsed) => w.(clock := w.clock + elapsed)
    case Serve(request) => w.(api := After(w.api, Call(w.clock, request), utc))
    case HandedOut(a, id, arrives) =>
      w.(
        api := w.api.(commands := HandOut(w.api.commands, id, w.clock)),
        agents := if arrives then w.agents[a := w.agents[a].(phase := Received(id))] else w.agents)
    case AckArrives(a, id) =>
      w.(api := w.api.(commands := Acknowledge(w.api.commands, a, id, w.clock)), acks := w.acks - {(a, id)})
    case Enrol(a) => w.(agents := w.agents[a := NEW_AGENT])
    case Does(a, act) => w.(agents := w.agents[a := AgentStep(w.agents[a], act)], acks := w.acks + Posts(a, act))
  }

  ghost predicate IsHistory(worlds: seq<World>, events: seq<Event>, utc: Calendar) {
    && |worlds| == |events| + 1
    && worlds[0].api == EMPTY_API && worlds[0].agents == map[] && worlds[0].acks == {}
    && forall i | 0 <= i < |events| :: Can(worlds[i], events[i]) && worlds[i + 1] == Next(worlds[i], events[i], utc)
  }

  // --------------------------------------------------------------------- rows

  /** This request is the poll's clean-up for a row's own agent, the row is dead, and the clean-up lists it. */
  ghost predicate SweepsRow(rows: seq<Command>, request: Request, k: nat) {
    request.SweepReq? && k in request.dead && k < |rows| && Dead(rows[k], request.agentId)
  }

  predicate Untouched(c: Command) {
    c.deliveredAt.None? && c.acknowledgedAt.None? && c.deliveryCount == 0
  }

  /**
   * A request other than a hand-out or an acknowledgement leaves rows alone, but for a sweep, which
   * retires the dead rows it lists.
   */
  lemma ServeRows(api: Api, call: Call, utc: Calendar)
    requires Possible(api, call) && !call.request.HandOutReq? && !call.request.AckReq?
    ensures var rows, after := api.commands, After(api, call, utc).commands;
      && |rows| <= |after|
      && (forall k: nat | k < |rows| ::
            || after[k] == rows[k]
            || (SweepsRow(rows, call.request, k) && after[k] == rows[k].(acknowledgedAt := Some(call.now))))
      && (forall k | |rows| <= k < |after| :: Untouched(after[k]))
  {
    hide ReportStatus, Sweep, SessionPrefix, Participants, TracksOf;
    match call.request {
      case SweepReq(agentId, dead) => SweepRetires(api, agentId, dead, call.now, utc);
      case ReportReq(sessionId, report) => ReportRows(api, sessionId, report, call.now, utc);
      case CreateReq(_, _) =>
      case SaveReq(_) =>
      case StopReq(_) =>
      case DiscardReq(_) =>
      case RenderReq(_) =>
      case PullerReq(_) =>
      case _ =>
    }
  }

  lemma ReportRows(api: Api, sessionId: SessionId, report: StatusReport, now: Millis, utc: Calendar)
    ensures var rows, after := api.commands, ReportStatus(api, sessionId, report, now, utc).api.commands;
      && |rows| <= |after| && after[..|rows|] == rows
      && (forall k | |rows| <= k < |after| :: Untouched(after[k]))
  {
    hide StartedSession;
    match report.state {
      case ReadyReport =>
      case _ =>
    }
  }

  /** How one event may change one row. */
  ghost predicate RowStep(w: World, e: Event, k: nat, before: Command, after: Command) {
    || after == before
    || (e.Serve? && SweepsRow(w.api.commands, e.request, k) && after == before.(acknowledgedAt := Some(w.clock)))
    || (e.AckArrives? && e.id == k && before.agentId == e.agentId && after == before.(acknowledgedAt := Some(w.clock)))
    || (e.HandedOut? && e.id == k && IsNext(w.api.commands, e.agentId, w.clock, k)
        && after == before.(deliveredAt := Some(w.clock), deliveryCount := before.deliveryCount + 1))
  }

  lemma StepRows(w: World, e: Event, utc: Calendar)
    requires Can(w, e)
    ensures var rows, after := w.api.commands, Next(w, e, utc).api.commands;
      && |rows| <= |after|
      && (forall k: nat | k < |rows| :: RowStep(w, e, k, rows[k], after[k]))
      && (forall k | |rows| <= k < |after| :: Untouched(after[k]))
  {
    hide After;
    if e.Serve? {
      ServeRows(w.api, Call(w.clock, e.request), utc);
    }
  }

  // ----------------------------------------------------- no command is lost

  /** The handler for this command ran to completion on this agent before event `n`. */
  ghost predicate Completed(events: seq<Event>, n: nat, a: AgentId, id: CommandId) {
    exists j :: 0 <= j < n && j < |events| && events[j] == Does(a, Finish(id))
  }

  ghost predicate AllCompleted(events: seq<Event>, n: nat, a: AgentId, ids: seq<CommandId>) {
    forall i | 0 <= i < |ids| :: Completed(events, n, a, ids[i])
  }

  lemma CompletedStays(events: seq<Event>, a: AgentId, m: nat, n: nat)
    requires m <= n
    ensures forall id | Completed(events, m, a, id) :: Completed(events, n, a, id)
  {
    forall id | Completed(events, m, a, id) ensures Completed(events, n, a, id) {
      var j :| 0 <= j < m && j < |events| && events[j] == Does(a, Finish(id));
      assert events[j] == Does(a, Finish(id));
    }
  }

  /** Every list of applied commands, wherever it is, names only completed ones. */
  ghost predicate ListsAreTrue(agent: Agent, events: seq<Event>, n: nat, a: AgentId) {
    && AllCompleted(events, n, a, agent.applied)
    && (forall k | 0 <= k < |agent.writes| :: AllCompleted(events, n, a, agent.writes[k].ids))
    && (agent.file.Holds? ==> AllCompleted(events, n, a, agent.file.save.ids))
    && (agent.phase.Acking? ==> Completed(events, n, a, agent.phase.id))
  }

  lemma ListsStayTrue(agent: Agent, act: Act, events: seq<Event>, n: nat, a: AgentId)
    requires n < |events| && events[n] == Does(a, act) && AgentCan(agent, act) && ListsAreTrue(agent, events, n, a)
    ensures ListsAreTrue(AgentStep(agent, act), events, n + 1, a)
  {
    CompletedStays(events, a, n, n + 1);
    assert ListsAreTrue(agent, events, n + 1, a);
    if act.Finish? {
      assert Completed(events, n + 1, a, act.id);
      var applied := agent.applied + [act.id];
      assert AllCompleted(events, n + 1, a, applied);
      assert AllCompleted(events, n + 1, a, Newest(applied));
    }
  }

  /** Every acknowledgement on its way, and every list the agent keeps, is of completed commands. */
  lemma {:induction false} AcksAreTrue(worlds: seq<World>, events: seq<Event>, utc: Calendar, n: nat)
    requires IsHistory(worlds, events, utc) && n < |worlds|
    ensures forall a | a in worlds[n].agents :: ListsAreTrue(worlds[n].agents[a], events, n, a)
    ensures forall a, id | (a, id) in worlds[n].acks :: Completed(events, n, a, id)
  {
    hide After, AgentCan, AgentStep, ListsAreTrue;
    if n > 0 {
      AcksAreTrue(worlds, events, utc, n - 1);
      var w, e, after := worlds[n - 1], events[n - 1], worlds[n];
      forall a | a in after.agents ensures ListsAreTrue(after.agents[a], events, n, a) {
        AgentListsStayTrue(worlds, events, utc, n, a);
      }
      forall a, id | (a, id) in after.acks ensures Completed(events, n, a, id) {
        AckStaysTrue(worlds, events, utc, n, a, id);
      }
    }
  }

  lemma AgentListsStayTrue(worlds: seq<World>, events: seq<Event>, utc: Calendar, n: nat, a: AgentId)
    requires IsHistory(worlds, events, utc) && 0 < n < |worlds| && a in worlds[n].agents
    requires a in worlds[n - 1].agents ==> ListsAreTrue(worlds[n - 1].agents[a], events, n - 1, a)
    ensures ListsAreTrue(worlds[n].agents[a], events, n, a)
  {
    hide After, AgentCan, AgentStep;
    var w, e := worlds[n - 1], events[n - 1];
    if e.Does? && e.agentId == a {
      ListsStayTrue(w.agents[a], e.act, events, n - 1, a);
    } else if a in w.agents {
      CompletedStays(events, a, n - 1, n);
    }
  }

  lemma AckStaysTrue(worlds: seq<World>, events: seq<Event>, utc: Calendar, n: nat, a: AgentId, id: CommandId)
    requires IsHistory(worlds, events, utc) && 0 < n < |worlds| && (a, id) in worlds[n].acks
    requires (a, id) in worlds[n - 1].acks ==> Completed(events, n - 1, a, id)
    requires a in worlds[n - 1].agents ==> ListsAreTrue(worlds[n - 1].agents[a], events, n - 1, a)
    ensures Completed(events, n, a, id)
  {
    hide After, AgentStep;
    var w, e := worlds[n - 1], events[n - 1];
    if e == Does(a, Finish(id)) {
      assert events[n - 1] == Does(a, Finish(id));
    } else {
      CompletedStays(events, a, n - 1, n);
    }
  }

  /** Before event `n` a poll of the row's own agent found the row dead and gave it up. */
  ghost predicate GivenUp(worlds: seq<World>, events: seq<Event>, n: nat, k: CommandId) {
    exists j :: 0 <= j < n && j < |events| && j < |worlds|
      && events[j].Serve? && SweepsRow(worlds[j].api.commands, events[j].request, k)
  }

  /**
   * No command is lost: an acknowledged row was either carried out in full by
   * the agent it was meant for, or found past its last delivery and given up
   * by that agent's own poll.
   */
  lemma {:induction false} NoCommandIsLost(worlds: seq<World>, events: seq<Event>, utc: Calendar, n: nat, k: CommandId)
    requires IsHistory(worlds, events, utc) && n < |worlds|
    requires k < |worlds[n].api.commands| && worlds[n].api.commands[k].acknowledgedAt.Some?
    ensures Completed(events, n, worlds[n].api.commands[k].agentId, k) || GivenUp(worlds, events, n, k)
  {
    hide After, AgentCan, AgentStep, ListsAreTrue, SweepsRow;
    if n > 0 {
      var w, e := worlds[n - 1], events[n - 1];
      StepRows(w, e, utc);
      assert k < |w.api.commands|;
      if w.api.commands[k].acknowledgedAt.Some? {
        NoCommandIsLost(worlds, events, utc, n - 1, k);
        if Completed(events, n - 1, w.api.commands[k].agentId, k) {
          CompletedStays(events, w.api.commands[k].agentId, n - 1, n);
        }
      } else if e.AckArrives? {
        AcksAreTrue(worlds, events, utc, n - 1);
        CompletedStays(events, e.agentId, n - 1, n);
      } else {
        assert events[n - 1].Serve? && SweepsRow(worlds[n - 1].api.commands, events[n - 1].request, k);
      }
    }
  }

  // ------------------------------------------------- the API's side of the story

  /** What an event asks of the API, if anything. */
  function AskedOf(e: Event): Option<Request> {
    match e
    case Serve(request) => Some(request)
    case HandedOut(a, id, _) => Some(HandOutReq(a, id))
    case AckArrives(a, id) => Some(AckReq(a, id))
    case _ => None
  }

  /** The requests of the first `n` events, each at its world's clock. */
  ghost function CallsOf(worlds: seq<World>, events: seq<Event>, n: nat): seq<Call>
    requires n <= |events| < |worlds|
  {
    if n == 0 then []
    else
      match AskedOf(events[n - 1])
      case None => CallsOf(worlds, events, n - 1)
      case Some(request) => CallsOf(worlds, events, n - 1) + [Call(worlds[n - 1].clock, request)]
  }

  /** The API before each of them, and after the last. */
  ghost function StatesOf(worlds: seq<World>, events: seq<Event>, n: nat): seq<Api>
    requires n <= |events| < |worlds|
    ensures |StatesOf(worlds, events, n)| == |CallsOf(worlds, events, n)| + 1
  {
    if n == 0 then [worlds[0].api]
    else if AskedOf(events[n - 1]).None? then StatesOf(worlds, events, n - 1)
    else StatesOf(worlds, events, n - 1) + [worlds[n].api]
  }

  /** Where event `m` stands among the calls. */
  ghost function At(worlds: seq<World>, events: seq<Event>, m: nat): nat
    requires m <= |events| < |worlds|
  {
    |CallsOf(worlds, events, m)|
  }

  lemma {:induction false} StatesAreWorlds(worlds: seq<World>, events: seq<Event>, utc: Calendar, n: nat, m: nat)
    requires IsHistory(worlds, events, utc) && m <= n < |worlds|
    ensures At(worlds, events, m) <= At(worlds, events, n)
    ensures StatesOf(worlds, events, n)[At(worlds, events, m)] == worlds[m].api
  {
    hide After, Can, Next;
    if m < n {
      StatesAreWorlds(worlds, events, utc, n - 1, m);
    } else if n > 0 {
      StatesAreWorlds(worlds, events, utc, n - 1, n - 1);
      assert Can(worlds[n - 1], events[n - 1]) && worlds[n] == Next(worlds[n - 1], events[n - 1], utc);
      if AskedOf(events[n - 1]).None? {
        UnaskedChangesNothing(worlds[n - 1], events[n - 1], utc);
      }
    }
  }

  /**
   * Seen from the API every history is one of its runs: the calls are those of
   * the history, and the API at every moment of it is the run's at that place.
   */
  lemma {:induction false} HistoryIsApiRun(worlds: seq<World>, events: seq<Event>, utc: Calendar, n: nat)
    requires IsHistory(worlds, events, utc) && n < |worlds|
    ensures IsRun(StatesOf(worlds, events, n), CallsOf(worlds, events, n), utc)
    ensures forall c | c in CallsOf(worlds, events, n) :: c.now <= worlds[n].clock
    ensures forall m: nat | m <= n ::
      && At(worlds, events, m) <= At(worlds, events, n)
      && StatesOf(worlds, events, n)[At(worlds, events, m)] == worlds[m].api
  {
    forall m: nat | m <= n
      ensures At(worlds, events, m) <= At(worlds, events, n)
      ensures StatesOf(worlds, events, n)[At(worlds, events, m)] == worlds[m].api
    {
      StatesAreWorlds(worlds, events, utc, n, m);
    }
    if n > 0 {
      HistoryIsApiRun(worlds, events, utc, n - 1);
      RunFollows(worlds, events, utc, n);
    }
  }

  lemma RunFollows(worlds: seq<World>, events: seq<Event>, utc: Calendar, n: nat)
    requires IsHistory(worlds, events, utc) && 0 < n < |worlds|
    requires IsRun(StatesOf(worlds, events, n - 1), CallsOf(worlds, events, n - 1), utc)
    requires forall c | c in CallsOf(worlds, events, n - 1) :: c.now <= worlds[n - 1].clock
    ensures IsRun(StatesOf(worlds, events, n), CallsOf(worlds, events, n), utc)
    ensures forall c | c in CallsOf(worlds, events, n) :: c.now <= worlds[n].clock
  {
    AskedStep(worlds, events, utc, n);
    hide IsHistory, IsRun, After, Possible, Can, Next, AskedOf, At;
    var states, calls, asked := StatesOf(worlds, events, n - 1), CallsOf(worlds, events, n - 1), AskedOf(events[n - 1]);
    if asked.Some? {
      var call := Call(worlds[n - 1].clock, asked.value);
      RunGrows(states, calls, call, utc);
      assert CallsOf(worlds, events, n) == calls + [call];
    } else {
      assert CallsOf(worlds, events, n) == calls;
    }
  }

  /** An event that asks something is a possible call of the run so far, and its answer the next state. */
  lemma AskedStep(worlds: seq<World>, events: seq<Event>, utc: Calendar, n: nat)
    requires IsHistory(worlds, events, utc) && 0 < n < |worlds|
    ensures worlds[n - 1].clock <= worlds[n].clock
    ensures StatesOf(worlds, events, n - 1)[|CallsOf(worlds, events, n - 1)|] == worlds[n - 1].api
    ensures AskedOf(events[n - 1]).Some? ==>
      var call := Call(worlds[n - 1].clock, AskedOf(events[n - 1]).value);
      Possible(worlds[n - 1].api, call) && worlds[n].api == After(worlds[n - 1].api, call, utc)
  {
    var w, e := worlds[n - 1], events[n - 1];
    assert Can(w, e) && worlds[n] == Next(w, e, utc);
    StatesAreWorlds(worlds, events, utc, n - 1, n - 1);
    ClockAdvances(w, e, utc);
    hide IsHistory, After, Possible, Can, Next, AskedOf, StatesOf, CallsOf;
    if AskedOf(e).Some? {
      AskedIsAnswered(w, e, utc);
    }
  }

  /** One more possible call, at a later time, makes a longer run. */
  lemma RunGrows(states: seq<Api>, calls: seq<Call>, call: Call, utc: Calendar)
    requires IsRun(states, calls, utc) && Possible(states[|calls|], call) && forall c | c in calls :: c.now <= call.now
    ensures IsRun(states + [After(states[|calls|], call, utc)], calls + [call], utc)
  {
    hide After, Possible;
  }

  lemma ClockAdvances(w: World, e: Event, utc: Calendar)
    requires Can(w, e)
    ensures w.clock <= Next(w, e, utc).clock
  {
    hide After, AgentCan, AgentStep;
  }

  lemma UnaskedChangesNothing(w: World, e: Event, utc: Calendar)
    requires Can(w, e) && AskedOf(e).None?
    ensures Next(w, e, utc).api == w.api
  {
    hide After, AgentCan, AgentStep;
  }

  lemma AskedIsAnswered(w: World, e: Event, utc: Calendar)
    requires Can(w, e) && AskedOf(e).Some?
    ensures var call := Call(w.clock, AskedOf(e).value);
      Possible(w.api, call) && Next(w, e, utc).api == After(w.api, call, utc)
  {
    hide ReportStatus, Sweep;
  }

  /** Every call is the one some event made. */
  lemma {:induction false} EventOfCall(worlds: seq<World>, events: seq<Event>, n: nat, c: nat) returns (m: nat)
    requires n <= |events| < |worlds| && c < At(worlds, events, n)
    ensures m < n && At(worlds, events, m) == c && AskedOf(events[m]).Some?
    ensures CallsOf(worlds, events, n)[c] == Call(worlds[m].clock, AskedOf(events[m]).value)
  {
    if c < At(worlds, events, n - 1) {
      m := EventOfCall(worlds, events, n - 1, c);
    } else {
      m := n - 1;
    }
  }

  /** And every event that asks something makes one, in order. */
  lemma {:induction false} CallOfEvent(worlds: seq<World>, events: seq<Event>, n: nat, m: nat)
    requires m < n <= |events| < |worlds|
    ensures At(worlds, events, m) <= At(worlds, events, n)
    ensures AskedOf(events[m]).Some? ==>
      && At(worlds, events, m) < At(worlds, events, n)
      && CallsOf(worlds, events, n)[At(worlds, events, m)] == Call(worlds[m].clock, AskedOf(events[m]).value)
  {
    if m < n - 1 {
      CallOfEvent(worlds, events, n - 1, m);
    }
  }
}
