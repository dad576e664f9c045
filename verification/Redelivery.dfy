/** How often a command can be carried out, and why it ever happens twice. */
module Redelivery {
  import opened Wrappers
  import opened Entities
  import opened Commands
  import opened Sessions
  import opened Lifecycle
  import opened AppliedSet
  import opened Delivery

  // ---------------------------------------------------------------- counting

  predicate HandsOut(e: Event, id: CommandId) {
    e.HandedOut? && e.id == id
  }

  function HandOuts(events: seq<Event>, n: nat, id: CommandId): nat
    requires n <= |events|
  {
    if n == 0 then 0 else HandOuts(events, n - 1, id) + if HandsOut(events[n - 1], id) then 1 else 0
  }

  /** How many times this agent started this command's handler. */
  function Executions(events: seq<Event>, n: nat, a: AgentId, id: CommandId): nat
    requires n <= |events|
  {
    if n == 0 then 0 else Executions(events, n - 1, a, id) + if events[n - 1] == Does(a, Begin(id)) then 1 else 0
  }

  /** `deliveryCount` is the number of hand-outs, and the cap holds. */
  lemma {:induction false} DeliveriesAreCapped(worlds: seq<World>, events: seq<Event>, utc: Calendar, n: nat,
      id: CommandId)
    requires IsHistory(worlds, events, utc) && n < |worlds|
    ensures HandOuts(events, n, id) == if id < |worlds[n].api.commands| then
      worlds[n].api.commands[id].deliveryCount else 0
    ensures HandOuts(events, n, id) <= ABANDON_AFTER_DELIVERIES
  {
    hide After, AgentCan, AgentStep;
    if n > 0 {
      DeliveriesAreCapped(worlds, events, utc, n - 1, id);
      StepRows(worlds[n - 1], events[n - 1], utc);
    }
  }

  /** Rows keep their agent. */
  lemma {:induction false} RowsKeepAgent(worlds: seq<World>, events: seq<Event>, utc: Calendar, m: nat, n: nat,
      id: CommandId)
    requires IsHistory(worlds, events, utc) && m <= n < |worlds| && id < |worlds[m].api.commands|
    ensures id < |worlds[n].api.commands| && worlds[n].api.commands[id].agentId == worlds[m].api.commands[id].agentId
  {
    hide After, AgentCan, AgentStep;
    if m < n {
      RowsKeepAgent(worlds, events, utc, m, n - 1, id);
      StepRows(worlds[n - 1], events[n - 1], utc);
    }
  }

  lemma {:induction false} CountNeverFalls(worlds: seq<World>, events: seq<Event>, utc: Calendar, m: nat, n: nat,
      id: CommandId)
    requires IsHistory(worlds, events, utc) && m <= n < |worlds| && id < |worlds[m].api.commands|
    ensures id < |worlds[n].api.commands|
    ensures worlds[m].api.commands[id].deliveryCount <= worlds[n].api.commands[id].deliveryCount
  {
    hide After, AgentCan, AgentStep;
    if m < n {
      CountNeverFalls(worlds, events, utc, m, n - 1, id);
      StepRows(worlds[n - 1], events[n - 1], utc);
    }
  }

  /**
   * When the count does tell: an acknowledged row below the cap was carried out
   * in full by its own agent. At the cap it does not, as retiring a row leaves
   * what acknowledging it leaves.
   */
  lemma BelowCapWasApplied(worlds: seq<World>, events: seq<Event>, utc: Calendar, n: nat, id: CommandId)
    requires IsHistory(worlds, events, utc) && n < |worlds| && id < |worlds[n].api.commands|
    requires worlds[n].api.commands[id].acknowledgedAt.Some?
    requires worlds[n].api.commands[id].deliveryCount < ABANDON_AFTER_DELIVERIES
    ensures Completed(events, n, worlds[n].api.commands[id].agentId, id)
  {
    assert |worlds| == |events| + 1;
    hide IsHistory, Completed;
    NoCommandIsLost(worlds, events, utc, n, id);
    if GivenUp(worlds, events, n, id) {
      var j :| 0 <= j < n && j < |events| && j < |worlds|
        && events[j].Serve? && SweepsRow(worlds[j].api.commands, events[j].request, id);
      CountNeverFalls(worlds, events, utc, j, n, id);
    }
  }

  function DeliveredTo(w: World, a: AgentId, id: CommandId): nat {
    if id < |w.api.commands| && w.api.commands[id].agentId == a then w.api.commands[id].deliveryCount else 0
  }

  function InHand(w: World, a: AgentId, id: CommandId): nat {
    if a in w.agents && w.agents[a].phase == Received(id) then 1 else 0
  }

  lemma {:induction false} ExecutionsUseUpDeliveries(worlds: seq<World>, events: seq<Event>, utc: Calendar, n: nat,
      a: AgentId, id: CommandId)
    requires IsHistory(worlds, events, utc) && n < |worlds|
    ensures Executions(events, n, a, id) + InHand(worlds[n], a, id) <= DeliveredTo(worlds[n], a, id)
  {
    hide After;
    if n > 0 {
      ExecutionsUseUpDeliveries(worlds, events, utc, n - 1, a, id);
      StepRows(worlds[n - 1], events[n - 1], utc);
    }
  }

  /** A command is carried out by no agent but its own, and by that one at most three times. */
  lemma ExecutionsAreCapped(worlds: seq<World>, events: seq<Event>, utc: Calendar, n: nat, a: AgentId, id: CommandId)
    requires IsHistory(worlds, events, utc) && n < |worlds|
    ensures Executions(events, n, a, id) <= HandOuts(events, n, id) <= ABANDON_AFTER_DELIVERIES
    ensures Executions(events, n, a, id) > 0 ==>
      id < |worlds[n].api.commands| && worlds[n].api.commands[id].agentId == a
  {
    hide After, IsHistory;
    ExecutionsUseUpDeliveries(worlds, events, utc, n, a, id);
    DeliveriesAreCapped(worlds, events, utc, n, id);
  }

  // ----------------------------------------------------------------- spacing

  lemma {:induction false} ClockNeverRunsBack(worlds: seq<World>, events: seq<Event>, utc: Calendar, m: nat, n: nat)
    requires IsHistory(worlds, events, utc) && m <= n < |worlds|
    ensures worlds[m].clock <= worlds[n].clock
  {
    hide After, AgentCan, AgentStep;
    if m < n {
      ClockNeverRunsBack(worlds, events, utc, m, n - 1);
    }
  }

  lemma {:induction false} DeliveredAtOrAfter(worlds: seq<World>, events: seq<Event>, utc: Calendar, i: nat, n: nat,
      id: CommandId)
    requires IsHistory(worlds, events, utc) && i < n < |worlds| && HandsOut(events[i], id)
    ensures id < |worlds[n].api.commands|
    ensures worlds[n].api.commands[id].deliveredAt.Some? &&
      worlds[n].api.commands[id].deliveredAt.value >= worlds[i].clock
  {
    hide After, AgentCan, AgentStep;
    if n > i + 1 {
      DeliveredAtOrAfter(worlds, events, utc, i, n - 1, id);
      StepRows(worlds[n - 1], events[n - 1], utc);
      ClockNeverRunsBack(worlds, events, utc, i, n - 1);
    }
  }

  /** Two hand-outs of one command are at least a lease apart, each of an oldest row then eligible for its agent. */
  lemma HandOutsAreSpaced(worlds: seq<World>, events: seq<Event>, utc: Calendar, i: nat, j: nat, id: CommandId)
    requires IsHistory(worlds, events, utc) && i < j < |events| && HandsOut(events[i], id) && HandsOut(events[j], id)
    ensures worlds[j].clock >= worlds[i].clock + LEASE_MS
    ensures IsNext(worlds[i].api.commands, events[i].agentId, worlds[i].clock, id)
    ensures IsNext(worlds[j].api.commands, events[j].agentId, worlds[j].clock, id)
  {
    hide After, AgentCan, AgentStep;
    DeliveredAtOrAfter(worlds, events, utc, i, j, id);
  }

  // -------------------------------------------------- the agent's bookkeeping

  /** The applied list when the save with this serial was requested, in this process. */
  function AppliedAt(applied: seq<CommandId>, finishes: nat, serial: nat): seq<CommandId> {
    var d: int := finishes - serial;
    if 0 <= d <= |applied| then applied[..|applied| - d] else applied
  }

  ghost predicate SaveIsOurs(applied: seq<CommandId>, finishes: nat, booted: nat, save: Save) {
    booted < save.serial <= finishes && save.ids == Newest(AppliedAt(applied, finishes, save.serial))
  }

  /** What ties the list in memory to the saves on their way and the file. */
  ghost predicate Tied(agent: Agent) {
    && agent.booted <= agent.finishes <= agent.booted + |agent.applied|
    && NoRepeats(agent.applied)
    && (agent.phase.Running? ==> agent.phase.id !in agent.applied)
    && (forall k | 0 <= k < |agent.writes| :: SaveIsOurs(agent.applied, agent.finishes, agent.booted, agent.writes[k]))
    && (agent.file.Holds? ==>
          && NoRepeats(agent.file.save.ids)
          && (SaveIsOurs(agent.applied, agent.finishes, agent.booted, agent.file.save)
              || (agent.file.save.serial <= agent.booted
                  && forall p | 0 <= p < |agent.applied| - (agent.finishes - agent.booted) ::
                    agent.applied[p] in agent.file.save.ids)))
  }

  lemma NewestKeepsDistinct(ids: seq<CommandId>)
    requires NoRepeats(ids)
    ensures NoRepeats(Newest(ids))
  {
  }

  lemma FinishKeepsSaves(applied: seq<CommandId>, finishes: nat, booted: nat, id: CommandId, save: Save)
    requires booted <= finishes <= booted + |applied| && SaveIsOurs(applied, finishes, booted, save)
    ensures SaveIsOurs(applied + [id], finishes + 1, booted, save)
  {
    assert AppliedAt(applied + [id], finishes + 1, save.serial) == AppliedAt(applied, finishes, save.serial);
  }

  lemma FinishStaysTied(agent: Agent, id: CommandId)
    requires Tied(agent) && agent.phase == Running(id)
    ensures Tied(Finished(agent, id))
  {
    var after := Finished(agent, id);
    forall k | 0 <= k < |after.writes| ensures SaveIsOurs(after.applied, after.finishes, after.booted,
      after.writes[k]) {
      if k < |agent.writes| {
        FinishKeepsSaves(agent.applied, agent.finishes, agent.booted, id, agent.writes[k]);
      } else {
        assert AppliedAt(after.applied, after.finishes, after.finishes) == after.applied;
      }
    }
    if agent.file.Holds? {
      if SaveIsOurs(agent.applied, agent.finishes, agent.booted, agent.file.save) {
        FinishKeepsSaves(agent.applied, agent.finishes, agent.booted, id, agent.file.save);
      } else {
        assert forall p | 0 <= p < |agent.applied| :: after.applied[p] == agent.applied[p];
      }
    }
  }

  lemma SaveLandsStaysTied(agent: Agent, k: nat)
    requires Tied(agent) && k < |agent.writes|
    ensures Tied(agent.(writes := Without(agent.writes, k), file := Holds(agent.writes[k])))
  {
    var after := agent.(writes := Without(agent.writes, k), file := Holds(agent.writes[k]));
    NewestKeepsDistinct(AppliedAt(agent.applied, agent.finishes, agent.writes[k].serial));
    assert forall m | 0 <= m < |after.writes| :: after.writes[m] == agent.writes[if m < k then m else m + 1];
  }

  lemma SaveFailsStaysTied(agent: Agent, k: nat, spoiled: bool)
    requires Tied(agent) && k < |agent.writes|
    ensures Tied(agent.(writes := Without(agent.writes, k), file := Spoil(agent.file, spoiled)))
  {
    hide SaveIsOurs, NoRepeats;
    var after := agent.(writes := Without(agent.writes, k), file := Spoil(agent.file, spoiled));
    assert forall m | 0 <= m < |after.writes| :: after.writes[m] == agent.writes[if m < k then m else m + 1];
  }

  lemma RestartStaysTied(agent: Agent, spoiled: bool, readable: bool)
    requires Tied(agent)
    ensures Tied(Restarted(agent, spoiled, readable))
  {
  }

  /** The phase matters to the tie only while a handler runs. */
  lemma PhaseStaysTied(agent: Agent, phase: Phase)
    requires Tied(agent) && (phase.Running? ==> phase.id !in agent.applied)
    ensures Tied(agent.(phase := phase))
  {
  }

  lemma StaysTied(agent: Agent, act: Act)
    requires Tied(agent) && AgentCan(agent, act)
    ensures Tied(AgentStep(agent, act))
  {
    hide Tied;
    match act {
      case Finish(id) => FinishStaysTied(agent, id);
      case SaveLands(k) => SaveLandsStaysTied(agent, k);
      case SaveFails(k, spoiled) => SaveFailsStaysTied(agent, k, spoiled);
      case Restarts(spoiled, readable) => RestartStaysTied(agent, spoiled, readable);
      case Begin(id) => PhaseStaysTied(agent, Running(id));
      case Refuse(id) => PhaseStaysTied(agent, Acking(id));
      case Throw(_) => PhaseStaysTied(agent, Polling);
      case Acked(_) => PhaseStaysTied(agent, Polling);
    }
  }

  lemma NewAgentIsTied()
    ensures Tied(NEW_AGENT)
  {
  }

  lemma {:induction false} AgentsAreTied(worlds: seq<World>, events: seq<Event>, utc: Calendar, n: nat, a: AgentId)
    requires IsHistory(worlds, events, utc) && n < |worlds| && a in worlds[n].agents
    ensures Tied(worlds[n].agents[a])
  {
    hide After, AgentStep, AgentCan, Tied;
    NewAgentIsTied();
    if n > 0 {
      var w, e := worlds[n - 1], events[n - 1];
      if a in w.agents {
        AgentsAreTied(worlds, events, utc, n - 1, a);
        if e.Does? && e.agentId == a {
          StaysTied(w.agents[a], e.act);
        } else if e.HandedOut? && e.agentId == a {
          PhaseStaysTied(w.agents[a], Received(e.id));
        }
      }
    }
  }

  // --------------------------------------------------------- why it runs twice

  /** The command, finished as this agent's `serial`-th, is in the list where that puts it. */
  ghost predicate Remembered(agent: Agent, id: CommandId, serial: nat) {
    exists p ::
      && 0 <= p < |agent.applied| && agent.applied[p] == id && serial <= agent.finishes
      && if serial <= agent.booted then p < |agent.applied| - (agent.finishes - agent.booted)
         else p == |agent.applied| - (agent.finishes - serial) - 1
  }

  /**
   * Why a restart forgets a finished command: the file could not be read, or a
   * write had spoiled it, or it held a save requested before the command had
   * finished, or the command was no longer among the newest retained.
   */
  ghost predicate LossHasCause(agent: Agent, spoiled: bool, readable: bool, id: CommandId, serial: nat) {
    var file := Spoil(agent.file, spoiled && agent.writes != []);
    || !readable
    || file == NoList
    || file.save.serial < serial
    || id !in Newest(agent.applied)
  }

  lemma RestartForgets(agent: Agent, spoiled: bool, readable: bool, id: CommandId, serial: nat)
    requires Tied(agent) && Remembered(agent, id, serial)
    requires id !in Restarted(agent, spoiled, readable).applied
    ensures LossHasCause(agent, spoiled, readable, id, serial)
  {
    var p :| 0 <= p < |agent.applied| && agent.applied[p] == id && serial <= agent.finishes
      && if serial <= agent.booted then p < |agent.applied| - (agent.finishes - agent.booted)
         else p == |agent.applied| - (agent.finishes - serial) - 1;
    var file := Spoil(agent.file, spoiled && agent.writes != []);
    if readable && file.Holds? && file.save.serial >= serial {
      var then_ := AppliedAt(agent.applied, agent.finishes, file.save.serial);
      assert SaveIsOurs(agent.applied, agent.finishes, agent.booted, file.save) ==> p < |then_| && then_[p] == id;
    }
  }

  /** A restart that still knows the command knows it from before it started. */
  lemma RestartRemembers(agent: Agent, spoiled: bool, readable: bool, id: CommandId, serial: nat)
    requires Remembered(agent, id, serial) && id in Restarted(agent, spoiled, readable).applied
    ensures Remembered(Restarted(agent, spoiled, readable), id, serial)
  {
    var after := Restarted(agent, spoiled, readable);
    var p :| 0 <= p < |after.applied| && after.applied[p] == id;
    assert after.applied[p] == id;
  }

  lemma StepRemembers(agent: Agent, act: Act, id: CommandId, serial: nat)
    requires Tied(agent) && AgentCan(agent, act) && !act.Restarts? && Remembered(agent, id, serial)
    ensures Remembered(AgentStep(agent, act), id, serial)
  {
    var p :| 0 <= p < |agent.applied| && agent.applied[p] == id && serial <= agent.finishes
      && if serial <= agent.booted then p < |agent.applied| - (agent.finishes - agent.booted)
         else p == |agent.applied| - (agent.finishes - serial) - 1;
    assert AgentStep(agent, act).applied[p] == id;
  }

  /** At `k` the agent, running the command, threw or died. */
  ghost predicate CutShortAt(worlds: seq<World>, events: seq<Event>, k: nat, a: AgentId, id: CommandId) {
    && k < |events| && k < |worlds| && events[k].Does? && events[k].agentId == a
    && a in worlds[k].agents && worlds[k].agents[a].phase == Running(id)
    && (events[k].act == Throw(id) || events[k].act.Restarts?)
  }

  /** The execution begun at `i` ended without finishing: it threw, or the process died in it. */
  ghost predicate CutShort(worlds: seq<World>, events: seq<Event>, i: nat, n: nat, a: AgentId, id: CommandId) {
    exists k :: i < k < n && CutShortAt(worlds, events, k, a, id)
  }

  /** It finished, and a later restart forgot it, for one of the four reasons. */
  ghost predicate ForgottenAt(worlds: seq<World>, events: seq<Event>, f: nat, k: nat, a: AgentId, id: CommandId) {
    && f < k < |events| && |worlds| == |events| + 1
    && events[f] == Does(a, Finish(id)) && a in worlds[f + 1].agents
    && events[k].Does? && events[k].agentId == a && events[k].act.Restarts?
    && a in worlds[k].agents && id in worlds[k].agents[a].applied
    && a in worlds[k + 1].agents && id !in worlds[k + 1].agents[a].applied
    && LossHasCause(worlds[k].agents[a], events[k].act.spoiled, events[k].act.readable, id,
      worlds[f + 1].agents[a].finishes)
  }

  ghost predicate Forgotten(worlds: seq<World>, events: seq<Event>, i: nat, n: nat, a: AgentId, id: CommandId) {
    exists f, k :: i < f < k < n && ForgottenAt(worlds, events, f, k, a, id)
  }

  /** Finished at `f`, and still remembered at `n`. */
  ghost predicate KnownSince(worlds: seq<World>, events: seq<Event>, f: nat, n: nat, a: AgentId, id: CommandId) {
    && f < n && f < |events| && |worlds| == |events| + 1 && n < |worlds|
    && events[f] == Does(a, Finish(id)) && a in worlds[f + 1].agents && a in worlds[n].agents
    && Remembered(worlds[n].agents[a], id, worlds[f + 1].agents[a].finishes)
  }

  ghost predicate Known(worlds: seq<World>, events: seq<Event>, i: nat, n: nat, a: AgentId, id: CommandId) {
    exists f :: i < f && KnownSince(worlds, events, f, n, a, id)
  }

  /** What can have become of an execution begun at `i`. */
  ghost predicate AccountedFor(worlds: seq<World>, events: seq<Event>, i: nat, n: nat, a: AgentId, id: CommandId)
    requires n < |worlds| && a in worlds[n].agents
  {
    || worlds[n].agents[a].phase == Running(id)
    || CutShort(worlds, events, i, n, a, id)
    || Known(worlds, events, i, n, a, id)
    || Forgotten(worlds, events, i, n, a, id)
  }

  /** From its start on, an execution is running, cut short, known, or forgotten for a reason. */
  lemma {:induction false} ExecutionIsAccountedFor(worlds: seq<World>, events: seq<Event>, utc: Calendar, i: nat,
      n: nat, a: AgentId, id: CommandId)
    requires IsHistory(worlds, events, utc) && i < n < |worlds| && events[i] == Does(a, Begin(id))
    ensures a in worlds[n].agents && AccountedFor(worlds, events, i, n, a, id)
  {
    assert |worlds| == |events| + 1;
    hide *;
    if n == i + 1 {
      ExecutionBegins(worlds, events, utc, i, a, id);
    } else {
      ExecutionIsAccountedFor(worlds, events, utc, i, n - 1, a, id);
      AccountStep(worlds, events, utc, i, n, a, id);
    }
  }

  lemma ExecutionBegins(worlds: seq<World>, events: seq<Event>, utc: Calendar, i: nat, a: AgentId, id: CommandId)
    requires IsHistory(worlds, events, utc) && i < |events| && events[i] == Does(a, Begin(id))
    ensures a in worlds[i + 1].agents && AccountedFor(worlds, events, i, i + 1, a, id)
  {
    hide After;
  }

  lemma AccountStep(worlds: seq<World>, events: seq<Event>, utc: Calendar, i: nat, n: nat, a: AgentId, id: CommandId)
    requires IsHistory(worlds, events, utc) && i < n - 1 < n < |worlds|
    requires a in worlds[n - 1].agents && AccountedFor(worlds, events, i, n - 1, a, id)
    ensures a in worlds[n].agents && AccountedFor(worlds, events, i, n, a, id)
  {
    AgentAfter(worlds, events, utc, n - 1, a);
    hide IsHistory, CutShort, Forgotten, Known;
    if CutShort(worlds, events, i, n - 1, a, id) {
      CutShortStays(worlds, events, i, n, a, id);
    } else if Forgotten(worlds, events, i, n - 1, a, id) {
      ForgottenStays(worlds, events, i, n, a, id);
    } else if worlds[n - 1].agents[a].phase == Running(id) {
      RunningStep(worlds, events, utc, i, n, a, id);
    } else {
      KnownStep(worlds, events, utc, i, n, a, id);
    }
  }

  lemma CutShortStays(worlds: seq<World>, events: seq<Event>, i: nat, n: nat, a: AgentId, id: CommandId)
    requires n > 0 && CutShort(worlds, events, i, n - 1, a, id)
    ensures CutShort(worlds, events, i, n, a, id)
  {
    hide CutShortAt;
    var k: nat :| i < k < n - 1 && CutShortAt(worlds, events, k, a, id);
  }

  lemma ForgottenStays(worlds: seq<World>, events: seq<Event>, i: nat, n: nat, a: AgentId, id: CommandId)
    requires n > 0 && Forgotten(worlds, events, i, n - 1, a, id)
    ensures Forgotten(worlds, events, i, n, a, id)
  {
    hide ForgottenAt;
    var f: nat, k: nat :| i < f < k < n - 1 && ForgottenAt(worlds, events, f, k, a, id);
  }

  lemma RunningStep(worlds: seq<World>, events: seq<Event>, utc: Calendar, i: nat, n: nat, a: AgentId, id: CommandId)
    requires IsHistory(worlds, events, utc) && i < n - 1 < n < |worlds|
    requires a in worlds[n - 1].agents && worlds[n - 1].agents[a].phase == Running(id)
    ensures a in worlds[n].agents && AccountedFor(worlds, events, i, n, a, id)
  {
    AgentAfter(worlds, events, utc, n - 1, a);
    AgentsAreTied(worlds, events, utc, n - 1, a);
    var e := events[n - 1];
    if e.Does? && e.agentId == a {
      RunningAct(worlds[n - 1].agents[a], e.act, id);
      hide AgentStep, Tied, Remembered, Forgotten;
      if e.act.Finish? {
        assert KnownSince(worlds, events, n - 1, n, a, id);
      } else if e.act.Throw? || e.act.Restarts? {
        assert CutShortAt(worlds, events, n - 1, a, id);
      }
    } else {
      StaysRunning(worlds, events, utc, n - 1, a, id);
    }
  }

  lemma StaysRunning(worlds: seq<World>, events: seq<Event>, utc: Calendar, i: nat, a: AgentId, id: CommandId)
    requires IsHistory(worlds, events, utc) && i < |events| && !(events[i].Does? && events[i].agentId == a)
    requires a in worlds[i].agents && worlds[i].agents[a].phase == Running(id)
    ensures a in worlds[i + 1].agents && worlds[i + 1].agents[a].phase == Running(id)
  {
    hide After, AgentCan, AgentStep;
  }

  /** What a running agent can do, apart from dying. */
  lemma RunningAct(agent: Agent, act: Act, id: CommandId)
    requires Tied(agent) && AgentCan(agent, act) && agent.phase == Running(id)
    ensures match act
      case Finish(done) => done == id && Remembered(AgentStep(agent, act), id, AgentStep(agent, act).finishes)
      case Throw(thrown) => thrown == id
      case Restarts(_, _) => true
      case _ => AgentStep(agent, act).phase == Running(id)
  {
    if act.Finish? {
      var after := AgentStep(agent, act);
      assert after.applied[|after.applied| - 1] == id;
    }
  }

  lemma KnownStep(worlds: seq<World>, events: seq<Event>, utc: Calendar, i: nat, n: nat, a: AgentId, id: CommandId)
    requires IsHistory(worlds, events, utc) && i < n - 1 < n < |worlds| && Known(worlds, events, i, n - 1, a, id)
    ensures a in worlds[n].agents
    ensures Known(worlds, events, i, n, a, id) || Forgotten(worlds, events, i, n, a, id)
  {
    hide IsHistory, KnownSince, ForgottenAt;
    var f: nat :| i < f && KnownSince(worlds, events, f, n - 1, a, id);
    KnownSinceStep(worlds, events, utc, f, n, a, id);
  }

  lemma KnownSinceStep(worlds: seq<World>, events: seq<Event>, utc: Calendar, f: nat, n: nat, a: AgentId, id: CommandId)
    requires IsHistory(worlds, events, utc) && n > 0 && KnownSince(worlds, events, f, n - 1, a, id) && n < |worlds|
    ensures a in worlds[n].agents && f < n - 1
    ensures KnownSince(worlds, events, f, n, a, id) || ForgottenAt(worlds, events, f, n - 1, a, id)
  {
    AgentAfter(worlds, events, utc, n - 1, a);
    AgentsAreTied(worlds, events, utc, n - 1, a);
    assert |worlds| == |events| + 1;
    var agent, e, serial := worlds[n - 1].agents[a], events[n - 1], worlds[f + 1].agents[a].finishes;
    hide IsHistory, AgentStep, AgentCan, Remembered, LossHasCause, Tied, Restarted;
    if e.Does? && e.agentId == a {
      ActKnows(agent, e.act, id, serial);
    } else {
      SameListRemembers(agent, worlds[n].agents[a], id, serial);
    }
  }

  /** After an act the agent still remembers a command, or the act was a restart that forgot it, for a cause. */
  lemma ActKnows(agent: Agent, act: Act, id: CommandId, serial: nat)
    requires Tied(agent) && AgentCan(agent, act) && Remembered(agent, id, serial)
    ensures
      || Remembered(AgentStep(agent, act), id, serial)
      || (&& act.Restarts? && id in agent.applied && id !in AgentStep(agent, act).applied
          && LossHasCause(agent, act.spoiled, act.readable, id, serial))
  {
    hide Remembered, LossHasCause, Tied;
    if act.Restarts? {
      RestartIs(agent, act);
      RememberedIsApplied(agent, id, serial);
      if id in Restarted(agent, act.spoiled, act.readable).applied {
        RestartRemembers(agent, act.spoiled, act.readable, id, serial);
      } else {
        RestartForgets(agent, act.spoiled, act.readable, id, serial);
      }
    } else {
      StepRemembers(agent, act, id, serial);
    }
  }

  /** What one event makes of an agent: its own act, or a change of phase at most. */
  lemma AgentAfter(worlds: seq<World>, events: seq<Event>, utc: Calendar, i: nat, a: AgentId)
    requires IsHistory(worlds, events, utc) && i < |events| && a in worlds[i].agents
    ensures a in worlds[i + 1].agents
    ensures events[i].Does? && events[i].agentId == a ==>
      AgentCan(worlds[i].agents[a], events[i].act) &&
      worlds[i + 1].agents[a] == AgentStep(worlds[i].agents[a], events[i].act)
    ensures !(events[i].Does? && events[i].agentId == a) ==>
      worlds[i + 1].agents[a] == worlds[i].agents[a].(phase := worlds[i + 1].agents[a].phase)
  {
    hide After, AgentCan, AgentStep;
  }

  lemma RestartIs(agent: Agent, act: Act)
    requires act.Restarts? && AgentCan(agent, act)
    ensures AgentStep(agent, act) == Restarted(agent, act.spoiled, act.readable)
  {
  }

  lemma RememberedIsApplied(agent: Agent, id: CommandId, serial: nat)
    requires Remembered(agent, id, serial)
    ensures id in agent.applied
  {
  }

  lemma SameListRemembers(agent: Agent, other: Agent, id: CommandId, serial: nat)
    requires Remembered(agent, id, serial) && other == agent.(phase := other.phase)
    ensures Remembered(other, id, serial)
  {
    var p :| 0 <= p < |agent.applied| && agent.applied[p] == id && serial <= agent.finishes
      && if serial <= agent.booted then p < |agent.applied| - (agent.finishes - agent.booted)
         else p == |agent.applied| - (agent.finishes - serial) - 1;
    assert other.applied[p] == id;
  }

  /** A command in hand was handed out since it last was not. */
  lemma {:induction false} HandedOutSince(worlds: seq<World>, events: seq<Event>, utc: Calendar, m: nat, n: nat,
      a: AgentId, id: CommandId) returns (h: nat)
    requires IsHistory(worlds, events, utc) && m <= n < |worlds|
    requires InHand(worlds[m], a, id) == 0 && InHand(worlds[n], a, id) == 1
    ensures m <= h < n && events[h] == HandedOut(a, id, true)
  {
    hide After;
    if InHand(worlds[n - 1], a, id) == 0 {
      h := n - 1;
    } else {
      h := HandedOutSince(worlds, events, utc, m, n - 1, a, id);
    }
  }

  /**
   * An agent carries out a command again only if it was handed out again while
   * no acknowledgement of it had landed, and the earlier execution threw or
   * died, or was finished and then forgotten by a restart for one of the four
   * reasons of `LossHasCause`.
   */
  lemma SecondExecutionHasCause(worlds: seq<World>, events: seq<Event>, utc: Calendar, i: nat, j: nat, a: AgentId,
      id: CommandId)
    returns (h: nat)
    requires IsHistory(worlds, events, utc) && i < j < |events|
    requires events[i] == Does(a, Begin(id)) && events[j] == Does(a, Begin(id))
    ensures i < h < j && events[h] == HandedOut(a, id, true)
    ensures id < |worlds[h].api.commands| && worlds[h].api.commands[id].acknowledgedAt.None?
    ensures CutShort(worlds, events, i, j, a, id) || Forgotten(worlds, events, i, j, a, id)
  {
    assert |worlds| == |events| + 1;
    hide IsHistory, LossHasCause, Remembered, CutShort, Forgotten;
    ExecutionIsAccountedFor(worlds, events, utc, i, j, a, id);
    BeginIsOfUnapplied(worlds, events, utc, j, a, id);
    KnownIsApplied(worlds, events, i, j, a, id);
    BeginEmptiesTheHand(worlds, events, utc, i, a, id);
    h := HandedOutSince(worlds, events, utc, i + 1, j, a, id);
    HandOutIsOfUnacknowledged(worlds, events, utc, h, a, id);
  }

  lemma KnownIsApplied(worlds: seq<World>, events: seq<Event>, i: nat, n: nat, a: AgentId, id: CommandId)
    requires n < |worlds| && a in worlds[n].agents
    ensures Known(worlds, events, i, n, a, id) ==> id in worlds[n].agents[a].applied
  {
    if Known(worlds, events, i, n, a, id) {
      var f: nat :| i < f && KnownSince(worlds, events, f, n, a, id);
      RememberedIsApplied(worlds[n].agents[a], id, worlds[f + 1].agents[a].finishes);
    }
  }

  lemma BeginIsOfUnapplied(worlds: seq<World>, events: seq<Event>, utc: Calendar, j: nat, a: AgentId, id: CommandId)
    requires IsHistory(worlds, events, utc) && j < |events| && events[j] == Does(a, Begin(id))
    ensures a in worlds[j].agents && id !in worlds[j].agents[a].applied
    ensures worlds[j].agents[a].phase == Received(id) && InHand(worlds[j], a, id) == 1
  {
    hide After;
  }

  lemma BeginEmptiesTheHand(worlds: seq<World>, events: seq<Event>, utc: Calendar, i: nat, a: AgentId, id: CommandId)
    requires IsHistory(worlds, events, utc) && i < |events| && events[i] == Does(a, Begin(id))
    ensures InHand(worlds[i + 1], a, id) == 0
  {
    hide After;
  }

  lemma HandOutIsOfUnacknowledged(worlds: seq<World>, events: seq<Event>, utc: Calendar, h: nat, a: AgentId,
      id: CommandId)
    requires IsHistory(worlds, events, utc) && h < |events| && events[h] == HandedOut(a, id, true)
    ensures id < |worlds[h].api.commands| && worlds[h].api.commands[id].acknowledgedAt.None?
  {
    hide After, AgentCan, AgentStep;
  }

  // --------------------------------------------------- the same process, twice

  /** A command handed out, thrown over, and handed out again when its lease is up. */
  function TwiceEvents(a: AgentId): seq<Event> {
    [Enrol(a), Serve(PullerReq(a)), HandedOut(a, 0, true), Does(a, Begin(0)), Does(a, Throw(0)), Advance(LEASE_MS),
     HandedOut(a, 0, true), Does(a, Begin(0))]
  }

  ghost function TwiceWorlds(a: AgentId): seq<World> {
    var row := NewCommand(a, PullerControl, HOST_LEVEL_COMMAND_SESSION, NO_PAYLOAD, 0);
    var none := EMPTY_API;
    var asked := none.(commands := [row]);
    var once := none.(commands := [row.(deliveredAt := Some(0), deliveryCount := 1)]);
    var twice := none.(commands := [row.(deliveredAt := Some(LEASE_MS), deliveryCount := 2)]);
    var idle, got, runs := NEW_AGENT, NEW_AGENT.(phase := Received(0)), NEW_AGENT.(phase := Running(0));
    [World(none, map[], {}, 0), World(none, map[a := idle], {}, 0), World(asked, map[a := idle], {}, 0),
     World(once, map[a := got], {}, 0), World(once, map[a := runs], {}, 0), World(once, map[a := idle], {}, 0),
     World(once, map[a := idle], {}, LEASE_MS), World(twice, map[a := got], {}, LEASE_MS),
     World(twice, map[a := runs], {}, LEASE_MS)]
  }

  /** A handler that throws leaves no mark: the same process, never restarted, runs the command again. */
  lemma SameProcessRunsTwice(a: AgentId, utc: Calendar)
    ensures IsHistory(TwiceWorlds(a), TwiceEvents(a), utc)
    ensures Executions(TwiceEvents(a), 8, a, 0) == 2
    ensures forall k | 0 <= k < 8 :: !(TwiceEvents(a)[k].Does? && TwiceEvents(a)[k].act.Restarts?)
  {
    var worlds, events := TwiceWorlds(a), TwiceEvents(a);
    TwiceExecuted(a);
    assert |worlds| == |events| + 1 && |events| == 8 && worlds[0] == World(EMPTY_API, map[], {}, 0);
    hide TwiceWorlds, TwiceEvents, Can, Next;
    forall i | 0 <= i < 8 ensures Can(worlds[i], events[i]) && worlds[i + 1] == Next(worlds[i], events[i], utc) {
      TwiceStep(a, utc, i);
    }
  }

  lemma TwiceExecuted(a: AgentId)
    ensures Executions(TwiceEvents(a), 8, a, 0) == 2
    ensures forall k | 0 <= k < 8 :: !(TwiceEvents(a)[k].Does? && TwiceEvents(a)[k].act.Restarts?)
  {
    var events := TwiceEvents(a);
    assert Executions(events, 0, a, 0) == Executions(events, 1, a, 0) == 0;
    assert Executions(events, 2, a, 0) == Executions(events, 3, a, 0) == 0;
    assert Executions(events, 4, a, 0) == Executions(events, 5, a, 0) == 1;
    assert Executions(events, 6, a, 0) == Executions(events, 7, a, 0) == 1;
  }

  lemma TwiceStep(a: AgentId, utc: Calendar, i: nat)
    requires i < 8
    ensures var w, e := TwiceWorlds(a)[i], TwiceEvents(a)[i]; Can(w, e) && TwiceWorlds(a)[i + 1] == Next(w, e, utc)
  {
    if i < 3 {
      FirstTurn(a, utc, i);
    } else if i < 6 {
      SecondTurn(a, utc, i);
    } else {
      ThirdTurn(a, utc, i);
    }
  }

  lemma FirstTurn(a: AgentId, utc: Calendar, i: nat)
    requires i < 3
    ensures var w, e := TwiceWorlds(a)[i], TwiceEvents(a)[i]; Can(w, e) && TwiceWorlds(a)[i + 1] == Next(w, e, utc)
  {
  }

  lemma SecondTurn(a: AgentId, utc: Calendar, i: nat)
    requires 3 <= i < 6
    ensures var w, e := TwiceWorlds(a)[i], TwiceEvents(a)[i]; Can(w, e) && TwiceWorlds(a)[i + 1] == Next(w, e, utc)
  {
  }

  lemma ThirdTurn(a: AgentId, utc: Calendar, i: nat)
    requires 6 <= i < 8
    ensures var w, e := TwiceWorlds(a)[i], TwiceEvents(a)[i]; Can(w, e) && TwiceWorlds(a)[i + 1] == Next(w, e, utc)
  {
  }
}
