/** The agent process and its durable store, as the steps they take in a history of command delivery. */
module Agents {
  import opened Entities
  import opened Lifecycle
  import opened AppliedSet
  import opened Delivery
  import opened Sessions

  // ------------------------------------------------------------ runs of acts

  /** One agent can do these acts one after the other. */
  predicate CanAll(agent: Agent, acts: seq<Act>)
    decreases |acts|, 0
  {
    acts == [] || (CanAll(agent, acts[..|acts| - 1]) && AgentCan(All(agent, acts[..|acts| - 1]), acts[|acts| - 1]))
  }

  function All(agent: Agent, acts: seq<Act>): Agent
    requires CanAll(agent, acts)
    decreases |acts|, 1
  {
    if acts == [] then agent else AgentStep(All(agent, acts[..|acts| - 1]), acts[|acts| - 1])
  }

  predicate OfTheStore(act: Act) {
    act.SaveLands? || act.SaveFails?
  }

  /** The acts of the command path itself, without those of saves still on their way. */
  function OfThePath(acts: seq<Act>): seq<Act> {
    if acts == [] then []
    else
      var last := acts[|acts| - 1];
      OfThePath(acts[..|acts| - 1]) + if OfTheStore(last) then [] else [last]
  }

  /** `acts` lead this agent from `before` to `later`. */
  ghost predicate Leads(before: Agent, acts: seq<Act>, later: Agent) {
    CanAll(before, acts) && later == All(before, acts)
  }

  lemma LeadsOn(before: Agent, acts: seq<Act>, later: Agent, act: Act)
    requires Leads(before, acts, later) && AgentCan(later, act)
    ensures Leads(before, acts + [act], AgentStep(later, act))
    ensures OfThePath(acts + [act]) == OfThePath(acts) + if OfTheStore(act) then [] else [act]
  {
    assert (acts + [act])[..|acts + [act]| - 1] == acts;
  }

  /** What an agent does on its own continues any history it is part of. */
  lemma {:induction false} ActsAreHistory(worlds: seq<World>, events: seq<Event>, utc: Calendar, a: AgentId,
    acts: seq<Act>)
    returns (later: seq<World>, more: seq<Event>)
    requires IsHistory(worlds, events, utc) && a in worlds[|events|].agents && CanAll(worlds[|events|].agents[a], acts)
    ensures IsHistory(later, more, utc) && |more| == |events| + |acts|
    ensures worlds <= later && events <= more && forall k | 0 <= k < |acts| :: more[|events| + k] == Does(a, acts[k])
    ensures a in later[|more|].agents && later[|more|].agents[a] == All(worlds[|events|].agents[a], acts)
  {
    hide After, AgentStep, AgentCan;
    if acts == [] {
      later, more := worlds, events;
    } else {
      var front, last := acts[..|acts| - 1], acts[|acts| - 1];
      later, more := ActsAreHistory(worlds, events, utc, a, front);
      var e := Does(a, last);
      later, more := later + [Next(later[|more|], e, utc)], more + [e];
    }
  }

  // ------------------------------------------------------------------ the store

  /** The durable list of applied ids. `writes` are the saves requested and not yet settled. */
  class AppliedStore {
    var file: File
    var writes: seq<Save>

    /** The store of a new process over the file it finds. */
    constructor (file: File)
      ensures this.file == file && writes == []
    {
      this.file, writes := file, [];
    }

    method LoadIds(readable: bool) returns (ids: seq<CommandId>)
      ensures ids == Load(file, readable)
    {
      if !readable {
        return [];
      }
      match file {
        case NoList => return [];
        case Holds(save) => return save.ids;
      }
    }

    /** Requests a write; nobody waits for it. */
    method SaveIds(ids: seq<CommandId>, finishes: nat)
      modifies this`writes
      ensures writes == old(writes) + [SaveOf(ids, finishes)]
    {
      writes := writes + [Save(Newest(ids), finishes)];
    }

    /** A pending write settles: it lands, or its error is swallowed, the old file perhaps spoiled. */
    method Settle(k: nat, lands: bool, spoiled: bool)
      requires k < |writes|
      modifies this
      ensures writes == Without(old(writes), k)
      ensures file == if lands then Holds(old(writes)[k]) else Spoil(old(file), spoiled)
    {
      if lands {
        file := Holds(writes[k]);
      } else if spoiled {
        file := NoList;
      }
      writes := writes[..k] + writes[k + 1..];
    }
  }

  // ---------------------------------------------------------------- the process

  class AgentProcess {
    const store: AppliedStore
    /** Where the command path is. */
    var phase: Phase
    /** A `Set`, in insertion order. */
    var applied: seq<CommandId>
    var finishes: nat
    const booted: nat

    /** A new process: whatever agent died over this file, this is its restart. */
    constructor (store: AppliedStore, readable: bool, finishes: nat)
      requires store.writes == []
      ensures this.store == store && fresh(this)
      ensures forall died: Agent, spoiled | died.finishes == finishes &&
        Spoil(died.file, spoiled && died.writes != []) == store.file ::
        Value() == Restarted(died, spoiled, readable)
    {
      this.store, this.booted, this.finishes, phase, applied := store, finishes, finishes, Polling, [];
      new;
      applied := store.LoadIds(readable);
    }

    /** The agent this process is, in the terms of a history. */
    function Value(): Agent
      reads this, store
    {
      Agent(phase, applied, store.writes, store.file, finishes, booted)
    }

    /** While the path waits for an answer, saves requested earlier may settle, in any order. */
    method Await(ghost before: Agent, ghost acts: seq<Act>) returns (ghost more: seq<Act>)
      requires Leads(before, acts, Value())
      modifies store
      ensures Leads(before, more, Value()) && OfThePath(more) == OfThePath(acts)
    {
      hide Leads, OfThePath;
      more := acts;
      var settling: nat :| true;
      for i := 0 to settling
        invariant Leads(before, more, Value()) && OfThePath(more) == OfThePath(acts)
      {
        var k: nat, lands: bool, spoiled: bool :| true;
        if k < |store.writes| {
          ghost var act := if lands then SaveLands(k) else SaveFails(k, spoiled);
          LeadsOn(before, more, Value(), act);
          store.Settle(k, lands, spoiled);
          more := more + [act];
        }
      }
    }

    /**
     * One command from receipt to the end of its path. `completes` says whether
     * its handler returns or throws. What the process does is, act by act, what
     * the agent of a history does: refuse and acknowledge a duplicate; run,
     * record, save and acknowledge a new command, in that order; or throw,
     * recording and acknowledging nothing.
     */
    method Handle(id: CommandId, completes: bool) returns (thrown: bool, ghost acts: seq<Act>)
      requires phase == Received(id)
      modifies this, store
      ensures phase == Polling && (thrown <==> id !in old(applied) && !completes)
      ensures Leads(old(Value()), acts, Value())
      ensures OfThePath(acts) ==
        if id in old(applied) then [Refuse(id), Acked(id)]
        else if completes then [Begin(id), Finish(id), Acked(id)]
        else [Begin(id), Throw(id)]
    {
      hide Leads, OfThePath, Newest;
      ghost var before := Value();
      acts := [];
      NoActs(before);
      if id in applied {
        LeadsOn(before, acts, Value(), Refuse(id));
        acts := acts + [Refuse(id)];
        phase := Acking(id);
        acts := Acknowledge(before, acts, id);
        return false, acts;
      }

      LeadsOn(before, acts, Value(), Begin(id));
      acts := acts + [Begin(id)];
      phase := Running(id);
      acts := Await(before, acts);
      if !completes {
        LeadsOn(before, acts, Value(), Throw(id));
        acts := acts + [Throw(id)];
        phase := Polling;
        return true, acts;
      }

      LeadsOn(before, acts, Value(), Finish(id));
      acts := acts + [Finish(id)];
      applied := applied + [id];
      finishes := finishes + 1;
      store.SaveIds(applied, finishes);
      phase := Acking(id);

      acts := Acknowledge(before, acts, id);
      return false, acts;
    }

    /** Posts the acknowledgement and waits for its answer, which may be an error; that is logged and no more. */
    method Acknowledge(ghost before: Agent, ghost acts: seq<Act>, id: CommandId) returns (ghost more: seq<Act>)
      requires phase == Acking(id) && Leads(before, acts, Value())
      modifies this`phase, store
      ensures phase == Polling && Leads(before, more, Value()) && OfThePath(more) == OfThePath(acts) + [Acked(id)]
    {
      hide Leads, OfThePath;
      more := Await(before, acts);
      LeadsOn(before, more, Value(), Acked(id));
      more := more + [Acked(id)];
      phase := Polling;
    }
  }

  lemma NoActs(agent: Agent)
    ensures Leads(agent, [], agent) && OfThePath([]) == []
  {
  }
}
