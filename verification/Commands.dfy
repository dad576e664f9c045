/** The command queue: leases, the redelivery cap and acknowledgement. */
module Commands {
  import opened Wrappers
  import opened Entities

  const LEASE_MS := 30_000
  const ABANDON_AFTER_DELIVERIES := 3

  // ------------------------------------------------------------ specification

  function NewCommand(agentId: AgentId, kind: CommandType, sessionId: SessionId, payload: Payload,
      now: Millis): Command {
    Command(agentId, sessionId, kind, payload, now, None, None, 0)
  }

  /** One command of the same kind and payload for each agent, in order. */
  function Broadcast(agents: seq<AgentId>, kind: CommandType, sessionId: SessionId, payload: Payload,
      now: Millis): seq<Command> {
    seq(|agents|, i requires 0 <= i < |agents| => NewCommand(agents[i], kind, sessionId, payload, now))
  }

  predicate Eligible(c: Command, agentId: AgentId, now: Millis) {
    && c.agentId == agentId
    && c.acknowledgedAt.None?
    && c.deliveryCount < ABANDON_AFTER_DELIVERIES
    && (c.deliveredAt.None? || c.deliveredAt.value <= now - LEASE_MS)
  }

  /** A row the poll may hand out: eligible, and no eligible row was issued earlier. */
  predicate IsNext(rows: seq<Command>, agentId: AgentId, now: Millis, id: CommandId) {
    && id < |rows|
    && Eligible(rows[id], agentId, now)
    && forall k | 0 <= k < |rows| && Eligible(rows[k], agentId, now) :: rows[id].issuedAt <= rows[k].issuedAt
  }

  predicate NoneEligible(rows: seq<Command>, agentId: AgentId, now: Millis) {
    forall k | 0 <= k < |rows| :: !Eligible(rows[k], agentId, now)
  }

  function HandOut(rows: seq<Command>, id: CommandId, now: Millis): seq<Command>
    requires id < |rows|
  {
    rows[id := rows[id].(deliveredAt := Some(now), deliveryCount := rows[id].deliveryCount + 1)]
  }

  function Acknowledge(rows: seq<Command>, agentId: AgentId, id: CommandId, now: Millis): seq<Command> {
    if id < |rows| && rows[id].agentId == agentId && rows[id].acknowledgedAt.None?
    then rows[id := rows[id].(acknowledgedAt := Some(now))]
    else rows
  }

  function Retire(rows: seq<Command>, id: CommandId, now: Millis): seq<Command> {
    if id < |rows| then rows[id := rows[id].(acknowledgedAt := Some(now))] else rows
  }

  /** Past the cap and never acknowledged. The lease plays no part. */
  predicate Dead(c: Command, agentId: AgentId) {
    c.agentId == agentId && c.acknowledgedAt.None? && c.deliveryCount >= ABANDON_AFTER_DELIVERIES
  }

  ghost predicate OldestFirst(rows: seq<Command>, ids: seq<CommandId>) {
    && (forall i | 0 <= i < |ids| :: ids[i] < |rows|)
    && (forall i, j | 0 <= i < j < |ids| :: ids[i] != ids[j] && rows[ids[i]].issuedAt <= rows[ids[j]].issuedAt)
  }

  /** `dead` lists exactly one agent's dead rows, each once, oldest first. */
  ghost predicate IsDeadListing(rows: seq<Command>, agentId: AgentId, dead: seq<CommandId>) {
    && OldestFirst(rows, dead)
    && (forall id: nat :: id in dead <==> id < |rows| && Dead(rows[id], agentId))
  }

  /**
   * Giving up on a row leaves exactly what an acknowledgement would have left: the two cannot be
   * told apart afterwards.
   */
  lemma RetiringLooksLikeAcknowledging(rows: seq<Command>, agentId: AgentId, id: CommandId, now: Millis)
    requires id < |rows| && Dead(rows[id], agentId)
    ensures Retire(rows, id, now) == Acknowledge(rows, agentId, id, now)
  {
  }

  /** Places a row behind every row at least as old. */
  function InsertByAge(rows: seq<Command>, ids: seq<CommandId>, id: CommandId): (r: seq<CommandId>)
    requires OldestFirst(rows, ids) && id < |rows| && id !in ids
    ensures OldestFirst(rows, r)
    ensures forall k: nat :: k in r <==> k == id || k in ids
  {
    if ids == [] then [id]
    else
      var last := ids[|ids| - 1];
      var front := ids[..|ids| - 1];
      assert ids == front + [last];
      if rows[last].issuedAt <= rows[id].issuedAt then ids + [id]
      else
        var r := InsertByAge(rows, front, id);
        assert forall i | 0 <= i < |r| :: r[i] in r;
        r + [last]
  }

  /** The query behind `abandoned`: the dead rows among the first `n`. */
  function Abandoned(rows: seq<Command>, agentId: AgentId, n: nat): (dead: seq<CommandId>)
    requires n <= |rows|
    ensures OldestFirst(rows, dead)
    ensures forall id: nat :: id in dead <==> id < n && Dead(rows[id], agentId)
  {
    if n == 0 then []
    else
      var dead := Abandoned(rows, agentId, n - 1);
      if Dead(rows[n - 1], agentId) then InsertByAge(rows, dead, n - 1) else dead
  }

  /** When something is eligible, something is oldest. */
  lemma {:induction false} NextExists(rows: seq<Command>, agentId: AgentId, now: Millis, n: nat) returns (id: CommandId)
    requires n <= |rows|
    requires exists k :: 0 <= k < n && Eligible(rows[k], agentId, now)
    ensures id < n && Eligible(rows[id], agentId, now)
    ensures forall k | 0 <= k < n && Eligible(rows[k], agentId, now) :: rows[id].issuedAt <= rows[k].issuedAt
  {
    if exists k :: 0 <= k < n - 1 && Eligible(rows[k], agentId, now) {
      id := NextExists(rows, agentId, now, n - 1);
      if Eligible(rows[n - 1], agentId, now) && rows[n - 1].issuedAt < rows[id].issuedAt {
        id := n - 1;
      }
    } else {
      id := n - 1;
    }
  }

  // ---------------------------------------------------------------- the service

  class CommandsService {
    const db: Database

    constructor (db: Database)
      ensures this.db == db
    {
      this.db := db;
    }

    method Queue(agentId: AgentId, kind: CommandType, sessionId: SessionId, payload: Payload, now: Millis)
      modifies db`commands
      ensures db.commands == old(db.commands) + [NewCommand(agentId, kind, sessionId, payload, now)]
    {
      db.commands := db.commands + [NewCommand(agentId, kind, sessionId, payload, now)];
    }

    /**
     * The long poll. `clock` lists the readings of successive ticks and runs at
     * least to the deadline; `tables` lists what each tick finds, whatever
     * other requests made of the table since the tick before.
     */
    method NextFor(agentId: AgentId, windowMs: nat, clock: seq<Millis>, tables: seq<seq<Command>>)
      returns (handed: Option<CommandId>, tick: nat)
      requires 0 < |clock| == |tables| && clock[|clock| - 1] >= clock[0] + windowMs && tables[0] == db.commands
      modifies db`commands
      ensures tick < |clock| && forall t | 0 <= t < tick ::
        clock[t] < clock[0] + windowMs && NoneEligible(tables[t], agentId, clock[t])
      ensures handed.Some? ==>
        && IsNext(tables[tick], agentId, clock[tick], handed.value)
        && db.commands == HandOut(tables[tick], handed.value, clock[tick])
      ensures handed.None? ==>
        && clock[tick] >= clock[0] + windowMs && NoneEligible(tables[tick], agentId, clock[tick])
        && db.commands == tables[tick]
    {
      var deadline := clock[0] + windowMs;
      tick := 0;
      while true
        invariant tick < |clock|
        invariant forall t | 0 <= t < tick :: clock[t] < deadline && NoneEligible(tables[t], agentId, clock[t])
        decreases |clock| - tick
      {
        hide NoneEligible;
        db.commands := tables[tick];
        var pending := FindOldest(agentId, clock[tick]);
        if pending.Some? {
          db.commands := HandOut(db.commands, pending.value, clock[tick]);
          return pending, tick;
        }
        if clock[tick] >= deadline {
          return None, tick;
        }
        tick := tick + 1;
      }
    }

    /** The database query behind the poll; which of equally old rows comes first is its choice. */
    method FindOldest(agentId: AgentId, now: Millis) returns (found: Option<CommandId>)
      ensures found.Some? ==> IsNext(db.commands, agentId, now, found.value)
      ensures found.None? ==> NoneEligible(db.commands, agentId, now)
    {
      var rows := db.commands;
      if k :| 0 <= k < |rows| && Eligible(rows[k], agentId, now) {
        ghost var oldest := NextExists(rows, agentId, now, |rows|);
        assert IsNext(rows, agentId, now, oldest);
        hide IsNext, Eligible;
        var id: nat :| id < |rows| && IsNext(rows, agentId, now, id);
        return Some(id);
      }
      return None;
    }

    method Ack(agentId: AgentId, id: CommandId, now: Millis)
      modifies db`commands
      ensures db.commands == Acknowledge(old(db.commands), agentId, id, now)
    {
      if id >= |db.commands| || db.commands[id].agentId != agentId || db.commands[id].acknowledgedAt.Some? {
        return;
      }
      db.commands := db.commands[id := db.commands[id].(acknowledgedAt := Some(now))];
    }

    method RetireRow(id: CommandId, now: Millis)
      modifies db`commands
      ensures db.commands == Retire(old(db.commands), id, now)
    {
      if id < |db.commands| {
        db.commands := db.commands[id := db.commands[id].(acknowledgedAt := Some(now))];
      }
    }

    method FindAbandoned(agentId: AgentId) returns (dead: seq<CommandId>)
      ensures IsDeadListing(db.commands, agentId, dead)
    {
      dead := Abandoned(db.commands, agentId, |db.commands|);
    }
  }
}
