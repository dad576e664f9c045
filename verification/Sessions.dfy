/** The session life cycle, the start barrier and the abandonment sweep. */
module Sessions {
  import opened Wrappers
  import opened Entities
  import opened Commands
  import opened Prefixes

  const START_BARRIER_LEAD_MS := 5_000

  /** The UTC calendar, as the clock library computes it. */
  type Calendar = Millis -> Date

  // ------------------------------------------------------------ specification

  /** First occurrences, in order: a JavaScript `Set` of agent ids. */
  function Distinct(ids: seq<AgentId>): (r: seq<AgentId>)
    ensures forall a :: a in r <==> a in ids
    ensures forall i, j | 0 <= i < j < |r| :: r[i] != r[j]
  {
    if ids == [] then []
    else
      var front := Distinct(ids[..|ids| - 1]);
      var last := ids[|ids| - 1];
      assert ids == ids[..|ids| - 1] + [last];
      if last in front then front else front + [last]
  }

  function AgentsOf(tracks: seq<Track>, sessionId: SessionId): (r: seq<AgentId>)
    ensures forall a :: a in r <==> exists k ::
      0 <= k < |tracks| && tracks[k].sessionId == sessionId && tracks[k].agentId == a
  {
    if tracks == [] then []
    else
      var last := tracks[|tracks| - 1];
      AgentsOf(tracks[..|tracks| - 1], sessionId) + if last.sessionId == sessionId then [last.agentId] else []
  }

  function Participants(tracks: seq<Track>, sessionId: SessionId): seq<AgentId> {
    Distinct(AgentsOf(tracks, sessionId))
  }

  function SpecAgents(specs: seq<TrackSpec>): seq<AgentId> {
    seq(|specs|, i requires 0 <= i < |specs| => specs[i].agentId)
  }

  function NewTracks(sessionId: SessionId, specs: seq<TrackSpec>): seq<Track> {
    seq(|specs|, i requires 0 <= i < |specs| => Track(sessionId, specs[i].agentId, specs[i].kind, specs[i].sourceRef,
      0, 0, false))
  }

  /** The ids of one agent's own tracks, the first new track having id `base`. */
  function TracksOf(specs: seq<TrackSpec>, agentId: AgentId, base: nat): (ids: seq<nat>)
    ensures forall t :: t in ids <==> base <= t < base + |specs| && specs[t - base].agentId == agentId
  {
    if specs == [] then []
    else
      var last := |specs| - 1;
      TracksOf(specs[..last], agentId, base) + if specs[last].agentId == agentId then [base + last] else []
  }

  function PrepareCommands(agents: seq<AgentId>, sessionId: SessionId, specs: seq<TrackSpec>, base: nat,
      now: Millis): seq<Command> {
    seq(|agents|, i requires 0 <= i < |agents| =>
      NewCommand(agents[i], Prepare, sessionId, NO_PAYLOAD.(tracks := TracksOf(specs, agents[i], base)), now))
  }

  /** Every new track is prepared by exactly one command: the one of its own agent. */
  lemma PreparedOnce(sessionId: SessionId, specs: seq<TrackSpec>, base: nat, now: Millis, i: nat) returns (m: nat)
    requires i < |specs|
    ensures var prepares := PrepareCommands(Distinct(SpecAgents(specs)), sessionId, specs, base, now);
      && m < |prepares| && prepares[m].agentId == specs[i].agentId
      && forall k | 0 <= k < |prepares| :: base + i in prepares[k].payload.tracks <==> k == m
  {
    hide TracksOf, Distinct;
    var agents := Distinct(SpecAgents(specs));
    assert SpecAgents(specs)[i] == specs[i].agentId;
    assert specs[i].agentId in agents;
    m :| m < |agents| && agents[m] == specs[i].agentId;
  }

  function CreateSession(api: Api, sessionId: SessionId, specs: seq<TrackSpec>, now: Millis): Api {
    api.(
      sessions := api.sessions[sessionId := Session(Preparing, now, None, None, None, None, None, None)],
      tracks := api.tracks + NewTracks(sessionId, specs),
      commands := api.commands + PrepareCommands(Distinct(SpecAgents(specs)), sessionId, specs, |api.tracks|, now),
      readiness := api.readiness[sessionId := map[]])
  }

  function OffsetOf(r: StatusReport): nat {
    Abs(r.clockOffset.GetOr(0))
  }

  /** The largest skew in a set of reports, or zero. */
  ghost predicate IsMaxOffset(ready: map<AgentId, StatusReport>, m: nat) {
    && (forall a | a in ready :: OffsetOf(ready[a]) <= m)
    && (m == 0 || exists a :: a in ready && OffsetOf(ready[a]) == m)
  }

  ghost function MaxOffset(ready: map<AgentId, StatusReport>): (m: nat)
    ensures IsMaxOffset(ready, m)
  {
    if ready == map[] then 0
    else
      var a :| a in ready;
      var rest := MaxOffset(ready - {a});
      assert forall b | b in ready && b != a :: b in ready - {a} && (ready - {a})[b] == ready[b];
      Max(OffsetOf(ready[a]), rest)
  }

  function SessionPrefix(session: Session, sessionId: SessionId, utc: Calendar): string {
    PrefixFor(sessionId, utc(session.startedAt.GetOr(session.createdAt)))
  }

  /** `to` was refused: nothing is saved. */
  function Refuse(api: Api): Outcome {
    Outcome(api, Some(BadRequest))
  }

  function ReportFailed(api: Api, sessionId: SessionId, report: StatusReport): Outcome
    requires sessionId in api.sessions
  {
    var session := api.sessions[sessionId];
    if !IsLegalTransition(session.state, Failed) then Refuse(api)
    else
      var failed := session.(
        state := Failed,
        failureReason := Some(report.agentId + ": " + report.reason.GetOr("unspecified")));
      Outcome(api.(sessions := api.sessions[sessionId := failed], readiness := api.readiness - {sessionId}), None)
  }

  function ReportStopped(api: Api, sessionId: SessionId, report: StatusReport): Outcome
    requires sessionId in api.sessions
  {
    var session := api.sessions[sessionId];
    if session.state != Stopping then Outcome(api, None)
    else
      var reason := if report.reason.GetOr("") != "" then report.reason else session.failureReason;
      Outcome(api.(sessions := api.sessions[sessionId := session.(state := Review, failureReason := reason)]), None)
  }

  function Readied(api: Api, sessionId: SessionId, report: StatusReport): map<AgentId, StatusReport> {
    (if sessionId in api.readiness then api.readiness[sessionId] else map[])[report.agentId := report]
  }

  ghost function StartedSession(session: Session, sessionId: SessionId, ready: map<AgentId, StatusReport>,
      now: Millis, utc: Calendar): Session {
    var t0 := now + START_BARRIER_LEAD_MS;
    session.(
      state := Recording,
      s3Prefix := Some(SessionPrefix(session, sessionId, utc)),
      t0 := Some(t0),
      startedAt := Some(session.startedAt.GetOr(t0)),
      clockOffsetMs := Some(MaxOffset(ready)))
  }

  /** The report is remembered even when the transition is then refused. */
  ghost function ReportReady(api: Api, sessionId: SessionId, report: StatusReport, now: Millis, utc: Calendar): Outcome
    requires sessionId in api.sessions
  {
    var session := api.sessions[sessionId];
    var ready := Readied(api, sessionId, report);
    var waiting := api.(readiness := api.readiness[sessionId := ready]);
    var agents := Participants(api.tracks, sessionId);
    if exists a :: a in agents && a !in ready then Outcome(waiting, None)
    else if !IsLegalTransition(session.state, Recording) then Refuse(waiting)
    else
      var started := StartedSession(session, sessionId, ready, now, utc);
      var payload := NO_PAYLOAD.(t0 := started.t0, prefix := started.s3Prefix);
      Outcome(
        api.(
          sessions := api.sessions[sessionId := started],
          commands := api.commands + Broadcast(agents, Start, sessionId, payload, now),
          readiness := waiting.readiness - {sessionId}),
        None)
  }

  ghost function ReportStatus(api: Api, sessionId: SessionId, report: StatusReport, now: Millis,
      utc: Calendar): Outcome {
    if sessionId !in api.sessions then Outcome(api, Some(NotFound))
    else match report.state
      case FailedReport => ReportFailed(api, sessionId, report)
      case StoppedReport => ReportStopped(api, sessionId, report)
      case ReadyReport => ReportReady(api, sessionId, report, now, utc)
      case _ => Outcome(api, None)
  }

  /**
   * A ready report that comes when recording is no longer legal is refused,
   * and remembered all the same when it completes the set.
   */
  lemma RefusedReadyIsRemembered(api: Api, sessionId: SessionId, report: StatusReport, now: Millis, utc: Calendar)
    requires sessionId in api.sessions && !IsLegalTransition(api.sessions[sessionId].state, Recording)
    requires report.state == ReadyReport
    ensures var after := ReportStatus(api, sessionId, report, now, utc);
      && after.api == api.(readiness := api.readiness[sessionId := Readied(api, sessionId, report)])
      && (after.error.Some? <==>
            forall a | a in Participants(api.tracks, sessionId) :: a in Readied(api, sessionId, report))
  {
    hide Participants;
  }

  /** A transition by the operator, then one command for every participant. */
  function OperatorMove(api: Api, sessionId: SessionId, moved: Session, kind: CommandType, payload: Payload,
      now: Millis): Outcome
    requires sessionId in api.sessions
  {
    if !IsLegalTransition(api.sessions[sessionId].state, moved.state) then Refuse(api)
    else
      Outcome(
        api.(
          sessions := api.sessions[sessionId := moved],
          commands := api.commands + Broadcast(Participants(api.tracks, sessionId), kind, sessionId, payload, now)),
        None)
  }

  function StopSession(api: Api, sessionId: SessionId, now: Millis): Outcome {
    if sessionId !in api.sessions then Outcome(api, Some(NotFound))
    else
      OperatorMove(api, sessionId, api.sessions[sessionId].(state := Stopping, endedAt := Some(now)), Stop,
        NO_PAYLOAD, now)
  }

  function SaveSession(api: Api, sessionId: SessionId, now: Millis, utc: Calendar): Outcome {
    if sessionId !in api.sessions then Outcome(api, Some(NotFound))
    else
      var session := api.sessions[sessionId];
      var prefix := Some(session.s3Prefix.GetOr(SessionPrefix(session, sessionId, utc)));
      OperatorMove(api, sessionId, session.(state := Uploading, s3Prefix := prefix), Upload,
        NO_PAYLOAD.(prefix := prefix), now)
  }

  function DiscardSession(api: Api, sessionId: SessionId, now: Millis): Outcome {
    if sessionId !in api.sessions then Outcome(api, Some(NotFound))
    else
      var session := api.sessions[sessionId];
      OperatorMove(api, sessionId, session.(state := Discarded), Abort, NO_PAYLOAD.(prefix := session.s3Prefix), now)
  }

  predicate CanFail(api: Api, sessionId: SessionId) {
    sessionId in api.sessions && IsLegalTransition(api.sessions[sessionId].state, Failed)
  }

  /** The report the poll route makes on behalf of an agent that never acknowledged. */
  function Unacknowledged(agentId: AgentId): StatusReport {
    StatusReport(agentId, FailedReport, None, Some("command_unacknowledged"))
  }

  /** What a poll does to the dead rows it found: the state it leaves, and the sessions it failed in turn. */
  ghost function Sweep(api: Api, agentId: AgentId, dead: seq<CommandId>, now: Millis, utc: Calendar)
    : (r: (Api, seq<SessionId>))
    requires forall i | 0 <= i < |dead| :: dead[i] < |api.commands|
    ensures |r.0.commands| == |api.commands|
    decreases |dead|
  {
    if dead == [] then (api, [])
    else
      var front, id := dead[..|dead| - 1], dead[|dead| - 1];
      var (before, failed) := Sweep(api, agentId, front, now, utc);
      var sessionId := api.commands[id].sessionId;
      var canFail := CanFail(before, sessionId);
      var reported := if canFail then ReportStatus(before, sessionId, Unacknowledged(agentId), now, utc).api else
        before;
      (reported.(commands := Retire(reported.commands, id, now)), failed + if canFail then [sessionId] else [])
  }

  /** One turn of the loop over dead rows. */
  ghost function SweepTurn(api: Api, failed: seq<SessionId>, agentId: AgentId, sessionId: SessionId, id: CommandId,
      now: Millis, utc: Calendar): (Api, seq<SessionId>) {
    var canFail := CanFail(api, sessionId);
    var reported := if canFail then ReportStatus(api, sessionId, Unacknowledged(agentId), now, utc).api else api;
    (reported.(commands := Retire(reported.commands, id, now)), failed + if canFail then [sessionId] else [])
  }

  lemma SweepStep(api: Api, agentId: AgentId, dead: seq<CommandId>, i: nat, now: Millis, utc: Calendar)
    requires i < |dead| && forall j | 0 <= j < |dead| :: dead[j] < |api.commands|
    ensures var (before, failed) := Sweep(api, agentId, dead[..i], now, utc);
      Sweep(api, agentId, dead[..i + 1], now, utc) ==
        SweepTurn(before, failed, agentId, api.commands[dead[i]].sessionId, dead[i], now, utc)
  {
    hide ReportStatus;
    assert dead[..i + 1][..i] == dead[..i] && dead[..i + 1][i] == dead[i];
  }

  // ---------------------------------------------------------------- the sweep

  /** One of the dead rows belongs to this session. */
  ghost predicate HasDead(rows: seq<Command>, dead: seq<CommandId>, sessionId: SessionId)
    requires forall i | 0 <= i < |dead| :: dead[i] < |rows|
  {
    exists i :: 0 <= i < |dead| && rows[dead[i]].sessionId == sessionId
  }

  ghost predicate SweepFails(api: Api, dead: seq<CommandId>, sessionId: SessionId)
    requires forall i | 0 <= i < |dead| :: dead[i] < |api.commands|
  {
    HasDead(api.commands, dead, sessionId) && CanFail(api, sessionId)
  }

  function FailedBy(session: Session, agentId: AgentId): Session {
    session.(state := Failed, failureReason := Some(agentId + ": " + "command_unacknowledged"))
  }

  /** A session that can fail does fail, and the report made on the agent's behalf raises nothing. */
  lemma ReportOnBehalf(api: Api, sessionId: SessionId, agentId: AgentId, now: Millis, utc: Calendar)
    requires CanFail(api, sessionId)
    ensures ReportStatus(api, sessionId, Unacknowledged(agentId), now, utc) ==
      Outcome(
        api.(
          sessions := api.sessions[sessionId := FailedBy(api.sessions[sessionId], agentId)],
          readiness := api.readiness - {sessionId}),
        None)
  {
  }

  lemma {:induction false} SweepRetires(api: Api, agentId: AgentId, dead: seq<CommandId>, now: Millis, utc: Calendar)
    requires forall i | 0 <= i < |dead| :: dead[i] < |api.commands|
    ensures var after := Sweep(api, agentId, dead, now, utc).0;
      && after == api.(sessions := after.sessions, commands := after.commands, readiness := after.readiness)
      && forall k | 0 <= k < |api.commands| ::
           after.commands[k] == if k in dead then api.commands[k].(acknowledgedAt := Some(now)) else api.commands[k]
  {
    hide ReportStatus;
    if dead != [] {
      var front, id := dead[..|dead| - 1], dead[|dead| - 1];
      assert dead == front + [id];
      SweepRetires(api, agentId, front, now, utc);
      var before := Sweep(api, agentId, front, now, utc).0;
      var sessionId := api.commands[id].sessionId;
      if CanFail(before, sessionId) {
        ReportOnBehalf(before, sessionId, agentId, now, utc);
      }
    }
  }

  lemma HasDeadStep(rows: seq<Command>, dead: seq<CommandId>)
    requires dead != [] && forall i | 0 <= i < |dead| :: dead[i] < |rows|
    ensures forall s :: HasDead(rows, dead, s) <==>
      HasDead(rows, dead[..|dead| - 1], s) || s == rows[dead[|dead| - 1]].sessionId
  {
    var front := dead[..|dead| - 1];
    forall s ensures HasDead(rows, dead, s) <==> HasDead(rows, front, s) || s == rows[dead[|front|]].sessionId {
      if HasDead(rows, front, s) {
        var i :| 0 <= i < |front| && rows[front[i]].sessionId == s;
        assert rows[dead[i]].sessionId == s;
      }
      if HasDead(rows, dead, s) {
        var i :| 0 <= i < |dead| && rows[dead[i]].sessionId == s;
        assert i < |front| ==> rows[front[i]].sessionId == s;
      }
    }
  }

  lemma {:induction false} SweepOneSession(api: Api, agentId: AgentId, dead: seq<CommandId>, now: Millis,
      utc: Calendar, s: SessionId)
    requires forall i | 0 <= i < |dead| :: dead[i] < |api.commands|
    ensures var (after, failed) := Sweep(api, agentId, dead, now, utc);
      && (s in after.sessions <==> s in api.sessions)
      && (s in api.sessions ==>
            after.sessions[s] == if SweepFails(api, dead, s) then FailedBy(api.sessions[s], agentId) else
              api.sessions[s])
      && (s in failed <==> SweepFails(api, dead, s))
      && (s in after.readiness <==> s in api.readiness && s !in failed)
      && (s in after.readiness ==> after.readiness[s] == api.readiness[s])
  {
    hide ReportStatus;
    if dead != [] {
      var front, id := dead[..|dead| - 1], dead[|dead| - 1];
      SweepOneSession(api, agentId, front, now, utc, s);
      HasDeadStep(api.commands, dead);
      var before := Sweep(api, agentId, front, now, utc).0;
      var sessionId := api.commands[id].sessionId;
      if CanFail(before, sessionId) {
        ReportOnBehalf(before, sessionId, agentId, now, utc);
      }
    }
  }

  lemma {:induction false} SweepFailsDistinct(api: Api, agentId: AgentId, dead: seq<CommandId>, now: Millis,
      utc: Calendar)
    requires forall i | 0 <= i < |dead| :: dead[i] < |api.commands|
    ensures var failed := Sweep(api, agentId, dead, now, utc).1; forall i, j | 0 <= i < j < |failed| ::
      failed[i] != failed[j]
  {
    hide ReportStatus;
    if dead != [] {
      var front := dead[..|dead| - 1];
      SweepFailsDistinct(api, agentId, front, now, utc);
      SweepOneSession(api, agentId, front, now, utc, api.commands[dead[|front|]].sessionId);
    }
  }

  /**
   * What a sweep does to sessions, told without its loop: it fails, once each,
   * those that have a dead row and can still fail, and forgets who was ready there.
   */
  lemma SweepFailsOnce(api: Api, agentId: AgentId, dead: seq<CommandId>, now: Millis, utc: Calendar)
    requires forall i | 0 <= i < |dead| :: dead[i] < |api.commands|
    ensures var (after, failed) := Sweep(api, agentId, dead, now, utc);
      && after.sessions.Keys == api.sessions.Keys
      && (forall s | s in api.sessions ::
        after.sessions[s] == if SweepFails(api, dead, s) then FailedBy(api.sessions[s], agentId) else api.sessions[s])
      && (forall s :: s in failed <==> SweepFails(api, dead, s))
      && (forall i, j | 0 <= i < j < |failed| :: failed[i] != failed[j])
      && after.readiness == map s | s in api.readiness && !SweepFails(api, dead, s) :: api.readiness[s]
  {
    hide Sweep;
    SweepFailsDistinct(api, agentId, dead, now, utc);
    forall s { SweepOneSession(api, agentId, dead, now, utc, s); }
  }

  /** After a sweep over the dead rows, the agent has none left, and every row it did not list is as it was. */
  lemma SweepClears(api: Api, agentId: AgentId, dead: seq<CommandId>, now: Millis, utc: Calendar)
    requires IsDeadListing(api.commands, agentId, dead)
    ensures var after := Sweep(api, agentId, dead, now, utc).0;
      && (forall k | 0 <= k < |after.commands| :: !Dead(after.commands[k], agentId))
      && (forall k | 0 <= k < |after.commands| && !Dead(api.commands[k], agentId) ::
        after.commands[k] == api.commands[k])
      && (forall s | s in after.sessions && HasDead(api.commands, dead, s) :: !CanFail(after, s))
  {
    SweepRetires(api, agentId, dead, now, utc);
    SweepFailsOnce(api, agentId, dead, now, utc);
  }

  /**
   * The lease protects nobody: a third delivery made this very moment is given up by its agent's
   * next poll, and its session fails.
   */
  lemma LeaseProtectsNobody(api: Api, agentId: AgentId, dead: seq<CommandId>, now: Millis, utc: Calendar, id: CommandId)
    requires IsDeadListing(api.commands, agentId, dead)
    requires id < |api.commands| && api.commands[id].agentId == agentId && api.commands[id].acknowledgedAt.None?
    requires api.commands[id].deliveryCount == ABANDON_AFTER_DELIVERIES && api.commands[id].deliveredAt == Some(now)
    requires CanFail(api, api.commands[id].sessionId)
    ensures var after := Sweep(api, agentId, dead, now, utc).0;
      && after.commands[id].acknowledgedAt == Some(now)
      && api.commands[id].sessionId in after.sessions && after.sessions[api.commands[id].sessionId].state == Failed
  {
    hide Sweep;
    assert id in dead;
    SweepRetires(api, agentId, dead, now, utc);
    SweepFailsOnce(api, agentId, dead, now, utc);
    var i :| 0 <= i < |dead| && dead[i] == id;
    assert HasDead(api.commands, dead, api.commands[id].sessionId);
  }

  // ------------------------------------------------------------- the service

  class SessionsService {
    const db: Database
    const commands: CommandsService
    var readiness: map<SessionId, map<AgentId, StatusReport>>

    /** A new process over the same database: readiness starts empty. */
    constructor (db: Database, commands: CommandsService)
      requires commands.db == db
      ensures this.db == db && this.commands == commands
      ensures readiness == map[]
    {
      this.db, this.commands, readiness := db, commands, map[];
    }

    ghost predicate Valid()
      reads this
    {
      commands.db == db
    }

    function Snapshot(): Api
      reads this, db
    {
      Api(db.sessions, db.tracks, db.commands, db.manifests, db.previews, readiness)
    }

    method Create(sessionId: SessionId, specs: seq<TrackSpec>, now: Millis)
      requires Valid() && sessionId !in db.sessions
      modifies this`readiness, db
      ensures Valid() && Snapshot() == CreateSession(old(Snapshot()), sessionId, specs, now)
    {
      db.sessions := db.sessions[sessionId := Session(Preparing, now, None, None, None, None, None, None)];

      var base := |db.tracks|;
      for i := 0 to |specs|
        modifies db`tracks
        invariant db.tracks == old(db.tracks) + NewTracks(sessionId, specs)[..i]
      {
        db.tracks := db.tracks + [Track(sessionId, specs[i].agentId, specs[i].kind, specs[i].sourceRef, 0, 0, false)];
      }
      assert NewTracks(sessionId, specs)[..|specs|] == NewTracks(sessionId, specs);

      var agents := Distinct(SpecAgents(specs));
      ghost var prepares := PrepareCommands(agents, sessionId, specs, base, now);
      for i := 0 to |agents|
        modifies db`commands
        invariant db.commands == old(db.commands) + prepares[..i]
      {
        commands.Queue(agents[i], Prepare, sessionId, NO_PAYLOAD.(tracks := TracksOf(specs, agents[i], base)), now);
      }
      assert prepares[..|agents|] == prepares;

      readiness := readiness[sessionId := map[]];
    }

    /** The loop that sends one command to every participant. */
    method QueueForAll(agents: seq<AgentId>, kind: CommandType, sessionId: SessionId, payload: Payload, now: Millis)
      requires Valid()
      modifies db`commands
      ensures db.commands == old(db.commands) + Broadcast(agents, kind, sessionId, payload, now)
    {
      ghost var queued := Broadcast(agents, kind, sessionId, payload, now);
      for i := 0 to |agents|
        invariant db.commands == old(db.commands) + queued[..i]
      {
        commands.Queue(agents[i], kind, sessionId, payload, now);
      }
      assert queued[..|agents|] == queued;
    }

    /** `Math.max` over the reported offsets. */
    method LargestOffset(ready: map<AgentId, StatusReport>) returns (m: nat)
      ensures m == MaxOffset(ready)
    {
      m := 0;
      var left := ready.Keys;
      while left != {}
        invariant left <= ready.Keys
        invariant forall a | a in ready && a !in left :: OffsetOf(ready[a]) <= m
        invariant m == 0 || exists a :: a in ready && OffsetOf(ready[a]) == m
        decreases left
      {
        var a :| a in left;
        m := Max(m, OffsetOf(ready[a]));
        left := left - {a};
      }
    }

    method Report(sessionId: SessionId, report: StatusReport, now: Millis, utc: Calendar)
      returns (error: Option<ApiError>)
      requires Valid()
      modifies this`readiness, db`sessions, db`commands
      ensures Valid() && Outcome(Snapshot(), error) == ReportStatus(old(Snapshot()), sessionId, report, now, utc)
    {
      if sessionId !in db.sessions {
        return Some(NotFound);
      }
      var session := db.sessions[sessionId];
      var participants := Participants(db.tracks, sessionId);

      if report.state == FailedReport {
        if !IsLegalTransition(session.state, Failed) {
          return Some(BadRequest);
        }
        session := session.(state := Failed);
        session := session.(failureReason := Some(report.agentId + ": " + report.reason.GetOr("unspecified")));
        db.sessions := db.sessions[sessionId := session];
        readiness := readiness - {sessionId};
        return None;
      }

      if report.state == StoppedReport {
        if session.state == Stopping {
          session := session.(state := Review);
          if report.reason.GetOr("") != "" {
            session := session.(failureReason := report.reason);
          }
          db.sessions := db.sessions[sessionId := session];
        }
        return None;
      }

      if report.state != ReadyReport {
        return None;
      }

      var ready := if sessionId in readiness then readiness[sessionId] else map[];
      ready := ready[report.agentId := report];
      readiness := readiness[sessionId := ready];

      if a :| a in participants && a !in ready {
        return None;
      }

      var t0 := now + START_BARRIER_LEAD_MS;
      session := session.(s3Prefix := Some(SessionPrefix(session, sessionId, utc)));
      session := session.(t0 := Some(t0));
      session := session.(startedAt := Some(session.startedAt.GetOr(t0)));
      var offset := LargestOffset(ready);
      session := session.(clockOffsetMs := Some(offset));
      if !IsLegalTransition(session.state, Recording) {
        return Some(BadRequest);
      }
      session := session.(state := Recording);
      db.sessions := db.sessions[sessionId := session];

      QueueForAll(participants, Start, sessionId, NO_PAYLOAD.(t0 := Some(t0), prefix := session.s3Prefix), now);

      readiness := readiness - {sessionId};
      return None;
    }

    method StopRecording(sessionId: SessionId, now: Millis) returns (error: Option<ApiError>)
      requires Valid()
      modifies db`sessions, db`commands
      ensures Outcome(Snapshot(), error) == StopSession(old(Snapshot()), sessionId, now)
    {
      if sessionId !in db.sessions {
        return Some(NotFound);
      }
      var session := db.sessions[sessionId];
      if !IsLegalTransition(session.state, Stopping) {
        return Some(BadRequest);
      }
      db.sessions := db.sessions[sessionId := session.(state := Stopping, endedAt := Some(now))];
      QueueForAll(Participants(db.tracks, sessionId), Stop, sessionId, NO_PAYLOAD, now);
      return None;
    }

    method Save(sessionId: SessionId, now: Millis, utc: Calendar) returns (error: Option<ApiError>)
      requires Valid()
      modifies db`sessions, db`commands
      ensures Outcome(Snapshot(), error) == SaveSession(old(Snapshot()), sessionId, now, utc)
    {
      if sessionId !in db.sessions {
        return Some(NotFound);
      }
      var session := db.sessions[sessionId];
      if !IsLegalTransition(session.state, Uploading) {
        return Some(BadRequest);
      }
      session := session.(state := Uploading);
      var prefix := session.s3Prefix.GetOr(SessionPrefix(session, sessionId, utc));
      session := session.(s3Prefix := Some(prefix));
      db.sessions := db.sessions[sessionId := session];
      QueueForAll(Participants(db.tracks, sessionId), Upload, sessionId, NO_PAYLOAD.(prefix := Some(prefix)), now);
      return None;
    }

    method Discard(sessionId: SessionId, now: Millis) returns (error: Option<ApiError>)
      requires Valid()
      modifies db`sessions, db`commands
      ensures Outcome(Snapshot(), error) == DiscardSession(old(Snapshot()), sessionId, now)
    {
      if sessionId !in db.sessions {
        return Some(NotFound);
      }
      var session := db.sessions[sessionId];
      if !IsLegalTransition(session.state, Discarded) {
        return Some(BadRequest);
      }
      session := session.(state := Discarded);
      db.sessions := db.sessions[sessionId := session];
      QueueForAll(Participants(db.tracks, sessionId), Abort, sessionId, NO_PAYLOAD.(prefix := session.s3Prefix), now);
      return None;
    }
  }

  /** The poll route. */
  class SessionsController {
    const sessions: SessionsService
    const commands: CommandsService

    constructor (sessions: SessionsService, commands: CommandsService)
      requires sessions.commands == commands
      ensures this.sessions == sessions && this.commands == commands
    {
      this.sessions, this.commands := sessions, commands;
    }

    ghost predicate Valid()
      reads this, sessions
    {
      sessions.commands == commands && sessions.Valid()
    }

    /**
     * The clean-up on the way into a poll. `failed` lists the sessions it
     * failed, in order; an error of the report would escape, and none occurs.
     */
    method AbandonmentSweep(agentId: AgentId, now: Millis, utc: Calendar)
      returns (dead: seq<CommandId>, failed: seq<SessionId>, thrown: Option<ApiError>)
      requires Valid()
      modifies sessions`readiness, sessions.db`sessions, sessions.db`commands
      ensures Valid() && thrown == None
      ensures IsDeadListing(old(sessions.db.commands), agentId, dead)
      ensures (sessions.Snapshot(), failed) == Sweep(old(sessions.Snapshot()), agentId, dead, now, utc)
    {
      dead := commands.FindAbandoned(agentId);
      failed, thrown := [], None;
      var rows := sessions.db.commands;
      for i := 0 to |dead|
        invariant Valid() && thrown == None
        invariant forall j | 0 <= j < |dead| :: dead[j] < |rows|
        invariant (sessions.Snapshot(), failed) == Sweep(old(sessions.Snapshot()), agentId, dead[..i], now, utc)
      {
        hide Sweep, SweepTurn;
        SweepStep(old(sessions.Snapshot()), agentId, dead, i, now, utc);
        failed, thrown := GiveUp(agentId, rows[dead[i]].sessionId, dead[i], failed, now, utc);
      }
      assert dead[..|dead|] == dead;
    }

    /** The body of the loop: fails the session of a dead row if it still can be failed, and retires the row. */
    method GiveUp(agentId: AgentId, sessionId: SessionId, id: CommandId, failed: seq<SessionId>, now: Millis,
        utc: Calendar)
      returns (more: seq<SessionId>, thrown: Option<ApiError>)
      requires Valid()
      modifies sessions`readiness, sessions.db`sessions, sessions.db`commands
      ensures Valid() && thrown == None
      ensures (sessions.Snapshot(), more) ==
        SweepTurn(old(sessions.Snapshot()), failed, agentId, sessionId, id, now, utc)
    {
      hide ReportStatus;
      more, thrown := failed, None;
      if sessionId in sessions.db.sessions && IsLegalTransition(sessions.db.sessions[sessionId].state, Failed) {
        ReportOnBehalf(sessions.Snapshot(), sessionId, agentId, now, utc);
        thrown := sessions.Report(sessionId, Unacknowledged(agentId), now, utc);
        more := failed + [sessionId];
      }
      ghost var reported := sessions.Snapshot();
      commands.RetireRow(id, now);
      assert sessions.Snapshot() == reported.(commands := Retire(reported.commands, id, now));
      assert failed + [] == failed;
    }
  }
}
