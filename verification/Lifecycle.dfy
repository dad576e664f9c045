/** Whole runs of the API: every request, in any order, with restarts in between. */
module Lifecycle {
  import opened Wrappers
  import opened Entities
  import opened Commands
  import opened Manifests
  import opened Previews
  import opened Sessions

  /** The session id of commands that act on a host and on no session. */
  const HOST_LEVEL_COMMAND_SESSION := "00000000-0000-0000-0000-000000000000"

  datatype Request =
    | CreateReq(sessionId: SessionId, specs: seq<TrackSpec>)
    | ReportReq(sessionId: SessionId, report: StatusReport)
    | StopReq(sessionId: SessionId)
    | SaveReq(sessionId: SessionId)
    | DiscardReq(sessionId: SessionId)
    | IngestReq(sessionId: SessionId, doc: ManifestDoc)
    | CompleteReq(sessionId: SessionId, sizes: map<string, nat>)
    | RenderReq(sessionId: SessionId)
    | RenderedReq(sessionId: SessionId, rendered: RenderReport)
    | SelectReq(sessionId: SessionId, sourceRef: string)
    | PullerReq(agentId: AgentId)
    | SweepReq(agentId: AgentId, dead: seq<CommandId>)
    | HandOutReq(agentId: AgentId, id: CommandId)
    | AckReq(agentId: AgentId, id: CommandId)
    | Restart

  datatype Call = Call(now: Millis, request: Request)

  /** What must hold for a call to be one the API can see: fresh ids, and the rows its own queries return. */
  ghost predicate Possible(api: Api, call: Call) {
    match call.request
    case CreateReq(sessionId, _) => sessionId !in api.sessions && sessionId != HOST_LEVEL_COMMAND_SESSION
    case SweepReq(agentId, dead) => IsDeadListing(api.commands, agentId, dead)
    case HandOutReq(agentId, id) => IsNext(api.commands, agentId, call.now, id)
    case _ => true
  }

  ghost function Answer(api: Api, call: Call, utc: Calendar): Outcome
    requires Possible(api, call)
  {
    var now := call.now;
    match call.request
    case CreateReq(sessionId, specs) => Outcome(CreateSession(api, sessionId, specs, now), None)
    case ReportReq(sessionId, report) => ReportStatus(api, sessionId, report, now, utc)
    case StopReq(sessionId) => StopSession(api, sessionId, now)
    case SaveReq(sessionId) => SaveSession(api, sessionId, now, utc)
    case DiscardReq(sessionId) => DiscardSession(api, sessionId, now)
    case IngestReq(sessionId, doc) => IngestManifest(api, sessionId, doc)
    case CompleteReq(sessionId, sizes) => CompleteUpload(api, sessionId, sizes)
    case RenderReq(sessionId) => RequestRender(api, sessionId, now)
    case RenderedReq(sessionId, rendered) => Outcome(CompleteRender(api, sessionId, rendered, now), None)
    case SelectReq(sessionId, sourceRef) => SelectSource(api, sessionId, sourceRef)
    case PullerReq(agentId) =>
      Outcome(api.(commands := api.commands +
        [NewCommand(agentId, PullerControl, HOST_LEVEL_COMMAND_SESSION, NO_PAYLOAD, now)]), None)
    case SweepReq(agentId, dead) => Outcome(Sweep(api, agentId, dead, now, utc).0, None)
    case HandOutReq(_, id) => Outcome(api.(commands := HandOut(api.commands, id, now)), None)
    case AckReq(agentId, id) => Outcome(api.(commands := Acknowledge(api.commands, agentId, id, now)), None)
    case Restart => Outcome(api.(readiness := map[]), None)
  }

  ghost function After(api: Api, call: Call, utc: Calendar): Api
    requires Possible(api, call)
  {
    Answer(api, call, utc).api
  }

  /** `states[i]` is the API before call `i`; the clock never runs backwards. */
  ghost predicate IsRun(states: seq<Api>, calls: seq<Call>, utc: Calendar) {
    && |states| == |calls| + 1
    && states[0] == EMPTY_API
    && (forall i | 0 <= i < |calls| ::
      Possible(states[i], calls[i]) && states[i + 1] == After(states[i], calls[i], utc))
    && (forall i, j | 0 <= i <= j < |calls| :: calls[i].now <= calls[j].now)
  }

  // ------------------------------------------------- one call, one session row

  /** The only requests that take a session into a state. One agent's stopped report is enough for review. */
  predicate MovedBy(request: Request, sessionId: SessionId, to: SessionState) {
    match to
    case Preparing => false
    case Recording => request.ReportReq? && request.sessionId == sessionId && request.report.state == ReadyReport
    case Stopping => request == StopReq(sessionId)
    case Review => request.ReportReq? && request.sessionId == sessionId && request.report.state == StoppedReport
    case Uploading => request == SaveReq(sessionId)
    case Stored => request.CompleteReq? && request.sessionId == sessionId
    case Discarded => request == DiscardReq(sessionId)
    case Failed =>
      || request.SweepReq?
      || (request.ReportReq? && request.sessionId == sessionId && request.report.state == FailedReport)
  }

  /** How one call may change one session. */
  ghost predicate SessionStep(api: Api, call: Call, before: Session, after: Session, sessionId: SessionId,
      utc: Calendar) {
    && (after.state == before.state || IsLegalTransition(before.state, after.state))
    && (before.state != Preparing ==>
      after.s3Prefix == before.s3Prefix || (before.s3Prefix.None? && !Terminal(before.state)))
    && (before.state != Preparing ==> after.clockOffsetMs.GetOr(0) >= before.clockOffsetMs.GetOr(0))
    && (after.state != before.state ==> MovedBy(call.request, sessionId, after.state))
    && (after.state != before.state && after.state in {Recording, Uploading} ==> after.s3Prefix.Some?)
    && (after.state == before.state == Preparing ==> after.s3Prefix == before.s3Prefix)
    && (after.state != before.state && after.state == Discarded ==> after.s3Prefix == before.s3Prefix)
    && (after.state != before.state && after.state == Stored ==>
          && DocumentsOf(api.manifests, sessionId) != []
          && ReadBack(DocumentsOf(api.manifests, sessionId), before.s3Prefix.GetOr(""), call.request.sizes))
  }

  lemma StepSession(api: Api, call: Call, utc: Calendar, sessionId: SessionId)
    requires Possible(api, call) && sessionId in api.sessions
    ensures sessionId in After(api, call, utc).sessions
    ensures SessionStep(api, call, api.sessions[sessionId], After(api, call, utc).sessions[sessionId], sessionId, utc)
  {
    hide Sweep, ReadBack, ReportStatus, SaveSession, StopSession, DiscardSession, RequestRender, CompleteRender;
    hide HandOut, Acknowledge;
    match call.request {
      case SweepReq(agentId, dead) => SweepFailsOnce(api, agentId, dead, call.now, utc);
      case ReportReq(_, _) => StepSessionReport(api, call, utc, sessionId);
      case RenderReq(other) => RequestLeavesSessions(api, other, call.now);
      case RenderedReq(other, rendered) => RenderedLeavesSessions(api, other, rendered, call.now);
      case CompleteReq(_, _) =>
      case IngestReq(_, _) =>
      case SaveReq(_) => StepSessionOperator(api, call, utc, sessionId);
      case StopReq(_) => StepSessionOperator(api, call, utc, sessionId);
      case DiscardReq(_) => StepSessionOperator(api, call, utc, sessionId);
      case _ =>
    }
  }

  lemma StepSessionOperator(api: Api, call: Call, utc: Calendar, sessionId: SessionId)
    requires call.request.SaveReq? || call.request.StopReq? || call.request.DiscardReq?
    requires sessionId in api.sessions
    ensures sessionId in After(api, call, utc).sessions
    ensures SessionStep(api, call, api.sessions[sessionId], After(api, call, utc).sessions[sessionId], sessionId, utc)
  {
    hide Broadcast, SessionPrefix, Participants;
    match call.request {
      case SaveReq(_) =>
      case StopReq(_) =>
      case _ =>
    }
  }

  lemma RequestLeavesSessions(api: Api, sessionId: SessionId, now: Millis)
    ensures RequestRender(api, sessionId, now).api.sessions == api.sessions
  {
  }

  lemma RenderedLeavesSessions(api: Api, sessionId: SessionId, rendered: RenderReport, now: Millis)
    ensures CompleteRender(api, sessionId, rendered, now).sessions == api.sessions
  {
  }

  lemma StepSessionReport(api: Api, call: Call, utc: Calendar, sessionId: SessionId)
    requires call.request.ReportReq? && sessionId in api.sessions
    ensures sessionId in After(api, call, utc).sessions
    ensures SessionStep(api, call, api.sessions[sessionId], After(api, call, utc).sessions[sessionId], sessionId, utc)
  {
    hide MaxOffset, SessionPrefix, Broadcast;
    match call.request.report.state {
      case ReadyReport =>
      case StoppedReport =>
      case FailedReport =>
      case _ =>
    }
  }

  lemma StepNewSession(api: Api, call: Call, utc: Calendar, sessionId: SessionId)
    requires Possible(api, call) && sessionId !in api.sessions && sessionId in After(api, call, utc).sessions
    ensures call.request.CreateReq? && call.request.sessionId == sessionId
    ensures var s := After(api, call, utc).sessions[sessionId]; s.state == Preparing && s.s3Prefix.None?
  {
    if call.request.SweepReq? {
      SweepFailsOnce(api, call.request.agentId, call.request.dead, call.now, utc);
    }
  }

  /** A session's state between two points of a run. */
  ghost predicate HasState(states: seq<Api>, i: nat, sessionId: SessionId, state: SessionState) {
    i < |states| && sessionId in states[i].sessions && states[i].sessions[sessionId].state == state
  }

  /** Sessions are never deleted, leave `preparing` for good, and never leave a terminal state. */
  lemma {:induction false} SessionOverTime(states: seq<Api>, calls: seq<Call>, utc: Calendar, i: nat, n: nat,
      sessionId: SessionId)
    requires IsRun(states, calls, utc) && i <= n < |states| && sessionId in states[i].sessions
    ensures sessionId in states[n].sessions
    ensures var a, b := states[i].sessions[sessionId], states[n].sessions[sessionId];
      && (a.state != Preparing ==> b.state != Preparing)
      && (Terminal(a.state) ==> b.state == a.state && b.s3Prefix == a.s3Prefix)
      && (a.state != Preparing ==> b.clockOffsetMs.GetOr(0) >= a.clockOffsetMs.GetOr(0))
  {
    hide After;
    if i < n {
      SessionOverTime(states, calls, utc, i, n - 1, sessionId);
      StepSession(states[n - 1], calls[n - 1], utc, sessionId);
    }
  }

  // ------------------------------------------------------------------- prefix

  /** The prefix is set at the barrier: never while preparing, always from recording to stored. */
  ghost predicate PrefixFollowsState(s: Session) {
    && (s.state == Preparing ==> s.s3Prefix.None?)
    && (s.state in {Recording, Stopping, Review, Uploading, Stored} ==> s.s3Prefix.Some?)
  }

  /** Every prefix a command carries is its session's own. */
  ghost predicate PrefixesAgree(api: Api) {
    forall k | 0 <= k < |api.commands| && api.commands[k].kind in {Start, Upload, Abort, RenderPreview} ::
      var c := api.commands[k];
      && c.sessionId in api.sessions
      && c.payload.prefix == api.sessions[c.sessionId].s3Prefix
      && api.sessions[c.sessionId].state != Preparing
      && (c.payload.prefix.None? ==> api.sessions[c.sessionId].state == Discarded)
  }

  /** A call leaves old rows' type, session and payload alone. */
  lemma StepKeepsRows(api: Api, call: Call, utc: Calendar)
    requires Possible(api, call)
    ensures |api.commands| <= |After(api, call, utc).commands|
    ensures forall k | 0 <= k < |api.commands| ::
      var c, d := api.commands[k], After(api, call, utc).commands[k];
      d == c.(deliveredAt := d.deliveredAt, acknowledgedAt := d.acknowledgedAt, deliveryCount := d.deliveryCount)
  {
    if call.request.SweepReq? {
      SweepRetires(api, call.request.agentId, call.request.dead, call.now, utc);
    }
  }

  /** A row appended by a call is new: fresh, and for a prefix-carrying type its session's prefix. */
  lemma StepNewRows(api: Api, call: Call, utc: Calendar, k: nat)
    requires Possible(api, call) && |api.commands| <= k < |After(api, call, utc).commands|
    requires forall s | s in api.sessions :: PrefixFollowsState(api.sessions[s])
    ensures var after, c := After(api, call, utc), After(api, call, utc).commands[k];
      && c == NewCommand(c.agentId, c.kind, c.sessionId, c.payload, call.now)
      && (c.kind in {Start, Upload, Abort, RenderPreview} ==>
            && c.sessionId in after.sessions
            && c.payload.prefix == after.sessions[c.sessionId].s3Prefix
            && after.sessions[c.sessionId].state != Preparing
            && (c.payload.prefix.None? ==> after.sessions[c.sessionId].state == Discarded))
  {
    hide SessionPrefix, Participants, Totalled, ReadBack, DocumentsOf, TracksOf;
    match call.request {
      case ReportReq(_, _) =>
      case SaveReq(_) =>
      case DiscardReq(_) =>
      case StopReq(_) =>
      case RenderReq(_) =>
      case CreateReq(_, _) =>
      case _ =>
    }
  }

  lemma {:induction false} PrefixInvariant(states: seq<Api>, calls: seq<Call>, utc: Calendar, n: nat)
    requires IsRun(states, calls, utc) && n < |states|
    ensures forall s | s in states[n].sessions :: PrefixFollowsState(states[n].sessions[s])
    ensures PrefixesAgree(states[n])
  {
    hide After;
    if n > 0 {
      PrefixInvariant(states, calls, utc, n - 1);
      var api, call, after := states[n - 1], calls[n - 1], states[n];
      forall s | s in after.sessions ensures PrefixFollowsState(after.sessions[s]) {
        if s in api.sessions { StepSession(api, call, utc, s); } else { StepNewSession(api, call, utc, s); }
      }
      StepKeepsRows(api, call, utc);
      forall k | 0 <= k < |after.commands| && after.commands[k].kind in {Start, Upload, Abort, RenderPreview}
        ensures var c := after.commands[k];
          && c.sessionId in after.sessions && c.payload.prefix == after.sessions[c.sessionId].s3Prefix
          && after.sessions[c.sessionId].state != Preparing
          && (c.payload.prefix.None? ==> after.sessions[c.sessionId].state == Discarded)
      {
        if k < |api.commands| {
          StepSession(api, call, utc, api.commands[k].sessionId);
        } else {
          StepNewRows(api, call, utc, k);
        }
      }
    }
  }

  /** Once set, a session's prefix never changes. */
  lemma {:induction false} PrefixNeverChanges(states: seq<Api>, calls: seq<Call>, utc: Calendar, i: nat, n: nat,
      sessionId: SessionId)
    requires IsRun(states, calls, utc) && i <= n < |states|
    requires sessionId in states[i].sessions && states[i].sessions[sessionId].s3Prefix.Some?
    ensures sessionId in states[n].sessions &&
      states[n].sessions[sessionId].s3Prefix == states[i].sessions[sessionId].s3Prefix
  {
    hide After;
    if i < n {
      PrefixNeverChanges(states, calls, utc, i, n - 1, sessionId);
      PrefixInvariant(states, calls, utc, n - 1);
      StepSession(states[n - 1], calls[n - 1], utc, sessionId);
    }
  }

  // ------------------------------------------------------------------- stored

  /** The call that took a session into the state it is in now. */
  lemma {:induction false} EnteredState(states: seq<Api>, calls: seq<Call>, utc: Calendar, n: nat,
      sessionId: SessionId) returns (k: nat)
    requires IsRun(states, calls, utc) && n < |states| && sessionId in states[n].sessions
    requires states[n].sessions[sessionId].state != Preparing
    ensures k < n && sessionId in states[k].sessions
    ensures states[k].sessions[sessionId].state != states[n].sessions[sessionId].state
    ensures states[k + 1].sessions.Keys >= {sessionId} &&
      states[k + 1].sessions[sessionId].state == states[n].sessions[sessionId].state
  {
    hide After;
    if sessionId !in states[n - 1].sessions {
      StepNewSession(states[n - 1], calls[n - 1], utc, sessionId);
      assert false;
    } else if states[n - 1].sessions[sessionId].state != states[n].sessions[sessionId].state {
      k := n - 1;
    } else {
      k := EnteredState(states, calls, utc, n - 1, sessionId);
    }
  }

  /**
   * A stored session was saved by the operator out of review, and later a
   * completion found every key of every manifest then held, at a positive size.
   */
  lemma StoredWasVerified(states: seq<Api>, calls: seq<Call>, utc: Calendar, n: nat, sessionId: SessionId)
    returns (save: nat, done: nat)
    requires IsRun(states, calls, utc) && HasState(states, n, sessionId, Stored)
    ensures save < done < n
    ensures calls[save].request == SaveReq(sessionId) && HasState(states, save, sessionId, Review)
    ensures calls[done].request.CompleteReq? && calls[done].request.sessionId == sessionId &&
      HasState(states, done, sessionId, Uploading)
    ensures DocumentsOf(states[done].manifests, sessionId) != []
    ensures states[done].sessions[sessionId].s3Prefix.Some? &&
      states[done].sessions[sessionId].s3Prefix == states[n].sessions[sessionId].s3Prefix
    ensures forall key | Expected(DocumentsOf(states[done].manifests, sessionId),
      states[done].sessions[sessionId].s3Prefix.value, key) ::
      key in calls[done].request.sizes && calls[done].request.sizes[key] > 0
  {
    hide After;
    done := EnteredState(states, calls, utc, n, sessionId);
    StepSession(states[done], calls[done], utc, sessionId);
    assert HasState(states, done, sessionId, Uploading);
    save := EnteredState(states, calls, utc, done, sessionId);
    StepSession(states[save], calls[save], utc, sessionId);
    PrefixInvariant(states, calls, utc, done);
    PrefixNeverChanges(states, calls, utc, done, n, sessionId);
  }

  // ------------------------------------------------------------------ barrier

  /** Call `j`, after the last restart before `n`, was this agent's ready report. */
  ghost predicate ReportedReady(calls: seq<Call>, j: nat, n: nat, sessionId: SessionId, report: StatusReport) {
    && j < n <= |calls|
    && calls[j].request == ReportReq(sessionId, report) && report.state == ReadyReport
    && forall k | j < k < n :: !calls[k].request.Restart?
  }

  ghost predicate IsReadyReport(call: Call, sessionId: SessionId, agentId: AgentId) {
    && call.request.ReportReq? && call.request.sessionId == sessionId
    && call.request.report.state == ReadyReport && call.request.report.agentId == agentId
  }

  /** It was also the last ready report of its agent for the session before `n`. */
  ghost predicate LatestReady(calls: seq<Call>, j: nat, n: nat, sessionId: SessionId, report: StatusReport) {
    && ReportedReady(calls, j, n, sessionId, report)
    && forall k | j < k < n :: !IsReadyReport(calls[k], sessionId, report.agentId)
  }

  /** The last ready report of this agent, made since the last restart before `n`, has an offset of at most `bound`. */
  ghost predicate ReadyWithin(calls: seq<Call>, n: nat, sessionId: SessionId, agentId: AgentId, bound: nat) {
    exists j: nat, report: StatusReport ::
      LatestReady(calls, j, n, sessionId, report) && report.agentId == agentId && OffsetOf(report) <= bound
  }

  /** The bound is no larger than it must be: zero, or the offset of some agent's last ready report. */
  ghost predicate BoundIsReached(calls: seq<Call>, n: nat, sessionId: SessionId, bound: nat) {
    bound == 0 || exists j: nat, report: StatusReport ::
      LatestReady(calls, j, n, sessionId, report) && OffsetOf(report) == bound
  }

  /** Where an entry of readiness comes from, and that a ready report always replaces its agent's. */
  ghost predicate ReadinessStep(api: Api, call: Call, sessionId: SessionId, agentId: AgentId, entry: StatusReport) {
    && (|| (IsReadyReport(call, sessionId, agentId) && call.request.report == entry && sessionId in api.sessions)
        || (&& !call.request.Restart? && sessionId in api.readiness && agentId in api.readiness[sessionId]
            && api.readiness[sessionId][agentId] == entry))
    && (IsReadyReport(call, sessionId, agentId) && sessionId in api.sessions ==> call.request.report == entry)
  }

  lemma ReportReadiness(api: Api, call: Call, utc: Calendar, sessionId: SessionId, agentId: AgentId)
    requires call.request.ReportReq?
    requires var after := ReportStatus(api, call.request.sessionId, call.request.report, call.now, utc).api;
      sessionId in after.readiness && agentId in after.readiness[sessionId]
    ensures var after := ReportStatus(api, call.request.sessionId, call.request.report, call.now, utc).api;
      ReadinessStep(api, call, sessionId, agentId, after.readiness[sessionId][agentId])
  {
    hide StartedSession;
    match call.request.report.state {
      case ReadyReport =>
      case _ =>
    }
  }

  lemma StepReadiness(api: Api, call: Call, utc: Calendar, sessionId: SessionId, agentId: AgentId)
    requires Possible(api, call)
    requires var after := After(api, call, utc); sessionId in after.readiness && agentId in after.readiness[sessionId]
    ensures ReadinessStep(api, call, sessionId, agentId, After(api, call, utc).readiness[sessionId][agentId])
  {
    hide ReportStatus, Sweep;
    match call.request {
      case SweepReq(agent, dead) => SweepFailsOnce(api, agent, dead, call.now, utc);
      case ReportReq(_, _) => ReportReadiness(api, call, utc, sessionId, agentId);
      case CreateReq(_, _) =>
      case _ =>
    }
  }

  /** Whoever the API believes ready did report so, since it last restarted, and has not reported ready again since. */
  lemma {:induction false} ReadinessIsEarned(states: seq<Api>, calls: seq<Call>, utc: Calendar, n: nat,
      sessionId: SessionId, agentId: AgentId)
    returns (j: nat)
    requires IsRun(states, calls, utc) && n < |states|
    requires sessionId in states[n].readiness && agentId in states[n].readiness[sessionId]
    ensures LatestReady(calls, j, n, sessionId, states[n].readiness[sessionId][agentId])
    ensures states[n].readiness[sessionId][agentId].agentId == agentId && sessionId in states[j].sessions
  {
    hide After;
    var entry := states[n].readiness[sessionId][agentId];
    StepReadiness(states[n - 1], calls[n - 1], utc, sessionId, agentId);
    if IsReadyReport(calls[n - 1], sessionId, agentId) && sessionId in states[n - 1].sessions {
      j := n - 1;
    } else {
      j := ReadinessIsEarned(states, calls, utc, n - 1, sessionId, agentId);
      SessionOverTime(states, calls, utc, j, n - 1, sessionId);
    }
  }

  ghost predicate QueuesStart(api: Api, after: Api, sessionId: SessionId) {
    exists k :: |api.commands| <= k < |after.commands| && after.commands[k].kind == Start &&
      after.commands[k].sessionId == sessionId
  }

  ghost predicate StartsSession(api: Api, report: StatusReport, now: Millis, after: Api, sessionId: SessionId) {
    && report.state == ReadyReport
    && sessionId in api.sessions && api.sessions[sessionId].state == Preparing
    && sessionId in after.sessions
    && var before, session, ready :=
      api.sessions[sessionId], after.sessions[sessionId], Readied(api, sessionId, report);
    && session == before.(
         state := Recording, s3Prefix := session.s3Prefix, t0 := Some(now + START_BARRIER_LEAD_MS),
         startedAt := session.startedAt, clockOffsetMs := session.clockOffsetMs)
    && session.s3Prefix.Some? && session.clockOffsetMs.Some?
    && IsMaxOffset(ready, session.clockOffsetMs.value)
    && (forall a | a in Participants(api.tracks, sessionId) :: a in ready)
    && after.commands == api.commands + Broadcast(Participants(api.tracks, sessionId), Start, sessionId,
                                                  NO_PAYLOAD.(t0 := session.t0, prefix := session.s3Prefix), now)
  }

  lemma ReportStarts(api: Api, reported: SessionId, report: StatusReport, now: Millis, utc: Calendar,
      sessionId: SessionId)
    requires QueuesStart(api, ReportStatus(api, reported, report, now, utc).api, sessionId)
    ensures reported == sessionId &&
      StartsSession(api, report, now, ReportStatus(api, reported, report, now, utc).api, sessionId)
  {
    hide SessionPrefix, Participants, MaxOffset;
    match report.state {
      case ReadyReport =>
      case _ =>
    }
  }

  /** The only call that queues a start: the ready report that completes the set. */
  lemma StartStep(api: Api, call: Call, utc: Calendar, sessionId: SessionId)
    requires Possible(api, call) && QueuesStart(api, After(api, call, utc), sessionId)
    ensures call.request.ReportReq? && call.request.sessionId == sessionId
    ensures StartsSession(api, call.request.report, call.now, After(api, call, utc), sessionId)
  {
    hide ReportStatus, Sweep, StartsSession;
    match call.request {
      case ReportReq(reported, report) => ReportStarts(api, reported, report, call.now, utc, sessionId);
      case SaveReq(_) =>
      case DiscardReq(_) =>
      case StopReq(_) =>
      case RenderReq(_) =>
      case CreateReq(_, _) =>
      case _ =>
    }
  }

  /** Exactly one of these commands is addressed to this agent. */
  ghost predicate SentOnce(sent: seq<Command>, a: AgentId) {
    exists k :: 0 <= k < |sent| && sent[k].agentId == a && forall m | 0 <= m < |sent| && sent[m].agentId == a :: m == k
  }

  lemma BroadcastOnce(agents: seq<AgentId>, kind: CommandType, sessionId: SessionId, payload: Payload, now: Millis)
    requires forall i, j | 0 <= i < j < |agents| :: agents[i] != agents[j]
    ensures forall a | a in agents :: SentOnce(Broadcast(agents, kind, sessionId, payload, now), a)
  {
    var sent := Broadcast(agents, kind, sessionId, payload, now);
    forall a | a in agents ensures SentOnce(sent, a) {
      var k :| 0 <= k < |agents| && agents[k] == a;
      assert sent[k].agentId == a;
    }
  }

  /**
   * Barrier safety. If call `i` queues a start for a session then no other call
   * of the run does, the session had never failed, and every participant had
   * reported ready since the last restart. The session's bound covers the
   * offset of each one's last ready report, and is itself reached.
   */
  lemma BarrierSafety(states: seq<Api>, calls: seq<Call>, utc: Calendar, i: nat, sessionId: SessionId)
    requires IsRun(states, calls, utc) && i < |calls| && QueuesStart(states[i], states[i + 1], sessionId)
    ensures HasState(states, i, sessionId, Preparing) && HasState(states, i + 1, sessionId, Recording)
    ensures forall k | 0 <= k < |calls| && k != i :: !QueuesStart(states[k], states[k + 1], sessionId)
    ensures forall k | 0 <= k <= i :: !HasState(states, k, sessionId, Failed)
    ensures states[i + 1].sessions[sessionId].clockOffsetMs.Some?
    ensures forall a | a in Participants(states[i].tracks, sessionId) ::
      ReadyWithin(calls, i + 1, sessionId, a, states[i + 1].sessions[sessionId].clockOffsetMs.value)
    ensures BoundIsReached(calls, i + 1, sessionId, states[i + 1].sessions[sessionId].clockOffsetMs.value)
  {
    hide After;
    StartStep(states[i], calls[i], utc, sessionId);
    forall k | 0 <= k < |calls| && k != i ensures !QueuesStart(states[k], states[k + 1], sessionId) {
      if QueuesStart(states[k], states[k + 1], sessionId) {
        StartStep(states[k], calls[k], utc, sessionId);
        if k < i {
          SessionOverTime(states, calls, utc, k + 1, i, sessionId);
        } else {
          SessionOverTime(states, calls, utc, i + 1, k, sessionId);
        }
        assert false;
      }
    }
    forall k | 0 <= k <= i ensures !HasState(states, k, sessionId, Failed) {
      if HasState(states, k, sessionId, Failed) {
        SessionOverTime(states, calls, utc, k, i, sessionId);
        assert false;
      }
    }
    var bound := states[i + 1].sessions[sessionId].clockOffsetMs.value;
    var ready := Readied(states[i], sessionId, calls[i].request.report);
    forall a | a in Participants(states[i].tracks, sessionId) ensures ReadyWithin(calls, i + 1, sessionId, a, bound) {
      var j := LastReadyReport(states, calls, utc, i, sessionId, a);
    }
    if bound != 0 {
      var a :| a in ready && OffsetOf(ready[a]) == bound;
      var j := LastReadyReport(states, calls, utc, i, sessionId, a);
    }
  }

  /** What the barrier holds of an agent, the completing report included, is that agent's last ready report. */
  lemma LastReadyReport(states: seq<Api>, calls: seq<Call>, utc: Calendar, i: nat, sessionId: SessionId, a: AgentId)
    returns (j: nat)
    requires IsRun(states, calls, utc) && i < |calls| && calls[i].request.ReportReq?
    requires calls[i].request.sessionId == sessionId && calls[i].request.report.state == ReadyReport
    requires a in Readied(states[i], sessionId, calls[i].request.report)
    ensures var report := Readied(states[i], sessionId, calls[i].request.report)[a];
      report.agentId == a && LatestReady(calls, j, i + 1, sessionId, report)
  {
    hide After;
    if a == calls[i].request.report.agentId {
      j := i;
    } else {
      j := ReadinessIsEarned(states, calls, utc, i, sessionId, a);
    }
  }

  /** The one broadcast of the barrier: a start per participant, all with the same instant and the session's prefix. */
  lemma BarrierBroadcast(states: seq<Api>, calls: seq<Call>, utc: Calendar, i: nat, sessionId: SessionId)
    requires IsRun(states, calls, utc) && i < |calls| && QueuesStart(states[i], states[i + 1], sessionId)
    ensures sessionId in states[i + 1].sessions && |states[i].commands| <= |states[i + 1].commands|
    ensures var session, sent := states[i + 1].sessions[sessionId], states[i + 1].commands[|states[i].commands|..];
      && (forall a | a in Participants(states[i].tracks, sessionId) :: SentOnce(sent, a))
      && (forall c | c in sent ::
            && c.kind == Start && c.sessionId == sessionId && c.agentId in Participants(states[i].tracks, sessionId)
            && c.payload.t0 == session.t0 == Some(calls[i].now + START_BARRIER_LEAD_MS) &&
              c.payload.prefix == session.s3Prefix)
  {
    hide After;
    StartStep(states[i], calls[i], utc, sessionId);
    var agents := Participants(states[i].tracks, sessionId);
    var payload := NO_PAYLOAD.(t0 := Some(calls[i].now + START_BARRIER_LEAD_MS), prefix :=
      states[i + 1].sessions[sessionId].s3Prefix);
    BroadcastOnce(agents, Start, sessionId, payload, calls[i].now);
    assert states[i + 1].commands[|states[i].commands|..] == Broadcast(agents, Start, sessionId, payload, calls[i].now);
  }
}
