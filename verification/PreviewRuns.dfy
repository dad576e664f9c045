/** The preview row over whole runs of the API. */
module PreviewRuns {
  import opened Entities
  import opened Manifests
  import opened Previews
  import opened Sessions
  import opened Lifecycle

  ghost predicate HasPreview(api: Api, sessionId: SessionId, state: PreviewState) {
    sessionId in api.previews && api.previews[sessionId].state == state
  }

  ghost predicate QueuesRender(api: Api, after: Api, sessionId: SessionId) {
    exists k :: |api.commands| <= k < |after.commands| && after.commands[k].kind == RenderPreview &&
      after.commands[k].sessionId == sessionId
  }

  /** How one call may change one preview row. */
  ghost predicate PreviewStep(api: Api, call: Call, after: Api, sessionId: SessionId) {
    && (HasPreview(api, sessionId, Ready) ==>
          HasPreview(after, sessionId, Ready) &&
            after.previews[sessionId].artifacts == api.previews[sessionId].artifacts)
    && (HasPreview(after, sessionId, Ready) && !HasPreview(api, sessionId, Ready) ==>
          && call.request.RenderedReq? && call.request.sessionId == sessionId &&
            call.request.rendered.state == RenderedReady
          && HasPreview(api, sessionId, Rendering)
          && Previews.Complete(DocumentsOf(api.manifests, sessionId), after.previews[sessionId].artifacts))
    && (QueuesRender(api, after, sessionId) ==>
          && !HasPreview(api, sessionId, Rendering) && HasPreview(after, sessionId, Rendering)
          && HasStored(api, sessionId)
          && |after.commands| == |api.commands| + 1)
    && (HasPreview(api, sessionId, Rendering) && !HasPreview(after, sessionId, Rendering) ==>
          call.request.RenderedReq? && call.request.sessionId == sessionId)
  }

  ghost predicate HasStored(api: Api, sessionId: SessionId) {
    sessionId in api.sessions && api.sessions[sessionId].state == Stored
  }

  lemma RequestStep(api: Api, requested: SessionId, now: Millis, call: Call, sessionId: SessionId)
    ensures PreviewStep(api, call, RequestRender(api, requested, now).api, sessionId)
  {
  }

  lemma RenderedStep(api: Api, call: Call, sessionId: SessionId)
    requires call.request.RenderedReq?
    ensures PreviewStep(api, call, CompleteRender(api, call.request.sessionId, call.request.rendered, call.now),
      sessionId)
  {
    IncompletenessExact(DocumentsOf(api.manifests, call.request.sessionId), call.request.rendered.artifacts);
    hide DocumentsOf, Previews.Complete, Incompleteness;
  }

  lemma ReportLeavesPreviews(api: Api, reported: SessionId, report: StatusReport, now: Millis, utc: Calendar)
    ensures var after := ReportStatus(api, reported, report, now, utc).api;
      && after.previews == api.previews && |api.commands| <= |after.commands|
      && forall k | |api.commands| <= k < |after.commands| :: after.commands[k].kind == Start
  {
    hide StartedSession;
    match report.state {
      case ReadyReport =>
      case _ =>
    }
  }

  lemma OperatorStep(api: Api, call: Call, utc: Calendar, sessionId: SessionId)
    requires call.request.SaveReq? || call.request.StopReq? || call.request.DiscardReq?
    ensures PreviewStep(api, call, After(api, call, utc), sessionId)
  {
    hide SessionPrefix, Participants, Previews.Complete, DocumentsOf;
    match call.request {
      case SaveReq(_) =>
      case StopReq(_) =>
      case _ =>
    }
  }

  lemma StepPreview(api: Api, call: Call, utc: Calendar, sessionId: SessionId)
    requires Possible(api, call)
    ensures PreviewStep(api, call, After(api, call, utc), sessionId)
  {
    hide RequestRender, CompleteRender, ReportStatus, Sweep, SessionPrefix, Participants, Previews.Complete;
    hide SaveSession, StopSession, DiscardSession, ReadBack, DocumentsOf, Totalled, TracksOf, SpecAgents;
    match call.request {
      case SweepReq(agentId, dead) => SweepRetires(api, agentId, dead, call.now, utc);
      case RenderReq(requested) => RequestStep(api, requested, call.now, call, sessionId);
      case RenderedReq(_, _) => RenderedStep(api, call, sessionId);
      case ReportReq(reported, report) => ReportLeavesPreviews(api, reported, report, call.now, utc);
      case SaveReq(_) => OperatorStep(api, call, utc, sessionId);
      case StopReq(_) => OperatorStep(api, call, utc, sessionId);
      case DiscardReq(_) => OperatorStep(api, call, utc, sessionId);
      case CreateReq(_, _) =>
      case SelectReq(_, _) =>
      case _ =>
    }
  }

  /** A ready preview is never rendered in place: its state and artifacts stay. */
  lemma {:induction false} ReadyIsFrozen(states: seq<Api>, calls: seq<Call>, utc: Calendar, i: nat, n: nat,
      sessionId: SessionId)
    requires IsRun(states, calls, utc) && i <= n < |states| && HasPreview(states[i], sessionId, Ready)
    ensures HasPreview(states[n], sessionId, Ready)
    ensures states[n].previews[sessionId].artifacts == states[i].previews[sessionId].artifacts
  {
    hide After;
    if i < n {
      ReadyIsFrozen(states, calls, utc, i, n - 1, sessionId);
      StepPreview(states[n - 1], calls[n - 1], utc, sessionId);
    }
  }

  /** A ready preview was found complete against the manifests held when its report was accepted. */
  lemma {:induction false} ReadyWasComplete(states: seq<Api>, calls: seq<Call>, utc: Calendar, n: nat,
      sessionId: SessionId) returns (k: nat)
    requires IsRun(states, calls, utc) && n < |states| && HasPreview(states[n], sessionId, Ready)
    ensures k < n && calls[k].request.RenderedReq? && calls[k].request.sessionId == sessionId
    ensures calls[k].request.rendered.state == RenderedReady && HasPreview(states[k], sessionId, Rendering)
    ensures Previews.Complete(DocumentsOf(states[k].manifests, sessionId), states[n].previews[sessionId].artifacts)
  {
    hide After;
    StepPreview(states[n - 1], calls[n - 1], utc, sessionId);
    if HasPreview(states[n - 1], sessionId, Ready) {
      k := ReadyWasComplete(states, calls, utc, n - 1, sessionId);
    } else {
      k := n - 1;
    }
  }

  /** Between two renders queued for one session, a report took the row out of rendering. */
  lemma {:induction false} RenderingEnded(states: seq<Api>, calls: seq<Call>, utc: Calendar, i: nat, j: nat,
      sessionId: SessionId) returns (k: nat)
    requires IsRun(states, calls, utc) && i <= j < |states|
    requires HasPreview(states[i], sessionId, Rendering) && !HasPreview(states[j], sessionId, Rendering)
    ensures i <= k < j && calls[k].request.RenderedReq? && calls[k].request.sessionId == sessionId
    ensures HasPreview(states[k], sessionId, Rendering) && !HasPreview(states[k + 1], sessionId, Rendering)
  {
    hide After;
    if HasPreview(states[j - 1], sessionId, Rendering) {
      StepPreview(states[j - 1], calls[j - 1], utc, sessionId);
      k := j - 1;
    } else {
      k := RenderingEnded(states, calls, utc, i, j - 1, sessionId);
    }
  }

  lemma RendersDoNotOverlap(states: seq<Api>, calls: seq<Call>, utc: Calendar, i: nat, j: nat, sessionId: SessionId)
    returns (k: nat)
    requires IsRun(states, calls, utc) && i < j < |calls|
    requires QueuesRender(states[i], states[i + 1], sessionId) && QueuesRender(states[j], states[j + 1], sessionId)
    ensures i < k < j && calls[k].request.RenderedReq? && calls[k].request.sessionId == sessionId
    ensures HasPreview(states[k], sessionId, Rendering) && !HasPreview(states[k + 1], sessionId, Rendering)
  {
    hide After;
    StepPreview(states[i], calls[i], utc, sessionId);
    StepPreview(states[j], calls[j], utc, sessionId);
    k := RenderingEnded(states, calls, utc, i + 1, j, sessionId);
  }

  /** A render is only ever queued for a session that is stored, and stays stored. */
  lemma RenderedSessionsAreStored(states: seq<Api>, calls: seq<Call>, utc: Calendar, i: nat, n: nat,
      sessionId: SessionId)
    requires IsRun(states, calls, utc) && i < n < |states| && QueuesRender(states[i], states[i + 1], sessionId)
    ensures HasState(states, n, sessionId, Stored)
  {
    hide After;
    StepPreview(states[i], calls[i], utc, sessionId);
    SessionOverTime(states, calls, utc, i, n, sessionId);
  }
}
