/** The life cycle with agents, losses and crashes in play: what every history of the whole system keeps. */
module Histories {
  import opened Wrappers
  import opened Entities
  import opened Manifests
  import opened Sessions
  import opened Lifecycle
  import opened PreviewRuns
  import opened Delivery

  ghost predicate IsIn(w: World, sessionId: SessionId, state: SessionState) {
    sessionId in w.api.sessions && w.api.sessions[sessionId].state == state
  }

  ghost predicate Starts(worlds: seq<World>, k: nat, sessionId: SessionId) {
    k + 1 < |worlds| && QueuesStart(worlds[k].api, worlds[k + 1].api, sessionId)
  }

  /** The calls and states of a whole history. */
  ghost function Calls(worlds: seq<World>, events: seq<Event>): seq<Call>
    requires |events| < |worlds|
  {
    CallsOf(worlds, events, |events|)
  }

  ghost function States(worlds: seq<World>, events: seq<Event>): seq<Api>
    requires |events| < |worlds|
    ensures |States(worlds, events)| == |Calls(worlds, events)| + 1
  {
    StatesOf(worlds, events, |events|)
  }

  /** One event of a history in its run: a step of the run if it asks the API something, and none otherwise. */
  lemma EventInRun(worlds: seq<World>, events: seq<Event>, utc: Calendar, m: nat)
    requires IsHistory(worlds, events, utc) && m < |events|
    ensures IsRun(States(worlds, events), Calls(worlds, events), utc)
    ensures var c, states, calls := At(worlds, events, m), States(worlds, events), Calls(worlds, events);
      && c <= |calls| && states[c] == worlds[m].api
      && (AskedOf(events[m]).Some? ==>
            && c < |calls| && calls[c] == Call(worlds[m].clock, AskedOf(events[m]).value)
            && states[c + 1] == worlds[m + 1].api)
      && (AskedOf(events[m]).None? ==> worlds[m + 1].api == worlds[m].api)
  {
    HistoryIsApiRun(worlds, events, utc, |events|);
    CallOfEvent(worlds, events, |events|, m);
    if AskedOf(events[m]).None? {
      UnaskedChangesNothing(worlds[m], events[m], utc);
    } else {
      assert At(worlds, events, m + 1) == At(worlds, events, m) + 1;
    }
    hide IsHistory, IsRun, AskedOf;
  }

  // ------------------------------------------------------------------ barrier

  /** At event `j`, its last ready report before `n`, made since the last restart, this agent reported ready. */
  ghost predicate LastReady(events: seq<Event>, j: nat, n: nat, sessionId: SessionId, report: StatusReport) {
    && j < n <= |events|
    && events[j] == Serve(ReportReq(sessionId, report)) && report.state == ReadyReport
    && forall k | j < k < n && events[k].Serve? ::
         !events[k].request.Restart? && !IsReadyReport(Call(0, events[k].request), sessionId, report.agentId)
  }

  ghost predicate ReadyBy(events: seq<Event>, n: nat, sessionId: SessionId, agentId: AgentId, bound: nat) {
    exists j: nat, report: StatusReport ::
      LastReady(events, j, n, sessionId, report) && report.agentId == agentId && OffsetOf(report) <= bound
  }

  ghost predicate ReachedBy(events: seq<Event>, n: nat, sessionId: SessionId, bound: nat) {
    bound == 0 || exists j: nat, report: StatusReport ::
      LastReady(events, j, n, sessionId, report) && OffsetOf(report) == bound
  }

  /** The latest ready report among the calls was the latest among the events. */
  lemma LatestIsLast(worlds: seq<World>, events: seq<Event>, i: nat, c: nat, sessionId: SessionId, report: StatusReport)
    returns (j: nat)
    requires i < |events| < |worlds| && AskedOf(events[i]).Some?
    requires LatestReady(Calls(worlds, events), c, At(worlds, events, i) + 1, sessionId, report)
    ensures LastReady(events, j, i + 1, sessionId, report)
  {
    CallOfEvent(worlds, events, |events|, i);
    j := EventOfCall(worlds, events, |events|, c);
    var calls := Calls(worlds, events);
    if i + 1 <= j {
      CallOfEvent(worlds, events, j, i);
    }
    forall k | j < k < i + 1 && events[k].Serve?
      ensures !events[k].request.Restart? && !IsReadyReport(Call(0, events[k].request), sessionId, report.agentId)
    {
      CallOfEvent(worlds, events, k, j);
      CallOfEvent(worlds, events, |events|, k);
      if k < i {
        CallOfEvent(worlds, events, i, k);
      }
      var d := At(worlds, events, k);
      assert c < d < At(worlds, events, i) + 1 && calls[d] == Call(worlds[k].clock, events[k].request);
      assert !IsReadyReport(calls[d], sessionId, report.agentId);
    }
  }

  /**
   * Barrier safety in every history: start commands for a session are queued
   * by one event only, of a session that never failed, when every participant
   * had reported ready since the last restart of the API, its last such report
   * within the session's bound.
   */
  lemma BarrierInHistory(worlds: seq<World>, events: seq<Event>, utc: Calendar, i: nat, sessionId: SessionId)
    requires IsHistory(worlds, events, utc) && i < |events| && Starts(worlds, i, sessionId)
    ensures IsIn(worlds[i], sessionId, Preparing) && IsIn(worlds[i + 1], sessionId, Recording)
    ensures forall k: nat | k < |events| && k != i :: !Starts(worlds, k, sessionId)
    ensures forall k | 0 <= k <= i :: !IsIn(worlds[k], sessionId, Failed)
    ensures worlds[i + 1].api.sessions[sessionId].clockOffsetMs.Some?
    ensures forall a | a in Participants(worlds[i].api.tracks, sessionId) ::
      ReadyBy(events, i + 1, sessionId, a, worlds[i + 1].api.sessions[sessionId].clockOffsetMs.value)
    ensures ReachedBy(events, i + 1, sessionId, worlds[i + 1].api.sessions[sessionId].clockOffsetMs.value)
  {
    assert |worlds| == |events| + 1;
    hide IsHistory, IsRun, AskedOf, LatestReady, LastReady, QueuesStart, Participants;
    var calls, states, c := Calls(worlds, events), States(worlds, events), At(worlds, events, i);
    StartAsks(worlds, events, utc, i, sessionId);
    EventInRun(worlds, events, utc, i);
    BarrierSafety(states, calls, utc, c, sessionId);
    forall k: nat | k < |events| && k != i ensures !Starts(worlds, k, sessionId) {
      StartsOnce(worlds, events, utc, i, k, sessionId);
    }
    forall k | 0 <= k <= i ensures !IsIn(worlds[k], sessionId, Failed) {
      EventInRun(worlds, events, utc, k);
      if k < i {
        CallOfEvent(worlds, events, i, k);
      }
      assert !HasState(states, At(worlds, events, k), sessionId, Failed);
    }
    var bound := worlds[i + 1].api.sessions[sessionId].clockOffsetMs.value;
    forall a | a in Participants(worlds[i].api.tracks, sessionId) ensures ReadyBy(events, i + 1, sessionId, a, bound) {
      assert ReadyWithin(calls, c + 1, sessionId, a, bound);
      var d: nat, report: StatusReport :|
        LatestReady(calls, d, c + 1, sessionId, report) && report.agentId == a && OffsetOf(report) <= bound;
      var j := LatestIsLast(worlds, events, i, d, sessionId, report);
    }
    if bound != 0 {
      var d: nat, report: StatusReport :| LatestReady(calls, d, c + 1, sessionId, report) && OffsetOf(report) == bound;
      var j := LatestIsLast(worlds, events, i, d, sessionId, report);
    }
  }

  lemma StartAsks(worlds: seq<World>, events: seq<Event>, utc: Calendar, i: nat, sessionId: SessionId)
    requires IsHistory(worlds, events, utc) && i < |events| && Starts(worlds, i, sessionId)
    ensures AskedOf(events[i]).Some?
  {
    EventInRun(worlds, events, utc, i);
  }

  lemma StartsOnce(worlds: seq<World>, events: seq<Event>, utc: Calendar, i: nat, k: nat, sessionId: SessionId)
    requires IsHistory(worlds, events, utc) && i < |events| && Starts(worlds, i, sessionId) && k < |events| && k != i
    ensures !Starts(worlds, k, sessionId)
  {
    assert |worlds| == |events| + 1;
    hide IsHistory, IsRun, QueuesStart;
    if Starts(worlds, k, sessionId) {
      StartAsks(worlds, events, utc, i, sessionId);
      StartAsks(worlds, events, utc, k, sessionId);
      EventInRun(worlds, events, utc, i);
      EventInRun(worlds, events, utc, k);
      BarrierSafety(States(worlds, events), Calls(worlds, events), utc, At(worlds, events, i), sessionId);
      if k < i { CallOfEvent(worlds, events, i, k); } else { CallOfEvent(worlds, events, k, i); }
      assert false;
    }
  }

  // ------------------------------------------------------------------- stored

  /** A call of the first `n` events is served at some event, to the API as the run has it there. */
  lemma ServedAt(worlds: seq<World>, events: seq<Event>, utc: Calendar, n: nat, c: nat) returns (m: nat)
    requires IsHistory(worlds, events, utc) && n < |worlds| && c < |CallsOf(worlds, events, n)|
    requires !CallsOf(worlds, events, n)[c].request.HandOutReq? && !CallsOf(worlds, events, n)[c].request.AckReq?
    ensures m < n && At(worlds, events, m) == c
    ensures events[m] == Serve(CallsOf(worlds, events, n)[c].request)
    ensures StatesOf(worlds, events, n)[c] == worlds[m].api
  {
    m := EventOfCall(worlds, events, n, c);
    StatesAreWorlds(worlds, events, utc, n, m);
  }

  lemma EarlierCall(worlds: seq<World>, events: seq<Event>, i: nat, j: nat)
    requires i <= j <= |events| < |worlds|
    ensures At(worlds, events, i) <= At(worlds, events, j)
  {
    if i < j {
      CallOfEvent(worlds, events, j, i);
    }
  }

  /** The run up to a moment of a history, and two of its states. */
  lemma RunUpTo(worlds: seq<World>, events: seq<Event>, utc: Calendar, m: nat, n: nat)
    requires IsHistory(worlds, events, utc) && m <= n < |worlds|
    ensures IsRun(StatesOf(worlds, events, n), CallsOf(worlds, events, n), utc)
    ensures At(worlds, events, m) <= At(worlds, events, n) == |CallsOf(worlds, events, n)|
    ensures StatesOf(worlds, events, n)[At(worlds, events, m)] == worlds[m].api
    ensures StatesOf(worlds, events, n)[At(worlds, events, n)] == worlds[n].api
  {
    HistoryIsApiRun(worlds, events, utc, n);
  }

  /** In every history a stored session was saved out of review and later read back in full, its manifests then held. */
  lemma StoredInHistory(worlds: seq<World>, events: seq<Event>, utc: Calendar, n: nat, sessionId: SessionId)
    returns (save: nat, done: nat)
    requires IsHistory(worlds, events, utc) && n < |worlds| && IsIn(worlds[n], sessionId, Stored)
    ensures save < done < n
    ensures events[save] == Serve(SaveReq(sessionId)) && IsIn(worlds[save], sessionId, Review)
    ensures events[done].Serve? && events[done].request.CompleteReq? && events[done].request.sessionId == sessionId
    ensures IsIn(worlds[done], sessionId, Uploading) && DocumentsOf(worlds[done].api.manifests, sessionId) != []
    ensures worlds[done].api.sessions[sessionId].s3Prefix == worlds[n].api.sessions[sessionId].s3Prefix
    ensures worlds[n].api.sessions[sessionId].s3Prefix.Some?
    ensures ReadBack(DocumentsOf(worlds[done].api.manifests, sessionId),
      worlds[n].api.sessions[sessionId].s3Prefix.value, events[done].request.sizes)
  {
    assert |worlds| == |events| + 1;
    var states, calls := StatesOf(worlds, events, n), CallsOf(worlds, events, n);
    RunUpTo(worlds, events, utc, n, n);
    hide *;
    HasStateIs(states, At(worlds, events, n), worlds[n], sessionId, Stored);
    var s, d := StoredWasVerified(states, calls, utc, At(worlds, events, n), sessionId);
    save := ServedAt(worlds, events, utc, n, s);
    done := ServedAt(worlds, events, utc, n, d);
    HasStateIs(states, s, worlds[save], sessionId, Review);
    HasStateIs(states, d, worlds[done], sessionId, Uploading);
    ReadBackIs(DocumentsOf(states[d].manifests, sessionId), states[d].sessions[sessionId].s3Prefix.value,
      calls[d].request.sizes);
    if done <= save {
      EarlierCall(worlds, events, done, save);
    }
  }

  lemma HasStateIs(states: seq<Api>, c: nat, w: World, sessionId: SessionId, state: SessionState)
    requires c < |states| && states[c] == w.api
    ensures HasState(states, c, sessionId, state) <==> IsIn(w, sessionId, state)
    ensures IsIn(w, sessionId, state) ==> sessionId in w.api.sessions
  {
  }

  lemma ReadBackIs(docs: seq<ManifestDoc>, prefix: string, sizes: map<string, nat>)
    ensures ReadBack(docs, prefix, sizes) <==>
      forall key | Expected(docs, prefix, key) :: key in sizes && sizes[key] > 0
  {
  }

  // ------------------------------------------------------------------- prefix

  /** In every history a prefix once set stays; starts, uploads, aborts and renders carry their session's. */
  lemma PrefixInHistory(worlds: seq<World>, events: seq<Event>, utc: Calendar, m: nat, n: nat, sessionId: SessionId)
    requires IsHistory(worlds, events, utc) && m <= n < |worlds|
    ensures PrefixesAgree(worlds[n].api)
    ensures sessionId in worlds[m].api.sessions && worlds[m].api.sessions[sessionId].s3Prefix.Some? ==>
      && sessionId in worlds[n].api.sessions
      && worlds[n].api.sessions[sessionId].s3Prefix == worlds[m].api.sessions[sessionId].s3Prefix
  {
    var states, calls := StatesOf(worlds, events, n), CallsOf(worlds, events, n);
    RunUpTo(worlds, events, utc, m, n);
    hide *;
    PrefixInvariant(states, calls, utc, At(worlds, events, n));
    if sessionId in worlds[m].api.sessions && worlds[m].api.sessions[sessionId].s3Prefix.Some? {
      PrefixNeverChanges(states, calls, utc, At(worlds, events, m), At(worlds, events, n), sessionId);
    }
  }

  // ------------------------------------------------------------------ preview

  /** In every history a ready preview stays as it is, and was complete when its report was accepted. */
  lemma PreviewInHistory(worlds: seq<World>, events: seq<Event>, utc: Calendar, m: nat, n: nat, sessionId: SessionId)
    returns (k: nat)
    requires IsHistory(worlds, events, utc) && m <= n < |worlds| && HasPreview(worlds[m].api, sessionId, Ready)
    ensures HasPreview(worlds[n].api, sessionId, Ready)
    ensures worlds[n].api.previews[sessionId].artifacts == worlds[m].api.previews[sessionId].artifacts
    ensures k < m && events[k].Serve? && events[k].request.RenderedReq? && events[k].request.sessionId == sessionId
    ensures HasPreview(worlds[k].api, sessionId, Rendering)
    ensures Previews.Complete(DocumentsOf(worlds[k].api.manifests, sessionId),
      worlds[m].api.previews[sessionId].artifacts)
  {
    assert |worlds| == |events| + 1;
    var states, calls := StatesOf(worlds, events, n), CallsOf(worlds, events, n);
    RunUpTo(worlds, events, utc, m, n);
    var c := At(worlds, events, m);
    assert HasPreview(states[c], sessionId, Ready);
    hide IsHistory, IsRun, StatesOf, CallsOf, At, DocumentsOf, Previews.Complete;
    ReadyIsFrozen(states, calls, utc, c, At(worlds, events, n), sessionId);
    var d := ReadyWasComplete(states, calls, utc, c, sessionId);
    k := ServedAt(worlds, events, utc, n, d);
    if m <= k {
      EarlierCall(worlds, events, m, k);
    }
  }

  ghost predicate Renders(worlds: seq<World>, k: nat, sessionId: SessionId) {
    k + 1 < |worlds| && QueuesRender(worlds[k].api, worlds[k + 1].api, sessionId)
  }

  /** In every history, between two renders queued for one session a report took the row out of rendering. */
  lemma RendersInHistory(worlds: seq<World>, events: seq<Event>, utc: Calendar, i: nat, j: nat, sessionId: SessionId)
    returns (k: nat)
    requires IsHistory(worlds, events, utc) && i < j < |events|
    requires Renders(worlds, i, sessionId) && Renders(worlds, j, sessionId)
    ensures i < k < j && events[k].Serve? && events[k].request.RenderedReq? && events[k].request.sessionId == sessionId
    ensures HasPreview(worlds[k].api, sessionId, Rendering) && !HasPreview(worlds[k + 1].api, sessionId, Rendering)
  {
    assert |worlds| == |events| + 1;
    RenderAsks(worlds, events, utc, i, sessionId);
    RenderAsks(worlds, events, utc, j, sessionId);
    EventInRun(worlds, events, utc, i);
    EventInRun(worlds, events, utc, j);
    CallOfEvent(worlds, events, j, i);
    var states, calls := States(worlds, events), Calls(worlds, events);
    hide IsHistory, IsRun, QueuesRender, HasPreview, StatesOf, CallsOf, At, AskedOf;
    var c := RendersDoNotOverlap(states, calls, utc, At(worlds, events, i), At(worlds, events, j), sessionId);
    k := ServedAt(worlds, events, utc, |events|, c);
    EventInRun(worlds, events, utc, k);
    if k <= i {
      EarlierCall(worlds, events, k, i);
    } else if j <= k {
      EarlierCall(worlds, events, j, k);
    }
    ServeAsks(events[k]);
  }

  lemma ServeAsks(e: Event)
    ensures e.Serve? ==> AskedOf(e) == Some(e.request)
  {
  }

  lemma RenderAsks(worlds: seq<World>, events: seq<Event>, utc: Calendar, i: nat, sessionId: SessionId)
    requires IsHistory(worlds, events, utc) && i < |events| && Renders(worlds, i, sessionId)
    ensures AskedOf(events[i]).Some?
  {
    EventInRun(worlds, events, utc, i);
  }
}
