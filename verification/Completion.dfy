/** A session on several machines: when a completion that comes before every machine has uploaded is accepted. */
module Completion {
  import opened Wrappers
  import opened Entities
  import opened Layout
  import opened Lifecycle
  import opened Manifests
  import opened Sessions

  function PrefixOf(api: Api, sessionId: SessionId): string
    requires sessionId in api.sessions
  {
    api.sessions[sessionId].s3Prefix.GetOr("")
  }

  /** A session being uploaded whose machines' manifests are all in; the machines in `done` have sent their files. */
  ghost predicate PartlyUploaded(api: Api, sessionId: SessionId, hosts: seq<Host>, done: set<nat>,
      sizes: map<string, nat>) {
    && sessionId in api.sessions && api.sessions[sessionId].state == Uploading
    && DocumentsOf(api.manifests, sessionId) == Documents(hosts)
    && (forall m | 0 <= m < |hosts| :: Recorded(hosts[m]))
    && (exists m :: m in done && m < |hosts|)
    && UploadedBy(hosts, done, PrefixOf(api, sessionId), sizes)
    && NothingExpectedIsEmpty(hosts, PrefixOf(api, sessionId))
  }

  /**
   * A completion is accepted exactly when everything named by the manifests of
   * the machines that have not uploaded is already in storage, sent while they
   * recorded.
   */
  lemma AcceptedExactly(api: Api, sessionId: SessionId, hosts: seq<Host>, done: set<nat>, sizes: map<string, nat>)
    requires PartlyUploaded(api, sessionId, hosts, done, sizes)
    ensures CompleteUpload(api, sessionId, sizes).error.None? <==>
      forall m: nat | m < |hosts| && m !in done :: NamedIsListed(hosts[m], PrefixOf(api, sessionId), sizes)
  {
    hide ReadBack, UploadedBy, NothingExpectedIsEmpty, NamedIsListed, Recorded, Document;
    ReadBackExactly(hosts, done, PrefixOf(api, sessionId), sizes);
  }

  /** The report of an agent whose completion was refused. */
  function UploadFailed(agentId: AgentId): StatusReport {
    StatusReport(agentId, FailedReport, None, Some("upload_failed"))
  }

  /**
   * Otherwise it is refused, its agent reports that its upload failed, and the
   * session has failed: no later completion, with everything uploaded, is
   * accepted any more.
   */
  lemma EarlyCompletionFails(api: Api, sessionId: SessionId, hosts: seq<Host>, done: set<nat>, sizes: map<string, nat>,
      agentId: AgentId, now: Millis, utc: Calendar, later: map<string, nat>)
    requires PartlyUploaded(api, sessionId, hosts, done, sizes)
    requires exists m: nat :: m < |hosts| && m !in done && !NamedIsListed(hosts[m], PrefixOf(api, sessionId), sizes)
    ensures CompleteUpload(api, sessionId, sizes) == Outcome(api, Some(BadRequest))
    ensures var failed := ReportStatus(api, sessionId, UploadFailed(agentId), now, utc);
      && failed.error.None? && sessionId in failed.api.sessions && failed.api.sessions[sessionId].state == Failed
      && CompleteUpload(failed.api, sessionId, later) == Outcome(failed.api, Some(BadRequest))
  {
    AcceptedExactly(api, sessionId, hosts, done, sizes);
    hide PartlyUploaded, CompleteUpload, NamedIsListed, Document, ReportStatus;
    StillUploading(api, sessionId, hosts, done, sizes);
    RefusedUnchanged(api, sessionId, sizes);
    FailureIsFinal(api, sessionId, agentId, now, utc, later);
  }

  lemma StillUploading(api: Api, sessionId: SessionId, hosts: seq<Host>, done: set<nat>, sizes: map<string, nat>)
    requires PartlyUploaded(api, sessionId, hosts, done, sizes)
    ensures sessionId in api.sessions && api.sessions[sessionId].state == Uploading
  {
  }

  lemma RefusedUnchanged(api: Api, sessionId: SessionId, sizes: map<string, nat>)
    requires sessionId in api.sessions && CompleteUpload(api, sessionId, sizes).error.Some?
    ensures CompleteUpload(api, sessionId, sizes) == Outcome(api, Some(BadRequest))
  {
    hide ReadBack;
  }

  lemma FailureIsFinal(api: Api, sessionId: SessionId, agentId: AgentId, now: Millis, utc: Calendar,
    later: map<string, nat>)
    requires sessionId in api.sessions && api.sessions[sessionId].state == Uploading
    ensures var failed := ReportStatus(api, sessionId, UploadFailed(agentId), now, utc);
      && failed.error.None? && sessionId in failed.api.sessions && failed.api.sessions[sessionId].state == Failed
      && CompleteUpload(failed.api, sessionId, later) == Outcome(failed.api, Some(BadRequest))
  {
    hide ReadBack, ReportReady, ReportStopped;
  }

  // ---------------------------------------------------------- what is verified

  /** The keys the manifests expect, as the set they are. */
  ghost function ExpectedSet(docs: seq<ManifestDoc>, prefix: string): (keys: set<string>)
    ensures forall key :: key in keys <==> Expected(docs, prefix, key)
  {
    var named := set m, t, s | 0 <= m < |docs| && 0 <= t < |docs[m].tracks| && 0 <= s < |docs[m].tracks[t].segments| ::
      SegmentKey(prefix, HostOf(docs[m]), docs[m].tracks[t].kind, docs[m].tracks[t].sourceRef,
                 docs[m].tracks[t].segments[s].file);
    {prefix + "/manifest.json"} + named
  }

  ghost predicate DocIsListed(doc: ManifestDoc, prefix: string, sizes: map<string, nat>) {
    forall key | NamesKey(doc, prefix, key) :: key in sizes && sizes[key] > 0
  }

  /**
   * A successful readback vouches for a machine's media exactly when what its
   * manifest names is expected by the manifests held; its own among them is
   * enough.
   */
  lemma VouchedForExactly(docs: seq<ManifestDoc>, doc: ManifestDoc, prefix: string)
    ensures (forall sizes | ReadBack(docs, prefix, sizes) :: DocIsListed(doc, prefix, sizes)) <==>
      forall key | NamesKey(doc, prefix, key) :: Expected(docs, prefix, key)
    ensures doc in docs ==> forall key | NamesKey(doc, prefix, key) :: Expected(docs, prefix, key)
  {
    hide NamesKey, SegmentKey;
    var keys := ExpectedSet(docs, prefix);
    var least := map key | key in keys :: 1;
    assert ReadBack(docs, prefix, least);
    if doc in docs {
      var m :| 0 <= m < |docs| && docs[m] == doc;
      assert forall key | NamesKey(doc, prefix, key) :: NamesKey(docs[m], prefix, key);
    }
  }

  /** In any run: what the completion that stored a session vouches for, whichever manifests it found. */
  lemma HeldIsVerified(states: seq<Api>, calls: seq<Call>, utc: Calendar, n: nat, sessionId: SessionId,
      doc: ManifestDoc)
    returns (done: nat)
    requires IsRun(states, calls, utc) && HasState(states, n, sessionId, Stored)
    ensures done < n && calls[done].request.CompleteReq? && calls[done].request.sessionId == sessionId
    ensures sessionId in states[n].sessions && states[n].sessions[sessionId].s3Prefix.Some?
    ensures doc in DocumentsOf(states[done].manifests, sessionId) ==>
      DocIsListed(doc, states[n].sessions[sessionId].s3Prefix.value, calls[done].request.sizes)
  {
    hide IsRun, Expected, NamesKey, DocumentsOf;
    var save, d := StoredWasVerified(states, calls, utc, n, sessionId);
    done := d;
    VouchedForExactly(DocumentsOf(states[d].manifests, sessionId), doc, states[n].sessions[sessionId].s3Prefix.value);
  }
}
