/** The rows the API persists, and the state it holds beside them. */
module Entities {
  import opened Wrappers

  type AgentId = string
  type SessionId = string

  /** A command is named by its position in the table; the original draws a random UUID. */
  type CommandId = nat

  /** Milliseconds since the epoch. */
  type Millis = int

  // ---------------------------------------------------------------- sessions

  datatype SessionState = Preparing | Recording | Stopping | Review | Uploading | Stored | Discarded | Failed

  function LegalFrom(from: SessionState): set<SessionState> {
    match from
    case Preparing => {Recording, Failed, Discarded}
    case Recording => {Stopping, Failed}
    case Stopping => {Review, Failed}
    case Review => {Uploading, Discarded}
    case Uploading => {Stored, Failed}
    case Stored => {}
    case Discarded => {}
    case Failed => {}
  }

  predicate IsLegalTransition(from: SessionState, to: SessionState) {
    to in LegalFrom(from)
  }

  predicate Terminal(state: SessionState) {
    state in {Stored, Discarded, Failed}
  }

  datatype Session = Session(
    state: SessionState,
    createdAt: Millis,
    startedAt: Option<Millis>,
    endedAt: Option<Millis>,
    t0: Option<Millis>,
    clockOffsetMs: Option<nat>,
    s3Prefix: Option<string>,
    failureReason: Option<string>)

  // ------------------------------------------------------------------ tracks

  datatype TrackSpec = TrackSpec(agentId: AgentId, kind: string, sourceRef: string)

  datatype Track = Track(
    sessionId: SessionId,
    agentId: AgentId,
    kind: string,
    sourceRef: string,
    segmentCount: nat,
    bytes: nat,
    verified: bool)

  // ---------------------------------------------------------------- commands

  datatype CommandType = Prepare | Start | Stop | Abort | Upload | RenderPreview | PullerControl

  /** The JSON payload; each field is absent from most command types. */
  datatype Payload = Payload(
    t0: Option<Millis>,
    prefix: Option<string>,
    tracks: seq<nat>,
    audioSourceRefs: seq<string>)

  const NO_PAYLOAD := Payload(None, None, [], [])

  datatype Command = Command(
    agentId: AgentId,
    sessionId: SessionId,
    kind: CommandType,
    payload: Payload,
    issuedAt: Millis,
    deliveredAt: Option<Millis>,
    acknowledgedAt: Option<Millis>,
    deliveryCount: nat)

  // --------------------------------------------------------------- manifests

  datatype Segment = Segment(index: nat, file: string, startMs: int, endMs: int, bytes: nat)

  datatype ManifestTrack = ManifestTrack(
    trackId: nat,
    kind: string,
    sourceRef: string,
    codec: Option<string>,
    fps: Option<nat>,
    ptsOriginMs: int,
    segments: seq<Segment>)

  datatype ManifestDoc = ManifestDoc(
    agentId: AgentId,
    hostname: Option<string>,
    startedAt: Millis,
    endedAt: Millis,
    clockOffsetMs: Option<int>,
    tracks: seq<ManifestTrack>)

  datatype Manifest = Manifest(sessionId: SessionId, document: ManifestDoc)

  // ----------------------------------------------------------------- reports

  datatype ReportState = ReadyReport | RecordingReport | StoppingReport | StoppedReport | FailedReport

  datatype StatusReport = StatusReport(
    agentId: AgentId,
    state: ReportState,
    clockOffset: Option<int>,
    reason: Option<string>)

  // ---------------------------------------------------------------- previews

  datatype PreviewState = Pending | Rendering | Ready | RenderFailed

  datatype ArtifactKind = Video | Audio | Peaks

  datatype Artifact = Artifact(kind: ArtifactKind, sourceRef: Option<string>, objectKey: string)

  datatype Preview = Preview(
    state: PreviewState,
    artifacts: seq<Artifact>,
    failureReason: Option<string>,
    sourcePath: Option<string>,
    selectedSourceRef: Option<string>,
    readyAt: Option<Millis>)

  // --------------------------------------------------------------- API state

  /**
   * Everything one API replica holds. `readiness` is process memory and is
   * emptied by a restart; the rest is database tables.
   */
  datatype Api = Api(
    sessions: map<SessionId, Session>,
    tracks: seq<Track>,
    commands: seq<Command>,
    manifests: seq<Manifest>,
    previews: map<SessionId, Preview>,
    readiness: map<SessionId, map<AgentId, StatusReport>>)

  const EMPTY_API := Api(map[], [], [], [], map[], map[])

  datatype ApiError = NotFound | BadRequest

  /** What one request did: the state it committed and the error it answered, if any. */
  datatype Outcome = Outcome(api: Api, error: Option<ApiError>)

  /** The database tables, shared by every service. */
  class Database {
    var sessions: map<SessionId, Session>
    var tracks: seq<Track>
    var commands: seq<Command>
    var manifests: seq<Manifest>
    var previews: map<SessionId, Preview>

    constructor ()
      ensures sessions == map[] && tracks == [] && commands == [] && manifests == [] && previews == map[]
    {
      sessions, tracks, commands, manifests, previews := map[], [], [], [], map[];
    }
  }

  function Abs(x: int): nat {
    if x < 0 then -x else x
  }

  function Max(a: int, b: int): int {
    if a < b then b else a
  }
}
