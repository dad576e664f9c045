/** The directory a host records into, the keys its files get, and the manifest it reports. */
module Layout {
  import opened Wrappers
  import opened Entities
  import Buckets
  import Continuous
  import Manifests
  import Upload

  // ---------------------------------------------------------------- the walk

  /** A file, or a directory; `stat` gives a directory a size of its own. */
  datatype Node = File(bytes: nat) | Dir(size: nat, entries: seq<Entry>)

  datatype Entry = Entry(name: string, node: Node)

  /** The files below a directory in the order the walk meets them, each under its key. */
  function Walked(entries: seq<Entry>, prefix: string): seq<Upload.FileToSend>
    decreases entries
  {
    if entries == [] then []
    else
      var last := entries[|entries| - 1];
      Walked(entries[..|entries| - 1], prefix) + WalkedNode(last.node, prefix + "/" + last.name)
  }

  function WalkedNode(node: Node, key: string): seq<Upload.FileToSend>
    decreases node
  {
    match node
    case File(bytes) => [Upload.FileToSend(key, bytes)]
    case Dir(_, entries) => Walked(entries, key)
  }

  /** `files` is the list the walk pushes to. */
  method Walk(entries: seq<Entry>, keyPrefix: string, files: seq<Upload.FileToSend>) returns (r: seq<Upload.FileToSend>)
    ensures r == files + Walked(entries, keyPrefix)
    decreases entries
  {
    r := files;
    for k := 0 to |entries|
      invariant r == files + Walked(entries[..k], keyPrefix)
    {
      assert entries[..k + 1][..k] == entries[..k];
      var entry := entries[k];
      var key := keyPrefix + "/" + entry.name;
      match entry.node
      case File(bytes) => r := r + [Upload.FileToSend(key, bytes)];
      case Dir(_, inner) => r := Walk(inner, key, r);
    }
    assert entries[..|entries|] == entries;
  }

  // ------------------------------------------------------------------- paths

  type Path = seq<string>

  /** A path of names that leads to a file of `bytes` bytes. */
  ghost predicate FileAt(entries: seq<Entry>, path: Path, bytes: nat)
    decreases |path|, 0
  {
    path != [] && exists k ::
      0 <= k < |entries| && entries[k].name == path[0] && NodeAt(entries[k].node, path[1..], bytes)
  }

  ghost predicate NodeAt(node: Node, path: Path, bytes: nat)
    decreases |path|, 1
  {
    match node
    case File(b) => path == [] && b == bytes
    case Dir(_, inner) => FileAt(inner, path, bytes)
  }

  function PathText(path: Path): string {
    if path == [] then "" else "/" + path[0] + PathText(path[1..])
  }

  function KeyOf(prefix: string, path: Path): string {
    prefix + PathText(path)
  }

  lemma KeyStep(prefix: string, path: Path)
    requires path != []
    ensures KeyOf(prefix + "/" + path[0], path[1..]) == KeyOf(prefix, path)
  {
  }

  lemma {:induction false} NodeIsWalked(node: Node, key: string, path: Path, bytes: nat)
    requires NodeAt(node, path, bytes)
    ensures Upload.FileToSend(KeyOf(key, path), bytes) in WalkedNode(node, key)
    decreases node
  {
    match node
    case File(_) => assert KeyOf(key, path) == key;
    case Dir(_, entries) =>
      PathIsWalked(entries, key, path, bytes);
  }

  /** Every file of the tree is walked, under the key its path spells. */
  lemma {:induction false} PathIsWalked(entries: seq<Entry>, prefix: string, path: Path, bytes: nat)
    requires FileAt(entries, path, bytes)
    ensures Upload.FileToSend(KeyOf(prefix, path), bytes) in Walked(entries, prefix)
    decreases entries
  {
    hide KeyOf, PathText, NodeAt;
    var last := entries[|entries| - 1];
    var front := entries[..|entries| - 1];
    var k :| 0 <= k < |entries| && entries[k].name == path[0] && NodeAt(entries[k].node, path[1..], bytes);
    if k < |front| {
      assert front[k] == entries[k];
      PathIsWalked(front, prefix, path, bytes);
    } else {
      NodeIsWalked(last.node, prefix + "/" + last.name, path[1..], bytes);
      KeyStep(prefix, path);
    }
  }

  lemma {:induction false} WalkedNodeHasPath(node: Node, key: string, f: Upload.FileToSend) returns (path: Path)
    requires f in WalkedNode(node, key)
    ensures NodeAt(node, path, f.bytes) && f.key == KeyOf(key, path)
    decreases node
  {
    match node
    case File(_) => path := [];
    case Dir(_, entries) => path := WalkedHasPath(entries, key, f);
  }

  /** Whatever is walked is a file of the tree, under the key its path spells. */
  lemma {:induction false} WalkedHasPath(entries: seq<Entry>, prefix: string, f: Upload.FileToSend) returns (path: Path)
    requires f in Walked(entries, prefix)
    ensures FileAt(entries, path, f.bytes) && f.key == KeyOf(prefix, path)
    decreases entries
  {
    var last := entries[|entries| - 1];
    var front := entries[..|entries| - 1];
    if f in Walked(front, prefix) {
      path := WalkedHasPath(front, prefix, f);
      var k :| 0 <= k < |front| && front[k].name == path[0] && NodeAt(front[k].node, path[1..], f.bytes);
      assert entries[k] == front[k];
    } else {
      var rest := WalkedNodeHasPath(last.node, prefix + "/" + last.name, f);
      path := [last.name] + rest;
      assert path[1..] == rest;
      assert entries[|entries| - 1].name == path[0] && NodeAt(entries[|entries| - 1].node, path[1..], f.bytes);
    }
  }

  /** The walk finds exactly the files of the tree. */
  lemma WalkExact(entries: seq<Entry>, prefix: string, f: Upload.FileToSend)
    ensures f in Walked(entries, prefix) <==> exists path ::
      FileAt(entries, path, f.bytes) && f.key == KeyOf(prefix, path)
  {
    if f in Walked(entries, prefix) {
      var path := WalkedHasPath(entries, prefix, f);
    }
    if path :| FileAt(entries, path, f.bytes) && f.key == KeyOf(prefix, path) {
      PathIsWalked(entries, prefix, path, f.bytes);
    }
  }

  // ---------------------------------------------------------- distinct keys

  predicate IsName(s: string) {
    s != "" && '/' !in s
  }

  /** Names are single path segments and no directory repeats one. */
  ghost predicate WellFormed(entries: seq<Entry>)
    decreases entries
  {
    && (forall k | 0 <= k < |entries| :: IsName(entries[k].name) && WellFormedNode(entries[k].node))
    && (forall j, k | 0 <= j < k < |entries| :: entries[j].name != entries[k].name)
  }

  ghost predicate WellFormedNode(node: Node)
    decreases node
  {
    node.Dir? ==> WellFormed(node.entries)
  }

  ghost predicate IsPath(path: Path) {
    forall k | 0 <= k < |path| :: IsName(path[k])
  }

  lemma {:induction false} FilePathIsPath(entries: seq<Entry>, path: Path, bytes: nat)
    requires WellFormed(entries) && FileAt(entries, path, bytes)
    ensures IsPath(path)
    decreases |path|
  {
    var k :| 0 <= k < |entries| && entries[k].name == path[0] && NodeAt(entries[k].node, path[1..], bytes);
    if entries[k].node.Dir? {
      FilePathIsPath(entries[k].node.entries, path[1..], bytes);
    }
    assert path == [path[0]] + path[1..];
  }

  lemma FirstNames(p: string, q: string, rest: string, others: string)
    requires '/' !in p && '/' !in q
    requires rest == "" || rest[0] == '/'
    requires others == "" || others[0] == '/'
    requires p + rest == q + others
    ensures p == q && rest == others
  {
    var text := p + rest;
    assert forall i | 0 <= i < |p| :: text[i] == p[i];
    assert forall i | 0 <= i < |q| :: text[i] == q[i];
    assert rest != "" ==> text[|p|] == '/';
    assert others != "" ==> text[|q|] == '/';
    if |p| == |q| {
      assert (p + rest)[..|p|] == p && (q + others)[..|p|] == q;
      assert (p + rest)[|p|..] == rest && (q + others)[|p|..] == others;
    }
  }

  /** A key spells one path only. */
  lemma {:induction false} TextIsUnambiguous(p: Path, q: Path)
    requires IsPath(p) && IsPath(q) && PathText(p) == PathText(q)
    ensures p == q
  {
    if p != [] && q != [] {
      var rest, others := PathText(p[1..]), PathText(q[1..]);
      assert PathText(p)[1..] == p[0] + rest && PathText(q)[1..] == q[0] + others;
      FirstNames(p[0], q[0], rest, others);
      TextIsUnambiguous(p[1..], q[1..]);
      assert p == [p[0]] + p[1..] && q == [q[0]] + q[1..];
    }
  }

  lemma FileIsUnique(entries: seq<Entry>, path: Path, a: nat, b: nat)
    requires WellFormed(entries) && FileAt(entries, path, a) && FileAt(entries, path, b)
    ensures a == b
    decreases |path|
  {
    var j :| 0 <= j < |entries| && entries[j].name == path[0] && NodeAt(entries[j].node, path[1..], a);
    var k :| 0 <= k < |entries| && entries[k].name == path[0] && NodeAt(entries[k].node, path[1..], b);
    assert j == k;
    if entries[k].node.Dir? {
      FileIsUnique(entries[k].node.entries, path[1..], a, b);
    }
  }

  /** One key is one file, so a readback of the size under a key is a readback of that file. */
  lemma KeyNamesOneFile(entries: seq<Entry>, prefix: string, f: Upload.FileToSend, g: Upload.FileToSend)
    requires WellFormed(entries) && f in Walked(entries, prefix) && g in Walked(entries, prefix) && f.key == g.key
    ensures f == g
  {
    var p := WalkedHasPath(entries, prefix, f);
    var q := WalkedHasPath(entries, prefix, g);
    FilePathIsPath(entries, p, f.bytes);
    FilePathIsPath(entries, q, g.bytes);
    assert KeyOf(prefix, p)[|prefix|..] == PathText(p) && KeyOf(prefix, q)[|prefix|..] == PathText(q);
    TextIsUnambiguous(p, q);
    FileIsUnique(entries, p, f.bytes, g.bytes);
  }

  lemma WalkedBelow(node: Node, name: string, prefix: string, f: Upload.FileToSend) returns (path: Path)
    requires IsName(name) && WellFormedNode(node) && f in WalkedNode(node, prefix + "/" + name)
    ensures path != [] && path[0] == name && IsPath(path) && f.key == KeyOf(prefix, path)
  {
    var rest := WalkedNodeHasPath(node, prefix + "/" + name, f);
    if node.Dir? {
      FilePathIsPath(node.entries, rest, f.bytes);
    }
    path := [name] + rest;
    assert path[1..] == rest;
    KeyStep(prefix, path);
  }

  lemma WalkedUnder(entries: seq<Entry>, prefix: string, f: Upload.FileToSend) returns (path: Path)
    requires WellFormed(entries) && f in Walked(entries, prefix)
    ensures path != [] && IsPath(path) && f.key == KeyOf(prefix, path)
    ensures exists k :: 0 <= k < |entries| && entries[k].name == path[0]
  {
    path := WalkedHasPath(entries, prefix, f);
    FilePathIsPath(entries, path, f.bytes);
  }

  lemma {:induction false} NodeKeysDistinct(node: Node, key: string)
    requires WellFormedNode(node)
    ensures Upload.DistinctKeys(WalkedNode(node, key))
    decreases node
  {
    if node.Dir? {
      WalkKeysDistinct(node.entries, key);
    }
  }

  /** No two files of one walk share a key. */
  lemma {:induction false} WalkKeysDistinct(entries: seq<Entry>, prefix: string)
    requires WellFormed(entries)
    ensures Upload.DistinctKeys(Walked(entries, prefix))
    decreases entries
  {
    if entries != [] {
      var front, last := entries[..|entries| - 1], entries[|entries| - 1];
      var a, b := Walked(front, prefix), WalkedNode(last.node, prefix + "/" + last.name);
      assert WellFormed(front);
      WalkKeysDistinct(front, prefix);
      NodeKeysDistinct(last.node, prefix + "/" + last.name);
      forall i, j | 0 <= i < |a| && 0 <= j < |b| ensures a[i].key != b[j].key {
        SiblingsDiffer(front, last, prefix, a[i], b[j]);
      }
      assert Walked(entries, prefix) == a + b;
    }
  }

  lemma SiblingsDiffer(front: seq<Entry>, last: Entry, prefix: string, f: Upload.FileToSend, g: Upload.FileToSend)
    requires WellFormed(front + [last])
    requires f in Walked(front, prefix) && g in WalkedNode(last.node, prefix + "/" + last.name)
    ensures f.key != g.key
  {
    var entries := front + [last];
    assert entries[|front|] == last && forall k | 0 <= k < |front| :: entries[k] == front[k];
    assert WellFormed(front);
    var p := WalkedUnder(front, prefix, f);
    var q := WalkedBelow(last.node, last.name, prefix, g);
    var k :| 0 <= k < |front| && front[k].name == p[0];
    assert entries[k].name != entries[|front|].name;
    if f.key == g.key {
      assert KeyOf(prefix, p)[|prefix|..] == PathText(p) && KeyOf(prefix, q)[|prefix|..] == PathText(q);
      TextIsUnambiguous(p, q);
    }
  }

  // ------------------------------------------------------------ track folders

  datatype TrackKind = ScreenTrack | AudioTrack | WebcamTrack | MetadataTrack

  function KindText(kind: TrackKind): (r: string)
    ensures '/' !in r
  {
    match kind
    case ScreenTrack => "screen"
    case AudioTrack => "audio"
    case WebcamTrack => "webcam"
    case MetadataTrack => "metadata"
  }

  datatype TrackRequest = TrackRequest(
    trackId: nat,
    kind: TrackKind,
    sourceRef: string,
    codec: Option<string>,
    fps: Option<nat>)

  function Folder(track: TrackRequest): (r: string)
    ensures IsName(r)
  {
    if track.kind.MetadataTrack? then "metadata" else KindText(track.kind) + "-" + Manifests.SourceSlug(track.sourceRef)
  }

  function Extension(track: TrackRequest): string {
    if track.kind.AudioTrack? then ".m4a" else ".mp4"
  }

  function TrackDir(rootDir: string, sessionId: string, hostname: string, track: TrackRequest): string {
    rootDir + "/" + sessionId + "/" + hostname + "/" + Folder(track)
  }

  lemma {:induction false} LastSegment(path: string, name: string)
    requires '/' !in name
    ensures Continuous.Basename(path + "/" + name) == name
  {
    var s := path + "/" + name;
    if name != "" {
      var front := name[..|name| - 1];
      assert name == front + [name[|name| - 1]] && s[..|s| - 1] == path + "/" + front;
      LastSegment(path, front);
    }
  }

  /** The continuous uploader and the walk at Save give a segment the same key. */
  lemma ContinuousKeyIsWalkKey(rootDir: string, sessionId: string, prefix: string, hostname: string,
      track: TrackRequest, name: string)
    ensures Continuous.SegmentObject(prefix, hostname, TrackDir(rootDir, sessionId, hostname, track), name)
         == KeyOf(prefix, [hostname, Folder(track), name])
  {
    LastSegment(rootDir + "/" + sessionId + "/" + hostname, Folder(track));
    ThreeNames(prefix, hostname, Folder(track), name);
  }

  lemma ThreeNames(prefix: string, a: string, b: string, c: string)
    ensures KeyOf(prefix, [a, b, c]) == prefix + "/" + a + "/" + b + "/" + c
  {
    var path := [a, b, c];
    assert path[1..] == [b, c] && path[1..][1..] == [c] && path[1..][1..][1..] == [];
    assert PathText([c]) == "/" + c;
    assert PathText([b, c]) == "/" + b + PathText([c]);
  }

  /** So what a sweep left at full size is not sent again. */
  lemma SaveSkipsWhatWasSent(entries: seq<Entry>, prefix: string, rootDir: string, sessionId: string, hostname: string,
                             track: TrackRequest, name: string, bytes: nat, objects: Upload.Objects,
                             script: Upload.Script, retries: nat)
    requires FileAt(entries, [hostname, Folder(track), name], bytes) && script.headAnswered
    ensures var key := Continuous.SegmentObject(prefix, hostname, TrackDir(rootDir, sessionId, hostname, track), name);
      && Upload.FileToSend(key, bytes) in Walked(entries, prefix)
      && (Upload.SizeOf(objects, key) == Some(bytes) <==>
          Upload.Alone(Upload.SizeOf(objects, key), bytes, script, retries).job == Upload.Settled(Upload.Skipped, 0))
  {
    ContinuousKeyIsWalkKey(rootDir, sessionId, prefix, hostname, track, name);
    PathIsWalked(entries, prefix, [hostname, Folder(track), name], bytes);
    Upload.AloneExact(Upload.SizeOf(objects, KeyOf(prefix, [hostname, Folder(track), name])), bytes, script, retries);
  }

  // ------------------------------------------------------------ the manifest

  predicate EndsWith(s: string, tail: string) {
    |tail| <= |s| && s[|s| - |tail|..] == tail
  }

  predicate IsSegmentName(name: string, extension: string) {
    "seg-" <= name && EndsWith(name, extension)
  }

  function SegmentNames(entries: seq<Entry>, extension: string): (r: seq<string>)
    ensures forall name :: name in r <==> IsSegmentName(name, extension) && exists k ::
      0 <= k < |entries| && entries[k].name == name
  {
    if entries == [] then []
    else
      var front, last := entries[..|entries| - 1], entries[|entries| - 1];
      assert forall k | 0 <= k < |front| :: front[k] == entries[k];
      var names := SegmentNames(front, extension);
      if IsSegmentName(last.name, extension) then names + [last.name] else names
  }

  function Find(entries: seq<Entry>, name: string): (r: Option<Node>)
    ensures r.None? <==> forall k | 0 <= k < |entries| :: entries[k].name != name
    ensures r.Some? ==> exists k :: 0 <= k < |entries| && entries[k].name == name && entries[k].node == r.value
  {
    if entries == [] then None
    else if entries[0].name == name then Some(entries[0].node)
    else
      assert forall k | 0 <= k < |entries| - 1 :: entries[1..][k] == entries[k + 1];
      Find(entries[1..], name)
  }

  function StatSize(node: Node): nat {
    match node
    case File(bytes) => bytes
    case Dir(size, _) => size
  }

  /** A directory that cannot be read holds no segments. */
  function EntriesOf(dir: Option<Node>): seq<Entry> {
    if dir.Some? && dir.value.Dir? then dir.value.entries else []
  }

  /** A segment as it is collected: its measured length and its size. */
  datatype SegmentFile = SegmentFile(file: string, durationMs: real, bytes: nat)

  /** The measured length of the first `n` segments. */
  function Cursor(segments: seq<SegmentFile>, n: nat): real
    requires n <= |segments|
  {
    if n == 0 then 0.0 else Cursor(segments, n - 1) + segments[n - 1].durationMs
  }

  /** Segment `k` laid behind the ones before it. */
  function RangeAt(segments: seq<SegmentFile>, k: nat): Segment
    requires k < |segments|
  {
    var start, end := Buckets.Round(Cursor(segments, k)), Buckets.Round(Cursor(segments, k + 1));
    Segment(k, segments[k].file, start, end, segments[k].bytes)
  }

  function Ranges(segments: seq<SegmentFile>): seq<Segment> {
    seq(|segments|, k requires 0 <= k < |segments| => RangeAt(segments, k))
  }

  method SegmentTimeRanges(segments: seq<SegmentFile>) returns (ranges: seq<Segment>)
    ensures ranges == Ranges(segments)
  {
    ranges := [];
    var cursor := 0.0;
    for index := 0 to |segments|
      invariant cursor == Cursor(segments, index) && ranges == Ranges(segments)[..index]
    {
      var segment := segments[index];
      var end := cursor + segment.durationMs;
      ranges := ranges + [Segment(index, segment.file, Buckets.Round(cursor), Buckets.Round(end), segment.bytes)];
      cursor := end;
    }
  }

  /**
   * Segments lie end to end, and rounding never drifts: each boundary is within half a millisecond
   * of the measured one.
   */
  lemma RangesMeet(segments: seq<SegmentFile>, k: nat)
    requires k < |segments|
    ensures var r := Ranges(segments);
      && r[k].index == k && r[k].file == segments[k].file && r[k].bytes == segments[k].bytes
      && r[k].startMs == (if k == 0 then 0 else r[k - 1].endMs)
      && -0.5 < r[k].endMs as real - Cursor(segments, k + 1) <= 0.5
  {
    assert Cursor(segments, 0) == 0.0 && Buckets.Round(0.0) == 0;
  }

  /** What a machine's own tools say: the measured length of a file, and how its locale orders names. */
  datatype Tools = Tools(probe: (string, string) -> real, collate: seq<SegmentFile> -> seq<SegmentFile>)

  function Collected(dir: Option<Node>, extension: string, folder: string, tools: Tools): seq<SegmentFile> {
    var entries := EntriesOf(dir);
    var names := Upload.Sort(SegmentNames(entries, extension));
    seq(|names|, k requires 0 <= k < |names| =>
      SegmentFile(names[k], tools.probe(folder, names[k]), StatSize(Find(entries, names[k]).GetOr(File(0)))))
  }

  method CollectSegments(dir: Option<Node>, extension: string, folder: string, tools: Tools)
    returns (segments: seq<SegmentFile>)
    ensures segments == Collected(dir, extension, folder, tools)
  {
    if dir.None? || dir.value.File? {
      return [];
    }
    var names := Upload.Sort(SegmentNames(dir.value.entries, extension));
    segments := [];
    for k := 0 to |names|
      invariant segments == Collected(dir, extension, folder, tools)[..k]
    {
      var size := StatSize(Find(dir.value.entries, names[k]).GetOr(File(0)));
      segments := segments + [SegmentFile(names[k], tools.probe(folder, names[k]), size)];
    }
  }

  function TrackNode(root: seq<Entry>, hostname: string, track: TrackRequest): Option<Node> {
    Find(EntriesOf(Find(root, hostname)), Folder(track))
  }

  function TrackFiles(root: seq<Entry>, hostname: string, track: TrackRequest, tools: Tools): seq<SegmentFile> {
    Collected(TrackNode(root, hostname, track), Extension(track), Folder(track), tools)
  }

  function TrackEntry(root: seq<Entry>, hostname: string, track: TrackRequest, tools: Tools): ManifestTrack {
    var segments := Ranges(tools.collate(TrackFiles(root, hostname, track, tools)));
    ManifestTrack(track.trackId, KindText(track.kind), track.sourceRef, track.codec, track.fps, 0, segments)
  }

  function MediaTracks(root: seq<Entry>, hostname: string, tracks: seq<TrackRequest>,
    tools: Tools): seq<ManifestTrack> {
    if tracks == [] then []
    else
      var last := tracks[|tracks| - 1];
      MediaTracks(root, hostname, tracks[..|tracks| - 1], tools) +
      if last.kind.MetadataTrack? then [] else [TrackEntry(root, hostname, last, tools)]
  }

  const MANIFEST_FILE := "manifest.json"

  /** `writeFile`: replaces the entry of that name or adds one. */
  function WithFile(entries: seq<Entry>, name: string, bytes: nat): (r: seq<Entry>)
    ensures Find(r, name) == Some(File(bytes))
    ensures forall other | other != name :: Find(r, other) == Find(entries, other)
  {
    if entries == [] then [Entry(name, File(bytes))]
    else if entries[0].name == name then [Entry(name, File(bytes))] + entries[1..]
    else [entries[0]] + WithFile(entries[1..], name, bytes)
  }

  class CaptureSession {
    const hostname: string
    var tracks: seq<TrackRequest>
    var startedAt: Option<Millis>
    var endedAt: Option<Millis>
    var clockOffsetMs: int

    constructor (hostname: string)
      ensures this.hostname == hostname && tracks == [] && startedAt.None? && endedAt.None? && clockOffsetMs == 0
    {
      this.hostname, tracks, startedAt, endedAt, clockOffsetMs := hostname, [], None, None, 0;
    }

    method Start(tracks: seq<TrackRequest>, clockOffsetMs: int, now: Millis)
      modifies this
      ensures this.tracks == tracks && this.clockOffsetMs == clockOffsetMs && startedAt == Some(now)
      ensures endedAt == old(endedAt)
    {
      this.tracks := tracks;
      startedAt := Some(now);
      this.clockOffsetMs := clockOffsetMs;
    }

    /** One entry of the manifest: collected, put in order, and laid end to end. */
    method DescribeTrack(root: seq<Entry>, track: TrackRequest, tools: Tools) returns (entry: ManifestTrack)
      ensures entry == TrackEntry(root, hostname, track, tools)
    {
      var files := CollectSegments(TrackNode(root, hostname, track), Extension(track), Folder(track), tools);
      var segments := SegmentTimeRanges(tools.collate(files));
      entry := ManifestTrack(track.trackId, KindText(track.kind), track.sourceRef, track.codec, track.fps, 0, segments);
    }

    /**
     * The manifest of what was recorded, and the session directory with the
     * manifest's text in it. Everything had stopped at `now`, and the manifest
     * is built at `built`.
     */
    method Stop(agentId: AgentId, now: Millis, built: Millis, root: seq<Entry>, tools: Tools, text: ManifestDoc -> nat)
      returns (doc: ManifestDoc, after: seq<Entry>)
      modifies this`endedAt
      ensures endedAt == Some(now)
      ensures doc == ManifestDoc(agentId, Some(hostname), startedAt.GetOr(built), now, Some(clockOffsetMs),
        MediaTracks(root, hostname, tracks, tools))
      ensures after == WithFile(root, MANIFEST_FILE, text(doc))
    {
      hide TrackEntry;
      endedAt := Some(now);
      var manifestTracks := [];
      for k := 0 to |tracks|
        invariant manifestTracks == MediaTracks(root, hostname, tracks[..k], tools) && endedAt == Some(now)
      {
        assert tracks[..k + 1][..k] == tracks[..k];
        var track := tracks[k];
        if track.kind.MetadataTrack? {
          assert manifestTracks + [] == manifestTracks;
          continue;
        }
        var entry := DescribeTrack(root, track, tools);
        manifestTracks := manifestTracks + [entry];
      }
      assert tracks[..|tracks|] == tracks;
      doc := ManifestDoc(agentId, Some(hostname), startedAt.GetOr(built), now, Some(clockOffsetMs), manifestTracks);
      after := WithFile(root, MANIFEST_FILE, text(doc));
    }
  }

  // ---------------------------------------------- a complete upload is stored

  /** One machine of a session: what it recorded, what its tools say, and the size of its manifest's text. */
  datatype Host = Host(
    agentId: AgentId,
    hostname: string,
    startedAt: Millis,
    endedAt: Millis,
    clockOffsetMs: int,
    tracks: seq<TrackRequest>,
    recorded: seq<Entry>,
    tools: Tools,
    manifestBytes: nat)

  function Document(h: Host): ManifestDoc {
    ManifestDoc(h.agentId, Some(h.hostname), h.startedAt, h.endedAt, Some(h.clockOffsetMs),
      MediaTracks(h.recorded, h.hostname, h.tracks, h.tools))
  }

  /** The session directory as `upload` finds it. */
  function Directory(h: Host): seq<Entry> {
    WithFile(h.recorded, MANIFEST_FILE, h.manifestBytes)
  }

  function Documents(hosts: seq<Host>): seq<ManifestDoc> {
    seq(|hosts|, m requires 0 <= m < |hosts| => Document(hosts[m]))
  }

  /** Nothing in a track directory that is named like a segment is itself a directory. */
  ghost predicate SegmentsAreFiles(h: Host) {
    forall t, name | 0 <= t < |h.tracks| && IsSegmentName(name, Extension(h.tracks[t])) ::
      var node := Find(EntriesOf(TrackNode(h.recorded, h.hostname, h.tracks[t])), name);
      node.Some? ==> node.value.File?
  }

  /** Whatever the locale, sorting only reorders. */
  ghost predicate OnlyReorders(tools: Tools) {
    forall files :: multiset(tools.collate(files)) == multiset(files)
  }

  /** A machine named like the manifest would have its directory overwritten by it. */
  ghost predicate Recorded(h: Host) {
    h.hostname != MANIFEST_FILE && SegmentsAreFiles(h) && OnlyReorders(h.tools)
  }

  lemma FoundLeads(entries: seq<Entry>, name: string, rest: Path, bytes: nat)
    requires Find(entries, name).Some? && NodeAt(Find(entries, name).value, rest, bytes)
    ensures FileAt(entries, [name] + rest, bytes)
  {
    var path := [name] + rest;
    assert path[1..] == rest;
    var k :| 0 <= k < |entries| && entries[k].name == name && entries[k].node == Find(entries, name).value;
    assert NodeAt(entries[k].node, path[1..], bytes);
  }

  /** What is collected from a directory is found in it, under a segment's name. */
  lemma CollectedIsFound(dir: Option<Node>, extension: string, folder: string, tools: Tools, f: SegmentFile)
    requires f in Collected(dir, extension, folder, tools)
    ensures IsSegmentName(f.file, extension) && Find(EntriesOf(dir), f.file).Some?
  {
    hide IsSegmentName;
    var names := Upload.Sort(SegmentNames(EntriesOf(dir), extension));
    assert f.file in multiset(names);
    assert f.file in multiset(SegmentNames(EntriesOf(dir), extension));
  }

  /** A collected segment is a file of the directory the walk goes through. */
  lemma SegmentIsFile(h: Host, t: nat, f: SegmentFile) returns (bytes: nat)
    requires Recorded(h) && t < |h.tracks| && !h.tracks[t].kind.MetadataTrack?
    requires f in TrackFiles(h.recorded, h.hostname, h.tracks[t], h.tools)
    ensures FileAt(Directory(h), [h.hostname, Folder(h.tracks[t]), f.file], bytes)
  {
    hide Collected, IsSegmentName, Extension, Folder, FileAt, OnlyReorders;
    var track := h.tracks[t];
    var dir := TrackNode(h.recorded, h.hostname, track);
    var name := f.file;
    CollectedIsFound(dir, Extension(track), Folder(track), h.tools, f);
    bytes := Find(EntriesOf(dir), name).value.bytes;
    FoundLeads(EntriesOf(dir), name, [], bytes);
    assert [name] + [] == [name];
    FoundLeads(EntriesOf(Find(h.recorded, h.hostname)), Folder(track), [name], bytes);
    assert [Folder(track)] + [name] == [Folder(track), name];
    FoundLeads(Directory(h), h.hostname, [Folder(track), name], bytes);
    assert [h.hostname] + [Folder(track), name] == [h.hostname, Folder(track), name];
  }

  /** A media track of the document is one of the tracks asked for. */
  lemma {:induction false} TrackOfDocument(root: seq<Entry>, hostname: string, tracks: seq<TrackRequest>,
    tools: Tools, d: nat)
    returns (t: nat)
    requires d < |MediaTracks(root, hostname, tracks, tools)|
    ensures t < |tracks| && !tracks[t].kind.MetadataTrack?
    ensures MediaTracks(root, hostname, tracks, tools)[d] == TrackEntry(root, hostname, tracks[t], tools)
  {
    hide TrackEntry;
    var n := |tracks| - 1;
    if d < |MediaTracks(root, hostname, tracks[..n], tools)| {
      t := TrackOfDocument(root, hostname, tracks[..n], tools, d);
    } else {
      t := n;
    }
  }

  /** A segment of a track's entry is one of the files collected for it. */
  lemma EntryIsCollected(root: seq<Entry>, hostname: string, track: TrackRequest, tools: Tools, s: nat)
    returns (f: SegmentFile)
    requires OnlyReorders(tools) && s < |TrackEntry(root, hostname, track, tools).segments|
    ensures f in TrackFiles(root, hostname, track, tools) &&
      f.file == TrackEntry(root, hostname, track, tools).segments[s].file
  {
    hide TrackFiles;
    var files := TrackFiles(root, hostname, track, tools);
    f := tools.collate(files)[s];
    assert f in multiset(tools.collate(files));
    assert f in multiset(files);
  }

  lemma ManifestIsWalked(h: Host, prefix: string)
    ensures Upload.FileToSend(prefix + "/manifest.json", h.manifestBytes) in Walked(Directory(h), prefix)
  {
    assert Find(Directory(h), MANIFEST_FILE) == Some(File(h.manifestBytes));
    assert NodeAt(File(h.manifestBytes), [], h.manifestBytes);
    hide Walked, Directory, FileAt, NodeAt, Find;
    FoundLeads(Directory(h), MANIFEST_FILE, [], h.manifestBytes);
    var path := [MANIFEST_FILE];
    assert path + [] == path;
    PathIsWalked(Directory(h), prefix, path, h.manifestBytes);
    assert path[1..] == [] && PathText(path) == "/" + MANIFEST_FILE + "" == "/manifest.json";
  }

  lemma SegmentIsWalked(h: Host, prefix: string, d: nat, s: nat) returns (bytes: nat)
    requires Recorded(h) && d < |Document(h).tracks| && s < |Document(h).tracks[d].segments|
    ensures var track := Document(h).tracks[d];
      var key := Manifests.SegmentKey(prefix, h.hostname, track.kind, track.sourceRef, track.segments[s].file);
      Upload.FileToSend(key, bytes) in Walked(Directory(h), prefix)
  {
    hide Walked, Directory, FileAt, TrackFiles, KeyOf, PathText, SegmentsAreFiles, OnlyReorders, Manifests.SourceSlug;
    var track := Document(h).tracks[d];
    var t := TrackOfDocument(h.recorded, h.hostname, h.tracks, h.tools, d);
    var f := EntryIsCollected(h.recorded, h.hostname, h.tracks[t], h.tools, s);
    bytes := SegmentIsFile(h, t, f);
    var path := [h.hostname, Folder(h.tracks[t]), track.segments[s].file];
    PathIsWalked(Directory(h), prefix, path, bytes);
    ThreeNames(prefix, path[0], path[1], path[2]);
  }

  /** Every key a machine's manifest makes the API expect is the key of a file that machine's walk sends. */
  lemma ExpectedIsWalked(h: Host, prefix: string, key: string) returns (f: Upload.FileToSend)
    requires Recorded(h) && Manifests.NamesKey(Document(h), prefix, key)
    ensures f in Walked(Directory(h), prefix) && f.key == key
  {
    hide Walked, Directory, Recorded, Manifests.SegmentKey;
    var doc := Document(h);
    var d, s :| 0 <= d < |doc.tracks| && 0 <= s < |doc.tracks[d].segments|
      && key == Manifests.SegmentKey(prefix, Manifests.HostOf(doc), doc.tracks[d].kind, doc.tracks[d].sourceRef,
        doc.tracks[d].segments[s].file);
    var bytes := SegmentIsWalked(h, prefix, d, s);
    f := Upload.FileToSend(key, bytes);
  }

  /** Storage holds under `key` an object the size of the file some machine's walk gives that key. */
  ghost predicate HoldsSome(hosts: seq<Host>, prefix: string, sizes: map<string, nat>, key: string) {
    key in sizes && exists m, f ::
      0 <= m < |hosts| && f in Walked(Directory(hosts[m]), prefix) && f.key == key && f.bytes == sizes[key]
  }

  /** Every machine's walk was uploaded; under a key two machines share, either one's object may have stayed. */
  ghost predicate Uploaded(hosts: seq<Host>, prefix: string, sizes: map<string, nat>) {
    forall m, f | 0 <= m < |hosts| && f in Walked(Directory(hosts[m]), prefix) :: HoldsSome(hosts, prefix, sizes, f.key)
  }

  /**
   * A machine whose upload was verified joins those uploaded before it, also
   * where it overwrote an object of theirs: so after every machine's verified
   * upload the session is uploaded.
   */
  lemma VerifiedUploadAdds(hosts: seq<Host>, m: nat, prefix: string, before: map<string, nat>,
      after: map<string, nat>, answered: seq<bool>)
    requires m < |hosts| && Uploaded(hosts[..m], prefix, before)
    requires |answered| == |Walked(Directory(hosts[m]), prefix)|
    requires Upload.OthersUntouched(Walked(Directory(hosts[m]), prefix), before, after)
    requires Upload.ReadsBack(Walked(Directory(hosts[m]), prefix), after, answered)
    ensures Uploaded(hosts[..m + 1], prefix, after)
  {
    hide Walked, Directory;
    var earlier, all, files := hosts[..m], hosts[..m + 1], Walked(Directory(hosts[m]), prefix);
    forall k, f | 0 <= k < |all| &&
      f in Walked(Directory(all[k]), prefix) ensures HoldsSome(all, prefix, after, f.key) {
      if k == m {
        var own :| 0 <= own < |files| && files[own] == f;
      }
      if i :| 0 <= i < |files| && files[i].key == f.key {
        assert all[m] == hosts[m] && files[i] in files;
        assert Upload.Reply(after, files[i].key, answered[i]) == Some(files[i].bytes);
      } else {
        assert earlier[k] == all[k];
        assert HoldsSome(earlier, prefix, before, f.key);
        assert Upload.SizeOf(after, f.key) == Upload.SizeOf(before, f.key);
        var n, g :| 0 <= n < |earlier| && g in Walked(Directory(earlier[n]), prefix) && g.key == f.key &&
          g.bytes == before[f.key];
        assert all[n] == earlier[n];
      }
    }
  }

  /** Machine `m`'s upload took storage from `before` to `after` and read back in full. */
  ghost predicate VerifiedUpload(h: Host, prefix: string, before: map<string, nat>, after: map<string, nat>) {
    exists answered: seq<bool> ::
      && |answered| == |Walked(Directory(h), prefix)|
      && Upload.OthersUntouched(Walked(Directory(h), prefix), before, after)
      && Upload.ReadsBack(Walked(Directory(h), prefix), after, answered)
  }

  /** After the verified uploads of all machines, one after the other, the session is uploaded. */
  lemma {:induction false} VerifiedUploadsMeet(hosts: seq<Host>, n: nat, prefix: string, stores: seq<map<string, nat>>)
    requires n <= |hosts| < |stores|
    requires forall m | 0 <= m < n :: VerifiedUpload(hosts[m], prefix, stores[m], stores[m + 1])
    ensures Uploaded(hosts[..n], prefix, stores[n])
  {
    hide VerifiedUpload;
    if n > 0 {
      VerifiedUploadsMeet(hosts, n - 1, prefix, stores);
      VerifiedUploadMeets(hosts, n - 1, prefix, stores[n - 1], stores[n]);
    }
  }

  lemma VerifiedUploadMeets(hosts: seq<Host>, m: nat, prefix: string, before: map<string, nat>, after: map<string, nat>)
    requires m < |hosts| && Uploaded(hosts[..m], prefix, before) && VerifiedUpload(hosts[m], prefix, before, after)
    ensures Uploaded(hosts[..m + 1], prefix, after)
  {
    hide Uploaded, Walked, Directory;
    var answered: seq<bool> :|
      && |answered| == |Walked(Directory(hosts[m]), prefix)|
      && Upload.OthersUntouched(Walked(Directory(hosts[m]), prefix), before, after)
      && Upload.ReadsBack(Walked(Directory(hosts[m]), prefix), after, answered);
    VerifiedUploadAdds(hosts, m, prefix, before, after, answered);
  }

  ghost predicate NothingExpectedIsEmpty(hosts: seq<Host>, prefix: string) {
    forall m, f | 0 <= m < |hosts| && f in Walked(Directory(hosts[m]), prefix) &&
      Manifests.Expected(Documents(hosts), prefix, f.key) ::
      f.bytes > 0
  }

  /** The machines in `done` were uploaded. */
  ghost predicate UploadedBy(hosts: seq<Host>, done: set<nat>, prefix: string, sizes: map<string, nat>) {
    forall m: nat, f | m in done && m < |hosts| && f in Walked(Directory(hosts[m]), prefix) ::
      HoldsSome(hosts, prefix, sizes, f.key)
  }

  /** A key that an uploaded machine's manifest names, or any manifest's own, is listed with a positive size. */
  lemma ExpectedIsHeld(hosts: seq<Host>, done: set<nat>, m: nat, prefix: string, sizes: map<string, nat>, key: string)
    requires m in done && m < |hosts| && Recorded(hosts[m])
    requires UploadedBy(hosts, done, prefix, sizes) && NothingExpectedIsEmpty(hosts, prefix)
    requires key == prefix + "/manifest.json" || Manifests.NamesKey(Document(hosts[m]), prefix, key)
    ensures key in sizes && sizes[key] > 0
  {
    hide Walked, Directory, Recorded, Document, Manifests.NamesKey;
    var f;
    if key == prefix + "/manifest.json" {
      f := Upload.FileToSend(key, hosts[m].manifestBytes);
      ManifestIsWalked(hosts[m], prefix);
    } else {
      f := ExpectedIsWalked(hosts[m], prefix, key);
      assert Documents(hosts)[m] == Document(hosts[m]);
    }
    assert HoldsSome(hosts, prefix, sizes, f.key);
  }

  /** Whatever this machine's manifest names is listed with a positive size. */
  ghost predicate NamedIsListed(h: Host, prefix: string, sizes: map<string, nat>) {
    forall key | Manifests.NamesKey(Document(h), prefix, key) :: key in sizes && sizes[key] > 0
  }

  /**
   * With some machines uploaded, the readback succeeds exactly when whatever
   * the manifests of the others name is already there.
   */
  lemma ReadBackExactly(hosts: seq<Host>, done: set<nat>, prefix: string, sizes: map<string, nat>)
    requires (exists m :: m in done && m < |hosts|) && forall m | 0 <= m < |hosts| :: Recorded(hosts[m])
    requires UploadedBy(hosts, done, prefix, sizes) && NothingExpectedIsEmpty(hosts, prefix)
    ensures Manifests.ReadBack(Documents(hosts), prefix, sizes) <==>
      forall m: nat | m < |hosts| && m !in done :: NamedIsListed(hosts[m], prefix, sizes)
  {
    hide Walked, Directory, Recorded, UploadedBy, NothingExpectedIsEmpty, Document, Manifests.NamesKey;
    var docs := Documents(hosts);
    if Manifests.ReadBack(docs, prefix, sizes) {
      forall m: nat, key | m < |hosts| && Manifests.NamesKey(Document(hosts[m]), prefix, key)
        ensures key in sizes && sizes[key] > 0
      {
        assert docs[m] == Document(hosts[m]);
        assert Manifests.Expected(docs, prefix, key);
      }
    }
    if forall m: nat | m < |hosts| && m !in done :: NamedIsListed(hosts[m], prefix, sizes) {
      var first :| first in done && first < |hosts|;
      forall key | Manifests.Expected(docs, prefix, key) ensures key in sizes && sizes[key] > 0 {
        if key == prefix + "/manifest.json" {
          ExpectedIsHeld(hosts, done, first, prefix, sizes, key);
        } else {
          var m: nat :| m < |docs| && Manifests.NamesKey(docs[m], prefix, key);
          if m in done {
            ExpectedIsHeld(hosts, done, m, prefix, sizes, key);
          } else {
            assert NamedIsListed(hosts[m], prefix, sizes);
          }
        }
      }
    }
  }

  /** A complete upload reads back. */
  lemma CompleteUploadReadsBack(hosts: seq<Host>, prefix: string, sizes: map<string, nat>)
    requires hosts != [] && forall m | 0 <= m < |hosts| :: Recorded(hosts[m])
    requires Uploaded(hosts, prefix, sizes) && NothingExpectedIsEmpty(hosts, prefix)
    ensures Manifests.ReadBack(Documents(hosts), prefix, sizes)
  {
    hide Walked, Directory, Recorded, HoldsSome, NothingExpectedIsEmpty, Manifests.ReadBack;
    var all := set m | m in Upload.Range(0, |hosts|);
    forall m: nat | m < |hosts| ensures m in all {
      assert Upload.Range(0, |hosts|)[m] == m;
    }
    assert 0 in all;
    ReadBackExactly(hosts, all, prefix, sizes);
  }

  /** So the API stores the session: the request is answered without an error. */
  lemma CompleteUploadIsStored(api: Api, sessionId: SessionId, hosts: seq<Host>, sizes: map<string, nat>)
    requires sessionId in api.sessions && api.sessions[sessionId].state == Uploading &&
      api.sessions[sessionId].s3Prefix.Some?
    requires hosts != [] && Manifests.DocumentsOf(api.manifests, sessionId) == Documents(hosts)
    requires forall m | 0 <= m < |hosts| :: Recorded(hosts[m])
    requires Uploaded(hosts, api.sessions[sessionId].s3Prefix.value, sizes) &&
      NothingExpectedIsEmpty(hosts, api.sessions[sessionId].s3Prefix.value)
    ensures Manifests.CompleteUpload(api, sessionId, sizes).error.None?
    ensures Manifests.CompleteUpload(api, sessionId, sizes).api.sessions[sessionId].state == Stored
  {
    CompleteUploadReadsBack(hosts, api.sessions[sessionId].s3Prefix.value, sizes);
    hide Uploaded, NothingExpectedIsEmpty, Recorded, Manifests.ReadBack;
    assert Documents(hosts) != [];
  }

  /**
   * For a session on one machine: a complete upload reads back exactly when no segment, and not the
   * manifest, is empty.
   */
  lemma OneMachineExactly(h: Host, prefix: string, sizes: map<string, nat>)
    requires Recorded(h) && WellFormed(Directory(h)) && Uploaded([h], prefix, sizes)
    ensures Manifests.ReadBack(Documents([h]), prefix, sizes) <==> NothingExpectedIsEmpty([h], prefix)
  {
    if NothingExpectedIsEmpty([h], prefix) {
      CompleteUploadReadsBack([h], prefix, sizes);
    }
    if Manifests.ReadBack(Documents([h]), prefix, sizes) {
      forall f | f in Walked(Directory(h), prefix) &&
        Manifests.Expected(Documents([h]), prefix, f.key) ensures f.bytes > 0 {
        assert [h][0] == h;
        assert HoldsSome([h], prefix, sizes, f.key);
        var m, g :| 0 <= m < |[h]| && g in Walked(Directory([h][m]), prefix) && g.key == f.key &&
          g.bytes == sizes[f.key];
        KeyNamesOneFile(Directory(h), prefix, f, g);
      }
    }
  }
}
