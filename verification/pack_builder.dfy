/** `PackBuilder.build_from_folder`: the channel and its videos go into a
    fresh pack database; each video with a transcript gets its segments, its
    sections (from chapter markers, or grown automatically) and its
    micro-chunks, each chunk row pointing at its section's row id; the texts
    to embed are collected in row order, and the manifest and the optional
    BM25 corpus are decided from them.

    The file system is a parameter: `fileExists` and `read` on path strings.
    The topic boundaries the automatic sections use come from the
    embeddings of the chunk texts, so they are a parameter as a function of
    those texts. Embedding, the vector files' contents, timestamps and the
    zip archive are not modelled. */
module PackBuild {
  import opened Wrappers
  import opened Types
  import Normalize
  import Chunking
  import Chapters
  import Sections
  import Transcripts

  const PackVersion := 1
  const SchemaVersion := 1

  /** The transcript extensions, in the order they are looked for. */
  const TranscriptExts: seq<string> := [".srt", ".vtt", ".json"]

  const ManifestNote: string :=
    "This is a spec scaffold. Replace hash embeddings + toy bm25 persistence for production."

  /** The configuration fields the build reads. `embeddingDim` is the
      embedder's dimension. */
  datatype PackConfig = PackConfig(
    microChunkSec: int, microOverlapSec: int, targetSectionSec: int, maxSectionSec: int,
    useBm25: bool, embeddingModelName: string, embeddingDim: int)

  /** What the build reads from outside: which paths exist, the text of a
      file, the JSON transcript reader, and the topic boundary test for a
      video's chunk texts (computed from their embeddings). */
  datatype Inputs = Inputs(
    fileExists: string -> bool, read: string -> string,
    parseJson: (string, string) -> Result<seq<Segment>>,
    boundaries: seq<string> -> int -> bool)

  /** A row of the `micro_chunk` table; `sectionId` is a `section` row id. */
  datatype ChunkRow = ChunkRow(videoId: string, sectionId: Option<int>, startMs: int, endMs: int, text: string)

  datatype Manifest = Manifest(
    packVersion: int, schemaVersion: int, channelId: string, channelTitle: string,
    embeddingDim: int, embeddingModelId: string, videoCount: int, note: string)

  /** What the build leaves besides the database: the manifest, the texts
      whose embeddings are saved (one vector row per text, in order), the
      record each row belongs to, whether each vector file is written, and
      the BM25 corpus file when it is written. */
  datatype Pack = Pack(
    manifest: Manifest,
    sectionTexts: seq<string>, sectionRows: seq<(Section, Video)>,
    chunkTexts: seq<string>, chunkRows: seq<(MicroChunk, Video)>,
    sectionVectors: bool, chunkVectors: bool, bm25Docs: Option<seq<string>>)

  /** What one video adds: its normalised segments, its sections, and its
      micro-chunks with their section indices linked. */
  datatype VideoWork = VideoWork(segments: seq<Segment>, sections: seq<Section>, chunks: seq<MicroChunk>)

  /** The texts and rows the video loop collects for the vector indexes. */
  datatype Collected = Collected(sectionTexts: seq<string>, sectionRows: seq<(Section, Video)>,
                                 chunkTexts: seq<string>, chunkRows: seq<(MicroChunk, Video)>)

  // ---------------------------------------------------------------------
  // Paths

  /** `input_dir / "transcripts" / f"{video_id}{ext}"`. */
  function TranscriptPath(inputDir: string, videoId: string, ext: string): string {
    inputDir + "/transcripts/" + videoId + ext
  }

  /** The index of the last `c` in `s`, or -1 (`str.rfind`). */
  function LastIndexOf(s: string, c: char): (r: int)
    ensures -1 <= r < |s|
  {
    if s == [] then -1
    else if s[|s| - 1] == c then |s| - 1
    else LastIndexOf(s[..|s| - 1], c)
  }

  /** `Path.name`: what follows the last `/`. */
  function PathName(p: string): string {
    p[LastIndexOf(p, '/') + 1..]
  }

  /** `Path.suffix` of a file name: from its last `.` on, unless that dot
      is the first or the last character. */
  function Suffix(name: string): string {
    var i := LastIndexOf(name, '.');
    if 0 < i < |name| - 1 then name[i..] else ""
  }

  /** `_find_transcript` from the `k`-th extension on. */
  function FoundFrom(inputDir: string, videoId: string, fileExists: string -> bool, k: nat): Option<string>
    requires k <= |TranscriptExts|
    decreases |TranscriptExts| - k
  {
    if k == |TranscriptExts| then None
    else if fileExists(TranscriptPath(inputDir, videoId, TranscriptExts[k])) then
      Some(TranscriptPath(inputDir, videoId, TranscriptExts[k]))
    else FoundFrom(inputDir, videoId, fileExists, k + 1)
  }

  /** `_find_transcript`: the first existing transcript file. */
  function FoundTranscript(inputDir: string, videoId: string, fileExists: string -> bool): Option<string> {
    FoundFrom(inputDir, videoId, fileExists, 0)
  }

  // ---------------------------------------------------------------------
  // What the build computes

  /** `max(s.end_ms for s in segments)`. */
  function MaxEndMs(segments: seq<Segment>): (m: int)
    requires segments != []
    ensures forall s <- segments :: s.endMs <= m
    ensures exists s <- segments :: s.endMs == m
  {
    if |segments| == 1 then segments[0].endMs
    else
      var rest := MaxEndMs(segments[1..]);
      assert segments[1..][0] in segments;
      if segments[0].endMs >= rest then segments[0].endMs else rest
  }

  /** The segments a video's transcript yields, normalised; none without a
      transcript file. */
  function VideoSegments(v: Video, inputDir: string, inp: Inputs): Result<seq<Segment>> {
    match FoundTranscript(inputDir, v.videoId, inp.fileExists)
    case None => Ok([])
    case Some(p) =>
      match Transcripts.LoadTranscript(Suffix(PathName(p)), inp.read(p), v.videoId, inp.parseJson)
      case Err(e) => Err(e)
      case Ok(segs) => Ok(Normalize.Normalized(segs))
  }

  function ChunkTexts(chunks: seq<MicroChunk>): (r: seq<string>)
    ensures |r| == |chunks| && forall j :: 0 <= j < |chunks| ==> r[j] == chunks[j].text
  {
    seq(|chunks|, j requires 0 <= j < |chunks| => chunks[j].text)
  }

  /** The sections of a video with segments: from its chapter markers when
      its description has some, grown over its chunks otherwise. */
  function VideoSections(v: Video, segments: seq<Segment>, chunks: seq<MicroChunk>, cfg: PackConfig, inp: Inputs): seq<Section>
    requires segments != []
  {
    var chapters := Chapters.ParseChapters(v.description);
    if chapters != [] then Sections.ChapterSections(v.videoId, chapters, MaxEndMs(segments), |chapters|)
    else
      var auto := Sections.AutoSections(v.videoId, chunks, |chunks|, inp.boundaries(ChunkTexts(chunks)),
                                        cfg.targetSectionSec, cfg.maxSectionSec);
      // The row count passed is `|chunks|`, which `Sections.AutoSectionsProperties`
      // shows is never refused: the `[]` branch is dead, no `ValueError` is dropped.
      if auto.Ok? then auto.value else []
  }

  /** What one iteration of the video loop adds, or the error it raises. */
  function VideoWorkOf(v: Video, cfg: PackConfig, inputDir: string, inp: Inputs): Result<VideoWork> {
    match VideoSegments(v, inputDir, inp)
    case Err(e) => Err(e)
    case Ok(segments) =>
      if segments == [] then Ok(VideoWork([], [], []))
      else
        var chunks := Chunking.MicroChunks(segments, cfg.microChunkSec, cfg.microOverlapSec);
        var sections := VideoSections(v, segments, chunks, cfg, inp);
        Ok(VideoWork(segments, sections, Sections.Assigned(chunks, sections)))
  }

  /** The work of every video, in order, or the first error raised;
      `work` is the loop body. */
  function Works(videos: seq<Video>, work: Video -> Result<VideoWork>): (r: Result<seq<VideoWork>>)
    ensures r.Ok? ==> |r.value| == |videos|
  {
    if videos == [] then Ok([])
    else
      match Works(videos[..|videos| - 1], work)
      case Err(e) => Err(e)
      case Ok(ws) =>
        match work(videos[|videos| - 1])
        case Err(e) => Err(e)
        case Ok(w) => Ok(ws + [w])
  }

  /** The loop body as a function of the video. */
  function WorkOf(cfg: PackConfig, inputDir: string, inp: Inputs): Video -> Result<VideoWork> {
    v => VideoWorkOf(v, cfg, inputDir, inp)
  }

  /** The row ids `base + 1, ..., base + n` the section table hands out
      after `base` rows. */
  function Ids(base: int, n: nat): (ids: seq<int>)
    ensures |ids| == n && forall j :: 0 <= j < n ==> ids[j] == base + j + 1
  {
    seq(n, j requires 0 <= j < n => base + j + 1)
  }

  /** The row `_insert_chunks` writes for a chunk: the section index is
      replaced by that section's row id, or by NULL when it is missing or
      out of range. */
  function ChunkRowOf(c: MicroChunk, sectionIds: seq<int>): ChunkRow {
    var secDbId := if c.sectionId.Some? && 0 <= c.sectionId.value < |sectionIds|
                   then Some(sectionIds[c.sectionId.value]) else None;
    ChunkRow(c.videoId, secDbId, c.startMs, c.endMs, c.text)
  }

  function ChunkRowsOf(chunks: seq<MicroChunk>, sectionIds: seq<int>): (rows: seq<ChunkRow>)
    ensures |rows| == |chunks| && forall j :: 0 <= j < |chunks| ==> rows[j] == ChunkRowOf(chunks[j], sectionIds)
  {
    seq(|chunks|, j requires 0 <= j < |chunks| => ChunkRowOf(chunks[j], sectionIds))
  }

  /** The `transcript_segment` rows, video after video. */
  function SegmentTable(ws: seq<VideoWork>): seq<Segment> {
    if ws == [] then [] else SegmentTable(ws[..|ws| - 1]) + ws[|ws| - 1].segments
  }

  /** The `section` rows, video after video; row `k` has id `k + 1`. */
  function SectionTable(ws: seq<VideoWork>): seq<Section> {
    if ws == [] then [] else SectionTable(ws[..|ws| - 1]) + ws[|ws| - 1].sections
  }

  /** The `micro_chunk` rows, video after video, each video's section
      indices resolved against the ids its own sections got. */
  function ChunkTable(ws: seq<VideoWork>): seq<ChunkRow> {
    if ws == [] then []
    else
      var init := ws[..|ws| - 1];
      var last := ws[|ws| - 1];
      ChunkTable(init) + ChunkRowsOf(last.chunks, Ids(|SectionTable(init)|, |last.sections|))
  }

  function Tagged<T>(xs: seq<T>, v: Video): (r: seq<(T, Video)>)
    ensures |r| == |xs| && forall j :: 0 <= j < |xs| ==> r[j] == (xs[j], v)
  {
    seq(|xs|, j requires 0 <= j < |xs| => (xs[j], v))
  }

  /** `section_rows`: each section with the video it belongs to. */
  function SectionPairs(videos: seq<Video>, ws: seq<VideoWork>): seq<(Section, Video)>
    requires |videos| == |ws|
  {
    if ws == [] then []
    else SectionPairs(videos[..|videos| - 1], ws[..|ws| - 1]) + Tagged(ws[|ws| - 1].sections, videos[|videos| - 1])
  }

  /** `chunk_rows`: each linked chunk with the video it belongs to. */
  function ChunkPairs(videos: seq<Video>, ws: seq<VideoWork>): seq<(MicroChunk, Video)>
    requires |videos| == |ws|
  {
    if ws == [] then []
    else ChunkPairs(videos[..|videos| - 1], ws[..|ws| - 1]) + Tagged(ws[|ws| - 1].chunks, videos[|videos| - 1])
  }

  /** The text embedded for a section: video title, section title and
      summary on three lines. */
  function SectionText(v: Video, s: Section): string {
    v.title + "\n" + s.title + "\n" + s.summary
  }

  function SectionTexts(rows: seq<(Section, Video)>): (r: seq<string>)
    ensures |r| == |rows| && forall j :: 0 <= j < |rows| ==> r[j] == SectionText(rows[j].1, rows[j].0)
  {
    seq(|rows|, j requires 0 <= j < |rows| => SectionText(rows[j].1, rows[j].0))
  }

  function PairTexts(rows: seq<(MicroChunk, Video)>): (r: seq<string>)
    ensures |r| == |rows| && forall j :: 0 <= j < |rows| ==> r[j] == rows[j].0.text
  {
    seq(|rows|, j requires 0 <= j < |rows| => rows[j].0.text)
  }

  function ManifestOf(channel: Channel, videos: seq<Video>, cfg: PackConfig): Manifest {
    Manifest(PackVersion, SchemaVersion, channel.channelId, channel.title, cfg.embeddingDim,
             cfg.embeddingModelName, |videos|, ManifestNote)
  }

  /** Everything the build leaves besides the database, from the texts on. */
  function PackOf(channel: Channel, videos: seq<Video>, cfg: PackConfig,
                  sectionTexts: seq<string>, sectionRows: seq<(Section, Video)>,
                  chunkTexts: seq<string>, chunkRows: seq<(MicroChunk, Video)>): Pack {
    Pack(ManifestOf(channel, videos, cfg), sectionTexts, sectionRows, chunkTexts, chunkRows,
         sectionTexts != [], chunkTexts != [],
         if chunkTexts != [] && cfg.useBm25 then Some(chunkTexts) else None)
  }

  /** The `video` table after `INSERT OR REPLACE` of each video in turn. */
  function VideoTable(videos: seq<Video>): map<string, Video> {
    if videos == [] then map[]
    else VideoTable(videos[..|videos| - 1])[videos[|videos| - 1].videoId := videos[|videos| - 1]]
  }

  // ---------------------------------------------------------------------
  // The database

  /** The pack database: one field per table the build writes. Tables
      keyed by a text primary key are maps; the others keep their rows in
      insertion order. */
  class PackDb {
    var channels: map<string, Channel>
    var videos: map<string, Video>
    var segments: seq<Segment>
    var sections: seq<Section>
    var chunks: seq<ChunkRow>

    /** A database with the schema created and every table empty. */
    constructor()
      ensures channels == map[] && videos == map[] && segments == [] && sections == [] && chunks == []
    {
      channels := map[];
      videos := map[];
      segments := [];
      sections := [];
      chunks := [];
    }

    method InsertOrReplaceChannel(ch: Channel)
      modifies this
      ensures channels == old(channels)[ch.channelId := ch]
      ensures videos == old(videos) && segments == old(segments) && sections == old(sections) && chunks == old(chunks)
    {
      channels := channels[ch.channelId := ch];
    }

    method InsertOrReplaceVideo(v: Video)
      modifies this
      ensures videos == old(videos)[v.videoId := v]
      ensures channels == old(channels) && segments == old(segments) && sections == old(sections) && chunks == old(chunks)
    {
      videos := videos[v.videoId := v];
    }

    method InsertSegments(rows: seq<Segment>)
      modifies this
      ensures segments == old(segments) + rows
      ensures channels == old(channels) && videos == old(videos) && sections == old(sections) && chunks == old(chunks)
    {
      segments := segments + rows;
    }

    /** Inserts one section; the row id handed out is the row count, as
        `AUTOINCREMENT` does on a table nothing was deleted from. */
    method InsertSection(s: Section) returns (rowId: int)
      modifies this
      ensures sections == old(sections) + [s] && rowId == |sections|
      ensures channels == old(channels) && videos == old(videos) && segments == old(segments) && chunks == old(chunks)
    {
      sections := sections + [s];
      rowId := |sections|;
    }

    method InsertChunks(rows: seq<ChunkRow>)
      modifies this
      ensures chunks == old(chunks) + rows
      ensures channels == old(channels) && videos == old(videos) && segments == old(segments) && sections == old(sections)
    {
      chunks := chunks + rows;
    }
  }

  // ---------------------------------------------------------------------
  // The builder

  class PackBuilder {
    const cfg: PackConfig

    constructor(cfg: PackConfig)
      ensures this.cfg == cfg
    {
      this.cfg := cfg;
    }

    /** `_find_transcript`. */
    method FindTranscript(inputDir: string, videoId: string, fileExists: string -> bool) returns (p: Option<string>)
      ensures p == FoundTranscript(inputDir, videoId, fileExists)
    {
      for k := 0 to |TranscriptExts|
        invariant FoundFrom(inputDir, videoId, fileExists, k) == FoundTranscript(inputDir, videoId, fileExists)
      {
        var path := TranscriptPath(inputDir, videoId, TranscriptExts[k]);
        if fileExists(path) {
          return Some(path);
        }
      }
      return None;
    }

    /** `_insert_videos`. */
    method InsertVideos(db: PackDb, videos: seq<Video>)
      modifies db
      ensures db.videos == old(db.videos) + VideoTable(videos)
      ensures db.channels == old(db.channels) && db.segments == old(db.segments)
      ensures db.sections == old(db.sections) && db.chunks == old(db.chunks)
    {
      for i := 0 to |videos|
        invariant db.videos == old(db.videos) + VideoTable(videos[..i])
        invariant db.channels == old(db.channels) && db.segments == old(db.segments)
        invariant db.sections == old(db.sections) && db.chunks == old(db.chunks)
      {
        assert videos[..i + 1][..i] == videos[..i];
        db.InsertOrReplaceVideo(videos[i]);
      }
      assert videos[..|videos|] == videos;
    }

    /** `_insert_sections`: the row ids of the sections, in order. */
    method InsertSections(db: PackDb, sections: seq<Section>) returns (ids: seq<int>)
      modifies db
      ensures db.sections == old(db.sections) + sections
      ensures ids == Ids(|old(db.sections)|, |sections|)
      ensures db.channels == old(db.channels) && db.videos == old(db.videos)
      ensures db.segments == old(db.segments) && db.chunks == old(db.chunks)
    {
      ids := [];
      for i := 0 to |sections|
        invariant db.sections == old(db.sections) + sections[..i]
        invariant |ids| == i && forall j :: 0 <= j < i ==> ids[j] == |old(db.sections)| + j + 1
        invariant db.channels == old(db.channels) && db.videos == old(db.videos)
        invariant db.segments == old(db.segments) && db.chunks == old(db.chunks)
      {
        assert sections[..i + 1] == sections[..i] + [sections[i]];
        var rowId := db.InsertSection(sections[i]);
        ids := ids + [rowId];
      }
      assert sections[..|sections|] == sections;
    }

    /** `_insert_chunks`. */
    method InsertChunks(db: PackDb, chunks: seq<MicroChunk>, sectionIds: seq<int>)
      modifies db
      ensures db.chunks == old(db.chunks) + ChunkRowsOf(chunks, sectionIds)
      ensures db.channels == old(db.channels) && db.videos == old(db.videos)
      ensures db.segments == old(db.segments) && db.sections == old(db.sections)
    {
      var rows := [];
      for i := 0 to |chunks|
        invariant |rows| == i && forall j :: 0 <= j < i ==> rows[j] == ChunkRowOf(chunks[j], sectionIds)
      {
        var c := chunks[i];
        var secDbId := None;
        if c.sectionId.Some? && 0 <= c.sectionId.value < |sectionIds| {
          secDbId := Some(sectionIds[c.sectionId.value]);
        }
        rows := rows + [ChunkRow(c.videoId, secDbId, c.startMs, c.endMs, c.text)];
      }
      db.InsertChunks(rows);
    }

    /** Lines 103-105 of the video loop: each section's text and row. */
    method CollectSections(texts: seq<string>, rows: seq<(Section, Video)>, v: Video, sections: seq<Section>)
      returns (texts': seq<string>, rows': seq<(Section, Video)>)
      ensures rows' == rows + Tagged(sections, v)
      ensures texts' == texts + SectionTexts(Tagged(sections, v))
    {
      texts', rows' := texts, rows;
      for i := 0 to |sections|
        invariant rows' == rows + Tagged(sections[..i], v)
        invariant texts' == texts + SectionTexts(Tagged(sections[..i], v))
      {
        var s := sections[i];
        texts' := texts' + [v.title + "\n" + s.title + "\n" + s.summary];
        rows' := rows' + [(s, v)];
        assert Tagged(sections[..i + 1], v) == Tagged(sections[..i], v) + [(s, v)];
      }
      assert sections[..|sections|] == sections;
    }

    /** Lines 106-108 of the video loop: each chunk's text and row. */
    method CollectChunks(texts: seq<string>, rows: seq<(MicroChunk, Video)>, v: Video, chunks: seq<MicroChunk>)
      returns (texts': seq<string>, rows': seq<(MicroChunk, Video)>)
      ensures rows' == rows + Tagged(chunks, v)
      ensures texts' == texts + ChunkTexts(chunks)
    {
      texts', rows' := texts, rows;
      for i := 0 to |chunks|
        invariant rows' == rows + Tagged(chunks[..i], v)
        invariant texts' == texts + ChunkTexts(chunks[..i])
      {
        var c := chunks[i];
        texts' := texts' + [c.text];
        rows' := rows' + [(c, v)];
        assert Tagged(chunks[..i + 1], v) == Tagged(chunks[..i], v) + [(c, v)];
        assert ChunkTexts(chunks[..i + 1]) == ChunkTexts(chunks[..i]) + [c.text];
      }
      assert chunks[..|chunks|] == chunks;
    }

    /** Lines 62-67 of the video loop: the transcript's segments, read,
        normalised and stored; none without a transcript file. */
    method LoadSegments(db: PackDb, v: Video, inputDir: string, inp: Inputs) returns (r: Result<seq<Segment>>)
      modifies db
      ensures r == VideoSegments(v, inputDir, inp)
      ensures r.Ok? ==> db.segments == old(db.segments) + r.value
      ensures r.Err? ==> db.segments == old(db.segments)
      ensures db.channels == old(db.channels) && db.videos == old(db.videos)
      ensures db.sections == old(db.sections) && db.chunks == old(db.chunks)
    {
      var tpath := FindTranscript(inputDir, v.videoId, inp.fileExists);
      var segments := [];
      if tpath.Some? && inp.fileExists(tpath.value) {
        var loaded := Transcripts.LoadTranscript(Suffix(PathName(tpath.value)), inp.read(tpath.value), v.videoId, inp.parseJson);
        if loaded.Err? {
          return Err(loaded.error);
        }
        segments := Normalize.NormalizeSegments(loaded.value);
        db.InsertSegments(segments);
      }
      return Ok(segments);
    }

    /** Lines 74-95 of the video loop: the micro-chunks of a video with
        segments, and its sections. */
    method BuildSections(v: Video, segments: seq<Segment>, inp: Inputs) returns (chunks: seq<MicroChunk>, sections: seq<Section>)
      requires segments != []
      ensures chunks == Chunking.MicroChunks(segments, cfg.microChunkSec, cfg.microOverlapSec)
      ensures sections == VideoSections(v, segments, chunks, cfg, inp)
    {
      chunks := Chunking.BuildMicroChunks(segments, cfg.microChunkSec, cfg.microOverlapSec);
      var chapters := Chapters.ParseChaptersFromDescription(v.description);
      var videoEndMs := MaxEndMs(segments);
      sections := [];
      if chapters != [] {
        sections := Sections.BuildSectionsFromChapters(v.videoId, chapters, videoEndMs);
      } else {
        var texts := ChunkTexts(chunks);
        var auto := Sections.AutoChapterSections(v.videoId, chunks, |chunks|, inp.boundaries(texts),
                                                 cfg.targetSectionSec, cfg.maxSectionSec);
        // Never refused, as the row count is `|chunks|` (`Sections.AutoSectionsProperties`).
        if auto.Ok? {
          sections := auto.value;
        }
      }
    }

    /** Lines 62-100 of the video loop: the segments, sections and chunks
        of one video go into the database. A transcript that cannot be
        loaded raises before anything is written. */
    method ProcessVideo(db: PackDb, v: Video, inputDir: string, inp: Inputs) returns (r: Result<VideoWork>)
      modifies db
      ensures r == VideoWorkOf(v, cfg, inputDir, inp)
      ensures r.Ok? ==>
        db.segments == old(db.segments) + r.value.segments
        && db.sections == old(db.sections) + r.value.sections
        && db.chunks == old(db.chunks) + ChunkRowsOf(r.value.chunks, Ids(|old(db.sections)|, |r.value.sections|))
      ensures db.channels == old(db.channels) && db.videos == old(db.videos)
    {
      var loaded := LoadSegments(db, v, inputDir, inp);
      if loaded.Err? {
        return Err(loaded.error);
      }
      var segments := loaded.value;
      if segments == [] {
        return Ok(VideoWork([], [], []));
      }
      var chunks, sections := BuildSections(v, segments, inp);
      var secIds := InsertSections(db, sections);
      var linked := Sections.AssignChunksToSections(chunks, sections);
      InsertChunks(db, linked, secIds);
      return Ok(VideoWork(segments, sections, linked));
    }

    /** The loop over the videos (lines 61-108): every video's rows go into
        the database, which starts without any, and its section and chunk
        texts and rows are collected; the first transcript that cannot be
        loaded ends the loop with its error. */
    method LoadVideos(db: PackDb, videos: seq<Video>, inputDir: string, inp: Inputs) returns (r: Result<Collected>)
      modifies db
      requires db.segments == [] && db.sections == [] && db.chunks == []
      ensures r.Ok? <==> Works(videos, WorkOf(cfg, inputDir, inp)).Ok?
      ensures r.Err? ==> r == Works(videos, WorkOf(cfg, inputDir, inp)).PropagateFailure()
      ensures db.channels == old(db.channels) && db.videos == old(db.videos)
      ensures r.Ok? ==>
        var ws := Works(videos, WorkOf(cfg, inputDir, inp)).value;
        db.segments == SegmentTable(ws) && db.sections == SectionTable(ws) && db.chunks == ChunkTable(ws)
        && r.value == Collected(SectionTexts(SectionPairs(videos, ws)), SectionPairs(videos, ws),
                                PairTexts(ChunkPairs(videos, ws)), ChunkPairs(videos, ws))
    {
      var chunkTexts: seq<string> := [];
      var chunkRows: seq<(MicroChunk, Video)> := [];
      var sectionTexts: seq<string> := [];
      var sectionRows: seq<(Section, Video)> := [];
      ghost var ws: seq<VideoWork> := [];
      for i := 0 to |videos|
        invariant Works(videos[..i], WorkOf(cfg, inputDir, inp)) == Ok(ws) && |ws| == i
        invariant db.channels == old(db.channels) && db.videos == old(db.videos)
        invariant db.segments == SegmentTable(ws) && db.sections == SectionTable(ws) && db.chunks == ChunkTable(ws)
        invariant sectionRows == SectionPairs(videos[..i], ws) && sectionTexts == SectionTexts(sectionRows)
        invariant chunkRows == ChunkPairs(videos[..i], ws) && chunkTexts == PairTexts(chunkRows)
      {
        var v := videos[i];
        var w := ProcessVideo(db, v, inputDir, inp);
        assert WorkOf(cfg, inputDir, inp)(v) == w;
        WorksStep(videos, i, WorkOf(cfg, inputDir, inp));
        if w.Err? {
          WorksAbort(videos, i + 1, WorkOf(cfg, inputDir, inp));
          return Err(w.error);
        }
        var work := w.value;
        sectionTexts, sectionRows := CollectSections(sectionTexts, sectionRows, v, work.sections);
        chunkTexts, chunkRows := CollectChunks(chunkTexts, chunkRows, v, work.chunks);
        TablesSnoc(ws, work);
        PairsSnoc(videos, i, ws, work);
        SectionTextsAppend(SectionPairs(videos[..i], ws), Tagged(work.sections, v));
        PairTextsAppend(ChunkPairs(videos[..i], ws), work.chunks, v);
        ws := ws + [work];
      }
      assert videos[..|videos|] == videos;
      r := Ok(Collected(sectionTexts, sectionRows, chunkTexts, chunkRows));
    }

    /** `build_from_folder`, from the loaded manifest to the files the
        pack holds: a fresh database, the rows of every video, and the
        pack's other contents; the first transcript that cannot be loaded
        aborts the build. */
    method BuildFromFolder(channel: Channel, videos: seq<Video>, inputDir: string, inp: Inputs)
      returns (db: PackDb, r: Result<Pack>)
      ensures fresh(db)
      ensures r.Ok? <==> Works(videos, WorkOf(cfg, inputDir, inp)).Ok?
      ensures r.Err? ==> r == Works(videos, WorkOf(cfg, inputDir, inp)).PropagateFailure()
      ensures r.Ok? ==>
        var ws := Works(videos, WorkOf(cfg, inputDir, inp)).value;
        db.channels == map[channel.channelId := channel] && db.videos == VideoTable(videos)
        && db.segments == SegmentTable(ws) && db.sections == SectionTable(ws) && db.chunks == ChunkTable(ws)
        && r.value == PackOf(channel, videos, cfg, SectionTexts(SectionPairs(videos, ws)), SectionPairs(videos, ws),
                             PairTexts(ChunkPairs(videos, ws)), ChunkPairs(videos, ws))
    {
      db := new PackDb();
      db.InsertOrReplaceChannel(channel);
      InsertVideos(db, videos);
      assert db.videos == VideoTable(videos);
      var loaded := LoadVideos(db, videos, inputDir, inp);
      if loaded.Err? {
        return db, Err(loaded.error);
      }
      var c := loaded.value;
      var manifest := Manifest(PackVersion, SchemaVersion, channel.channelId, channel.title,
                               cfg.embeddingDim, cfg.embeddingModelName, |videos|, ManifestNote);
      var bm25Docs := None;
      if c.chunkTexts != [] && cfg.useBm25 {
        bm25Docs := Some(c.chunkTexts);
      }
      r := Ok(Pack(manifest, c.sectionTexts, c.sectionRows, c.chunkTexts, c.chunkRows,
                   c.sectionTexts != [], c.chunkTexts != [], bm25Docs));
    }
  }

  // ---------------------------------------------------------------------
  // Steps of the video loop

  /** One more video: its work is appended, or its error ends the build. */
  lemma WorksStep(videos: seq<Video>, i: nat, work: Video -> Result<VideoWork>)
    requires i < |videos| && Works(videos[..i], work).Ok?
    ensures Works(videos[..i + 1], work)
      == match work(videos[i])
         case Err(e) => Err(e)
         case Ok(w) => Ok(Works(videos[..i], work).value + [w])
  {
    assert videos[..i + 1][..i] == videos[..i];
  }

  /** An error raised for an early video is the error of the whole build. */
  lemma {:induction false} WorksAbort(videos: seq<Video>, i: nat, work: Video -> Result<VideoWork>)
    requires i <= |videos| && Works(videos[..i], work).Err?
    ensures Works(videos, work) == Works(videos[..i], work)
    decreases |videos| - i
  {
    if i < |videos| {
      assert videos[..i + 1][..i] == videos[..i];
      WorksAbort(videos, i + 1, work);
    } else {
      assert videos[..i] == videos;
    }
  }

  lemma TablesSnoc(ws: seq<VideoWork>, w: VideoWork)
    ensures SegmentTable(ws + [w]) == SegmentTable(ws) + w.segments
    ensures SectionTable(ws + [w]) == SectionTable(ws) + w.sections
    ensures ChunkTable(ws + [w]) == ChunkTable(ws) + ChunkRowsOf(w.chunks, Ids(|SectionTable(ws)|, |w.sections|))
  {
    assert (ws + [w])[..|ws|] == ws;
  }

  lemma PairsSnoc(videos: seq<Video>, i: nat, ws: seq<VideoWork>, w: VideoWork)
    requires i < |videos| && |ws| == i
    ensures SectionPairs(videos[..i + 1], ws + [w]) == SectionPairs(videos[..i], ws) + Tagged(w.sections, videos[i])
    ensures ChunkPairs(videos[..i + 1], ws + [w]) == ChunkPairs(videos[..i], ws) + Tagged(w.chunks, videos[i])
  {
    assert (ws + [w])[..|ws|] == ws;
    assert videos[..i + 1][..i] == videos[..i];
  }

  lemma SectionTextsAppend(a: seq<(Section, Video)>, b: seq<(Section, Video)>)
    ensures SectionTexts(a + b) == SectionTexts(a) + SectionTexts(b)
  {
  }

  lemma PairTextsAppend(a: seq<(MicroChunk, Video)>, chunks: seq<MicroChunk>, v: Video)
    ensures PairTexts(a + Tagged(chunks, v)) == PairTexts(a) + ChunkTexts(chunks)
  {
  }

  // ---------------------------------------------------------------------
  // Properties: paths

  /** `LastIndexOf` finds the last occurrence: `c` is at the index found
      and nowhere after it, and -1 means `c` does not occur. */
  lemma {:induction false} LastIndexOfSpec(s: string, c: char)
    ensures LastIndexOf(s, c) >= 0 ==> s[LastIndexOf(s, c)] == c
    ensures forall k :: LastIndexOf(s, c) < k < |s| ==> s[k] != c
    ensures LastIndexOf(s, c) == -1 <==> c !in s
  {
    if s != [] && s[|s| - 1] != c {
      var init := s[..|s| - 1];
      LastIndexOfSpec(init, c);
      assert forall k :: 0 <= k < |init| ==> s[k] == init[k];
      assert c in init ==> c in s;
    }
  }

  /** Any index with `c` there and nowhere after it is the one found. */
  lemma LastIndexOfIs(s: string, c: char, r: int)
    requires -1 <= r < |s| && (r >= 0 ==> s[r] == c)
    requires forall k :: r < k < |s| ==> s[k] != c
    ensures LastIndexOf(s, c) == r
  {
    LastIndexOfSpec(s, c);
  }

  /** A transcript path ends in the file name `video_id + ext`, whose
      suffix is the extension unless the video id is empty, in which case
      the name is all suffix and `Path.suffix` is empty. */
  lemma TranscriptSuffix(inputDir: string, videoId: string, ext: string)
    requires ext in TranscriptExts
    requires forall k :: 0 <= k < |videoId| ==> videoId[k] != '/'
    ensures PathName(TranscriptPath(inputDir, videoId, ext)) == videoId + ext
    ensures Suffix(PathName(TranscriptPath(inputDir, videoId, ext))) == (if videoId == [] then "" else ext)
  {
    TranscriptName(inputDir, videoId, ext);
    NameSuffix(videoId, ext);
  }

  lemma TranscriptName(inputDir: string, videoId: string, ext: string)
    requires ext in TranscriptExts
    requires forall k :: 0 <= k < |videoId| ==> videoId[k] != '/'
    ensures PathName(TranscriptPath(inputDir, videoId, ext)) == videoId + ext
  {
    var p := TranscriptPath(inputDir, videoId, ext);
    var dir := inputDir + "/transcripts/";
    var name := videoId + ext;
    assert p == dir + name;
    assert |dir| == |inputDir| + 13 && dir[|dir| - 1] == '/';
    assert forall k :: 0 <= k < |ext| ==> ext[k] != '/';
    forall k | |dir| <= k < |p| ensures p[k] != '/' {
      assert p[k] == name[k - |dir|];
    }
    LastIndexOfIs(p, '/', |dir| - 1);
    assert p[|dir|..] == name;
  }

  lemma NameSuffix(videoId: string, ext: string)
    requires ext in TranscriptExts
    ensures Suffix(videoId + ext) == (if videoId == [] then "" else ext)
  {
    var name := videoId + ext;
    assert ext[0] == '.' && |ext| >= 4 && forall k :: 0 < k < |ext| ==> ext[k] != '.';
    assert name[|videoId|] == '.';
    forall k | |videoId| < k < |name| ensures name[k] != '.' {
      assert name[k] == ext[k - |videoId|];
    }
    LastIndexOfIs(name, '.', |videoId|);
    assert name[|videoId|..] == ext;
  }

  /** `_find_transcript` returns the first of `.srt`, `.vtt`, `.json` that
      exists, and nothing exactly when none does. */
  lemma FoundTranscriptSpec(inputDir: string, videoId: string, fileExists: string -> bool)
    ensures FoundTranscript(inputDir, videoId, fileExists).None? <==>
      forall k :: 0 <= k < |TranscriptExts| ==> !fileExists(TranscriptPath(inputDir, videoId, TranscriptExts[k]))
    ensures FoundTranscript(inputDir, videoId, fileExists).Some? ==>
      exists k :: 0 <= k < |TranscriptExts|
        && FoundTranscript(inputDir, videoId, fileExists) == Some(TranscriptPath(inputDir, videoId, TranscriptExts[k]))
        && fileExists(TranscriptPath(inputDir, videoId, TranscriptExts[k]))
        && forall j :: 0 <= j < k ==> !fileExists(TranscriptPath(inputDir, videoId, TranscriptExts[j]))
  {
    var srt := TranscriptPath(inputDir, videoId, TranscriptExts[0]);
    var vtt := TranscriptPath(inputDir, videoId, TranscriptExts[1]);
    var json := TranscriptPath(inputDir, videoId, TranscriptExts[2]);
    assert FoundFrom(inputDir, videoId, fileExists, 3) == None;
    if fileExists(srt) {
      assert FoundTranscript(inputDir, videoId, fileExists) == Some(srt);
    } else if fileExists(vtt) {
      assert FoundTranscript(inputDir, videoId, fileExists) == Some(vtt);
    } else if fileExists(json) {
      assert FoundTranscript(inputDir, videoId, fileExists) == Some(json);
    }
  }

  /** A video whose id is empty and that has a transcript file cannot be
      built: the file's suffix reads as empty and the loader refuses it. */
  lemma EmptyVideoIdRefused(v: Video, inputDir: string, inp: Inputs)
    requires v.videoId == [] && FoundTranscript(inputDir, v.videoId, inp.fileExists).Some?
    ensures VideoSegments(v, inputDir, inp) == Err(ValueError("Unsupported transcript format: "))
  {
    FoundTranscriptSpec(inputDir, v.videoId, inp.fileExists);
    var k :| 0 <= k < |TranscriptExts|
      && FoundTranscript(inputDir, v.videoId, inp.fileExists) == Some(TranscriptPath(inputDir, v.videoId, TranscriptExts[k]));
    TranscriptSuffix(inputDir, v.videoId, TranscriptExts[k]);
    var p := TranscriptPath(inputDir, v.videoId, TranscriptExts[k]);
    assert Suffix(PathName(p)) == "";
    assert Text.Lower("") == "";
    Transcripts.LoadErrors("", inp.read(p), v.videoId, inp.parseJson);
    assert Transcripts.LoadTranscript("", inp.read(p), v.videoId, inp.parseJson)
      == Err(ValueError("Unsupported transcript format: " + ""));
    assert "Unsupported transcript format: " + "" == "Unsupported transcript format: ";
  }

  // ---------------------------------------------------------------------
  // Properties: one video

  /** A video adds nothing without a transcript file, nor when its
      transcript has no text left after normalisation. */
  lemma VideoWorkEmpty(v: Video, cfg: PackConfig, inputDir: string, inp: Inputs)
    ensures FoundTranscript(inputDir, v.videoId, inp.fileExists).None? ==>
      VideoWorkOf(v, cfg, inputDir, inp) == Ok(VideoWork([], [], []))
    ensures VideoWorkOf(v, cfg, inputDir, inp).Ok? && VideoWorkOf(v, cfg, inputDir, inp).value.segments == [] ==>
      VideoWorkOf(v, cfg, inputDir, inp).value == VideoWork([], [], [])
    ensures VideoWorkOf(v, cfg, inputDir, inp).Ok? ==>
      VideoSegments(v, inputDir, inp) == Ok(VideoWorkOf(v, cfg, inputDir, inp).value.segments)
  {
  }

  /** Every section a video adds belongs to that video. With chapter
      markers there is at most one section per marker and none has a
      summary; without them, a video with chunks gets at least one
      section. */
  lemma VideoSectionsShape(v: Video, cfg: PackConfig, inputDir: string, inp: Inputs)
    requires VideoWorkOf(v, cfg, inputDir, inp).Ok?
    ensures forall s <- VideoWorkOf(v, cfg, inputDir, inp).value.sections :: s.videoId == v.videoId
    ensures Chapters.ParseChapters(v.description) != [] ==>
      |VideoWorkOf(v, cfg, inputDir, inp).value.sections| <= |Chapters.ParseChapters(v.description)|
      && forall s <- VideoWorkOf(v, cfg, inputDir, inp).value.sections :: s.summary == ""
    ensures (Chapters.ParseChapters(v.description) == [] && VideoWorkOf(v, cfg, inputDir, inp).value.chunks != []) ==>
      VideoWorkOf(v, cfg, inputDir, inp).value.sections != []
  {
    var segs := VideoSegments(v, inputDir, inp);
    if segs.value != [] {
      var segments := segs.value;
      var chunks := Chunking.MicroChunks(segments, cfg.microChunkSec, cfg.microOverlapSec);
      var chapters := Chapters.ParseChapters(v.description);
      if chapters != [] {
        Sections.SectionsFromChaptersProperties(v.videoId, chapters, MaxEndMs(segments));
      } else if chunks != [] {
        var spike := inp.boundaries(ChunkTexts(chunks));
        Sections.AutoSectionsProperties(v.videoId, chunks, spike, cfg.targetSectionSec, cfg.maxSectionSec, cfg.maxSectionSec, |chunks|);
        AutoSectionsTagged(v.videoId, chunks, spike, cfg.targetSectionSec);
      }
      Sections.AssignedProperties(chunks, VideoSections(v, segments, chunks, cfg, inp));
    }
  }

  /** A video's chunks are its micro-chunks with section indices; when it
      has sections, every chunk carries the index of one of them, and the
      indices never decrease along the chunks. */
  lemma VideoChunksIndexed(v: Video, cfg: PackConfig, inputDir: string, inp: Inputs)
    requires VideoWorkOf(v, cfg, inputDir, inp).Ok?
    requires VideoWorkOf(v, cfg, inputDir, inp).value.sections != []
    ensures forall j :: 0 <= j < |VideoWorkOf(v, cfg, inputDir, inp).value.chunks| ==>
      VideoWorkOf(v, cfg, inputDir, inp).value.chunks[j].sectionId.Some?
      && 0 <= VideoWorkOf(v, cfg, inputDir, inp).value.chunks[j].sectionId.value < |VideoWorkOf(v, cfg, inputDir, inp).value.sections|
    ensures forall i, j :: 0 <= i < j < |VideoWorkOf(v, cfg, inputDir, inp).value.chunks| ==>
      VideoWorkOf(v, cfg, inputDir, inp).value.chunks[i].sectionId.value
        <= VideoWorkOf(v, cfg, inputDir, inp).value.chunks[j].sectionId.value
  {
    var segments := VideoSegments(v, inputDir, inp).value;
    var chunks := Chunking.MicroChunks(segments, cfg.microChunkSec, cfg.microOverlapSec);
    Sections.AssignedProperties(chunks, VideoSections(v, segments, chunks, cfg, inp));
  }

  /** The automatic sections of a non-empty chunk list are not empty and
      all carry the video's id. */
  lemma AutoSectionsTagged(videoId: string, chunks: seq<MicroChunk>, spike: int -> bool, targetSectionSec: int)
    requires chunks != []
    ensures Sections.GrowSections(videoId, chunks, Sections.AutoEnds(chunks, spike, targetSectionSec), Sections.SectionTitles(), 0, 0) != []
    ensures forall s <- Sections.GrowSections(videoId, chunks, Sections.AutoEnds(chunks, spike, targetSectionSec), Sections.SectionTitles(), 0, 0) ::
      s.videoId == videoId
  {
    Sections.AutoSectionsPartition(videoId, chunks, spike, targetSectionSec);
    var g := Sections.GrowSections(videoId, chunks, Sections.AutoEnds(chunks, spike, targetSectionSec), Sections.SectionTitles(), 0, 0);
    var c := Sections.Cuts(|chunks|, Sections.AutoEnds(chunks, spike, targetSectionSec), 0);
    assert c[|g|] == |chunks| && c[0] == 0;
    forall s <- g ensures s.videoId == videoId {
      var k :| 0 <= k < |g| && g[k] == s;
      assert Sections.SectionOver(g[k], videoId, chunks, c[k], c[k + 1], Sections.SectionTitle(k + 1));
    }
  }

  /** With sections, every chunk row of a video references the row id of
      the section its index names. */
  lemma AssignedRowsLinked(chunks: seq<MicroChunk>, sections: seq<Section>, base: int)
    requires sections != []
    ensures |Sections.Assigned(chunks, sections)| == |chunks|
    ensures forall j :: 0 <= j < |chunks| ==>
      Sections.Assigned(chunks, sections)[j].sectionId.Some? &&
      ChunkRowsOf(Sections.Assigned(chunks, sections), Ids(base, |sections|))[j].sectionId
        == Some(base + Sections.Assigned(chunks, sections)[j].sectionId.value + 1)
  {
    Sections.AssignedProperties(chunks, sections);
  }

  // ---------------------------------------------------------------------
  // Properties: the whole build

  /** The build succeeds exactly when every video's iteration does, and
      then holds each video's work in order; when it fails, the error is
      that of the first video that fails. */
  lemma {:induction false} WorksShape(videos: seq<Video>, work: Video -> Result<VideoWork>)
    ensures Works(videos, work).Ok? <==>
      forall k :: 0 <= k < |videos| ==> work(videos[k]).Ok?
    ensures Works(videos, work).Ok? ==>
      forall k :: 0 <= k < |videos| ==> work(videos[k]) == Ok(Works(videos, work).value[k])
    ensures Works(videos, work).Err? ==>
      exists k :: 0 <= k < |videos| && FirstFailure(videos, work, k)
        && Works(videos, work).error == work(videos[k]).error
  {
    if videos != [] {
      var n := |videos|;
      var init := videos[..n - 1];
      WorksShape(init, work);
      assert forall k :: 0 <= k < n - 1 ==> videos[k] == init[k];
      var w := Works(videos, work);
      if Works(init, work).Err? {
        var k :| 0 <= k < n - 1 && FirstFailure(init, work, k)
          && Works(init, work).error == work(init[k]).error;
        assert FirstFailure(videos, work, k);
      } else if work(videos[n - 1]).Err? {
        assert FirstFailure(videos, work, n - 1);
      } else {
        var ws := Works(init, work).value;
        assert w.value == ws + [work(videos[n - 1]).value];
        forall k | 0 <= k < n ensures work(videos[k]) == Ok(w.value[k]) {
          if k < n - 1 {
            assert w.value[k] == ws[k];
          }
        }
      }
    }
  }

  /** Video `k` is the first whose iteration raises. */
  predicate FirstFailure(videos: seq<Video>, work: Video -> Result<VideoWork>, k: nat)
    requires k < |videos|
  {
    work(videos[k]).Err?
    && forall j :: 0 <= j < k ==> work(videos[j]).Ok?
  }

  /** A `micro_chunk` row holds its chunk's video, span and text. */
  predicate RowOf(row: ChunkRow, c: MicroChunk) {
    row.videoId == c.videoId && row.startMs == c.startMs && row.endMs == c.endMs && row.text == c.text
  }

  /** A chunk row's section id, when set, is the row id of a section of
      the chunk's own video. */
  predicate PointsWithin(row: ChunkRow, owner: Video, sections: seq<(Section, Video)>) {
    row.sectionId.Some? ==>
      1 <= row.sectionId.value <= |sections| && sections[row.sectionId.value - 1].1 == owner
  }

  /** The `section` table holds the collected sections, row `k` for
      `section_rows[k]`: the section vectors and the section rows line up. */
  lemma {:induction false} SectionTableAligned(videos: seq<Video>, ws: seq<VideoWork>)
    requires |videos| == |ws|
    ensures |SectionTable(ws)| == |SectionPairs(videos, ws)|
    ensures forall i :: 0 <= i < |SectionTable(ws)| ==> SectionTable(ws)[i] == SectionPairs(videos, ws)[i].0
  {
    if ws != [] {
      var n := |ws|;
      var last := ws[n - 1];
      SectionTableAligned(videos[..n - 1], ws[..n - 1]);
      var t0 := SectionTable(ws[..n - 1]);
      var p0: seq<(Section, Video)> := SectionPairs(videos[..n - 1], ws[..n - 1]);
      var tag: seq<(Section, Video)> := Tagged(last.sections, videos[n - 1]);
      assert SectionTable(ws) == t0 + last.sections;
      assert SectionPairs(videos, ws) == p0 + tag;
      forall i | |t0| <= i < |t0| + |last.sections|
        ensures (t0 + last.sections)[i] == (p0 + tag)[i].0
      {
        assert tag[i - |t0|].0 == last.sections[i - |t0|];
      }
    }
  }

  /** The `micro_chunk` table holds the collected chunks, row `k` for
      `chunk_rows[k]`: the chunk vectors, the BM25 documents and the chunk
      rows line up. */
  lemma {:induction false} ChunkTableAligned(videos: seq<Video>, ws: seq<VideoWork>)
    requires |videos| == |ws|
    ensures |ChunkTable(ws)| == |ChunkPairs(videos, ws)|
    ensures forall i :: 0 <= i < |ChunkTable(ws)| ==> RowOf(ChunkTable(ws)[i], ChunkPairs(videos, ws)[i].0)
  {
    if ws != [] {
      var n := |ws|;
      var last := ws[n - 1];
      ChunkTableAligned(videos[..n - 1], ws[..n - 1]);
      var t0 := ChunkTable(ws[..n - 1]);
      var p0: seq<(MicroChunk, Video)> := ChunkPairs(videos[..n - 1], ws[..n - 1]);
      var rows := ChunkRowsOf(last.chunks, Ids(|SectionTable(ws[..n - 1])|, |last.sections|));
      var tag: seq<(MicroChunk, Video)> := Tagged(last.chunks, videos[n - 1]);
      assert ChunkTable(ws) == t0 + rows;
      assert ChunkPairs(videos, ws) == p0 + tag;
      forall i | 0 <= i < |t0| + |rows|
        ensures RowOf((t0 + rows)[i], (p0 + tag)[i].0)
      {
        if i < |t0| {
          assert (t0 + rows)[i] == t0[i] && (p0 + tag)[i] == p0[i];
        } else {
          var j := i - |t0|;
          assert (t0 + rows)[i] == rows[j] && (p0 + tag)[i] == tag[j];
          assert rows[j] == ChunkRowOf(last.chunks[j], Ids(|SectionTable(ws[..n - 1])|, |last.sections|));
          assert tag[j].0 == last.chunks[j];
        }
      }
    }
  }

  /** Every section id stored for a chunk is the row id of a section of
      the same video: each video's section indices are resolved against
      the ids its own sections got, and out-of-range ones become NULL. */
  lemma {:induction false} ChunkSectionsOwnVideo(videos: seq<Video>, ws: seq<VideoWork>)
    requires |videos| == |ws|
    ensures |ChunkTable(ws)| == |ChunkPairs(videos, ws)|
    ensures forall i :: 0 <= i < |ChunkTable(ws)| ==>
      PointsWithin(ChunkTable(ws)[i], ChunkPairs(videos, ws)[i].1, SectionPairs(videos, ws))
  {
    ChunkTableAligned(videos, ws);
    if ws != [] {
      var n := |ws|;
      var last := ws[n - 1];
      var v := videos[n - 1];
      ChunkSectionsOwnVideo(videos[..n - 1], ws[..n - 1]);
      SectionTableAligned(videos[..n - 1], ws[..n - 1]);
      var base := |SectionTable(ws[..n - 1])|;
      var ids := Ids(base, |last.sections|);
      var t0 := ChunkTable(ws[..n - 1]);
      var p0: seq<(MicroChunk, Video)> := ChunkPairs(videos[..n - 1], ws[..n - 1]);
      var s0: seq<(Section, Video)> := SectionPairs(videos[..n - 1], ws[..n - 1]);
      var rows := ChunkRowsOf(last.chunks, ids);
      var tag: seq<(MicroChunk, Video)> := Tagged(last.chunks, v);
      var stag: seq<(Section, Video)> := Tagged(last.sections, v);
      assert ChunkTable(ws) == t0 + rows;
      assert ChunkPairs(videos, ws) == p0 + tag;
      assert SectionPairs(videos, ws) == s0 + stag;
      forall i | 0 <= i < |t0| + |rows|
        ensures PointsWithin((t0 + rows)[i], (p0 + tag)[i].1, s0 + stag)
      {
        if i < |t0| {
          assert (t0 + rows)[i] == t0[i] && (p0 + tag)[i] == p0[i];
          assert PointsWithin(t0[i], p0[i].1, s0);
        } else {
          var j := i - |t0|;
          var c := last.chunks[j];
          assert (t0 + rows)[i] == ChunkRowOf(c, ids);
          assert (p0 + tag)[i].1 == v;
          if c.sectionId.Some? && 0 <= c.sectionId.value < |ids| {
            var x := c.sectionId.value;
            assert ChunkRowOf(c, ids).sectionId.value == base + x + 1;
            assert (s0 + stag)[base + x] == stag[x];
          }
        }
      }
    }
  }

  /** Every section row belongs to the video it is collected with. */
  lemma BuildSectionsTagged(videos: seq<Video>, cfg: PackConfig, inputDir: string, inp: Inputs)
    requires Works(videos, WorkOf(cfg, inputDir, inp)).Ok?
    ensures forall i :: 0 <= i < |SectionPairs(videos, Works(videos, WorkOf(cfg, inputDir, inp)).value)| ==>
      SectionPairs(videos, Works(videos, WorkOf(cfg, inputDir, inp)).value)[i].0.videoId
        == SectionPairs(videos, Works(videos, WorkOf(cfg, inputDir, inp)).value)[i].1.videoId
  {
    var ws := Works(videos, WorkOf(cfg, inputDir, inp)).value;
    WorksShape(videos, WorkOf(cfg, inputDir, inp));
    forall k | 0 <= k < |ws| ensures forall s <- ws[k].sections :: s.videoId == videos[k].videoId {
      assert VideoWorkOf(videos[k], cfg, inputDir, inp) == Ok(ws[k]);
      VideoSectionsShape(videos[k], cfg, inputDir, inp);
    }
    SectionRowsTagged(videos, ws);
  }

  /** Section rows collected from works whose sections carry their
      video's id all belong to the video they are collected with. */
  lemma {:induction false} SectionRowsTagged(videos: seq<Video>, ws: seq<VideoWork>)
    requires |videos| == |ws|
    requires forall k :: 0 <= k < |ws| ==> forall s <- ws[k].sections :: s.videoId == videos[k].videoId
    ensures forall i :: 0 <= i < |SectionPairs(videos, ws)| ==>
      SectionPairs(videos, ws)[i].0.videoId == SectionPairs(videos, ws)[i].1.videoId
  {
    if ws != [] {
      var n := |ws|;
      var v := videos[n - 1];
      var w := ws[n - 1];
      assert forall k :: 0 <= k < n - 1 ==> ws[..n - 1][k] == ws[k] && videos[..n - 1][k] == videos[k];
      SectionRowsTagged(videos[..n - 1], ws[..n - 1]);
      var s0: seq<(Section, Video)> := SectionPairs(videos[..n - 1], ws[..n - 1]);
      var stag: seq<(Section, Video)> := Tagged(w.sections, v);
      assert SectionPairs(videos, ws) == s0 + stag;
      forall i | |s0| <= i < |s0| + |stag| ensures (s0 + stag)[i].0.videoId == (s0 + stag)[i].1.videoId {
        assert stag[i - |s0|] == (w.sections[i - |s0|], v);
        assert w.sections[i - |s0|] in w.sections;
      }
    }
  }

  /** The files of a built pack agree with its database: a section vector
      file is written exactly when the `section` table has rows, a chunk
      vector file exactly when the `micro_chunk` table has rows, and the
      BM25 corpus exactly when `micro_chunk` has rows and BM25 is enabled,
      its document `i` being the text of chunk row `i`. The manifest counts
      every video listed, never fewer than the `video` table holds. */
  lemma PackFacts(channel: Channel, videos: seq<Video>, cfg: PackConfig, inputDir: string, inp: Inputs)
    requires Works(videos, WorkOf(cfg, inputDir, inp)).Ok?
    ensures var ws := Works(videos, WorkOf(cfg, inputDir, inp)).value;
      var pack := PackOf(channel, videos, cfg, SectionTexts(SectionPairs(videos, ws)), SectionPairs(videos, ws),
                         PairTexts(ChunkPairs(videos, ws)), ChunkPairs(videos, ws));
      && (pack.sectionVectors <==> SectionTable(ws) != [])
      && (pack.chunkVectors <==> ChunkTable(ws) != [])
      && (pack.bm25Docs.Some? <==> ChunkTable(ws) != [] && cfg.useBm25)
      && (pack.bm25Docs.Some? ==>
            |pack.bm25Docs.value| == |ChunkTable(ws)|
            && forall i :: 0 <= i < |ChunkTable(ws)| ==> pack.bm25Docs.value[i] == ChunkTable(ws)[i].text)
      && pack.manifest.videoCount == |videos| >= |VideoTable(videos)|
  {
    var ws := Works(videos, WorkOf(cfg, inputDir, inp)).value;
    SectionTableAligned(videos, ws);
    ChunkTableAligned(videos, ws);
    VideoTableKeys(videos);
  }

  /** The `video` table has one row per distinct video id, so it never
      has more rows than the manifest counts. */
  lemma {:induction false} VideoTableKeys(videos: seq<Video>)
    ensures forall id :: id in VideoTable(videos) <==> exists i :: 0 <= i < |videos| && videos[i].videoId == id
    ensures |VideoTable(videos)| <= |videos|
  {
    if videos != [] {
      var n := |videos|;
      var init := videos[..n - 1];
      VideoTableKeys(init);
      assert forall i :: 0 <= i < n - 1 ==> videos[i] == init[i];
      assert VideoTable(videos).Keys == VideoTable(init).Keys + {videos[n - 1].videoId};
    }
  }

  /** The index of the last video listed with id `id`, or -1. */
  function LastWith(videos: seq<Video>, id: string): (r: int)
    ensures -1 <= r < |videos|
  {
    if videos == [] then -1
    else if videos[|videos| - 1].videoId == id then |videos| - 1
    else LastWith(videos[..|videos| - 1], id)
  }

  /** `LastWith` finds the last video with the id, and no video after it
      has that id. */
  lemma {:induction false} LastWithSpec(videos: seq<Video>, id: string)
    ensures LastWith(videos, id) >= 0 ==> videos[LastWith(videos, id)].videoId == id
    ensures forall k :: LastWith(videos, id) < k < |videos| ==> videos[k].videoId != id
  {
    if videos != [] && videos[|videos| - 1].videoId != id {
      var init := videos[..|videos| - 1];
      LastWithSpec(init, id);
      assert forall k :: 0 <= k < |init| ==> videos[k] == init[k];
    }
  }

  /** The row for a video id holds the last video listed with that id. */
  lemma {:induction false} VideoTableLast(videos: seq<Video>)
    ensures forall id :: id in VideoTable(videos) ==>
      0 <= LastWith(videos, id) && VideoTable(videos)[id] == videos[LastWith(videos, id)]
  {
    if videos != [] {
      var n := |videos|;
      var init := videos[..n - 1];
      VideoTableLast(init);
      forall id | id in VideoTable(videos)
        ensures 0 <= LastWith(videos, id) && VideoTable(videos)[id] == videos[LastWith(videos, id)]
      {
        if id != videos[n - 1].videoId {
          assert videos[LastWith(init, id)] == init[LastWith(init, id)];
        }
      }
    }
  }
}

