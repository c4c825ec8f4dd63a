/** The streaming value types (HlsSegment, SongMetadata, LiveSoundFragment,
    AudioFile), the synthetic placeholder fragment both playlist managers
    build, and the conversion of a fragment into the audio files the stream
    engine consumes. */
module HlsTypes {
  import opened Common

  /** A java.util.UUID, by its canonical text. */
  type Uuid = string

  /** A segment's byte payload, kept opaque. */
  type Bytes = seq<int>

  const DEFAULT_BITRATE: int := 128000
  const HALF_BITRATE: int := 64000

  /** The two bitrates every synthetic fragment and every stream slot carries. */
  const BITRATE_LADDER: seq<int> := [DEFAULT_BITRATE, HALF_BITRATE]

  const PLACEHOLDER_SEGMENT_COUNT: nat := 3
  const PLACEHOLDER_SEGMENT_DURATION: int := 6
  const PLACEHOLDER_DATA_SIZE: nat := 1024

  datatype SongMetadata = SongMetadata(
    songId: Uuid,
    title: Option<string>,
    artist: Option<string>,
    album: Option<string>,
    genre: Option<string>,
    duration: int,
    languageCode: Option<string>)

  /** The three-argument SongMetadata constructor; the other fields keep their defaults. */
  function NewSongMetadata(songId: Uuid, title: string, artist: string): (m: SongMetadata)
    ensures m.songId == songId && m.title == Some(title) && m.artist == Some(artist)
  {
    SongMetadata(songId, Some(title), Some(artist), None, None, 0, None)
  }

  function NullableText(s: Option<string>): string {
    match s
    case Some(t) => t
    case None => "null"
  }

  /** The text Lombok's generated toString gives for a SongMetadata. */
  function MetadataText(m: SongMetadata): string {
    "SongMetadata(songId=" + m.songId
    + ", title=" + NullableText(m.title)
    + ", artist=" + NullableText(m.artist)
    + ", album=" + NullableText(m.album)
    + ", genre=" + NullableText(m.genre)
    + ", duration=" + IntToString(m.duration)
    + ", languageCode=" + NullableText(m.languageCode) + ")"
  }

  datatype HlsSegment = HlsSegment(
    sequence: int,
    data: Bytes,
    duration: int,
    bitrate: int,
    songMetadata: Option<SongMetadata>,
    firstSegmentOfFragment: bool)

  /** A fragment: per-bitrate ordered segment queues, a queue number, a priority
      (null until addFragment sets it) and display metadata. */
  datatype LiveSoundFragment = LiveSoundFragment(
    soundFragmentId: Uuid,
    segments: map<int, seq<HlsSegment>>,
    queueNum: int,
    priority: Option<int>,
    metadata: Option<SongMetadata>)

  datatype AudioFile = AudioFile(data: Bytes, format: string, songId: Uuid)

  // ---------------------------------------------------------------------
  // The synthetic placeholder fragment
  // ---------------------------------------------------------------------

  /** The i-th segment of a placeholder: sequence i, 6 seconds, 1024 zero bytes. */
  function PlaceholderSegment(i: nat, meta: SongMetadata): HlsSegment {
    HlsSegment(i, seq(PLACEHOLDER_DATA_SIZE, _ => 0), PLACEHOLDER_SEGMENT_DURATION, 0, Some(meta), false)
  }

  function PlaceholderSegments(meta: SongMetadata): seq<HlsSegment> {
    seq(PLACEHOLDER_SEGMENT_COUNT, i requires 0 <= i => PlaceholderSegment(i, meta))
  }

  /** The fragment the managers synthesise when there is no real content:
      both ladder bitrates, each with the same three placeholder segments. */
  function PlaceholderFragment(id: Uuid, title: string, artist: string): LiveSoundFragment {
    var meta := NewSongMetadata(id, title, artist);
    LiveSoundFragment(id, map[DEFAULT_BITRATE := PlaceholderSegments(meta), HALF_BITRATE := PlaceholderSegments(meta)],
                      0, None, Some(meta))
  }

  lemma PlaceholderFragmentShape(id: Uuid, title: string, artist: string)
    ensures var f := PlaceholderFragment(id, title, artist);
      && f.segments.Keys == {DEFAULT_BITRATE, HALF_BITRATE}
      && f.soundFragmentId == id
      && f.metadata == Some(NewSongMetadata(id, title, artist))
      && forall b :: b in f.segments ==>
           && |f.segments[b]| == 3
           && forall i :: 0 <= i < 3 ==>
                && f.segments[b][i].sequence == i
                && f.segments[b][i].duration == 6
                && |f.segments[b][i].data| == 1024
                && f.segments[b][i].songMetadata == f.metadata
  {
  }

  /** Builds the placeholder fragment with the source's two nested loops. */
  method BuildPlaceholderFragment(id: Uuid, title: string, artist: string) returns (f: LiveSoundFragment)
    ensures f == PlaceholderFragment(id, title, artist)
  {
    var meta := NewSongMetadata(id, title, artist);
    var segments: map<int, seq<HlsSegment>> := map[];
    for b := 0 to |BITRATE_LADDER|
      invariant segments.Keys == set j | 0 <= j < b :: BITRATE_LADDER[j]
      invariant forall k :: k in segments ==> segments[k] == PlaceholderSegments(meta)
    {
      var queue: seq<HlsSegment> := [];
      for i := 0 to PLACEHOLDER_SEGMENT_COUNT
        invariant queue == seq(i, k requires 0 <= k => PlaceholderSegment(k, meta))
      {
        queue := queue + [PlaceholderSegment(i, meta)];
      }
      segments := segments[BITRATE_LADDER[b] := queue];
    }
    assert BITRATE_LADDER[0] == DEFAULT_BITRATE && BITRATE_LADDER[1] == HALF_BITRATE;
    assert segments.Keys == {DEFAULT_BITRATE, HALF_BITRATE};
    f := LiveSoundFragment(id, segments, 0, None, Some(meta));
  }

  // ---------------------------------------------------------------------
  // Fragment to audio files
  // ---------------------------------------------------------------------

  lemma {:induction false} MaxExists(s: set<int>)
    requires s != {}
    ensures exists m :: m in s && forall k :: k in s ==> k <= m
  {
    SetHasElement(s);
    var x :| x in s;
    if s != {x} {
      MaxExists(s - {x});
      var m :| m in s - {x} && forall k :: k in s - {x} ==> k <= m;
      var top := if x > m then x else m;
      forall k | k in s
        ensures k <= top
      {
        if k != x {
          assert k in s - {x};
        }
      }
      assert top in s;
    }
  }

  /** The largest key of a non-empty set of bitrates. */
  ghost function MaxKey(s: set<int>): (m: int)
    requires s != {}
    ensures m in s && forall k :: k in s ==> k <= m
  {
    MaxExists(s);
    var m :| m in s && forall k :: k in s ==> k <= m; m
  }

  /** What getNextAudioFiles makes of a fragment: one "mp3" AudioFile per segment
      of the highest-bitrate queue, in queue order, tagged with the fragment's id;
      nothing when the fragment has no segment queues. */
  ghost function AudioFilesOf(f: LiveSoundFragment): seq<AudioFile> {
    if f.segments == map[] then []
    else
      var queue := f.segments[MaxKey(f.segments.Keys)];
      seq(|queue|, i requires 0 <= i < |queue| => AudioFile(queue[i].data, "mp3", f.soundFragmentId))
  }

  /** The conversion loop of getNextAudioFiles: a stream max over the bitrate
      keys, then one AudioFile per segment of that queue. */
  method ConvertToAudioFiles(f: LiveSoundFragment) returns (files: seq<AudioFile>)
    ensures files == AudioFilesOf(f)
    ensures f.segments != map[] ==>
      |files| == |f.segments[MaxKey(f.segments.Keys)]|
    ensures forall i :: 0 <= i < |files| ==> files[i].songId == f.soundFragmentId && files[i].format == "mp3"
  {
    files := [];
    if f.segments == map[] {
      return;
    }
    var keys := f.segments.Keys;
    var maxBitrate := DEFAULT_BITRATE;
    var seen: set<int> := {};
    while seen != keys
      invariant seen <= keys
      invariant seen != {} ==> maxBitrate in seen && forall k :: k in seen ==> k <= maxBitrate
      decreases |keys - seen|
    {
      SetHasElement(keys - seen);
      var k :| k in keys - seen;
      if seen == {} || k > maxBitrate {
        maxBitrate := k;
      }
      seen := seen + {k};
    }
    assert maxBitrate == MaxKey(keys);
    var queue := f.segments[maxBitrate];
    for i := 0 to |queue|
      invariant files == seq(i, j requires 0 <= j < i => AudioFile(queue[j].data, "mp3", f.soundFragmentId))
    {
      files := files + [AudioFile(queue[i].data, "mp3", f.soundFragmentId)];
    }
  }
}
