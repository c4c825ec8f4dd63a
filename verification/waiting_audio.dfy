/** The "waiting" jingle: sliced once into per-bitrate segment lists, then
    handed out as fresh fragment copies whenever a station has nothing else
    to play. */
module WaitingAudio {
  import opened Common
  import opened HlsTypes

  const WAITING_PRIORITY: int := 999

  /** The metadata every waiting fragment and every one of its segments carries. */
  function WaitingMetadata(id: Uuid): SongMetadata {
    NewSongMetadata(id, "Waiting...", "Station")
  }

  /** A copy of a stored segment: everything kept except the metadata, which
      becomes the new fragment's. */
  function CloneSegment(s: HlsSegment, meta: SongMetadata): HlsSegment {
    HlsSegment(s.sequence, s.data, s.duration, s.bitrate, Some(meta), s.firstSegmentOfFragment)
  }

  function CloneQueue(q: seq<HlsSegment>, meta: SongMetadata): seq<HlsSegment> {
    seq(|q|, i requires 0 <= i < |q| => CloneSegment(q[i], meta))
  }

  /** The fragment createWaitingFragment builds from the stored segments. */
  function WaitingFragment(id: Uuid, original: map<int, seq<HlsSegment>>): LiveSoundFragment {
    var meta := WaitingMetadata(id);
    LiveSoundFragment(id, CloneMap(original, meta), 0, Some(WAITING_PRIORITY), Some(meta))
  }

  function CloneMap(original: map<int, seq<HlsSegment>>, meta: SongMetadata): map<int, seq<HlsSegment>> {
    map b | b in original :: CloneQueue(original[b], meta)
  }

  /** A waiting fragment has the stored bitrates, and per bitrate a segment
      for each stored one, in order, agreeing on everything but the metadata. */
  lemma WaitingFragmentSpec(id: Uuid, original: map<int, seq<HlsSegment>>)
    ensures var f := WaitingFragment(id, original);
      && f.soundFragmentId == id
      && f.priority == Some(999)
      && f.metadata == Some(NewSongMetadata(id, "Waiting...", "Station"))
      && f.segments.Keys == original.Keys
      && forall b :: b in original ==>
           && |f.segments[b]| == |original[b]|
           && forall i :: 0 <= i < |original[b]| ==>
                && f.segments[b][i].sequence == original[b][i].sequence
                && f.segments[b][i].data == original[b][i].data
                && f.segments[b][i].duration == original[b][i].duration
                && f.segments[b][i].bitrate == original[b][i].bitrate
                && f.segments[b][i].firstSegmentOfFragment == original[b][i].firstSegmentOfFragment
                && f.segments[b][i].songMetadata == f.metadata
  {
  }

  /** Copies every entry of `from` into `into`, one put per bitrate. */
  method PutAll(into: map<int, seq<HlsSegment>>, from: map<int, seq<HlsSegment>>) returns (merged: map<int, seq<HlsSegment>>)
    ensures merged == into + from
  {
    merged := into;
    var done: set<int> := {};
    while done != from.Keys
      invariant done <= from.Keys
      invariant merged == into + Restrict(from, done)
      decreases |from.Keys - done|
    {
      SetHasElement(from.Keys - done);
      var b :| b in from.Keys - done;
      assert (into + Restrict(from, done))[b := from[b]] == into + Restrict(from, done + {b});
      merged := merged[b := from[b]];
      done := done + {b};
    }
    assert Restrict(from, done) == from;
  }

  /** The copying loop of createWaitingFragment for one segment list. */
  method CloneQueueLoop(source: seq<HlsSegment>, meta: SongMetadata) returns (queue: seq<HlsSegment>)
    ensures queue == CloneQueue(source, meta)
  {
    queue := [];
    for i := 0 to |source|
      invariant queue == seq(i, j requires 0 <= j < i => CloneSegment(source[j], meta))
    {
      queue := queue + [CloneSegment(source[i], meta)];
    }
  }

  /** The copying loop of createWaitingFragment over all bitrates. */
  method CloneAll(original: map<int, seq<HlsSegment>>, meta: SongMetadata) returns (cloned: map<int, seq<HlsSegment>>)
    ensures cloned == CloneMap(original, meta)
  {
    cloned := map[];
    var done: set<int> := {};
    while done != original.Keys
      invariant done <= original.Keys
      invariant cloned == CloneMap(Restrict(original, done), meta)
      decreases |original.Keys - done|
    {
      SetHasElement(original.Keys - done);
      var b :| b in original.Keys - done;
      var queue := CloneQueueLoop(original[b], meta);
      assert CloneMap(Restrict(original, done), meta)[b := queue] == CloneMap(Restrict(original, done + {b}), meta);
      cloned := cloned[b := queue];
      done := done + {b};
    }
    assert Restrict(original, done) == original;
  }

  class WaitingAudioProvider {
    /** The id minted for the jingle; "" until initialize() gets that far. */
    var waitingSongId: Uuid
    var originalWaitingSegments: map<int, seq<HlsSegment>>
    var initialized: bool

    /** The provider only ever marks itself initialized with segments stored. */
    ghost predicate Valid()
      reads this
    {
      initialized ==> originalWaitingSegments != map[]
    }

    constructor ()
      ensures Valid()
      ensures !initialized && originalWaitingSegments == map[] && waitingSongId == ""
    {
      waitingSongId := "";
      originalWaitingSegments := map[];
      initialized := false;
    }

    predicate IsWaitingAudioAvailable()
      reads this
    {
      initialized && originalWaitingSegments != map[]
    }

    /** What createWaitingFragment currently yields (None for the null item). */
    function CurrentWaitingFragment(): (r: Option<LiveSoundFragment>)
      reads this
      ensures r.Some? <==> IsWaitingAudioAvailable()
      ensures r.Some? ==> r.value.segments.Keys == originalWaitingSegments.Keys
    {
      if IsWaitingAudioAvailable() then Some(WaitingFragment(waitingSongId, originalWaitingSegments)) else None
    }

    /** initialize(): a no-op once initialized or when the resource is missing.
        Otherwise a new id is minted; a slicing that yields segments stores
        them per bitrate and marks the provider initialized, while a failed or
        empty slicing leaves it uninitialized. The resource lookup, the
        fresh id and the slicer's outcome are parameters. */
    method Initialize(resourceFound: bool, newId: Uuid, sliced: Option<map<int, seq<HlsSegment>>>)
      requires Valid()
      modifies this
      ensures Valid()
      ensures old(initialized) || !resourceFound ==>
        initialized == old(initialized) && waitingSongId == old(waitingSongId)
        && originalWaitingSegments == old(originalWaitingSegments)
      ensures !old(initialized) && resourceFound ==> waitingSongId == newId
      ensures !old(initialized) && resourceFound && sliced.Some? && sliced.value != map[] ==>
        initialized && originalWaitingSegments == old(originalWaitingSegments) + sliced.value
        && IsWaitingAudioAvailable()
      ensures !old(initialized) && resourceFound && (sliced.None? || sliced.value == map[]) ==>
        !initialized && originalWaitingSegments == old(originalWaitingSegments)
    {
      if initialized {
        return;
      }
      if !resourceFound {
        return;
      }
      waitingSongId := newId;
      if sliced.None? || sliced.value == map[] {
        return;
      }
      originalWaitingSegments := PutAll(originalWaitingSegments, sliced.value);
      initialized := true;
    }

    /** createWaitingFragment(): the null item unless available; otherwise a
        new fragment with the jingle's id, priority 999 and a clone of every
        stored segment list. */
    method CreateWaitingFragment() returns (r: Option<LiveSoundFragment>)
      ensures r == CurrentWaitingFragment()
    {
      if !initialized || originalWaitingSegments == map[] {
        return None;
      }
      var meta := WaitingMetadata(waitingSongId);
      var cloned := CloneAll(originalWaitingSegments, meta);
      r := Some(LiveSoundFragment(waitingSongId, cloned, 0, Some(WAITING_PRIORITY), Some(meta)));
    }
  }
}
