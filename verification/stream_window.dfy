/** One brand's stream state in the stream engine (StreamManager): a live
    window of bitrate slots ordered by sequence number (a sorted map), a
    FIFO of slots not yet published, the manifests built from the window
    and the segment lookup behind the segment URLs. */
module StreamWindow {
  import opened Common
  import opened HlsTypes
  import opened SegmentName

  const PENDING_QUEUE_REFILL_THRESHOLD: int := 10
  const SEGMENTS_TO_DRIP_PER_FEED_CALL: int := 1

  /** The segments of one sequence number, by bitrate. */
  type Slot = map<int, HlsSegment>

  datatype LiveEntry = LiveEntry(sequence: int, slot: Slot)

  /** liveSegments (as the ascending entry list of the sorted map) and pendingQueue. */
  datatype StreamState = StreamState(liveSegments: seq<LiveEntry>, pendingQueue: seq<Slot>)

  const EmptyStream: StreamState := StreamState([], [])

  // ---------------------------------------------------------------------
  // The live window as a sorted map

  predicate Ascending(w: seq<LiveEntry>) {
    forall i, j :: 0 <= i < j < |w| ==> w[i].sequence < w[j].sequence
  }

  /** get(k) of the sorted map. */
  function Lookup(w: seq<LiveEntry>, k: int): Option<Slot> {
    if w == [] then None
    else if w[0].sequence == k then Some(w[0].slot)
    else Lookup(w[1..], k)
  }

  /** put(k, slot) of the sorted map: replaces the entry for k or inserts a
      new one in key order. */
  function Put(w: seq<LiveEntry>, k: int, slot: Slot): seq<LiveEntry> {
    if w == [] then [LiveEntry(k, slot)]
    else if k < w[0].sequence then [LiveEntry(k, slot)] + w
    else if k == w[0].sequence then [LiveEntry(k, slot)] + w[1..]
    else [w[0]] + Put(w[1..], k, slot)
  }

  /** Lookup finds an entry exactly when one has the key, and then its slot. */
  lemma {:induction false} LookupSpec(w: seq<LiveEntry>, k: int)
    requires Ascending(w)
    ensures Lookup(w, k).Some? <==> exists i :: 0 <= i < |w| && w[i].sequence == k
    ensures forall i :: 0 <= i < |w| && w[i].sequence == k ==> Lookup(w, k) == Some(w[i].slot)
  {
    if w != [] {
      LookupSpec(w[1..], k);
      assert forall i :: 1 <= i < |w| ==> w[i] == w[1..][i - 1];
    }
  }

  /** Every key after put(k, slot) is k or a key that was there before. */
  lemma {:induction false} PutKeys(w: seq<LiveEntry>, k: int, slot: Slot)
    ensures forall i :: 0 <= i < |Put(w, k, slot)| ==>
      Put(w, k, slot)[i].sequence == k || exists m :: 0 <= m < |w| && w[m].sequence == Put(w, k, slot)[i].sequence
  {
    if w != [] && k > w[0].sequence {
      PutKeys(w[1..], k, slot);
      var r := Put(w[1..], k, slot);
      var p := Put(w, k, slot);
      assert p == [w[0]] + r;
      forall i | 0 <= i < |p| && p[i].sequence != k
        ensures exists m :: 0 <= m < |w| && w[m].sequence == p[i].sequence
      {
        if i == 0 {
          assert w[0].sequence == p[i].sequence;
        } else {
          assert p[i] == r[i - 1];
          var m :| 0 <= m < |w[1..]| && w[1..][m].sequence == r[i - 1].sequence;
          assert w[m + 1].sequence == p[i].sequence;
        }
      }
    } else if w != [] && k == w[0].sequence {
      var p := Put(w, k, slot);
      forall i | 0 <= i < |p| && p[i].sequence != k
        ensures exists m :: 0 <= m < |w| && w[m].sequence == p[i].sequence
      {
        assert p[i] == w[i];
      }
    } else if w != [] {
      var p := Put(w, k, slot);
      forall i | 0 <= i < |p| && p[i].sequence != k
        ensures exists m :: 0 <= m < |w| && w[m].sequence == p[i].sequence
      {
        assert p[i] == w[i - 1];
      }
    }
  }

  /** After put(k, slot) the map yields the new slot for k and, for every
      other key, what it yielded before. */
  lemma {:induction false} PutLookup(w: seq<LiveEntry>, k: int, slot: Slot)
    ensures Lookup(Put(w, k, slot), k) == Some(slot)
    ensures forall j :: j != k ==> Lookup(Put(w, k, slot), j) == Lookup(w, j)
  {
    if w != [] && k > w[0].sequence {
      PutLookup(w[1..], k, slot);
      assert ([w[0]] + Put(w[1..], k, slot))[1..] == Put(w[1..], k, slot);
    } else if w != [] {
      assert Put(w, k, slot)[1..] == if k == w[0].sequence then w[1..] else w;
    }
  }

  /** An entry below every key of a sorted window can go in front of it. */
  lemma ConsAscending(e: LiveEntry, r: seq<LiveEntry>)
    requires Ascending(r)
    requires forall i :: 0 <= i < |r| ==> e.sequence < r[i].sequence
    ensures Ascending([e] + r)
  {
    var p := [e] + r;
    forall i, j | 0 <= i < j < |p| ensures p[i].sequence < p[j].sequence {
      assert p[j] == r[j - 1];
      if i > 0 {
        assert p[i] == r[i - 1];
      }
    }
  }

  /** put keeps a sorted map sorted. */
  lemma {:induction false} PutSpec(w: seq<LiveEntry>, k: int, slot: Slot)
    requires Ascending(w)
    ensures Ascending(Put(w, k, slot))
  {
    if w == [] {
    } else if k < w[0].sequence {
      ConsAscending(LiveEntry(k, slot), w);
    } else if k == w[0].sequence {
      ConsAscending(LiveEntry(k, slot), w[1..]);
    } else {
      PutSpec(w[1..], k, slot);
      PutKeys(w[1..], k, slot);
      var r := Put(w[1..], k, slot);
      forall i | 0 <= i < |r| ensures w[0].sequence < r[i].sequence {
        if r[i].sequence != k {
          var m :| 0 <= m < |w[1..]| && w[1..][m].sequence == r[i].sequence;
          assert w[m + 1].sequence == r[i].sequence;
        }
      }
      ConsAscending(w[0], r);
    }
  }

  /** A key above every key in the window is appended at the end. */
  lemma {:induction false} PutAfterAll(w: seq<LiveEntry>, k: int, slot: Slot)
    requires forall i :: 0 <= i < |w| ==> w[i].sequence < k
    ensures Put(w, k, slot) == w + [LiveEntry(k, slot)]
  {
    if w != [] {
      PutAfterAll(w[1..], k, slot);
      assert w == [w[0]] + w[1..];
    }
  }

  // ---------------------------------------------------------------------
  // Slots

  lemma {:induction false} MinExists(s: set<int>)
    requires s != {}
    ensures exists m :: m in s && forall k :: k in s ==> m <= k
    decreases |s|
  {
    SetHasElement(s);
    var x :| x in s;
    if s != {x} {
      MinExists(s - {x});
      var m :| m in s - {x} && forall k :: k in s - {x} ==> m <= k;
      var low := if x < m then x else m;
      forall k | k in s ensures low <= k {
        if k != x { assert k in s - {x}; }
      }
      assert low in s;
    }
  }

  /** The segment `values().iterator().next()` yields. The slots the engine
      builds only hold the two ladder bitrates, which a HashMap iterates
      in ascending order (64000 then 128000), so this is the value of the
      smallest bitrate. */
  function FirstValue(slot: Slot): (s: HlsSegment)
    requires slot != map[]
    ensures exists b :: b in slot && slot[b] == s && forall c :: c in slot ==> b <= c
  {
    MinExists(slot.Keys);
    var b :| b in slot && forall c :: c in slot ==> b <= c;
    slot[b]
  }

  /** The segment a manifest lists and a segment request falls back to:
      the requested bitrate's, else the first value. */
  function ChooseSegment(slot: Slot, target: int): HlsSegment
    requires slot != map[]
  {
    if target in slot then slot[target] else FirstValue(slot)
  }

  /** The segment built for one audio file at one bitrate. */
  function GeneratedSegment(f: AudioFile, sequence: int, duration: int): HlsSegment {
    HlsSegment(sequence, f.data, duration, 0, Some(NewSongMetadata(f.songId, "Generated Song", "Generated Artist")), false)
  }

  /** The slot createSegmentsFromAudioFiles builds for one audio file. */
  function GeneratedSlot(f: AudioFile, sequence: int, duration: int): Slot {
    map[DEFAULT_BITRATE := GeneratedSegment(f, sequence, duration), HALF_BITRATE := GeneratedSegment(f, sequence, duration)]
  }

  /** The slots for a list of audio files, numbered from `start`. */
  function MakeSlots(files: seq<AudioFile>, start: int, duration: int): (r: seq<Slot>)
    ensures |r| == |files|
  {
    seq(|files|, i requires 0 <= i < |files| => GeneratedSlot(files[i], start + i, duration))
  }

  /** A slot holding the same segment under both ladder bitrates. */
  predicate LadderSlot(slot: Slot) {
    && slot.Keys == {DEFAULT_BITRATE, HALF_BITRATE}
    && slot[DEFAULT_BITRATE] == slot[HALF_BITRATE]
  }

  /** In a ladder slot every choice, the fallback included, is the one segment. */
  lemma LadderSlotChoice(slot: Slot, target: int)
    requires LadderSlot(slot)
    ensures FirstValue(slot) == slot[HALF_BITRATE]
    ensures ChooseSegment(slot, target) == slot[HALF_BITRATE]
  {
    var s := FirstValue(slot);
    var b :| b in slot && slot[b] == s && forall c :: c in slot ==> b <= c;
    assert HALF_BITRATE in slot;
  }

  /** Generated slots are ladder slots carrying their sequence number and
      the file's bytes. */
  lemma GeneratedSlotSpec(f: AudioFile, sequence: int, duration: int)
    ensures var slot := GeneratedSlot(f, sequence, duration);
      && LadderSlot(slot)
      && slot[HALF_BITRATE].sequence == sequence
      && slot[HALF_BITRATE].data == f.data
      && slot[HALF_BITRATE].duration == duration
      && slot[HALF_BITRATE].songMetadata == Some(NewSongMetadata(f.songId, "Generated Song", "Generated Artist"))
  {
  }

  // ---------------------------------------------------------------------
  // The invariant of one brand's state

  /** The sequence a pending slot will be published under. */
  function PendingKey(slot: Slot): int
    requires LadderSlot(slot)
  {
    slot[HALF_BITRATE].sequence
  }

  /** Window entries hold ladder slots whose segments carry the entry's key. */
  ghost predicate LiveKeyed(live: seq<LiveEntry>) {
    forall i :: 0 <= i < |live| ==>
      LadderSlot(live[i].slot) && live[i].slot[HALF_BITRATE].sequence == live[i].sequence
  }

  ghost predicate LadderQueue(pending: seq<Slot>) {
    forall i :: 0 <= i < |pending| ==> LadderSlot(pending[i])
  }

  ghost predicate QueueAscending(pending: seq<Slot>)
    requires LadderQueue(pending)
  {
    forall i, j :: 0 <= i < j < |pending| ==> PendingKey(pending[i]) < PendingKey(pending[j])
  }

  /** Every key was drawn from the shared counter: it lies in [0, next). */
  ghost predicate Drawn(st: StreamState, next: int)
    requires LadderQueue(st.pendingQueue)
  {
    && (forall i :: 0 <= i < |st.liveSegments| ==> 0 <= st.liveSegments[i].sequence < next)
    && (forall i :: 0 <= i < |st.pendingQueue| ==> 0 <= PendingKey(st.pendingQueue[i]) < next)
  }

  /** The newest live key is below the oldest pending one. */
  ghost predicate Linked(st: StreamState)
    requires LadderQueue(st.pendingQueue)
  {
    var live := st.liveSegments;
    live != [] && st.pendingQueue != [] ==> live[|live| - 1].sequence < PendingKey(st.pendingQueue[0])
  }

  /** Every slot is a ladder slot whose segments carry its key; the window
      and the queue together are strictly increasing and below the counter;
      the window never grows past twice the visible size. */
  ghost predicate StreamInvariant(st: StreamState, next: int, maxVisible: nat) {
    && NonEmptySlots(st.liveSegments)
    && LiveKeyed(st.liveSegments)
    && LadderQueue(st.pendingQueue)
    && Ascending(st.liveSegments)
    && QueueAscending(st.pendingQueue)
    && Drawn(st, next)
    && Linked(st)
    && |st.liveSegments| <= 2 * maxVisible
  }

  lemma InvariantMonotone(st: StreamState, next: int, next': int, maxVisible: nat)
    requires StreamInvariant(st, next, maxVisible) && next <= next'
    ensures StreamInvariant(st, next', maxVisible)
  {
  }

  // ---------------------------------------------------------------------
  // Feeding, refilling, sliding

  /** The drip step of feedSegmentsForBrand: unless the window already holds
      twice the visible size, the head of the pending queue is published
      under the sequence of its first value. */
  function Promote(st: StreamState, maxVisible: nat): StreamState
    requires st.pendingQueue != [] ==> st.pendingQueue[0] != map[]
  {
    if st.pendingQueue != [] && |st.liveSegments| < 2 * maxVisible then
      var slot := st.pendingQueue[0];
      StreamState(Put(st.liveSegments, FirstValue(slot).sequence, slot), st.pendingQueue[1..])
    else st
  }

  /** Promotion moves at most one slot, keeps the invariant, and moves the
      oldest pending slot to the end of the window under its own sequence. */
  lemma PromoteSpec(st: StreamState, next: int, maxVisible: nat)
    requires StreamInvariant(st, next, maxVisible)
    ensures StreamInvariant(Promote(st, maxVisible), next, maxVisible)
    ensures st.pendingQueue == [] || |st.liveSegments| >= 2 * maxVisible ==> Promote(st, maxVisible) == st
    ensures st.pendingQueue != [] && |st.liveSegments| < 2 * maxVisible ==>
      var slot := st.pendingQueue[0];
      Promote(st, maxVisible)
        == StreamState(st.liveSegments + [LiveEntry(PendingKey(slot), slot)], st.pendingQueue[1..])
  {
    if st.pendingQueue != [] && |st.liveSegments| < 2 * maxVisible {
      var live := st.liveSegments;
      var slot := st.pendingQueue[0];
      LadderSlotChoice(slot, DEFAULT_BITRATE);
      var k := PendingKey(slot);
      forall i | 0 <= i < |live| ensures live[i].sequence < k {
        if i < |live| - 1 {
          assert live[i].sequence < live[|live| - 1].sequence;
        }
      }
      PutAfterAll(live, k, slot);
      AppendKeeps(live, k, slot);
      TailKeeps(st.pendingQueue);
      var r := StreamState(live + [LiveEntry(k, slot)], st.pendingQueue[1..]);
      assert Drawn(r, next);
      assert Linked(r);
    }
  }

  /** Appending an entry above every key keeps a window keyed and sorted. */
  lemma AppendKeeps(live: seq<LiveEntry>, k: int, slot: Slot)
    requires NonEmptySlots(live) && LiveKeyed(live) && Ascending(live)
    requires LadderSlot(slot) && PendingKey(slot) == k
    requires forall i :: 0 <= i < |live| ==> live[i].sequence < k
    ensures var w := live + [LiveEntry(k, slot)];
      NonEmptySlots(w) && LiveKeyed(w) && Ascending(w)
  {
    assert HALF_BITRATE in slot;
  }

  /** Dropping the head keeps a queue of ladder slots ascending. */
  lemma TailKeeps(pending: seq<Slot>)
    requires pending != [] && LadderQueue(pending) && QueueAscending(pending)
    ensures LadderQueue(pending[1..]) && QueueAscending(pending[1..])
    ensures forall i :: 0 <= i < |pending[1..]| ==> pending[1..][i] == pending[i + 1]
  {
  }

  /** createSegmentsFromAudioFiles: one fresh slot per audio file, numbered
      from the shared counter, appended to the pending queue. */
  function Refill(st: StreamState, files: seq<AudioFile>, next: int, duration: int): StreamState {
    st.(pendingQueue := st.pendingQueue + MakeSlots(files, next, duration))
  }

  /** Refilling keeps the invariant with the counter advanced past the new
      slots, leaves the window alone, and queues for each file a ladder slot
      with its bytes under the next fresh sequence number. */
  lemma RefillSpec(st: StreamState, files: seq<AudioFile>, next: int, duration: int, maxVisible: nat)
    requires StreamInvariant(st, next, maxVisible) && 0 <= next
    ensures StreamInvariant(Refill(st, files, next, duration), next + |files|, maxVisible)
    ensures var r := Refill(st, files, next, duration);
      && r.liveSegments == st.liveSegments
      && |r.pendingQueue| == |st.pendingQueue| + |files|
      && r.pendingQueue[..|st.pendingQueue|] == st.pendingQueue
      && forall i :: 0 <= i < |files| ==>
           && PendingKey(r.pendingQueue[|st.pendingQueue| + i]) == next + i
           && r.pendingQueue[|st.pendingQueue| + i][HALF_BITRATE].data == files[i].data
  {
    var p := st.pendingQueue;
    var q := p + MakeSlots(files, next, duration);
    RefillQueue(p, files, next, duration);
    assert Refill(st, files, next, duration).pendingQueue == q;
    assert q[..|p|] == p;
  }

  lemma RefillQueue(p: seq<Slot>, files: seq<AudioFile>, next: int, duration: int)
    requires LadderQueue(p) && QueueAscending(p)
    requires 0 <= next && forall i :: 0 <= i < |p| ==> 0 <= PendingKey(p[i]) < next
    ensures var q := p + MakeSlots(files, next, duration);
      && LadderQueue(q) && QueueAscending(q)
      && (forall i :: 0 <= i < |q| ==> PendingKey(q[i]) < next + |files|)
      && (forall i :: 0 <= i < |q| ==> 0 <= PendingKey(q[i]))
      && (p == [] && q != [] ==> PendingKey(q[0]) == next)
      && (p != [] ==> q[0] == p[0])
      && forall i :: 0 <= i < |files| ==>
           && PendingKey(q[|p| + i]) == next + i
           && q[|p| + i][HALF_BITRATE].data == files[i].data
  {
    var added := MakeSlots(files, next, duration);
    var q := p + added;
    forall i | 0 <= i < |files|
      ensures LadderSlot(added[i]) && PendingKey(added[i]) == next + i && added[i][HALF_BITRATE].data == files[i].data
    {
      GeneratedSlotSpec(files[i], next + i, duration);
    }
    assert forall i :: 0 <= i < |p| ==> q[i] == p[i];
    assert forall i :: |p| <= i < |q| ==> q[i] == added[i - |p|];
  }

  /** slideWindowForBrand: drop the smallest entries until at most
      maxVisible remain. */
  function Slide(w: seq<LiveEntry>, maxVisible: nat): seq<LiveEntry> {
    if |w| > maxVisible then w[|w| - maxVisible..] else w
  }

  /** The slid window fits, is the newest part of the window (a window that
      fits is left alone), and every dropped key is below every kept one. */
  lemma SlideSpec(w: seq<LiveEntry>, maxVisible: nat)
    ensures |Slide(w, maxVisible)| == Min(|w|, maxVisible)
    ensures Slide(w, maxVisible) == w[|w| - |Slide(w, maxVisible)|..]
    ensures |w| <= maxVisible ==> Slide(w, maxVisible) == w
    ensures Ascending(w) ==> Ascending(Slide(w, maxVisible))
    ensures Ascending(w) ==> forall i, j :: 0 <= i < |w| - |Slide(w, maxVisible)| <= j < |w| ==> w[i].sequence < w[j].sequence
  {
  }

  lemma SlideKeepsInvariant(st: StreamState, next: int, maxVisible: nat)
    requires StreamInvariant(st, next, maxVisible)
    ensures StreamInvariant(st.(liveSegments := Slide(st.liveSegments, maxVisible)), next, maxVisible)
  {
    var w := st.liveSegments;
    var s := Slide(w, maxVisible);
    SlideSpec(w, maxVisible);
    SuffixKeeps(w, |w| - |s|);
    var t := st.(liveSegments := s);
    assert Drawn(t, next);
    assert Linked(t);
  }

  /** A suffix of a keyed window is keyed, and keeps its last entry. */
  lemma SuffixKeeps(w: seq<LiveEntry>, k: nat)
    requires k <= |w| && LiveKeyed(w)
    ensures LiveKeyed(w[k..])
    ensures w[k..] != [] ==> w[k..][|w[k..]| - 1] == w[|w| - 1]
    ensures forall i :: 0 <= i < |w[k..]| ==> w[k..][i].sequence == w[k + i].sequence
  {
    assert forall i :: 0 <= i < |w[k..]| ==> w[k..][i] == w[k + i];
  }

  // ---------------------------------------------------------------------
  // Manifests

  function MasterVariant(brandKey: string, bitrate: int): string {
    "#EXT-X-STREAM-INF:BANDWIDTH=" + IntToString(bitrate) + "\n"
    + "/api/stream/" + brandKey + "/stream.m3u8?bitrate=" + IntToString(bitrate) + "\n"
  }

  /** generateMasterPlaylist. */
  function MasterPlaylist(brand: string): string {
    var maxRate := DEFAULT_BITRATE;
    "#EXTM3U\n" + MasterVariant(Lower(brand), maxRate) + MasterVariant(Lower(brand), maxRate / 2)
  }

  /** The master manifest lists one variant per ladder bitrate, highest
      first, each pointing at the brand's lower-cased manifest URL. */
  lemma MasterListsLadder(brand: string)
    ensures MasterPlaylist(brand)
         == "#EXTM3U\n" + Concat(seq(|BITRATE_LADDER|, i requires 0 <= i < |BITRATE_LADDER| => MasterVariant(Lower(brand), BITRATE_LADDER[i])))
  {
    var key := Lower(brand);
    var parts := seq(|BITRATE_LADDER|, i requires 0 <= i < |BITRATE_LADDER| => MasterVariant(key, BITRATE_LADDER[i]));
    var a := MasterVariant(key, DEFAULT_BITRATE);
    var b := MasterVariant(key, HALF_BITRATE);
    assert parts[0] == a && parts[1] == b;
    assert DEFAULT_BITRATE / 2 == HALF_BITRATE;
    assert MasterPlaylist(brand) == "#EXTM3U\n" + a + b;
    assert parts == [a, b];
    ConcatPair(a, b);
    AppendAssoc("#EXTM3U\n", a, b);
  }

  lemma ConcatPair(a: string, b: string)
    ensures Concat([a, b]) == a + b
  {
    assert [a, b][1..] == [b];
    assert Concat([b]) == b + Concat([]);
  }

  /** getDefaultPlaylist: the manifest served when there is nothing live. */
  function DefaultPlaylist(targetDuration: int): string {
    "#EXTM3U\n#EXT-X-VERSION:3\n#EXT-X-ALLOW-CACHE:NO\n#EXT-X-TARGETDURATION:" + IntToString(targetDuration)
    + "\n#EXT-X-MEDIA-SEQUENCE:0\n"
  }

  function PlaylistHeader(targetDuration: int, firstSequence: int): string {
    "#EXTM3U\n#EXT-X-VERSION:3\n#EXT-X-TARGETDURATION:" + IntToString(targetDuration)
    + "\n#EXT-X-MEDIA-SEQUENCE:" + IntToString(firstSequence) + "\n"
  }

  function MetadataField(m: Option<SongMetadata>): string {
    match m
    case Some(x) => MetadataText(x)
    case None => ""
  }

  /** The two lines one listed segment contributes; the URL carries the
      requested bitrate and the segment's own sequence number. */
  function EntryText(brandKey: string, target: int, seg: HlsSegment): string {
    "#EXTINF:" + IntToString(seg.duration) + "," + MetadataField(seg.songMetadata) + "\n"
    + "/api/stream/" + brandKey + "/segments/" + FileName(brandKey, target, seg.sequence) + "\n"
  }

  predicate NonEmptySlots(w: seq<LiveEntry>) {
    forall i :: 0 <= i < |w| ==> w[i].slot != map[]
  }

  /** The entry lines for a run of window entries, in window order. */
  function EntriesText(w: seq<LiveEntry>, brandKey: string, target: int): string
    requires NonEmptySlots(w)
  {
    if w == [] then ""
    else EntriesText(w[..|w| - 1], brandKey, target) + EntryText(brandKey, target, ChooseSegment(w[|w| - 1].slot, target))
  }

  /** generatePlaylist: the default manifest for an unknown brand or an
      empty window; otherwise the header with the first key as media
      sequence and the first maxVisible entries. The bitrate defaults to
      the top of the ladder. */
  function Playlist(states: map<string, StreamState>, brand: string, bitrate: Option<int>,
                    targetDuration: int, maxVisible: nat): string
    requires Lower(brand) in states ==> NonEmptySlots(states[Lower(brand)].liveSegments)
  {
    var key := Lower(brand);
    if key !in states || states[key].liveSegments == [] then DefaultPlaylist(targetDuration)
    else
      var w := states[key].liveSegments;
      PlaylistHeader(targetDuration, w[0].sequence)
      + EntriesText(w[..Min(|w|, maxVisible)], key, bitrate.GetOr(DEFAULT_BITRATE))
  }

  /** The segments a manifest lists for a run of entries, in order. */
  function Listed(w: seq<LiveEntry>, target: int): (r: seq<HlsSegment>)
    requires NonEmptySlots(w)
    ensures |r| == |w|
  {
    seq(|w|, i requires 0 <= i < |w| => ChooseSegment(w[i].slot, target))
  }

  /** The manifest of a live brand: its media sequence is the smallest key in
      the window, it lists min(size, maxVisible) segments, one per entry from
      the smallest key upward, in strictly ascending sequence order, each
      under the sequence number of its entry. */
  lemma PlaylistSpec(states: map<string, StreamState>, brand: string, bitrate: Option<int>,
                     targetDuration: int, maxVisible: nat, next: int)
    requires Lower(brand) in states && StreamInvariant(states[Lower(brand)], next, maxVisible)
    requires states[Lower(brand)].liveSegments != []
    ensures var w := states[Lower(brand)].liveSegments;
      var n := Min(|w|, maxVisible);
      var listed := Listed(w[..n], bitrate.GetOr(DEFAULT_BITRATE));
      && (forall i :: 0 <= i < |w| ==> w[0].sequence <= w[i].sequence)
      && Playlist(states, brand, bitrate, targetDuration, maxVisible)
         == PlaylistHeader(targetDuration, w[0].sequence)
            + Concat(EntryTexts(w[..n], Lower(brand), bitrate.GetOr(DEFAULT_BITRATE)))
      && (forall i :: 0 <= i < n ==> listed[i].sequence == w[i].sequence)
      && (forall i, j :: 0 <= i < j < n ==> listed[i].sequence < listed[j].sequence)
  {
    var key := Lower(brand);
    var w := states[key].liveSegments;
    var n := Min(|w|, maxVisible);
    var t := bitrate.GetOr(DEFAULT_BITRATE);
    ListedKeys(w, n, t);
    PlaylistText(states, brand, bitrate, targetDuration, maxVisible);
  }

  /** The listed run of a keyed, sorted window carries the window's keys, in
      strictly ascending order. */
  lemma ListedKeys(w: seq<LiveEntry>, n: nat, t: int)
    requires NonEmptySlots(w) && LiveKeyed(w) && Ascending(w) && n <= |w|
    ensures NonEmptySlots(w[..n])
    ensures var listed := Listed(w[..n], t);
      && (forall i :: 0 <= i < n ==> listed[i].sequence == w[i].sequence)
      && (forall i, j :: 0 <= i < j < n ==> listed[i].sequence < listed[j].sequence)
  {
    var u := w[..n];
    assert forall i :: 0 <= i < n ==> u[i] == w[i];
    var listed := Listed(u, t);
    forall i | 0 <= i < n ensures listed[i].sequence == w[i].sequence {
      KeyedChoice(w, i, t);
    }
  }

  /** A live manifest is the header followed by the visible entries' texts. */
  lemma PlaylistText(states: map<string, StreamState>, brand: string, bitrate: Option<int>,
                     targetDuration: int, maxVisible: nat)
    requires Lower(brand) in states && NonEmptySlots(states[Lower(brand)].liveSegments)
    requires states[Lower(brand)].liveSegments != []
    ensures var w := states[Lower(brand)].liveSegments;
      var n := Min(|w|, maxVisible);
      NonEmptySlots(w[..n])
      && Playlist(states, brand, bitrate, targetDuration, maxVisible)
         == PlaylistHeader(targetDuration, w[0].sequence)
            + Concat(EntryTexts(w[..n], Lower(brand), bitrate.GetOr(DEFAULT_BITRATE)))
  {
    var w := states[Lower(brand)].liveSegments;
    var n := Min(|w|, maxVisible);
    assert forall i :: 0 <= i < n ==> w[..n][i] == w[i];
    EntriesTextConcat(w[..n], Lower(brand), bitrate.GetOr(DEFAULT_BITRATE));
  }

  /** The default manifest is served exactly when the brand is unknown or
      its window is empty: a live manifest differs from it already in its
      third line, which names the target duration instead of the cache
      directive. */
  lemma DefaultPlaylistExactly(states: map<string, StreamState>, brand: string, bitrate: Option<int>,
                               targetDuration: int, maxVisible: nat)
    requires Lower(brand) in states ==> NonEmptySlots(states[Lower(brand)].liveSegments)
    ensures Playlist(states, brand, bitrate, targetDuration, maxVisible) == DefaultPlaylist(targetDuration)
            <==> Lower(brand) !in states || states[Lower(brand)].liveSegments == []
  {
    var key := Lower(brand);
    if key in states && states[key].liveSegments != [] {
      var w := states[key].liveSegments;
      var rest := EntriesText(w[..Min(|w|, maxVisible)], key, bitrate.GetOr(DEFAULT_BITRATE));
      HeaderNotDefault(targetDuration, w[0].sequence, rest);
    }
  }

  lemma HeaderNotDefault(targetDuration: int, firstSequence: int, rest: string)
    ensures PlaylistHeader(targetDuration, firstSequence) + rest != DefaultPlaylist(targetDuration)
  {
    var h := PlaylistHeader(targetDuration, firstSequence);
    var d := DefaultPlaylist(targetDuration);
    assert h[32] == 'T';
    assert d[32] == 'A';
    assert (h + rest)[32] == 'T';
  }

  /** The entry texts of a run of entries, one per entry. */
  function EntryTexts(w: seq<LiveEntry>, brandKey: string, target: int): (r: seq<string>)
    requires NonEmptySlots(w)
    ensures |r| == |w|
  {
    seq(|w|, i requires 0 <= i < |w| => EntryText(brandKey, target, ChooseSegment(w[i].slot, target)))
  }

  lemma EntryTextsSnoc(w: seq<LiveEntry>, brandKey: string, target: int)
    requires NonEmptySlots(w) && w != []
    ensures EntryTexts(w, brandKey, target)
         == EntryTexts(w[..|w| - 1], brandKey, target) + [EntryText(brandKey, target, ChooseSegment(w[|w| - 1].slot, target))]
  {
    var u := w[..|w| - 1];
    var texts := EntryTexts(w, brandKey, target);
    var front := EntryTexts(u, brandKey, target);
    forall i | 0 <= i < |u| ensures texts[i] == front[i] {
      assert u[i] == w[i];
    }
    SnocOf(texts, front, EntryText(brandKey, target, ChooseSegment(w[|w| - 1].slot, target)));
  }

  lemma ConcatSnoc(front: seq<string>, last: string)
    ensures Concat(front + [last]) == Concat(front) + last
  {
    ConcatAppend(front, [last]);
    assert Concat([last]) == last + Concat([]);
  }

  lemma {:induction false} EntriesTextConcat(w: seq<LiveEntry>, brandKey: string, target: int)
    requires NonEmptySlots(w)
    ensures EntriesText(w, brandKey, target) == Concat(EntryTexts(w, brandKey, target))
    decreases |w|
  {
    if w != [] {
      var u := w[..|w| - 1];
      var last := EntryText(brandKey, target, ChooseSegment(w[|w| - 1].slot, target));
      EntriesTextConcat(u, brandKey, target);
      EntryTextsSnoc(w, brandKey, target);
      ConcatSnoc(EntryTexts(u, brandKey, target), last);
    } else {
      assert EntryTexts(w, brandKey, target) == [];
    }
  }

  // ---------------------------------------------------------------------
  // Segment lookup

  /** getSegment: the segment named by a file name, or None for a name the
      pattern rejects, a brand mismatch, numbers beyond a long, an unknown
      brand or a sequence not in the window; within the slot, the requested
      bitrate's segment, else the first value. */
  function SegmentLookup(states: map<string, StreamState>, brand: string, file: string): Option<HlsSegment> {
    LookupNamed(states, brand, Parse(file))
  }

  /** The rest of getSegment, from the groups the pattern yielded on. */
  function LookupNamed(states: map<string, StreamState>, brand: string, name: Option<SegmentName>): Option<HlsSegment> {
    if name.None? || !EqualsIgnoreCase(name.value.brand, brand) then None
    else
      var bitrate := ParseLong(name.value.bitrate);
      var sequence := ParseLong(name.value.sequence);
      if bitrate.None? || sequence.None? || Lower(brand) !in states then None
      else
        var slot := Lookup(states[Lower(brand)].liveSegments, sequence.value);
        if slot.None? then None
        else if bitrate.value in slot.value then Some(slot.value[bitrate.value])
        else if slot.value != map[] then Some(FirstValue(slot.value))
        else None
  }

  /** A hit only ever comes from a name the pattern accepts, whose brand
      matches the requested one ignoring case, and from the window entry of
      exactly the named sequence: its segment at the named bitrate if it has
      one, another of its segments otherwise. With the invariant, the
      segment carries the named sequence number. */
  lemma SegmentLookupSound(states: map<string, StreamState>, brand: string, file: string, next: int, maxVisible: nat)
    requires SegmentLookup(states, brand, file).Some?
    ensures Parse(file).Some? && EqualsIgnoreCase(Parse(file).value.brand, brand) && Lower(brand) in states
    ensures var name := Parse(file).value;
      var seg := SegmentLookup(states, brand, file).value;
      var w := states[Lower(brand)].liveSegments;
      && ParseLong(name.bitrate).Some? && ParseLong(name.sequence).Some?
      && exists i :: 0 <= i < |w| && w[i].sequence == ParseLong(name.sequence).value
           && seg in w[i].slot.Values
           && (ParseLong(name.bitrate).value in w[i].slot ==> seg == w[i].slot[ParseLong(name.bitrate).value])
    ensures StreamInvariant(states[Lower(brand)], next, maxVisible) ==>
      SegmentLookup(states, brand, file).value.sequence == ParseLong(Parse(file).value.sequence).value
  {
    var name := Parse(file).value;
    assert ParseLong(name.bitrate).Some? && ParseLong(name.sequence).Some?;
    var b := ParseLong(name.bitrate).value;
    var sequence := ParseLong(name.sequence).value;
    var st := states[Lower(brand)];
    var w := st.liveSegments;
    var i := LookupIndex(w, sequence);
    var slot := w[i].slot;
    var seg := SegmentLookup(states, brand, file).value;
    if b in slot {
      assert seg == slot[b];
    } else {
      assert seg == FirstValue(slot);
    }
    assert seg in slot.Values;
    if StreamInvariant(st, next, maxVisible) {
      KeyedChoice(w, i, b);
    }
  }

  /** In a keyed window every choice from an entry's slot carries the
      entry's key. */
  lemma KeyedChoice(w: seq<LiveEntry>, i: nat, target: int)
    requires NonEmptySlots(w) && LiveKeyed(w) && i < |w|
    ensures ChooseSegment(w[i].slot, target).sequence == w[i].sequence
  {
    LadderSlotChoice(w[i].slot, target);
  }

  lemma {:induction false} LookupIndex(w: seq<LiveEntry>, k: int) returns (i: nat)
    requires Lookup(w, k).Some?
    ensures i < |w| && w[i].sequence == k && Lookup(w, k) == Some(w[i].slot)
  {
    if w[0].sequence == k {
      i := 0;
    } else {
      var j := LookupIndex(w[1..], k);
      i := j + 1;
    }
  }

  /** Every URL a manifest lists resolves: requesting the file name of the
      i-th listed entry, under any spelling of the brand whose lower case is
      the key, yields exactly the segment the manifest described. */
  lemma ManifestRoundTrip(states: map<string, StreamState>, brand: string, target: int, i: int, next: int, maxVisible: nat)
    requires Lower(brand) in states && StreamInvariant(states[Lower(brand)], next, maxVisible)
    requires Lower(brand) != [] && NoUnderscore(Lower(brand))
    requires 0 <= i < |states[Lower(brand)].liveSegments|
    requires 0 <= target <= LONG_MAX && states[Lower(brand)].liveSegments[i].sequence <= LONG_MAX
    ensures var e := states[Lower(brand)].liveSegments[i];
      SegmentLookup(states, brand, FileName(Lower(brand), target, e.sequence)) == Some(ChooseSegment(e.slot, target))
  {
    var w := states[Lower(brand)].liveSegments;
    var e := w[i];
    FileNameRoundTrip(Lower(brand), target, e.sequence);
    EqualsIgnoreCaseLower(brand);
    LookupSpec(w, e.sequence);
    LadderSlotChoice(e.slot, target);
  }

  /** A brand whose key holds an underscore is never served: the pattern's
      brand group holds no underscore, so it never equals such a brand
      ignoring case, and every segment request for the brand, including
      each file name its own manifest lists, yields None. */
  lemma UnderscoreBrandNotServed(states: map<string, StreamState>, brand: string, file: string)
    requires !NoUnderscore(Lower(brand))
    ensures SegmentLookup(states, brand, file) == None
  {
    if Parse(file).Some? {
      var _ := ParseSound(file);
      IgnoringCaseKeepsUnderscores(Parse(file).value.brand, brand);
    }
  }

  lemma IgnoringCaseKeepsUnderscores(a: string, b: string)
    ensures NoUnderscore(a) && EqualsIgnoreCase(a, b) ==> NoUnderscore(Lower(b))
  {
    if NoUnderscore(a) && EqualsIgnoreCase(a, b) {
      forall i | 0 <= i < |b| ensures Lower(b)[i] != '_' {
        assert Lower(b)[i] == LowerChar(a[i]);
      }
    }
  }

  /** getSegment with the file name read by ParseWhole, so that the brand
      group may hold underscores. */
  function SegmentLookupWhole(states: map<string, StreamState>, brand: string, file: string): Option<HlsSegment> {
    LookupNamed(states, brand, ParseWhole(file))
  }

  /** With that reading every URL a manifest lists resolves, for every
      non-empty brand key: requesting the file name of the i-th listed
      entry yields exactly the segment the manifest described. */
  lemma ManifestRoundTripWhole(states: map<string, StreamState>, brand: string, target: int, i: int, next: int, maxVisible: nat)
    requires Lower(brand) in states && StreamInvariant(states[Lower(brand)], next, maxVisible)
    requires Lower(brand) != []
    requires 0 <= i < |states[Lower(brand)].liveSegments|
    requires 0 <= target <= LONG_MAX && states[Lower(brand)].liveSegments[i].sequence <= LONG_MAX
    ensures var e := states[Lower(brand)].liveSegments[i];
      SegmentLookupWhole(states, brand, FileName(Lower(brand), target, e.sequence)) == Some(ChooseSegment(e.slot, target))
  {
    var w := states[Lower(brand)].liveSegments;
    var e := w[i];
    FileNameRoundTripWhole(Lower(brand), target, e.sequence);
    ParseLongOfNatToString(target);
    ParseLongOfNatToString(e.sequence);
    EqualsIgnoreCaseLower(brand);
    LookupSpec(w, e.sequence);
    LadderSlotChoice(e.slot, target);
  }
}
