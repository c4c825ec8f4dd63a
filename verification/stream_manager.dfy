/** The per-station stream engine (StreamManager): a live window and a
    pending queue per brand, fed from the playlist supplier one slot per
    feed tick, slid back to the visible size on slide ticks, and read by
    the manifest and segment endpoints. Fresh UUIDs for the supplier and
    the wall clock are parameters; the executor, the slide ticker and
    logging are left out. */
module Streaming {
  import opened Common
  import opened HlsTypes
  import opened FragmentQueues
  import opened ServicePlaylist
  import opened FeederTimer
  import opened StreamWindow

  /** The engine's configuration (HlsConfig) with its defaults. */
  datatype HlsConfig = HlsConfig(segmentDuration: int, maxVisibleSegments: int, bitrates: string, targetDuration: int)

  const DEFAULT_HLS_CONFIG: HlsConfig := HlsConfig(6, 20, "128000,64000", 6)

  /** What one feed tick does to a brand: the window, the supplier queue
      state when the supplier was asked (None when it was not), and the
      sequence counter afterwards. */
  datatype FeedOutcome = FeedOutcome(stream: StreamState, queues: Option<PlaylistState>, counter: int)

  /** The refill half: below the threshold the supplier's next fragment is
      taken and each of its audio files becomes a pending slot. */
  ghost function RefillStep(st: StreamState, queued: PlaylistState, waiting: Option<LiveSoundFragment>,
                            id: Uuid, counter: int, duration: int): FeedOutcome
  {
    if |st.pendingQueue| < PENDING_QUEUE_REFILL_THRESHOLD then
      var n := Next(queued, waiting, id);
      var files := AudioFilesOf(n.fragment);
      FeedOutcome(Refill(st, files, counter, duration), Some(n.state), counter + |files|)
    else FeedOutcome(st, None, counter)
  }

  /** A whole feed tick: drip, then refill. */
  ghost function FeedStep(st: StreamState, queued: PlaylistState, waiting: Option<LiveSoundFragment>,
                          id: Uuid, counter: int, duration: int, maxVisible: nat): FeedOutcome
    requires st.pendingQueue != [] ==> st.pendingQueue[0] != map[]
  {
    RefillStep(Promote(st, maxVisible), queued, waiting, id, counter, duration)
  }

  /** `after` and `queuedAfter` are the window and the supplier state one
      feed tick makes of `before` and `queuedBefore` at the given counter. */
  ghost predicate FedFrom(before: StreamState, queuedBefore: PlaylistState, waiting: Option<LiveSoundFragment>,
                          id: Uuid, counter: int, duration: int, maxVisible: nat,
                          after: StreamState, queuedAfter: PlaylistState)
  {
    && (before.pendingQueue != [] ==> before.pendingQueue[0] != map[])
    && var f := FeedStep(before, queuedBefore, waiting, id, counter, duration, maxVisible);
       && after == f.stream
       && queuedAfter == (if f.queues.Some? then f.queues.value else queuedBefore)
  }

  /** A brand's supplier state in a map, or the fresh one computeIfAbsent
      would create. */
  function QueueOf(queues: map<string, PlaylistState>, brand: string): PlaylistState {
    if brand in queues then queues[brand] else EmptyState
  }

  /** Every brand in `fedAt` went from `before` to `after` by one feed tick
      taken at the counter value recorded for it. */
  ghost predicate FedBrands(before: map<string, StreamState>, queuesBefore: map<string, PlaylistState>,
                            waiting: Option<LiveSoundFragment>, ids: string -> Uuid, fedAt: map<string, int>,
                            duration: int, maxVisible: nat,
                            after: map<string, StreamState>, queuesAfter: map<string, PlaylistState>)
  {
    forall b :: b in fedAt ==>
      && b in before && b in after
      && FedFrom(before[b], QueueOf(queuesBefore, b), waiting, ids(b), fedAt[b], duration, maxVisible,
                 after[b], QueueOf(queuesAfter, b))
  }

  /** Feeding one more brand, leaving the fed ones alone, extends FedBrands. */
  lemma FedBrandsStep(before: map<string, StreamState>, queuesBefore: map<string, PlaylistState>,
                      waiting: Option<LiveSoundFragment>, ids: string -> Uuid, fedAt: map<string, int>,
                      duration: int, maxVisible: nat,
                      after: map<string, StreamState>, queuesAfter: map<string, PlaylistState>,
                      brand: string, counter: int,
                      after': map<string, StreamState>, queuesAfter': map<string, PlaylistState>)
    requires FedBrands(before, queuesBefore, waiting, ids, fedAt, duration, maxVisible, after, queuesAfter)
    requires brand in before && brand in after && brand in after'
    requires after[brand] == before[brand] && QueueOf(queuesAfter, brand) == QueueOf(queuesBefore, brand)
    requires FedFrom(after[brand], QueueOf(queuesAfter, brand), waiting, ids(brand), counter, duration, maxVisible,
                     after'[brand], QueueOf(queuesAfter', brand))
    requires forall c :: c in fedAt && c != brand ==>
      c in after' && after'[c] == after[c] && QueueOf(queuesAfter', c) == QueueOf(queuesAfter, c)
    ensures FedBrands(before, queuesBefore, waiting, ids, fedAt[brand := counter], duration, maxVisible,
                      after', queuesAfter')
  {
  }

  /** The refill half keeps the invariant under the advanced counter and
      the supplier's queues well formed, leaves the window alone, asks the
      supplier exactly below the threshold, and queues one slot per file. */
  lemma RefillStepSpec(st: StreamState, queued: PlaylistState, waiting: Option<LiveSoundFragment>,
                       id: Uuid, counter: int, duration: int, maxVisible: nat)
    requires StreamInvariant(st, counter, maxVisible) && 0 <= counter && WellFormed(queued)
    ensures var f := RefillStep(st, queued, waiting, id, counter, duration);
      && StreamInvariant(f.stream, f.counter, maxVisible)
      && (f.queues.Some? ==> WellFormed(f.queues.value))
      && f.counter >= counter
      && f.stream.liveSegments == st.liveSegments
      && (f.queues.Some? <==> |st.pendingQueue| < PENDING_QUEUE_REFILL_THRESHOLD)
      && |f.stream.pendingQueue| == |st.pendingQueue| + (f.counter - counter)
  {
    if |st.pendingQueue| < PENDING_QUEUE_REFILL_THRESHOLD {
      var n := Next(queued, waiting, id);
      NextSpec(queued, waiting, id);
      RefillSpec(st, AudioFilesOf(n.fragment), counter, duration, maxVisible);
    }
  }

  /** A whole feed tick keeps the invariant as well; the window gains at most
      the one dripped entry and keeps everything it had. */
  lemma FeedStepSpec(st: StreamState, queued: PlaylistState, waiting: Option<LiveSoundFragment>,
                     id: Uuid, counter: int, duration: int, maxVisible: nat)
    requires StreamInvariant(st, counter, maxVisible) && 0 <= counter && WellFormed(queued)
    ensures st.pendingQueue != [] ==> st.pendingQueue[0] != map[]
    ensures var f := FeedStep(st, queued, waiting, id, counter, duration, maxVisible);
      && StreamInvariant(f.stream, f.counter, maxVisible)
      && (f.queues.Some? ==> WellFormed(f.queues.value))
      && f.counter >= counter
      && |st.liveSegments| <= |f.stream.liveSegments| <= |st.liveSegments| + 1
      && f.stream.liveSegments[..|st.liveSegments|] == st.liveSegments
  {
    DrippableQueue(st, counter, maxVisible);
    PromoteSpec(st, counter, maxVisible);
    var promoted := Promote(st, maxVisible);
    RefillStepSpec(promoted, queued, waiting, id, counter, duration, maxVisible);
    if st.pendingQueue != [] && |st.liveSegments| < 2 * maxVisible {
      assert promoted.liveSegments[..|st.liveSegments|] == st.liveSegments;
    }
  }

  /** Under the invariant the head of the pending queue, if any, has a
      segment to take the sequence number from. */
  lemma DrippableQueue(st: StreamState, next: int, maxVisible: nat)
    requires StreamInvariant(st, next, maxVisible)
    ensures st.pendingQueue != [] ==> HALF_BITRATE in st.pendingQueue[0]
  {
    if st.pendingQueue != [] {
      assert LadderSlot(st.pendingQueue[0]);
    }
  }

  /** The drip loop of feedSegmentsForBrand (one slot per call). */
  method Drip(st: StreamState, maxVisible: nat) returns (r: StreamState)
    requires st.pendingQueue != [] ==> st.pendingQueue[0] != map[]
    ensures r == Promote(st, maxVisible)
  {
    r := st;
    if st.pendingQueue == [] {
      return;
    }
    var i := 0;
    while i < SEGMENTS_TO_DRIP_PER_FEED_CALL
      invariant 0 <= i <= SEGMENTS_TO_DRIP_PER_FEED_CALL
      invariant i == 0 ==> r == st
      invariant i == 1 ==> r == Promote(st, maxVisible)
    {
      if |r.liveSegments| >= 2 * maxVisible {
        break;
      }
      var slot := r.pendingQueue[0];
      var sequence := FirstValue(slot).sequence;
      r := StreamState(Put(r.liveSegments, sequence, slot), r.pendingQueue[1..]);
      i := i + 1;
    }
  }

  /** The loop of createSegmentsFromAudioFiles: one two-bitrate slot per file,
      numbered from the counter, offered to the queue. */
  method AppendSlots(pending: seq<Slot>, files: seq<AudioFile>, start: int, duration: int)
    returns (queue: seq<Slot>, next: int)
    ensures queue == pending + MakeSlots(files, start, duration)
    ensures next == start + |files|
  {
    queue := pending;
    next := start;
    for i := 0 to |files|
      invariant queue == pending + MakeSlots(files[..i], start, duration)
      invariant next == start + i
    {
      var sequence := next;
      next := next + 1;
      var slot: Slot := map[];
      for b := 0 to |BITRATE_LADDER|
        invariant b == 0 ==> slot == map[]
        invariant b == 1 ==> slot == map[DEFAULT_BITRATE := GeneratedSegment(files[i], sequence, duration)]
        invariant b == 2 ==> slot == GeneratedSlot(files[i], sequence, duration)
      {
        slot := slot[BITRATE_LADDER[b] := GeneratedSegment(files[i], sequence, duration)];
      }
      assert MakeSlots(files[..i + 1], start, duration) == MakeSlots(files[..i], start, duration) + [slot];
      queue := queue + [slot];
    }
    assert files[..|files|] == files;
  }

  /** The forEach of generatePlaylist: the entry lines of each window entry
      in turn. */
  method AppendEntries(w: seq<LiveEntry>, key: string, target: int) returns (entries: string)
    requires NonEmptySlots(w)
    ensures entries == EntriesText(w, key, target)
  {
    entries := "";
    for i := 0 to |w|
      invariant entries == EntriesText(w[..i], key, target)
    {
      var slot := w[i].slot;
      var segment := if target in slot then slot[target] else FirstValue(slot);
      assert w[..i + 1][..i] == w[..i] && w[..i + 1][i] == w[i];
      entries := entries + EntryText(key, target, segment);
    }
    assert w[..|w|] == w;
  }

  /** The loop of slideWindowForBrand: pollFirstEntry while too large. */
  method SlideLoop(w: seq<LiveEntry>, maxVisible: nat) returns (r: seq<LiveEntry>)
    ensures r == Slide(w, maxVisible)
  {
    r := w;
    while |r| > maxVisible
      invariant |r| <= |w| && r == w[|w| - |r|..]
      invariant if |w| > maxVisible then |r| >= maxVisible else r == w
      decreases |r|
    {
      assert r[1..] == w[|w| - |r| + 1..];
      r := r[1..];
    }
  }

  /** The loop of slideWindow over every brand. */
  method SlideAll(states: map<string, StreamState>, maxVisible: nat) returns (next: map<string, StreamState>)
    ensures next == map b | b in states :: states[b].(liveSegments := Slide(states[b].liveSegments, maxVisible))
  {
    next := states;
    var pending := states.Keys;
    while pending != {}
      invariant pending <= states.Keys
      invariant next.Keys == states.Keys
      invariant forall b :: b in states ==>
        next[b] == if b in pending then states[b] else states[b].(liveSegments := Slide(states[b].liveSegments, maxVisible))
      decreases |pending|
    {
      var b := PickKey(pending);
      var live := SlideLoop(states[b].liveSegments, maxVisible);
      next := next[b := states[b].(liveSegments := live)];
      pending := pending - {b};
    }
  }

  class StreamManager {
    var streamStates: map<string, StreamState>
    /** The shared sequence counter (an AtomicLong). */
    var currentSequence: int
    /** The names under which the feeder and slider subscriptions are kept. */
    var timerSubscriptions: set<string>
    const playlistManager: PlaylistManager
    const segmentFeederTimer: SegmentFeederTimer
    const segmentDuration: int
    const maxVisibleSegments: nat

    ghost predicate Valid()
      reads this, playlistManager
    {
      && playlistManager.Valid()
      && 0 <= currentSequence
      && 0 < segmentDuration
      && (forall b {:trigger StreamInvariant(streamStates[b], currentSequence, maxVisibleSegments)} ::
            b in streamStates ==> StreamInvariant(streamStates[b], currentSequence, maxVisibleSegments))
      && (forall b :: b in streamStates ==> NonEmptySlots(streamStates[b].liveSegments))
    }

    constructor (playlistManager: PlaylistManager, config: HlsConfig, segmentFeederTimer: SegmentFeederTimer)
      requires playlistManager.Valid()
      requires config.segmentDuration > 0 && config.maxVisibleSegments >= 0
      ensures Valid()
      ensures streamStates == map[] && currentSequence == 0 && timerSubscriptions == {}
      ensures this.playlistManager == playlistManager && this.segmentFeederTimer == segmentFeederTimer
      ensures segmentDuration == config.segmentDuration && maxVisibleSegments == config.maxVisibleSegments
    {
      this.playlistManager := playlistManager;
      this.segmentFeederTimer := segmentFeederTimer;
      segmentDuration := config.segmentDuration;
      maxVisibleSegments := config.maxVisibleSegments;
      streamStates := map[];
      currentSequence := 0;
      timerSubscriptions := {};
    }

    /** The engine's invariant depends on the supplier only through the
        supplier's own invariant. */
    twostate lemma SupplierChangeKeepsValid()
      requires old(Valid()) && unchanged(this) && playlistManager.Valid()
      ensures Valid()
    {
    }

    /** generateMasterPlaylist. */
    function GenerateMasterPlaylist(brand: string): string {
      MasterPlaylist(brand)
    }

    /** generatePlaylist: the header, then the first maxVisible entries of the
        window, each listed at the requested bitrate (128000 by default). */
    method GeneratePlaylist(brand: string, bitrate: Option<int>) returns (r: string)
      requires Valid()
      ensures r == Playlist(streamStates, brand, bitrate, segmentDuration, maxVisibleSegments)
    {
      var key := Lower(brand);
      if key !in streamStates {
        return DefaultPlaylist(segmentDuration);
      }
      var w := streamStates[key].liveSegments;
      if w == [] {
        return DefaultPlaylist(segmentDuration);
      }
      var target := if bitrate.Some? then bitrate.value else DEFAULT_BITRATE;
      var header := PlaylistHeader(segmentDuration, w[0].sequence);
      var entries := AppendEntries(w[..Min(|w|, maxVisibleSegments)], key, target);
      r := header + entries;
    }

    /** getSegment. */
    function GetSegment(brand: string, segmentFile: string): Option<HlsSegment>
      reads this
    {
      SegmentLookup(streamStates, brand, segmentFile)
    }

    /** createSegmentsFromAudioFiles. */
    method CreateSegmentsFromAudioFiles(brand: string, files: seq<AudioFile>)
      requires Valid() && brand in streamStates
      modifies this
      ensures Valid()
      ensures streamStates == old(streamStates)[brand := Refill(old(streamStates)[brand], files, old(currentSequence), segmentDuration)]
      ensures streamStates.Keys == old(streamStates).Keys
      ensures currentSequence == old(currentSequence) + |files|
      ensures timerSubscriptions == old(timerSubscriptions)
    {
      var st := streamStates[brand];
      var queue, next := AppendSlots(st.pendingQueue, files, currentSequence, segmentDuration);
      RefillSpec(st, files, currentSequence, segmentDuration, maxVisibleSegments);
      Store(brand, st.(pendingQueue := queue), next);
    }

    /** feedSegmentsForBrand: drip at most one pending slot into the window
        (none once the window holds twice the visible size), then, with fewer
        than ten slots pending, pull the next fragment's audio files from the
        supplier and queue a slot for each. */
    method FeedSegmentsForBrand(brand: string, id: Uuid)
      requires Valid() && brand in streamStates
      modifies this, playlistManager
      ensures Valid()
      ensures streamStates.Keys == old(streamStates).Keys && timerSubscriptions == old(timerSubscriptions)
      ensures currentSequence >= old(currentSequence)
      ensures playlistManager.lastStarvingFeedTime == old(playlistManager.lastStarvingFeedTime)
      ensures old(streamStates)[brand].pendingQueue != [] ==> old(streamStates)[brand].pendingQueue[0] != map[]
      ensures var f := FeedStep(old(streamStates)[brand], old(playlistManager.StateOf(brand)),
                                playlistManager.waitingAudioProvider.CurrentWaitingFragment(), id,
                                old(currentSequence), segmentDuration, maxVisibleSegments);
        && streamStates == old(streamStates)[brand := f.stream]
        && currentSequence == f.counter
        && playlistManager.playlistStates ==
             if f.queues.Some? then old(playlistManager.playlistStates)[brand := f.queues.value]
             else old(playlistManager.playlistStates)
    {
      ghost var states := streamStates;
      DripForBrand(brand);
      ghost var promoted := streamStates[brand];
      RefillForBrand(brand, id);
      UpdateTwice(states, brand, promoted, streamStates[brand]);
    }

    /** The refill half of feedSegmentsForBrand: below the threshold, the
        supplier's next fragment is turned into pending slots. */
    method RefillForBrand(brand: string, id: Uuid)
      requires Valid() && brand in streamStates
      modifies this, playlistManager
      ensures Valid()
      ensures streamStates.Keys == old(streamStates).Keys && timerSubscriptions == old(timerSubscriptions)
      ensures playlistManager.lastStarvingFeedTime == old(playlistManager.lastStarvingFeedTime)
      ensures var f := RefillStep(old(streamStates)[brand], old(playlistManager.StateOf(brand)),
                                  playlistManager.waitingAudioProvider.CurrentWaitingFragment(), id,
                                  old(currentSequence), segmentDuration);
        && streamStates == old(streamStates)[brand := f.stream]
        && currentSequence == f.counter
        && playlistManager.playlistStates ==
             if f.queues.Some? then old(playlistManager.playlistStates)[brand := f.queues.value]
             else old(playlistManager.playlistStates)
    {
      if |streamStates[brand].pendingQueue| < PENDING_QUEUE_REFILL_THRESHOLD {
        var audioFiles := playlistManager.GetNextAudioFiles(brand, id);
        if audioFiles != [] {
          CreateSegmentsFromAudioFiles(brand, audioFiles);
        } else {
          assert Refill(streamStates[brand], audioFiles, currentSequence, segmentDuration) == streamStates[brand];
        }
      }
    }

    /** The drip loop of feedSegmentsForBrand applied to one brand. */
    method DripForBrand(brand: string)
      requires Valid() && brand in streamStates
      modifies this
      ensures Valid()
      ensures old(streamStates)[brand].pendingQueue != [] ==> old(streamStates)[brand].pendingQueue[0] != map[]
      ensures streamStates == old(streamStates)[brand := Promote(old(streamStates)[brand], maxVisibleSegments)]
      ensures streamStates.Keys == old(streamStates).Keys
      ensures currentSequence == old(currentSequence) && timerSubscriptions == old(timerSubscriptions)
    {
      var st := streamStates[brand];
      DrippableQueue(st, currentSequence, maxVisibleSegments);
      PromoteSpec(st, currentSequence, maxVisibleSegments);
      var promoted := Drip(st, maxVisibleSegments);
      Store(brand, promoted, currentSequence);
    }

    /** Writes one brand's state back together with the advanced counter. */
    method Store(brand: string, state: StreamState, counter: int)
      requires Valid()
      requires StreamInvariant(state, counter, maxVisibleSegments) && currentSequence <= counter
      modifies this
      ensures Valid()
      ensures streamStates == old(streamStates)[brand := state] && currentSequence == counter
      ensures streamStates.Keys == old(streamStates).Keys + {brand}
      ensures timerSubscriptions == old(timerSubscriptions)
    {
      forall b | b in streamStates
        ensures StreamInvariant(streamStates[b], counter, maxVisibleSegments)
      {
        InvariantMonotone(streamStates[b], currentSequence, counter, maxVisibleSegments);
      }
      streamStates := streamStates[brand := state];
      currentSequence := counter;
    }

    /** feedSegments: every brand in turn, in the map's iteration order, which
        is not modelled (the supplier ids are chosen per brand). Each brand
        is fed exactly once: its window and its supplier state are those of
        one FeedStep from its state before the call, taken at the counter
        value `fedAt` records for it; brands without a stream keep their
        supplier state. */
    method FeedSegments(ids: string -> Uuid) returns (ghost fedAt: map<string, int>)
      requires Valid()
      modifies this, playlistManager
      ensures Valid()
      ensures streamStates.Keys == old(streamStates).Keys && timerSubscriptions == old(timerSubscriptions)
      ensures fedAt.Keys == old(streamStates).Keys
      ensures forall b :: b in fedAt ==> old(currentSequence) <= fedAt[b] <= currentSequence
      ensures FedBrands(old(streamStates), old(playlistManager.playlistStates),
                        playlistManager.waitingAudioProvider.CurrentWaitingFragment(), ids, fedAt,
                        segmentDuration, maxVisibleSegments, streamStates, playlistManager.playlistStates)
      ensures forall b :: b !in old(streamStates) ==>
        QueueOf(playlistManager.playlistStates, b) == QueueOf(old(playlistManager.playlistStates), b)
    {
      ghost var before := streamStates;
      ghost var c0 := currentSequence;
      ghost var queuesBefore := playlistManager.playlistStates;
      ghost var waiting := playlistManager.waitingAudioProvider.CurrentWaitingFragment();
      fedAt := map[];
      var pending := streamStates.Keys;
      while pending != {}
        invariant Valid()
        invariant pending <= streamStates.Keys == before.Keys
        invariant timerSubscriptions == old(timerSubscriptions)
        invariant currentSequence >= old(currentSequence)
        invariant waiting == playlistManager.waitingAudioProvider.CurrentWaitingFragment()
        invariant forall b :: b in fedAt <==> b in before && b !in pending
        invariant forall b :: b in fedAt ==> c0 <= fedAt[b] <= currentSequence
        invariant forall b :: b in pending ==> streamStates[b] == before[b]
        invariant forall b :: b !in fedAt ==>
          QueueOf(playlistManager.playlistStates, b) == QueueOf(queuesBefore, b)
        invariant FedBrands(before, queuesBefore, waiting, ids, fedAt, segmentDuration, maxVisibleSegments,
                            streamStates, playlistManager.playlistStates)
        decreases |pending|
      {
        var b := PickKey(pending);
        var counter := currentSequence;
        FeedTurn(b, ids, before, queuesBefore, waiting, fedAt);
        fedAt := fedAt[b := counter];
        pending := pending - {b};
      }
    }

    /** One turn of the feedSegments loop: feeds a brand not fed yet and adds
        it, with the counter of that moment, to the brands FedBrands covers. */
    method FeedTurn(brand: string, ids: string -> Uuid, ghost before: map<string, StreamState>,
                    ghost queuesBefore: map<string, PlaylistState>, ghost waiting: Option<LiveSoundFragment>,
                    ghost fedAt: map<string, int>)
      requires Valid() && brand in streamStates && brand in before && brand !in fedAt
      requires waiting == playlistManager.waitingAudioProvider.CurrentWaitingFragment()
      requires streamStates[brand] == before[brand]
      requires QueueOf(playlistManager.playlistStates, brand) == QueueOf(queuesBefore, brand)
      requires FedBrands(before, queuesBefore, waiting, ids, fedAt, segmentDuration, maxVisibleSegments,
                         streamStates, playlistManager.playlistStates)
      modifies this, playlistManager
      ensures Valid()
      ensures streamStates.Keys == old(streamStates).Keys && timerSubscriptions == old(timerSubscriptions)
      ensures currentSequence >= old(currentSequence)
      ensures forall c :: c != brand && c in streamStates ==> streamStates[c] == old(streamStates)[c]
      ensures forall c :: c != brand ==>
        QueueOf(playlistManager.playlistStates, c) == QueueOf(old(playlistManager.playlistStates), c)
      ensures FedBrands(before, queuesBefore, waiting, ids, fedAt[brand := old(currentSequence)],
                        segmentDuration, maxVisibleSegments, streamStates, playlistManager.playlistStates)
    {
      ghost var states := streamStates;
      ghost var queues := playlistManager.playlistStates;
      var counter := currentSequence;
      FeedOne(brand, ids(brand));
      FedBrandsStep(before, queuesBefore, waiting, ids, fedAt, segmentDuration, maxVisibleSegments,
                    states, queues, brand, counter, streamStates, playlistManager.playlistStates);
    }

    /** One brand's turn in feedSegments, stated through FedFrom: only that
        brand's window and supplier state change. */
    method FeedOne(brand: string, id: Uuid)
      requires Valid() && brand in streamStates
      modifies this, playlistManager
      ensures Valid()
      ensures streamStates.Keys == old(streamStates).Keys && timerSubscriptions == old(timerSubscriptions)
      ensures currentSequence >= old(currentSequence)
      ensures forall c :: c != brand && c in streamStates ==> streamStates[c] == old(streamStates)[c]
      ensures forall c :: c != brand ==>
        QueueOf(playlistManager.playlistStates, c) == QueueOf(old(playlistManager.playlistStates), c)
      ensures FedFrom(old(streamStates)[brand], QueueOf(old(playlistManager.playlistStates), brand),
                      playlistManager.waitingAudioProvider.CurrentWaitingFragment(), id, old(currentSequence),
                      segmentDuration, maxVisibleSegments,
                      streamStates[brand], QueueOf(playlistManager.playlistStates, brand))
    {
      FeedSegmentsForBrand(brand, id);
    }

    /** slideWindowForBrand. */
    method SlideWindowForBrand(brand: string)
      requires Valid() && brand in streamStates
      modifies this
      ensures Valid()
      ensures streamStates == old(streamStates)[brand := old(streamStates)[brand].(liveSegments := Slide(old(streamStates)[brand].liveSegments, maxVisibleSegments))]
      ensures currentSequence == old(currentSequence) && timerSubscriptions == old(timerSubscriptions)
    {
      var st := streamStates[brand];
      SlideKeepsInvariant(st, currentSequence, maxVisibleSegments);
      var live := SlideLoop(st.liveSegments, maxVisibleSegments);
      streamStates := streamStates[brand := st.(liveSegments := live)];
    }

    /** slideWindow: every brand's window slid back to the visible size. */
    method SlideWindow()
      requires Valid()
      modifies this
      ensures Valid()
      ensures streamStates == map b | b in old(streamStates) ::
        old(streamStates)[b].(liveSegments := Slide(old(streamStates)[b].liveSegments, maxVisibleSegments))
      ensures currentSequence == old(currentSequence) && timerSubscriptions == old(timerSubscriptions)
    {
      var next := SlideAll(streamStates, maxVisibleSegments);
      forall b | b in next
        ensures StreamInvariant(next[b], currentSequence, maxVisibleSegments)
      {
        SlideKeepsInvariant(streamStates[b], currentSequence, maxVisibleSegments);
      }
      streamStates := next;
    }

    /** initializeStream: a no-op for a brand already streaming; otherwise an
        empty state under the lower-cased key, the feeder clock set to the
        segment duration and its ticker created, and both subscriptions
        recorded under "<key>_feeder" and "<key>_slider". */
    method InitializeStream(brand: string, nowMillis: int)
      requires Valid()
      modifies this, segmentFeederTimer
      ensures Valid()
      ensures currentSequence == old(currentSequence)
      ensures Lower(brand) in old(streamStates) ==>
        && streamStates == old(streamStates) && timerSubscriptions == old(timerSubscriptions)
        && unchanged(segmentFeederTimer)
      ensures Lower(brand) !in old(streamStates) ==>
        && streamStates == old(streamStates)[Lower(brand) := EmptyStream]
        && timerSubscriptions == old(timerSubscriptions) + {Lower(brand) + "_feeder", Lower(brand) + "_slider"}
        && segmentFeederTimer.durationSec == segmentDuration
        && segmentFeederTimer.ticker.Some?
    {
      var brandKey := Lower(brand);
      if brandKey !in streamStates {
        streamStates := streamStates[brandKey := EmptyStream];
        segmentFeederTimer.SetDurationSec(segmentDuration);
        var ticker := segmentFeederTimer.GetTicker(nowMillis);
        timerSubscriptions := timerSubscriptions + {brandKey + "_feeder", brandKey + "_slider"};
      }
    }

    /** shutdownStream: removes the brand's state and, if it had one, its two
        subscriptions; a no-op for a brand not streaming. */
    method ShutdownStream(brand: string)
      requires Valid()
      modifies this
      ensures Valid()
      ensures currentSequence == old(currentSequence)
      ensures streamStates == old(streamStates) - {Lower(brand)}
      ensures timerSubscriptions ==
        if Lower(brand) in old(streamStates)
        then old(timerSubscriptions) - {Lower(brand) + "_feeder", Lower(brand) + "_slider"}
        else old(timerSubscriptions)
    {
      var brandKey := Lower(brand);
      if brandKey in streamStates {
        streamStates := streamStates - {brandKey};
        timerSubscriptions := timerSubscriptions - {brandKey + "_feeder", brandKey + "_slider"};
      }
    }
  }
}
