/** The playlist supplier the stream engine pulls from
    (service.playlist.PlaylistManager): per-brand fragment queues, refilled
    with the waiting jingle or synthetic placeholders, never leaving a
    caller empty-handed. Fresh UUIDs, the clock and the coin the maintenance
    tick flips are parameters. */
module ServicePlaylist {
  import opened Common
  import opened HlsTypes
  import opened FragmentQueues
  import opened WaitingAudio

  /** createPlaceholderFragmentSync: the waiting jingle when it is available,
      else a synthetic "Placeholder Song" fragment under a fresh id. */
  function SyncFiller(waiting: Option<LiveSoundFragment>, id: Uuid): LiveSoundFragment {
    match waiting
    case Some(w) => w
    case None => PlaceholderFragment(id, "Placeholder Song", "Placeholder Artist")
  }

  /** The n fragments a feed appends, the i-th minted with id ids(i). */
  function Fillers(n: nat, waiting: Option<LiveSoundFragment>, ids: nat -> Uuid): (r: seq<LiveSoundFragment>)
    ensures |r| == n
  {
    seq(n, i requires 0 <= i => SyncFiller(waiting, ids(i)))
  }

  /** What getNextFragment returns when both queues are empty: the waiting
      jingle, else a synthetic "Loading..." fragment. */
  function EmergencyFragment(waiting: Option<LiveSoundFragment>, id: Uuid): LiveSoundFragment {
    match waiting
    case Some(w) => w
    case None => PlaceholderFragment(id, "Loading...", "Station")
  }

  /** getNextFragment on an existing state: a queued fragment if there is one,
      otherwise the emergency fragment with the state left as it was. */
  function Next(st: PlaylistState, waiting: Option<LiveSoundFragment>, id: Uuid): Dequeued {
    match Dequeue(st)
    case Some(d) => d
    case None => Dequeued(EmergencyFragment(waiting, id), st)
  }

  /** One brand's share of the maintenance tick: a feed of the drawn quantity
      when the regular queue is at or under the trigger. */
  function TickState(st: PlaylistState, quantity: int, waiting: Option<LiveSoundFragment>, ids: nat -> Uuid): PlaylistState {
    if |st.regularQueue| <= TRIGGER_SELF_MANAGING then
      Fed(st, Fillers(FeedQuantity(|st.regularQueue|, quantity), waiting, ids))
    else st
  }

  /** The state initializeBrand leaves a brand in: an idle brand (both
      queues empty) is fed up to the buffer cap, any other is left alone. */
  function InitialState(st: PlaylistState, waiting: Option<LiveSoundFragment>, ids: nat -> Uuid): PlaylistState {
    if st.regularQueue == [] && st.prioritizedQueue == [] then Fed(st, Fillers(REGULAR_BUFFER_MAX, waiting, ids))
    else st
  }

  /** initializeBrand never leaves a brand idle: an idle brand gets exactly
      the buffer's worth of fillers, a busy one is untouched, and either way
      the state stays well formed. */
  lemma InitialStateSpec(st: PlaylistState, waiting: Option<LiveSoundFragment>, ids: nat -> Uuid)
    requires WellFormed(st)
    ensures WellFormed(InitialState(st, waiting, ids))
    ensures InitialState(st, waiting, ids).prioritizedQueue != [] || InitialState(st, waiting, ids).regularQueue != []
    ensures st.regularQueue == [] && st.prioritizedQueue == [] ==>
      InitialState(st, waiting, ids) == st.(regularQueue := Fillers(REGULAR_BUFFER_MAX, waiting, ids))
    ensures st.regularQueue != [] || st.prioritizedQueue != [] ==> InitialState(st, waiting, ids) == st
  {
    if st.regularQueue == [] && st.prioritizedQueue == [] {
      FedKeepsWellFormed(st, REGULAR_BUFFER_MAX, Fillers(REGULAR_BUFFER_MAX, waiting, ids));
    }
  }

  /** The supplier never fails: with both queues empty it hands out the jingle
      or an emergency placeholder and leaves the state alone; otherwise it
      takes from the queues as Dequeue does. Both branches keep the state
      well formed. */
  lemma NextSpec(st: PlaylistState, waiting: Option<LiveSoundFragment>, id: Uuid)
    requires WellFormed(st)
    ensures WellFormed(Next(st, waiting, id).state)
    ensures st.prioritizedQueue == [] && st.regularQueue == [] ==>
      && Next(st, waiting, id).state == st
      && Next(st, waiting, id).fragment == (if waiting.Some? then waiting.value else PlaceholderFragment(id, "Loading...", "Station"))
    ensures st.prioritizedQueue != [] || st.regularQueue != [] ==>
      Next(st, waiting, id) == Dequeue(st).value
  {
    DequeueSpec(st);
  }

  /** Without the jingle, an empty station still gets three 1024-byte "mp3"
      files of the emergency fragment, all tagged with its fresh id. */
  lemma EmergencyAudioFiles(id: Uuid)
    ensures AudioFilesOf(PlaceholderFragment(id, "Loading...", "Station"))
         == seq(3, _ => AudioFile(seq(1024, _ => 0), "mp3", id))
  {
    var f := PlaceholderFragment(id, "Loading...", "Station");
    var top := MaxKey(f.segments.Keys);
    assert top == DEFAULT_BITRATE by {
      assert DEFAULT_BITRATE in f.segments.Keys;
      assert top in {DEFAULT_BITRATE, HALF_BITRATE};
    }
  }

  /** A tick feeds every existing brand up to the buffer cap and keeps it well formed. */
  lemma TickStateSpec(st: PlaylistState, quantity: int, waiting: Option<LiveSoundFragment>, ids: nat -> Uuid)
    requires WellFormed(st)
    requires quantity == 1 || quantity == 2
    ensures WellFormed(TickState(st, quantity, waiting, ids))
    ensures TickState(st, quantity, waiting, ids).prioritizedQueue == st.prioritizedQueue
    ensures |TickState(st, quantity, waiting, ids).regularQueue| == Min(REGULAR_BUFFER_MAX, |st.regularQueue| + quantity)
  {
    FedKeepsWellFormed(st, quantity, Fillers(FeedQuantity(|st.regularQueue|, quantity), waiting, ids));
  }

  class PlaylistManager {
    var playlistStates: map<string, PlaylistState>
    var lastStarvingFeedTime: int
    const waitingAudioProvider: WaitingAudioProvider

    ghost predicate Valid()
      reads this
    {
      forall b :: b in playlistStates ==> WellFormed(playlistStates[b])
    }

    /** The state a brand has, or the fresh one computeIfAbsent would create. */
    function StateOf(brand: string): PlaylistState
      reads this
    {
      if brand in playlistStates then playlistStates[brand] else EmptyState
    }

    /** The constructor initializes the waiting provider (its outcome is the
        parameters of WaitingAudioProvider.Initialize) and starts with no brands. */
    constructor (provider: WaitingAudioProvider, resourceFound: bool, newId: Uuid,
                 sliced: Option<map<int, seq<HlsSegment>>>)
      requires provider.Valid()
      modifies provider
      ensures provider.Valid()
      ensures Valid() && playlistStates == map[] && lastStarvingFeedTime == 0
      ensures waitingAudioProvider == provider
      ensures provider.IsWaitingAudioAvailable() <==>
        old(provider.IsWaitingAudioAvailable()) || (resourceFound && sliced.Some? && sliced.value != map[])
    {
      waitingAudioProvider := provider;
      playlistStates := map[];
      lastStarvingFeedTime := 0;
      new;
      provider.Initialize(resourceFound, newId, sliced);
    }

    /** createPlaceholderFragmentSync. */
    method CreatePlaceholderFragmentSync(id: Uuid) returns (f: LiveSoundFragment)
      ensures f == SyncFiller(waitingAudioProvider.CurrentWaitingFragment(), id)
    {
      if waitingAudioProvider.IsWaitingAudioAvailable() {
        var w := waitingAudioProvider.CreateWaitingFragment();
        f := w.value;
      } else {
        f := BuildPlaceholderFragment(id, "Placeholder Song", "Placeholder Artist");
      }
    }

    /** The creation loop of feedFragments: n fillers, in order. */
    method MakeFillers(n: int, ids: nat -> Uuid) returns (fillers: seq<LiveSoundFragment>)
      ensures fillers == Fillers(Max(0, n), waitingAudioProvider.CurrentWaitingFragment(), ids)
    {
      fillers := [];
      var i := 0;
      while i < n
        invariant 0 <= i <= Max(0, n)
        invariant fillers == Fillers(i, waitingAudioProvider.CurrentWaitingFragment(), ids)
      {
        var fragment := CreatePlaceholderFragmentSync(ids(i));
        fillers := fillers + [fragment];
        i := i + 1;
      }
    }

    /** feedFragments: nothing for an unknown brand or while the starvation
        cooldown runs (a cooldown feed that goes ahead stamps the time);
        otherwise the regular queue is topped up toward REGULAR_BUFFER_MAX,
        at most maxQuantity fragments at a time. */
    method FeedFragments(brand: string, maxQuantity: int, useCooldown: bool, now: int, ids: nat -> Uuid)
      requires Valid()
      modifies this
      ensures Valid()
      ensures brand !in old(playlistStates) || (useCooldown && CooldownActive(now, old(lastStarvingFeedTime))) ==>
        playlistStates == old(playlistStates) && lastStarvingFeedTime == old(lastStarvingFeedTime)
      ensures brand in old(playlistStates) && !(useCooldown && CooldownActive(now, old(lastStarvingFeedTime))) ==>
        var st := old(playlistStates)[brand];
        && lastStarvingFeedTime == (if useCooldown then now else old(lastStarvingFeedTime))
        && playlistStates == old(playlistStates)[brand := Fed(st, Fillers(FeedQuantity(|st.regularQueue|, maxQuantity),
                                                                         waitingAudioProvider.CurrentWaitingFragment(), ids))]
    {
      if brand !in playlistStates {
        return;
      }
      var st := playlistStates[brand];
      if useCooldown {
        if now - lastStarvingFeedTime < STARVING_FEED_COOLDOWN_MILLIS {
          return;
        }
        lastStarvingFeedTime := now;
      }
      var remaining := Max(0, REGULAR_BUFFER_MAX - |st.regularQueue|);
      if remaining == 0 {
        assert Fed(st, []) == st;
        return;
      }
      var quantityToFetch := Min(remaining, maxQuantity);
      var fillers := MakeFillers(quantityToFetch, ids);
      FedKeepsWellFormed(st, maxQuantity, fillers);
      playlistStates := playlistStates[brand := Fed(st, fillers)];
    }

    /** getNextFragment. */
    method GetNextFragment(brand: string, id: Uuid) returns (r: Option<LiveSoundFragment>)
      requires Valid()
      modifies this
      ensures Valid()
      ensures lastStarvingFeedTime == old(lastStarvingFeedTime)
      ensures brand !in old(playlistStates) ==> r.None? && playlistStates == old(playlistStates)
      ensures brand in old(playlistStates) ==>
        var n := Next(old(playlistStates)[brand], waitingAudioProvider.CurrentWaitingFragment(), id);
        r == Some(n.fragment) && playlistStates == old(playlistStates)[brand := n.state]
    {
      if brand !in playlistStates {
        return None;
      }
      var st := playlistStates[brand];
      DequeueSpec(st);
      if st.prioritizedQueue != [] {
        var p := Poll(st.prioritizedQueue, true);
        var next := MoveToProcessed(st.(prioritizedQueue := p.rest), p.head);
        playlistStates := playlistStates[brand := next];
        return Some(p.head);
      }
      if st.regularQueue != [] {
        var p := Poll(st.regularQueue, false);
        var next := MoveToProcessed(st.(regularQueue := p.rest), p.head);
        playlistStates := playlistStates[brand := next];
        return Some(p.head);
      }
      if waitingAudioProvider.IsWaitingAudioAvailable() {
        r := waitingAudioProvider.CreateWaitingFragment();
      } else {
        var f := BuildPlaceholderFragment(id, "Loading...", "Station");
        r := Some(f);
      }
    }

    /** getNextAudioFiles: creates the brand's state if missing, takes the next
        fragment and converts its top-bitrate segments to audio files. */
    method GetNextAudioFiles(brand: string, id: Uuid) returns (files: seq<AudioFile>)
      requires Valid()
      modifies this
      ensures Valid()
      ensures lastStarvingFeedTime == old(lastStarvingFeedTime)
      ensures var n := Next(old(StateOf(brand)), waitingAudioProvider.CurrentWaitingFragment(), id);
        files == AudioFilesOf(n.fragment) && playlistStates == old(playlistStates)[brand := n.state]
    {
      if brand !in playlistStates {
        playlistStates := playlistStates[brand := EmptyState];
      }
      var fragment := GetNextFragment(brand, id);
      files := ConvertToAudioFiles(fragment.value);
    }

    /** addFragment. */
    method AddFragment(brand: string, fragment: LiveSoundFragment, priority: int) returns (accepted: bool)
      requires Valid()
      modifies this
      ensures Valid()
      ensures lastStarvingFeedTime == old(lastStarvingFeedTime)
      ensures var a := Admit(old(StateOf(brand)), fragment, priority);
        accepted == a.accepted && playlistStates == old(playlistStates)[brand := a.state]
    {
      var st := StateOf(brand);
      AdmitSpec(st, fragment, priority);
      var a := Admit(st, fragment, priority);
      playlistStates := playlistStates[brand := a.state];
      accepted := a.accepted;
    }

    /** initializeBrand: creates the state if missing and, when both of its
        queues are empty, feeds it up to the buffer cap without cooldown. */
    method InitializeBrand(brand: string, ids: nat -> Uuid)
      requires Valid()
      modifies this
      ensures Valid()
      ensures lastStarvingFeedTime == old(lastStarvingFeedTime)
      ensures playlistStates ==
        old(playlistStates)[brand := InitialState(old(StateOf(brand)), waitingAudioProvider.CurrentWaitingFragment(), ids)]
    {
      var st := StateOf(brand);
      playlistStates := playlistStates[brand := st];
      if st.regularQueue == [] && st.prioritizedQueue == [] {
        FeedFragments(brand, REGULAR_BUFFER_MAX, false, 0, ids);
      }
    }

    /** shutdownBrand. */
    method ShutdownBrand(brand: string)
      requires Valid()
      modifies this
      ensures Valid()
      ensures playlistStates == old(playlistStates) - {brand}
      ensures lastStarvingFeedTime == old(lastStarvingFeedTime)
    {
      playlistStates := playlistStates - {brand};
    }

    /** shutdown. */
    method Shutdown()
      modifies this
      ensures Valid() && playlistStates == map[]
      ensures lastStarvingFeedTime == old(lastStarvingFeedTime)
    {
      playlistStates := map[];
    }

    /** The tick over all brands, computed without touching the state. */
    method TickAll(states: map<string, PlaylistState>, pickOne: string -> bool, ids: string -> nat -> Uuid)
      returns (next: map<string, PlaylistState>)
      ensures next.Keys == states.Keys
      ensures forall b :: b in states ==>
        next[b] == TickState(states[b], if pickOne(b) then 1 else 2, waitingAudioProvider.CurrentWaitingFragment(), ids(b))
    {
      next := states;
      var pending := states.Keys;
      while pending != {}
        invariant pending <= states.Keys
        invariant next.Keys == states.Keys
        invariant forall b :: b in states ==>
          next[b] == if b in pending then states[b]
                     else TickState(states[b], if pickOne(b) then 1 else 2, waitingAudioProvider.CurrentWaitingFragment(), ids(b))
        decreases |pending|
      {
        var b := PickKey(pending);
        var st := states[b];
        var updated := st;
        if |st.regularQueue| <= TRIGGER_SELF_MANAGING {
          var quantity := if pickOne(b) then 1 else 2;
          var fillers := MakeFillers(FeedQuantity(|st.regularQueue|, quantity), ids(b));
          updated := Fed(st, fillers);
        }
        next := next[b := updated];
        pending := pending - {b};
      }
    }

    /** The maintenance tick of the constructor's scheduler: every brand whose
        regular queue is at or under TRIGGER_SELF_MANAGING gets a feed of 1 or
        2 fragments (the coin pickOne(b) decides), without cooldown. */
    method MaintenanceTick(pickOne: string -> bool, ids: string -> nat -> Uuid)
      requires Valid()
      modifies this
      ensures Valid()
      ensures lastStarvingFeedTime == old(lastStarvingFeedTime)
      ensures playlistStates.Keys == old(playlistStates).Keys
      ensures forall b :: b in playlistStates ==>
        playlistStates[b] == TickState(old(playlistStates)[b], if pickOne(b) then 1 else 2,
                                       waitingAudioProvider.CurrentWaitingFragment(), ids(b))
    {
      var next := TickAll(playlistStates, pickOne, ids);
      forall b | b in next
        ensures WellFormed(next[b])
      {
        TickStateSpec(playlistStates[b], if pickOne(b) then 1 else 2, waitingAudioProvider.CurrentWaitingFragment(), ids(b));
      }
      playlistStates := next;
    }
  }
}
