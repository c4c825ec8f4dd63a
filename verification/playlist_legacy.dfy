/** The older supplier (streaming.PlaylistManager): the same queues as the
    service one, but refilled only with synthetic placeholders, and a
    starving station gets nothing at once; it triggers a cooldown-guarded
    feed of one placeholder and returns nothing. */
module LegacyPlaylist {
  import opened Common
  import opened HlsTypes
  import opened FragmentQueues

  /** The n placeholders a feed appends, the i-th minted with id ids(i). */
  function Placeholders(n: nat, ids: nat -> Uuid): (r: seq<LiveSoundFragment>)
    ensures |r| == n
  {
    seq(n, i requires 0 <= i => PlaceholderFragment(ids(i), "Placeholder Song", "Placeholder Artist"))
  }

  /** A starving station recovers on the next call: once the cooldown lets the
      one-placeholder feed through, the queue holds exactly that placeholder
      and the following dequeue hands it out and records it as processed. */
  lemma StarvationRecovery(st: PlaylistState, ids: nat -> Uuid)
    requires WellFormed(st)
    requires st.prioritizedQueue == [] && st.regularQueue == []
    ensures var p := PlaceholderFragment(ids(0), "Placeholder Song", "Placeholder Artist");
      && Fed(st, Placeholders(FeedQuantity(0, 1), ids)).regularQueue == [p]
      && Dequeue(Fed(st, Placeholders(FeedQuantity(0, 1), ids))) == Some(Dequeued(p, RecordProcessed(st, p)))
  {
    var p := PlaceholderFragment(ids(0), "Placeholder Song", "Placeholder Artist");
    assert Placeholders(1, ids) == [p];
    var fed := Fed(st, [p]);
    assert fed.regularQueue == [p];
    assert Poll([p], false) == Polled(p, []);
    assert fed.(regularQueue := []) == st;
  }

  class PlaylistManager {
    var playlistStates: map<string, PlaylistState>
    var lastStarvingFeedTime: int

    ghost predicate Valid()
      reads this
    {
      forall b :: b in playlistStates ==> WellFormed(playlistStates[b])
    }

    function StateOf(brand: string): PlaylistState
      reads this
    {
      if brand in playlistStates then playlistStates[brand] else EmptyState
    }

    constructor ()
      ensures Valid() && playlistStates == map[] && lastStarvingFeedTime == 0
    {
      playlistStates := map[];
      lastStarvingFeedTime := 0;
    }

    /** The creation loop of feedFragments: n placeholders, in order. */
    static method MakePlaceholders(n: int, ids: nat -> Uuid) returns (fillers: seq<LiveSoundFragment>)
      ensures fillers == Placeholders(Max(0, n), ids)
    {
      fillers := [];
      var i := 0;
      while i < n
        invariant 0 <= i <= Max(0, n)
        invariant fillers == Placeholders(i, ids)
      {
        var fragment := BuildPlaceholderFragment(ids(i), "Placeholder Song", "Placeholder Artist");
        fillers := fillers + [fragment];
        i := i + 1;
      }
    }

    /** feedFragments, as in the service supplier but always with placeholders. */
    method FeedFragments(brand: string, maxQuantity: int, useCooldown: bool, now: int, ids: nat -> Uuid)
      requires Valid()
      modifies this
      ensures Valid()
      ensures brand !in old(playlistStates) || (useCooldown && CooldownActive(now, old(lastStarvingFeedTime))) ==>
        playlistStates == old(playlistStates) && lastStarvingFeedTime == old(lastStarvingFeedTime)
      ensures brand in old(playlistStates) && !(useCooldown && CooldownActive(now, old(lastStarvingFeedTime))) ==>
        var st := old(playlistStates)[brand];
        && lastStarvingFeedTime == (if useCooldown then now else old(lastStarvingFeedTime))
        && playlistStates == old(playlistStates)[brand := Fed(st, Placeholders(FeedQuantity(|st.regularQueue|, maxQuantity), ids))]
    {
      if brand !in playlistStates {
        return;
      }
      var st := playlistStates[brand];
      if useCooldown {
        if now - lastStarvingFeedTime < STARVING_FEED_COOLDOWN_MILLIS {
          return;
        }
        lastStarvingFeedTime := now;
      }
      var remaining := Max(0, REGULAR_BUFFER_MAX - |st.regularQueue|);
      if remaining == 0 {
        assert Fed(st, []) == st;
        return;
      }
      var quantityToFetch := Min(remaining, maxQuantity);
      var fillers := MakePlaceholders(quantityToFetch, ids);
      FedKeepsWellFormed(st, maxQuantity, fillers);
      playlistStates := playlistStates[brand := Fed(st, fillers)];
    }

    /** getNextFragment: a queued fragment if there is one; with both queues
        empty, a feed of one placeholder under the starvation cooldown, and no
        fragment. */
    method GetNextFragment(brand: string, now: int, ids: nat -> Uuid) returns (r: Option<LiveSoundFragment>)
      requires Valid()
      modifies this
      ensures Valid()
      ensures brand !in old(playlistStates) ==>
        r.None? && playlistStates == old(playlistStates) && lastStarvingFeedTime == old(lastStarvingFeedTime)
      ensures brand in old(playlistStates) && Dequeue(old(playlistStates)[brand]).Some? ==>
        var d := Dequeue(old(playlistStates)[brand]).value;
        && r == Some(d.fragment)
        && playlistStates == old(playlistStates)[brand := d.state]
        && lastStarvingFeedTime == old(lastStarvingFeedTime)
      ensures brand in old(playlistStates) && Dequeue(old(playlistStates)[brand]).None? ==>
        var st := old(playlistStates)[brand];
        && r.None?
        && (if CooldownActive(now, old(lastStarvingFeedTime))
            then playlistStates == old(playlistStates) && lastStarvingFeedTime == old(lastStarvingFeedTime)
            else playlistStates == old(playlistStates)[brand := Fed(st, Placeholders(1, ids))]
                 && lastStarvingFeedTime == now)
    {
      if brand !in playlistStates {
        return None;
      }
      var st := playlistStates[brand];
      DequeueSpec(st);
      if st.prioritizedQueue != [] {
        var p := Poll(st.prioritizedQueue, true);
        var next := MoveToProcessed(st.(prioritizedQueue := p.rest), p.head);
        playlistStates := playlistStates[brand := next];
        return Some(p.head);
      }
      if st.regularQueue != [] {
        var p := Poll(st.regularQueue, false);
        var next := MoveToProcessed(st.(regularQueue := p.rest), p.head);
        playlistStates := playlistStates[brand := next];
        return Some(p.head);
      }
      FeedFragments(brand, 1, true, now, ids);
      r := None;
    }

    /** getNextAudioFiles: creates the brand's state if missing, then the audio
        files of the next fragment, or none when the station is starving. */
    method GetNextAudioFiles(brand: string, now: int, ids: nat -> Uuid) returns (files: seq<AudioFile>)
      requires Valid()
      modifies this
      ensures Valid()
      ensures var st := old(StateOf(brand));
        match Dequeue(st)
        case Some(d) => files == AudioFilesOf(d.fragment) && playlistStates == old(playlistStates)[brand := d.state]
        case None =>
          && files == []
          && playlistStates == old(playlistStates)[brand :=
               if CooldownActive(now, old(lastStarvingFeedTime)) then st else Fed(st, Placeholders(1, ids))]
    {
      if brand !in playlistStates {
        playlistStates := playlistStates[brand := EmptyState];
      }
      var fragment := GetNextFragment(brand, now, ids);
      if fragment.None? {
        return [];
      }
      files := ConvertToAudioFiles(fragment.value);
    }

    /** addFragment. */
    method AddFragment(brand: string, fragment: LiveSoundFragment, priority: int) returns (accepted: bool)
      requires Valid()
      modifies this
      ensures Valid()
      ensures lastStarvingFeedTime == old(lastStarvingFeedTime)
      ensures var a := Admit(old(StateOf(brand)), fragment, priority);
        accepted == a.accepted && playlistStates == old(playlistStates)[brand := a.state]
    {
      var st := StateOf(brand);
      AdmitSpec(st, fragment, priority);
      var a := Admit(st, fragment, priority);
      playlistStates := playlistStates[brand := a.state];
      accepted := a.accepted;
    }

    /** initializeBrand: creates the state if missing, and nothing more. */
    method InitializeBrand(brand: string)
      requires Valid()
      modifies this
      ensures Valid()
      ensures lastStarvingFeedTime == old(lastStarvingFeedTime)
      ensures playlistStates == old(playlistStates)[brand := old(StateOf(brand))]
    {
      playlistStates := playlistStates[brand := StateOf(brand)];
    }

    method ShutdownBrand(brand: string)
      requires Valid()
      modifies this
      ensures Valid()
      ensures playlistStates == old(playlistStates) - {brand}
      ensures lastStarvingFeedTime == old(lastStarvingFeedTime)
    {
      playlistStates := playlistStates - {brand};
    }

    method Shutdown()
      modifies this
      ensures Valid() && playlistStates == map[]
      ensures lastStarvingFeedTime == old(lastStarvingFeedTime)
    {
      playlistStates := map[];
    }

    /** One brand's share of the maintenance tick. */
    static function TickState(st: PlaylistState, quantity: int, ids: nat -> Uuid): PlaylistState {
      if |st.regularQueue| <= TRIGGER_SELF_MANAGING then
        Fed(st, Placeholders(FeedQuantity(|st.regularQueue|, quantity), ids))
      else st
    }

    static method TickAll(states: map<string, PlaylistState>, pickOne: string -> bool, ids: string -> nat -> Uuid)
      returns (next: map<string, PlaylistState>)
      ensures next.Keys == states.Keys
      ensures forall b :: b in states ==> next[b] == TickState(states[b], if pickOne(b) then 1 else 2, ids(b))
    {
      next := states;
      var pending := states.Keys;
      while pending != {}
        invariant pending <= states.Keys
        invariant next.Keys == states.Keys
        invariant forall b :: b in states ==>
          next[b] == if b in pending then states[b] else TickState(states[b], if pickOne(b) then 1 else 2, ids(b))
        decreases |pending|
      {
        var b := PickKey(pending);
        var st := states[b];
        var updated := st;
        if |st.regularQueue| <= TRIGGER_SELF_MANAGING {
          var quantity := if pickOne(b) then 1 else 2;
          var fillers := MakePlaceholders(FeedQuantity(|st.regularQueue|, quantity), ids(b));
          updated := Fed(st, fillers);
        }
        next := next[b := updated];
        pending := pending - {b};
      }
    }

    /** The maintenance tick of the constructor's scheduler. */
    method MaintenanceTick(pickOne: string -> bool, ids: string -> nat -> Uuid)
      requires Valid()
      modifies this
      ensures Valid()
      ensures lastStarvingFeedTime == old(lastStarvingFeedTime)
      ensures playlistStates.Keys == old(playlistStates).Keys
      ensures forall b :: b in playlistStates ==>
        playlistStates[b] == TickState(old(playlistStates)[b], if pickOne(b) then 1 else 2, ids(b))
    {
      var next := TickAll(playlistStates, pickOne, ids);
      forall b | b in next
        ensures WellFormed(next[b])
      {
        var st := playlistStates[b];
        var q := if pickOne(b) then 1 else 2;
        FedKeepsWellFormed(st, q, Placeholders(FeedQuantity(|st.regularQueue|, q), ids(b)));
      }
      playlistStates := next;
    }
  }
}
