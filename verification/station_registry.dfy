/** The station registry (RadioStationPool) and its entries
    (RadioStationBundle): one bundle per raw brand name, each pairing a
    stream engine with the playlist supplier it pulls from. The registry is
    a map of bundle objects; each operation is one atomic step. */
module StationRegistry {
  import opened Common
  import opened HlsTypes
  import opened FragmentQueues
  import opened WaitingAudio
  import opened ServicePlaylist
  import opened FeederTimer
  import opened StreamWindow
  import opened Streaming

  /** What starting a station draws from outside the model: the wall clock,
      the fresh UUIDs of the supplier's fillers, and how the waiting audio
      provider's initialization turns out (see WaitingAudioProvider.Initialize). */
  datatype StationInputs = StationInputs(
    nowMillis: int,
    ids: nat -> Uuid,
    resourceFound: bool,
    newId: Uuid,
    sliced: Option<map<int, seq<HlsSegment>>>)

  class RadioStationBundle {
    const brand: string
    const streamManager: StreamManager
    const playlistManager: PlaylistManager
    const createdAt: int
    var active: bool

    /** Both managers are usable and the engine feeds from this bundle's
        own supplier. */
    ghost predicate Valid()
      reads streamManager, playlistManager
    {
      && streamManager.playlistManager == playlistManager
      && streamManager.Valid()
    }

    /** A new bundle is active and keeps its brand and managers for good. */
    constructor (brand: string, streamManager: StreamManager, playlistManager: PlaylistManager, nowMillis: int)
      ensures this.brand == brand && this.streamManager == streamManager && this.playlistManager == playlistManager
      ensures createdAt == nowMillis && active
    {
      this.brand := brand;
      this.streamManager := streamManager;
      this.playlistManager := playlistManager;
      createdAt := nowMillis;
      active := true;
    }

    /** shutdown: the bundle goes inactive, then the engine drops the brand's
        stream and the supplier drops its queues, both under the bundle's
        own brand. */
    method Shutdown()
      requires Valid()
      modifies this, streamManager, playlistManager
      ensures Valid() && !active
      ensures streamManager.streamStates == old(streamManager.streamStates) - {Lower(brand)}
      ensures streamManager.currentSequence == old(streamManager.currentSequence)
      ensures playlistManager.playlistStates == old(playlistManager.playlistStates) - {brand}
      ensures playlistManager.lastStarvingFeedTime == old(playlistManager.lastStarvingFeedTime)
    {
      active := false;
      streamManager.ShutdownStream(brand);
      playlistManager.ShutdownBrand(brand);
    }
  }

  class RadioStationPool {
    var pool: map<string, RadioStationBundle>
    const waitingAudioProvider: WaitingAudioProvider
    const segmentFeederTimer: SegmentFeederTimer
    const hlsConfig: HlsConfig

    ghost function Bundles(): set<RadioStationBundle>
      reads this
    {
      set b | b in pool :: pool[b]
    }

    ghost function Engines(): set<StreamManager>
      reads this
    {
      set b | b in pool :: pool[b].streamManager
    }

    ghost function Suppliers(): set<PlaylistManager>
      reads this
    {
      set b | b in pool :: pool[b].playlistManager
    }

    /** Every bundle sits under its own brand, is usable, shares the pool's
        waiting audio provider, and owns its two managers alone. */
    ghost predicate Owned()
      reads this, Engines(), Suppliers()
    {
      && (forall b :: b in pool ==> pool[b].brand == b)
      && (forall b :: b in pool ==> pool[b].playlistManager.waitingAudioProvider == waitingAudioProvider)
      && (forall b :: b in pool ==> pool[b].Valid())
      && (forall b, c :: b in pool && c in pool && b != c ==>
            pool[b].streamManager != pool[c].streamManager && pool[b].playlistManager != pool[c].playlistManager)
    }

    ghost predicate Valid()
      reads this, waitingAudioProvider, Engines(), Suppliers()
    {
      && waitingAudioProvider.Valid()
      && hlsConfig.segmentDuration > 0 && hlsConfig.maxVisibleSegments >= 0
      && Owned()
    }

    constructor (waitingAudioProvider: WaitingAudioProvider, segmentFeederTimer: SegmentFeederTimer, hlsConfig: HlsConfig)
      requires waitingAudioProvider.Valid()
      requires hlsConfig.segmentDuration > 0 && hlsConfig.maxVisibleSegments >= 0
      ensures Valid() && pool == map[]
      ensures this.waitingAudioProvider == waitingAudioProvider && this.segmentFeederTimer == segmentFeederTimer
      ensures this.hlsConfig == hlsConfig
    {
      this.waitingAudioProvider := waitingAudioProvider;
      this.segmentFeederTimer := segmentFeederTimer;
      this.hlsConfig := hlsConfig;
      pool := map[];
    }

    /** getStation: the bundle under that name, None for Java's null item. */
    function GetStation(brand: string): (r: Option<RadioStationBundle>)
      reads this
      ensures r.Some? <==> brand in pool
      ensures r.Some? ==> r.value == pool[brand]
    {
      if brand in pool then Some(pool[brand]) else None
    }

    predicate IsStationActive(brand: string)
      reads this, Bundles()
    {
      brand in pool && pool[brand].active
    }

    /** The names whose bundle is active. */
    ghost function ActiveNames(): set<string>
      reads this, Bundles()
    {
      set b | b in pool && pool[b].active
    }

    /** getActiveStationCount: the number of entries whose bundle is active. */
    function GetActiveStationCount(): nat
      reads this, Bundles()
    {
      |set b | b in pool && pool[b].active|
    }

    /** Every pooled bundle is active. */
    ghost predicate AllActive()
      reads this, Bundles()
    {
      forall b :: b in pool ==> pool[b].active
    }

    /** isStationActive picks out exactly the active names, the count is
        their number, at most the pool's size, and equal to it exactly when
        every pooled bundle is active. */
    lemma {:induction false} ActiveCountSpec()
      ensures forall b :: IsStationActive(b) <==> b in ActiveNames()
      ensures GetActiveStationCount() == |ActiveNames()| <= |pool|
      ensures GetActiveStationCount() == |pool| <==> AllActive()
    {
      SubsetCardinality(ActiveNames(), pool.Keys);
      if AllActive() {
        assert ActiveNames() == pool.Keys;
      } else {
        var b :| b in pool && !pool[b].active;
        assert b !in ActiveNames();
      }
    }

    /** initializeStation: an active bundle already pooled under the name is
        returned as it is. Otherwise the pooled bundle (even an inactive
        one) or, when there is none, a new one (supplier, then engine, whose
        stream is initialized under the name) is kept under the name, and
        its supplier initializes the brand. */
    method InitializeStation(brand: string, inputs: StationInputs) returns (r: RadioStationBundle)
      requires Valid()
      modifies this, waitingAudioProvider, segmentFeederTimer
      modifies if brand in pool then {pool[brand].playlistManager} else {}
      ensures Valid()
      ensures old(IsStationActive(brand)) ==> r == old(pool[brand]) && pool == old(pool)
      ensures !old(IsStationActive(brand)) ==> pool == old(pool)[brand := r]
      ensures brand in old(pool) && !old(pool[brand].active) ==>
        && r == old(pool[brand]) && !r.active
        && r.playlistManager.playlistStates ==
             old(pool[brand].playlistManager.playlistStates)[brand :=
               InitialState(old(pool[brand].playlistManager.StateOf(brand)), waitingAudioProvider.CurrentWaitingFragment(), inputs.ids)]
      ensures brand !in old(pool) ==>
        && fresh(r) && fresh(r.streamManager) && fresh(r.playlistManager) && r.active
        && r.streamManager.streamStates == map[Lower(brand) := EmptyStream]
        && r.playlistManager.playlistStates ==
             map[brand := InitialState(EmptyState, waitingAudioProvider.CurrentWaitingFragment(), inputs.ids)]
      ensures forall b :: b in old(pool) ==> pool[b] == old(pool[b])
    {
      if brand in pool && pool[brand].active {
        return pool[brand];
      }
      if brand !in pool {
        r := StartNewStation(brand, inputs);
      } else {
        r := pool[brand];
        InitializeSupplier(brand, inputs.ids);
      }
    }

    /** A name not pooled yet: a new bundle is pooled under it and its
        supplier initializes the brand. */
    method StartNewStation(brand: string, inputs: StationInputs) returns (r: RadioStationBundle)
      requires Valid() && brand !in pool
      modifies this, waitingAudioProvider, segmentFeederTimer
      ensures Valid() && pool == old(pool)[brand := r]
      ensures fresh(r) && fresh(r.streamManager) && fresh(r.playlistManager) && r.active
      ensures r.streamManager.streamStates == map[Lower(brand) := EmptyStream]
      ensures r.playlistManager.playlistStates ==
        map[brand := InitialState(EmptyState, waitingAudioProvider.CurrentWaitingFragment(), inputs.ids)]
    {
      r := CreateBundle(brand, inputs);
      AddBundle(r);
      InitializeSupplier(brand, inputs.ids);
    }

    /** The computeIfAbsent branch: a new supplier, an engine over it whose
        stream is initialized under the name, and the active bundle of both. */
    method CreateBundle(brand: string, inputs: StationInputs) returns (bundle: RadioStationBundle)
      requires Valid()
      modifies waitingAudioProvider, segmentFeederTimer
      ensures Valid()
      ensures fresh(bundle) && fresh(bundle.streamManager) && fresh(bundle.playlistManager)
      ensures bundle.brand == brand && bundle.active && bundle.Valid()
      ensures bundle.playlistManager.waitingAudioProvider == waitingAudioProvider
      ensures bundle.streamManager.streamStates == map[Lower(brand) := EmptyStream]
      ensures bundle.playlistManager.playlistStates == map[]
    {
      var playlistManager := new PlaylistManager(waitingAudioProvider, inputs.resourceFound, inputs.newId, inputs.sliced);
      var streamManager := new StreamManager(playlistManager, hlsConfig, segmentFeederTimer);
      streamManager.InitializeStream(brand, inputs.nowMillis);
      bundle := new RadioStationBundle(brand, streamManager, playlistManager, inputs.nowMillis);
    }

    /** Pools a bundle under its own brand, which was not pooled yet. */
    method AddBundle(bundle: RadioStationBundle)
      requires Valid() && bundle.brand !in pool && bundle.Valid()
      requires bundle.playlistManager.waitingAudioProvider == waitingAudioProvider
      requires bundle.streamManager !in Engines() && bundle.playlistManager !in Suppliers()
      modifies this
      ensures Valid() && pool == old(pool)[bundle.brand := bundle]
    {
      pool := pool[bundle.brand := bundle];
    }

    /** The supplier of the pooled bundle initializes the brand; the engines
        and the other bundles' suppliers are untouched. */
    method InitializeSupplier(brand: string, ids: nat -> Uuid)
      requires Valid() && brand in pool
      modifies pool[brand].playlistManager
      ensures Valid()
      ensures pool[brand].playlistManager.playlistStates ==
        old(pool[brand].playlistManager.playlistStates)[brand :=
          InitialState(old(pool[brand].playlistManager.StateOf(brand)), waitingAudioProvider.CurrentWaitingFragment(), ids)]
    {
      var bundle := pool[brand];
      bundle.playlistManager.InitializeBrand(brand, ids);
      bundle.streamManager.SupplierChangeKeepsValid();
      forall b | b in pool && b != brand
        ensures pool[b].Valid()
      {
        assert pool[b].playlistManager != bundle.playlistManager;
        assert old(pool[b].Valid());
      }
    }

    /** stopAndRemoveStation: the bundle comes out of the pool, is shut down
        and is returned; an absent name gives None and changes nothing, so a
        second stop is a no-op. */
    method StopAndRemoveStation(brand: string) returns (r: Option<RadioStationBundle>)
      requires Valid()
      modifies this
      modifies if brand in pool then {pool[brand], pool[brand].streamManager, pool[brand].playlistManager} else {}
      ensures Valid()
      ensures brand !in old(pool) ==> r.None? && pool == old(pool)
      ensures brand in old(pool) ==>
        && r == Some(old(pool[brand])) && pool == old(pool) - {brand}
        && !r.value.active
        && r.value.streamManager.streamStates == old(r.value.streamManager.streamStates) - {Lower(brand)}
        && r.value.playlistManager.playlistStates == old(r.value.playlistManager.playlistStates) - {brand}
      ensures forall b :: b in pool ==> pool[b].active == old(pool[b].active)
    {
      if brand !in pool {
        return None;
      }
      var bundle := pool[brand];
      pool := pool - {brand};
      bundle.Shutdown();
      r := Some(bundle);
    }

    /** One whitelist entry: initializeStation with its result dropped. */
    method StartListed(brand: string, inputs: StationInputs)
      requires Valid()
      modifies this, waitingAudioProvider, segmentFeederTimer
      modifies if brand in pool then {pool[brand].playlistManager} else {}
      ensures Valid()
      ensures pool.Keys == old(pool.Keys) + {brand}
      ensures forall b :: b in old(pool) ==> pool[b] == old(pool[b])
      ensures fresh(Suppliers() - old(Suppliers()))
    {
      var bundle := InitializeStation(brand, inputs);
    }

    /** initStationsFromWhitelist: each listed name is started in turn; an
        absent whitelist starts nothing. */
    method InitStationsFromWhitelist(whitelist: Option<seq<string>>, inputs: string -> StationInputs)
      requires Valid()
      modifies this, waitingAudioProvider, segmentFeederTimer, Suppliers()
      ensures Valid()
      ensures pool.Keys == old(pool.Keys) + (if whitelist.Some? then Elements(whitelist.value) else {})
      ensures forall b :: b in old(pool) ==> pool[b] == old(pool[b])
    {
      if whitelist.None? {
        return;
      }
      var names := whitelist.value;
      assert names[..|names|] == names;
      var i := 0;
      while i < |names|
        invariant 0 <= i <= |names|
        invariant Valid()
        invariant pool.Keys == old(pool.Keys) + Elements(names[..i])
        invariant forall b :: b in old(pool) ==> pool[b] == old(pool[b])
        invariant fresh(Suppliers() - old(Suppliers()))
      {
        StartListed(names[i], inputs(names[i]));
        ElementsOfLongerPrefix(names, i);
        i := i + 1;
      }
    }
  }
}
