/** The song supplier of the playlists (SongSupplier) and the memory of
    songs it has handed out (SupplierSongMemory). The repository, the brand
    lookup, the clock and the shuffles are parameters: a shuffle is any
    permutation of the list it shuffles. */
module SongSupply {
  import opened Common
  import opened HlsTypes
  import opened SoundFilter

  /** A sound fragment as the supplier sees it; two fragments are the same
      song when their ids agree. */
  datatype SoundFragment = SoundFragment(id: Uuid, fragmentType: string, title: string, artist: string)

  datatype SupplyError =
    | NegativeLimit                   // IllegalArgumentException from Stream.limit
    | BrandNotFound(brandName: string)

  // ---------------------------------------------------------------------
  // Selection
  // ---------------------------------------------------------------------

  /** `stream.limit(n)`: the first n items, or all of them; a negative n is
      refused. */
  function Limit(xs: seq<SoundFragment>, n: int): (r: Result<seq<SoundFragment>, SupplyError>)
    ensures r.Err? <==> n < 0
    ensures r.Ok? ==> |r.value| == Min(n, |xs|) && r.value <= xs
  {
    if n < 0 then Err(NegativeLimit) else Ok(xs[..Min(n, |xs|)])
  }

  /** `filter(f -> excludedIds == null || !excludedIds.contains(f.getId()))`. */
  function NotExcluded(xs: seq<SoundFragment>, excludedIds: Option<seq<Uuid>>): seq<SoundFragment> {
    if xs == [] then []
    else (if excludedIds.Some? && xs[0].id in excludedIds.value then [] else [xs[0]])
         + NotExcluded(xs[1..], excludedIds)
  }

  predicate Excluded(f: SoundFragment, excludedIds: Option<seq<Uuid>>) {
    excludedIds.Some? && f.id in excludedIds.value
  }

  lemma {:induction false} NotExcludedSpec(xs: seq<SoundFragment>, excludedIds: Option<seq<Uuid>>, f: SoundFragment)
    ensures f in NotExcluded(xs, excludedIds) <==> f in xs && !Excluded(f, excludedIds)
    ensures |NotExcluded(xs, excludedIds)| <= |xs|
    decreases |xs|
  {
    if xs != [] {
      NotExcludedSpec(xs[1..], excludedIds, f);
      assert f in xs <==> f == xs[0] || f in xs[1..];
    }
  }

  /** getBrandSongs after the brand's list is loaded: nothing from an empty
      list; otherwise the shuffled list without the excluded ids, cut to
      `quantity`. */
  function BrandSongs(fragments: seq<SoundFragment>, shuffled: seq<SoundFragment>, quantity: Int32,
                      excludedIds: Option<seq<Uuid>>): Result<seq<SoundFragment>, SupplyError>
  {
    if fragments == [] then Ok([]) else Limit(NotExcluded(shuffled, excludedIds), quantity)
  }

  /** getNextSong after the brand's list is loaded. */
  function NextSong(fragments: seq<SoundFragment>, shuffled: seq<SoundFragment>, quantity: Int32)
    : Result<seq<SoundFragment>, SupplyError>
  {
    if fragments == [] then Ok([]) else Limit(shuffled, quantity)
  }

  /** What getBrandSongs hands out: an empty list from an empty source, an
      error for a negative quantity otherwise, and else at most `quantity`
      songs, all from the source and none excluded; when the quantity covers
      the source, every song of it that is not excluded. */
  lemma BrandSongsSpec(fragments: seq<SoundFragment>, shuffled: seq<SoundFragment>, quantity: Int32,
                       excludedIds: Option<seq<Uuid>>)
    requires multiset(shuffled) == multiset(fragments)
    ensures var r := BrandSongs(fragments, shuffled, quantity, excludedIds);
      && (fragments == [] ==> r == Ok([]))
      && (r.Err? <==> fragments != [] && quantity < 0)
      && (r.Ok? ==> |r.value| <= Max(quantity, 0)
                    && forall f :: f in r.value ==> f in fragments && !Excluded(f, excludedIds))
      && (quantity >= |fragments| ==> forall f :: f in fragments && !Excluded(f, excludedIds) ==> f in r.value)
  {
    var kept := NotExcluded(shuffled, excludedIds);
    var r := BrandSongs(fragments, shuffled, quantity, excludedIds);
    assert |shuffled| == |fragments| by {
      assert |multiset(shuffled)| == |multiset(fragments)|;
    }
    if fragments != [] && quantity >= 0 {
      forall f | f in r.value
        ensures f in fragments && !Excluded(f, excludedIds)
      {
        assert f in kept;
        NotExcludedSpec(shuffled, excludedIds, f);
        assert f in multiset(shuffled);
      }
      if quantity >= |fragments| {
        forall f | f in fragments && !Excluded(f, excludedIds)
          ensures f in r.value
        {
          assert f in multiset(fragments);
          NotExcludedSpec(shuffled, excludedIds, f);
          assert r.value == kept;
        }
      }
    }
  }

  /** What getNextSong hands out: at most `quantity` songs of the source, and
      all of them when the quantity covers it. */
  lemma NextSongSpec(fragments: seq<SoundFragment>, shuffled: seq<SoundFragment>, quantity: Int32)
    requires multiset(shuffled) == multiset(fragments)
    ensures var r := NextSong(fragments, shuffled, quantity);
      && (r.Err? <==> fragments != [] && quantity < 0)
      && (r.Ok? ==> |r.value| <= Max(quantity, 0) && multiset(r.value) <= multiset(fragments))
      && (quantity >= |fragments| ==> r == Ok(shuffled))
  {
    assert |shuffled| == |fragments| by {
      assert |multiset(shuffled)| == |multiset(fragments)|;
    }
    var r := NextSong(fragments, shuffled, quantity);
    if r.Ok? && fragments != [] {
      var n := |r.value|;
      assert shuffled == r.value + shuffled[n..];
      if quantity >= |fragments| {
        assert shuffled[..|shuffled|] == shuffled;
      }
    } else if fragments == [] {
      assert shuffled == [];
    }
  }

  // ---------------------------------------------------------------------
  // Selection by query and from a static list
  // ---------------------------------------------------------------------

  /** The stage playlist a query selection starts from. */
  datatype PlaylistRequest = PlaylistRequest(
    genres: Option<seq<Uuid>>,
    labels: Option<seq<Uuid>>,
    types: Option<seq<string>>,
    source: Option<seq<string>>,
    searchTerm: Option<string>,
    soundFragments: Option<seq<Uuid>>)

  /** buildFilterFromStagePlaylist: a fresh filter with the request's lists
      and search term set. */
  function FilterFromRequest(request: PlaylistRequest): (f: SoundFragmentFilter)
    ensures f.genre == request.genres && f.labels == request.labels && f.types == request.types
    ensures f.source == request.source && f.searchTerm == request.searchTerm
    ensures f.activated == NEW_FILTER.activated
  {
    NEW_FILTER.(genre := request.genres, labels := request.labels, types := request.types,
                source := request.source, searchTerm := request.searchTerm)
  }

  /** The built filter is switched on exactly when the request narrows the
      selection; a request with a type list always does. */
  lemma FilterFromRequestActivation(request: PlaylistRequest)
    ensures IsActivated(FilterFromRequest(request))
            <==> Present(request.genres) || Present(request.labels) || Present(request.types)
                 || Present(request.source) || HasText(request.searchTerm)
  {
  }

  /** `Math.max(quantity * 3, quantity)` in 32-bit arithmetic: the number of
      rows asked for. */
  function Fetch(quantity: Int32): int {
    Max(WrapInt32(quantity * 3), quantity)
  }

  /** Three times the quantity while that fits in an int; the quantity
      itself once it no longer does; never less than the quantity. */
  lemma FetchSpec(quantity: Int32)
    ensures Fetch(quantity) >= quantity
    ensures 0 <= quantity <= INT_MAX / 3 ==> Fetch(quantity) == 3 * quantity
    ensures INT_MAX / 3 < quantity ==> Fetch(quantity) == quantity
  {
    if INT_MAX / 3 < quantity {
      assert WrapInt32(quantity * 3) == quantity * 3 - 0x1_0000_0000;
    }
  }

  /** The type guard of getNextSongByQuery (the list is null or empty). */
  predicate NoTypes(request: PlaylistRequest) {
    request.types.None? || request.types.value == []
  }

  /** The repository call getNextSongByQuery makes: none when the type guard
      holds, otherwise the built filter and the fetch size. */
  function QueryRequest(request: PlaylistRequest, quantity: Int32): (r: Option<(SoundFragmentFilter, int)>)
    ensures r.None? <==> NoTypes(request)
    ensures r.Some? ==> r.value.0 == FilterFromRequest(request) && r.value.1 >= quantity
  {
    FetchSpec(quantity);
    if NoTypes(request) then None else Some((FilterFromRequest(request), Fetch(quantity)))
  }

  /** getNextSongByQuery after the repository answered with `found`. */
  function NextSongByQuery(request: PlaylistRequest, found: seq<SoundFragment>, shuffled: seq<SoundFragment>,
                           quantity: Int32): Result<seq<SoundFragment>, SupplyError>
  {
    if NoTypes(request) || found == [] then Ok([]) else Limit(shuffled, quantity)
  }

  /** getNextSongFromStaticList after the repository answered with `found`. */
  function NextSongFromStaticList(ids: Option<seq<Uuid>>, found: seq<SoundFragment>, shuffled: seq<SoundFragment>,
                                  quantity: Int32): Result<seq<SoundFragment>, SupplyError>
  {
    if ids.None? || ids.value == [] || found == [] then Ok([]) else Limit(shuffled, quantity)
  }

  /** Both hand out nothing when their guard holds, and otherwise at most
      `quantity` of the songs the repository found. */
  lemma QueryAndStaticSpec(request: PlaylistRequest, ids: Option<seq<Uuid>>, found: seq<SoundFragment>,
                           shuffled: seq<SoundFragment>, quantity: Int32)
    requires multiset(shuffled) == multiset(found)
    ensures NoTypes(request) ==> NextSongByQuery(request, found, shuffled, quantity) == Ok([])
    ensures ids.None? || ids.value == [] ==> NextSongFromStaticList(ids, found, shuffled, quantity) == Ok([])
    ensures var r := NextSongByQuery(request, found, shuffled, quantity);
            r.Ok? ==> |r.value| <= Max(quantity, 0) && multiset(r.value) <= multiset(found)
    ensures var r := NextSongFromStaticList(ids, found, shuffled, quantity);
            r.Ok? ==> |r.value| <= Max(quantity, 0) && multiset(r.value) <= multiset(found)
  {
    if found != [] && quantity >= 0 {
      NextSongSpec(found, shuffled, quantity);
    }
  }

  // ---------------------------------------------------------------------
  // The brand cache
  // ---------------------------------------------------------------------

  const CACHE_TTL_MINUTES: int := 5
  const NANOS_PER_MINUTE: int := 60_000_000_000

  /** A cached brand list and when it was stored (nanoseconds). */
  datatype CachedBrandData = CachedBrandData(brandId: Uuid, fragments: seq<SoundFragment>, timestamp: int)

  /** `timestamp.plusMinutes(5).isBefore(now)`. */
  predicate IsExpired(c: CachedBrandData, now: int) {
    c.timestamp + CACHE_TTL_MINUTES * NANOS_PER_MINUTE < now
  }

  /** `brandName + "_" + fragmentType`. */
  function CacheKey(brandName: string, fragmentType: string): string {
    brandName + "_" + fragmentType
  }

  /** The position of the last '_' in s, or -1. */
  function LastUnderscore(s: string): int {
    if s == [] then -1
    else if s[|s| - 1] == '_' then |s| - 1
    else LastUnderscore(s[..|s| - 1])
  }

  /** When the type name holds no '_', the key's last '_' is the one the key
      adds after the brand name. */
  lemma {:induction false} LastUnderscoreOfKey(brandName: string, fragmentType: string)
    requires '_' !in fragmentType
    ensures LastUnderscore(CacheKey(brandName, fragmentType)) == |brandName|
    decreases |fragmentType|
  {
    var k := CacheKey(brandName, fragmentType);
    if fragmentType != [] {
      var shorter := fragmentType[..|fragmentType| - 1];
      assert k[|k| - 1] == fragmentType[|fragmentType| - 1];
      assert k[..|k| - 1] == CacheKey(brandName, shorter);
      assert forall c :: c in shorter ==> c in fragmentType;
      LastUnderscoreOfKey(brandName, shorter);
    }
  }

  /** Type names without '_' keep keys apart: two keys agree only for the
      same brand and type. */
  lemma CacheKeyInjective(b1: string, t1: string, b2: string, t2: string)
    requires '_' !in t1 && '_' !in t2
    requires CacheKey(b1, t1) == CacheKey(b2, t2)
    ensures b1 == b2 && t1 == t2
  {
    var k := CacheKey(b1, t1);
    LastUnderscoreOfKey(b1, t1);
    LastUnderscoreOfKey(b2, t2);
    assert b1 == k[..|b1|] == b2;
    assert t1 == k[|b1| + 1..] == t2;
  }

  /** A cached list younger than the TTL, if any. */
  function FreshEntry(cache: map<string, CachedBrandData>, key: string, now: int): Option<seq<SoundFragment>> {
    if key in cache && !IsExpired(cache[key], now) then Some(cache[key].fragments) else None
  }

  /** The rows a brand's list is loaded from: the random page, or every song
      of the brand when the page is empty. */
  function Loaded(randomPage: seq<SoundFragment>, allSongs: seq<SoundFragment>): seq<SoundFragment> {
    if randomPage == [] then allSongs else randomPage
  }

  /** The outcome of getBrandDataCached and the cache after it: a fresh entry
      is handed out untouched; otherwise the brand id is the one given or,
      failing that, the one the slug lookup found; without either the call
      fails; with one, the shuffled loaded list is stored under the key and
      handed out. */
  datatype CacheOutcome = CacheOutcome(result: Result<seq<SoundFragment>, SupplyError>,
                                       cache: map<string, CachedBrandData>)

  function CacheStep(cache: map<string, CachedBrandData>, brandName: string, brandId: Option<Uuid>,
                     fragmentType: string, now: int, slugLookup: Option<Uuid>, shuffled: seq<SoundFragment>)
    : CacheOutcome
  {
    var key := CacheKey(brandName, fragmentType);
    var resolved := if brandId.Some? then brandId else slugLookup;
    if FreshEntry(cache, key, now).Some? then CacheOutcome(Ok(FreshEntry(cache, key, now).value), cache)
    else if resolved.None? then CacheOutcome(Err(BrandNotFound(brandName)), cache)
    else CacheOutcome(Ok(shuffled), cache[key := CachedBrandData(resolved.value, shuffled, now)])
  }

  /** A stored list is handed out again, unchanged, for five minutes (to the
      nanosecond), whatever the repository would now return; after that it is
      reloaded. Other keys are never touched. */
  lemma CacheStepSpec(cache: map<string, CachedBrandData>, brandName: string, brandId: Option<Uuid>,
                      fragmentType: string, now: int, later: int, slugLookup: Option<Uuid>,
                      shuffled: seq<SoundFragment>, shuffled': seq<SoundFragment>, otherKey: string)
    requires brandId.Some? || slugLookup.Some?
    requires FreshEntry(cache, CacheKey(brandName, fragmentType), now).None?
    ensures var o := CacheStep(cache, brandName, brandId, fragmentType, now, slugLookup, shuffled);
      && o.result == Ok(shuffled)
      && (now <= later <= now + CACHE_TTL_MINUTES * NANOS_PER_MINUTE ==>
            CacheStep(o.cache, brandName, None, fragmentType, later, None, shuffled').result == Ok(shuffled))
      && (later > now + CACHE_TTL_MINUTES * NANOS_PER_MINUTE ==>
            FreshEntry(o.cache, CacheKey(brandName, fragmentType), later).None?)
      && (otherKey != CacheKey(brandName, fragmentType) ==>
            (otherKey in o.cache <==> otherKey in cache) && (otherKey in cache ==> o.cache[otherKey] == cache[otherKey]))
  {
  }

  /** Without a brand id and with a failed slug lookup, a missing or stale
      entry ends in "Brand not found" and the cache is left as it was. */
  lemma CacheMissWithoutBrand(cache: map<string, CachedBrandData>, brandName: string, fragmentType: string, now: int,
                              shuffled: seq<SoundFragment>)
    requires FreshEntry(cache, CacheKey(brandName, fragmentType), now).None?
    ensures CacheStep(cache, brandName, None, fragmentType, now, None, shuffled)
            == CacheOutcome(Err(BrandNotFound(brandName)), cache)
  {
  }

  class SongSupplier {
    var brandCache: map<string, CachedBrandData>

    constructor()
      ensures brandCache == map[]
    {
      brandCache := map[];
    }

    /** getBrandDataCached. `slugLookup` is the id of the brand the slug
        lookup finds (None for no brand), `randomPage` and `allSongs` what
        the repository returns for the resolved brand, and `shuffled` the
        loaded list after its shuffle; the lookup and the repository are
        consulted only on a miss, and what a miss hands out and stores is
        the loaded list in some order. */
    method GetBrandDataCached(brandName: string, brandId: Option<Uuid>, fragmentType: string, now: int,
                              slugLookup: Option<Uuid>, randomPage: seq<SoundFragment>,
                              allSongs: seq<SoundFragment>, shuffled: seq<SoundFragment>)
      returns (r: Result<seq<SoundFragment>, SupplyError>)
      requires multiset(shuffled) == multiset(Loaded(randomPage, allSongs))
      modifies this
      ensures CacheOutcome(r, brandCache) == CacheStep(old(brandCache), brandName, brandId, fragmentType, now,
                                                       slugLookup, shuffled)
      ensures FreshEntry(old(brandCache), CacheKey(brandName, fragmentType), now).None? && r.Ok? ==>
                multiset(r.value) == multiset(Loaded(randomPage, allSongs))
    {
      var cacheKey := CacheKey(brandName, fragmentType);
      if cacheKey in brandCache && !IsExpired(brandCache[cacheKey], now) {
        return Ok(brandCache[cacheKey].fragments);
      }
      var resolved := brandId;
      if resolved.None? {
        if slugLookup.None? {
          return Err(BrandNotFound(brandName));
        }
        resolved := slugLookup;
      }
      brandCache := brandCache[cacheKey := CachedBrandData(resolved.value, shuffled, now)];
      r := Ok(shuffled);
    }
  }

  /** The songs handed out so far, by id (a fragment equals another with the
      same id). */
  class SupplierSongMemory {
    var playedSongs: set<Uuid>

    constructor()
      ensures playedSongs == {}
    {
      playedSongs := {};
    }

    function WasPlayed(song: SoundFragment): bool
      reads this
    {
      song.id in playedSongs
    }

    /** updateLastSelected: every selected song now counts as played, and
        every song that did still does. */
    method UpdateLastSelected(selectedFragments: seq<SoundFragment>)
      modifies this
      ensures playedSongs == old(playedSongs) + set f | f in selectedFragments :: f.id
      ensures forall f :: f in selectedFragments ==> WasPlayed(f)
      ensures forall f :: old(WasPlayed(f)) ==> WasPlayed(f)
    {
      playedSongs := playedSongs + set f | f in selectedFragments :: f.id;
    }

    /** reset: no song counts as played. */
    method Reset()
      modifies this
      ensures playedSongs == {}
      ensures forall f :: !WasPlayed(f)
    {
      playedSongs := {};
    }
  }
}
