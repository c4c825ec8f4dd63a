# aivox streaming core in Dafny

aivox is a radio back end. For every brand (station) it keeps a live HLS
stream. It also keeps a supplier of sound fragments that feeds the stream, a
pool of running stations, a waiting jingle for when nothing is queued, a
feeder timer aligned to the segment duration, and a DJ memory that
summarises recent interactions. Around that sit the song selection, the SQL
builders for sound fragments and brands, the rating rule for a brand's
fragments, the brand associations of a fragment, and the approval workflow
of contributed fragments.

This project models that core and proves what it promises:

- The engine (`Streaming`, `StreamWindow`, `SegmentName`) keeps, per brand, a
  sorted window of live segment slots and a pending queue.
  - The feed tick drips one pending slot into the window, then refills the
    queue from the supplier. The slide drops the oldest entries.
  - A stream invariant (sequence numbers drawn from one shared counter, both
    parts ascending, the window below the queue) is proved to survive every
    operation.
  - Every file name a manifest lists is proved to be found by the segment
    pattern and to yield the segment the manifest described, for a
    non-empty brand key without '_' and a non-negative requested bitrate a
    long can hold (`StreamWindow.ManifestRoundTrip`).
  - A brand whose key holds '_' is proved never to be served (see
    "## Findings"). The corrected right-to-left reading of a file name
    serves every listed name for every non-empty key
    (`StreamWindow.ManifestRoundTripWhole`).
- The two playlist suppliers (`ServicePlaylist`, `LegacyPlaylist`, over
  `FragmentQueues`) keep two priority queues and the processed history per
  brand. The model covers admission, dequeue, the 20-second starvation
  cooldown and the maintenance tick.
- The station pool (`StationRegistry`) owns one bundle of engine and
  supplier per brand.
- The waiting audio provider (`WaitingAudio`), the feeder timer
  (`FeederTimer`) and the DJ memory (`BrandMemory`).
- Song selection and its five-minute brand cache (`SongSupply`), the filter
  (`SoundFilter`), and the query text of both sound-fragment builders
  (`SoundQueries`). The two builders are proved to agree with each other.
- Brand listing and counting statements, with their placeholder numbering
  and parameter tuples, and the bit-rate default (`BrandQueries`).
- The rating rule (`Rating`), the association handler (`Associations`) and
  the contribution workflow (`Contribution`).

Objects whose fields the Java code updates are classes here. Loops are
methods proved against specification functions. Pure logic is functions and
lemmas.

Clocks, random draws, fresh UUIDs and external outcomes are parameters:

- the slicer's segments;
- whether a resource was found;
- a permission lookup;
- a database row.

Java's `long` and `int` ranges, the truncating `%` and 32-bit wrap-around are
written out, and so is `Long.parseLong` on ASCII digits.

## Model

| member | source | states |
|---|---|---|
| Common.ParseLong | src/main/java/com/semantyca/aivox/streaming/StreamManager.java:134-135 | Long.parseLong: succeeds only on an optional sign and one or more digits within the signed 64-bit range, and then yields a value in that range |
| Common.ParseLongOfNatToString | src/main/java/com/semantyca/aivox/streaming/StreamManager.java:134-135 | every non-negative long written out in decimal, as the manifest writes sequence numbers and bitrates, parses back to itself |
| Common.NatToString | src/main/java/com/semantyca/aivox/streaming/StreamManager.java:89 | a long appended to a StringBuilder is a non-empty run of decimal digits |
| Common.Lower | src/main/java/com/semantyca/aivox/streaming/StreamManager.java:69 | toLowerCase keeps the length and lower-cases each character in place |
| Common.Upper | src/main/java/com/semantyca/aivox/repository/brand/BrandRepository.java:78 | toUpperCase keeps the length and upper-cases each character in place |
| Common.EqualsIgnoreCaseLower | src/main/java/com/semantyca/aivox/streaming/StreamManager.java:127-129 | a lower-cased brand still equals the original ignoring case, so a manifest's own file names pass the brand check of a segment request |
| Common.JavaRem | src/main/java/com/semantyca/aivox/streaming/SegmentFeederTimer.java:27 | Java's remainder has the sign of the dividend and is smaller than the divisor in size |
| Common.WrapInt32 | src/main/java/com/semantyca/aivox/repository/soundfragment/SoundFragmentBrandRepository.java:372 | an int result always lies in the 32-bit range and equals the exact result when that fits |
| Common.LastN | src/main/java/com/semantyca/aivox/service/playlist/PlaylistManager.java:249-257 | trimming a list to its newest n entries keeps min(size, n) entries, and they are its suffix |
| HlsTypes.NewSongMetadata | src/main/java/com/semantyca/aivox/streaming/SongMetadata.java:18-22 | the three-argument metadata carries the song id, the title and the artist it was given |
| HlsTypes.PlaceholderFragmentShape | src/main/java/com/semantyca/aivox/streaming/PlaylistManager.java:90-115 | a placeholder fragment has both ladder bitrates (128000 and 64000), each with three 6-second segments of 1024 bytes numbered 0, 1, 2 that carry the fragment's own metadata |
| HlsTypes.BuildPlaceholderFragment | src/main/java/com/semantyca/aivox/service/playlist/PlaylistManager.java:112-135 | the two nested loops build exactly the placeholder fragment of that shape |
| HlsTypes.MaxKey | src/main/java/com/semantyca/aivox/service/playlist/PlaylistManager.java:165 | the stream max over the bitrate keys is a key and no key is larger |
| HlsTypes.ConvertToAudioFiles | src/main/java/com/semantyca/aivox/service/playlist/PlaylistManager.java:158-175 | one "mp3" audio file per segment of the highest bitrate, in order, each tagged with the fragment's id, and nothing for a fragment without segments |
| SegmentName.MatchEnd | src/main/java/com/semantyca/aivox/streaming/StreamManager.java:28 | the pattern's `$` matches at the end of the name or before one final line terminator ("\r\n" counting as one), and ".ts" ends there |
| SegmentName.TrailingDigits | src/main/java/com/semantyca/aivox/streaming/StreamManager.java:28 | the digit groups of the pattern are maximal runs of digits |
| SegmentName.TrailingName | src/main/java/com/semantyca/aivox/streaming/StreamManager.java:28 | the brand group is a maximal run of characters without an underscore |
| SegmentName.TakeNumberSpec | src/main/java/com/semantyca/aivox/streaming/StreamManager.java:28 | a digit group is split off at its underscore exactly when the text ends in an underscore and one or more digits |
| SegmentName.TakeNameSpec | src/main/java/com/semantyca/aivox/streaming/StreamManager.java:28 | the brand group is split off exactly when it is a non-empty underscore-free run that starts the text or follows an underscore |
| SegmentName.ParseComplete | src/main/java/com/semantyca/aivox/streaming/StreamManager.java:122-128 | every well-shaped name, alone or after an underscore, is found by the pattern with exactly its brand, bitrate and sequence groups |
| SegmentName.ParseBodySound | src/main/java/com/semantyca/aivox/streaming/StreamManager.java:122-128 | what the group extraction accepts is a well-shaped brand_bitrate_sequence at a left boundary |
| SegmentName.ParseSound | src/main/java/com/semantyca/aivox/streaming/StreamManager.java:122-128 | whatever find() matches is a well-shaped name at a left boundary followed by ".ts" where a match may end |
| SegmentName.FileNameRoundTrip | src/main/java/com/semantyca/aivox/streaming/StreamManager.java:105-135 | a file name the manifest writes reads back as its brand and the two numbers, for a non-empty brand without underscores and numbers a long can hold |
| SegmentName.MisreadUnderscoreBrand | src/main/java/com/semantyca/aivox/streaming/StreamManager.java:28 | a manifest file name whose brand holds '_' is found with only the part after the last '_' as its brand group |
| SegmentName.FileNameRoundTripWhole | src/main/java/com/semantyca/aivox/streaming/StreamManager.java:105-135 | read from the right, every manifest file name gives back its brand, whatever it holds, and its two numbers |
| FragmentQueues.HeadIndex | src/main/java/com/semantyca/aivox/service/playlist/PlaylistManager.java:347-357 | the head of a PriorityQueue is an element no other element precedes under the queue's comparator (the earliest such one) |
| FragmentQueues.Poll | src/main/java/com/semantyca/aivox/service/playlist/PlaylistManager.java:190-204 | poll removes one least element and keeps all the others: the multiset of the queue is unchanged apart from the head |
| FragmentQueues.MoveToProcessed | src/main/java/com/semantyca/aivox/service/playlist/PlaylistManager.java:239-263 | the processed-fragment bookkeeping loop computes the recorded-processed state |
| FragmentQueues.RecordProcessedKeepsCaps | src/main/java/com/semantyca/aivox/service/playlist/PlaylistManager.java:239-263 | recording a processed fragment keeps both history lists at the newest two entries, ending with the fragment, and leaves the queues alone |
| FragmentQueues.DequeueSpec | src/main/java/com/semantyca/aivox/service/playlist/PlaylistManager.java:181-204 | a dequeue fails exactly when both queues are empty; otherwise the prioritized queue is served first, a least element is taken, no fragment is lost or invented, and it is recorded as processed |
| FragmentQueues.AdmitSpec | src/main/java/com/semantyca/aivox/service/playlist/PlaylistManager.java:265-290 | a fragment is accepted exactly when its priority is at most 12 or the regular queue has room; accepted fragments land in exactly one queue with the priority set, refused ones change nothing |
| FragmentQueues.FeedQuantity | src/main/java/com/semantyca/aivox/service/playlist/PlaylistManager.java:85-91 | a feed adds at most maxQuantity fragments, never fills the regular queue beyond 2, fills it to 2 when allowed enough, and adds something exactly when there is room and a positive quantity |
| FragmentQueues.FedKeepsWellFormed | src/main/java/com/semantyca/aivox/service/playlist/PlaylistManager.java:95-101 | a feed keeps the queues well formed and the regular queue within its cap |
| WaitingAudio.WaitingFragmentSpec | src/main/java/com/semantyca/aivox/streaming/WaitingAudioProvider.java:86-113 | the waiting fragment has priority 999, "Waiting..."/"Station" metadata, the stored bitrates, and per bitrate a copy of each stored segment in order, equal in everything but the metadata |
| WaitingAudio.PutAll | src/main/java/com/semantyca/aivox/streaming/WaitingAudioProvider.java:58-61 | the putAll loop yields the stored map overridden by the sliced segments |
| WaitingAudio.CloneQueueLoop | src/main/java/com/semantyca/aivox/streaming/WaitingAudioProvider.java:95-107 | the inner copy loop yields the cloned segment list |
| WaitingAudio.CloneAll | src/main/java/com/semantyca/aivox/streaming/WaitingAudioProvider.java:94-110 | the outer copy loop yields the cloned map over every stored bitrate |
| WaitingAudio.WaitingAudioProvider.constructor | src/main/java/com/semantyca/aivox/streaming/WaitingAudioProvider.java:26-28 | a new provider is not initialized and has no stored segments |
| WaitingAudio.WaitingAudioProvider.CurrentWaitingFragment | src/main/java/com/semantyca/aivox/streaming/WaitingAudioProvider.java:80-84 | there is a waiting fragment exactly when waiting audio is available, and it has the stored bitrates |
| WaitingAudio.WaitingAudioProvider.Initialize | src/main/java/com/semantyca/aivox/streaming/WaitingAudioProvider.java:30-63 | initialization runs once: with the resource found and a non-empty slicing it stores the segments and becomes available; otherwise nothing but the id changes |
| WaitingAudio.WaitingAudioProvider.CreateWaitingFragment | src/main/java/com/semantyca/aivox/streaming/WaitingAudioProvider.java:80-115 | the method yields the current waiting fragment, or nothing when no waiting audio is available |
| ServicePlaylist.Fillers | src/main/java/com/semantyca/aivox/service/playlist/PlaylistManager.java:95-101 | a feed creates exactly the requested number of fillers |
| ServicePlaylist.InitialStateSpec | src/main/java/com/semantyca/aivox/service/playlist/PlaylistManager.java:292-303 | after initialization a brand has something queued: an idle brand is fed two fillers, a busy one is left alone, and the state stays well formed |
| ServicePlaylist.NextSpec | src/main/java/com/semantyca/aivox/service/playlist/PlaylistManager.java:181-237 | the next fragment is the dequeued one when anything is queued; otherwise the waiting jingle, or a synthetic "Loading..." fragment, with the state unchanged |
| ServicePlaylist.EmergencyAudioFiles | src/main/java/com/semantyca/aivox/service/playlist/PlaylistManager.java:214-236 | without the jingle an empty station still gets three 1024-byte "mp3" files of the emergency fragment, tagged with its id |
| ServicePlaylist.TickStateSpec | src/main/java/com/semantyca/aivox/service/playlist/PlaylistManager.java:53-63 | a maintenance tick tops the regular queue up to min(2, size + drawn quantity), leaves the prioritized queue alone and keeps the state well formed |
| ServicePlaylist.PlaylistManager.constructor | src/main/java/com/semantyca/aivox/service/playlist/PlaylistManager.java:43-49 | a new supplier has no brands and has initialized the waiting provider |
| ServicePlaylist.PlaylistManager.CreatePlaceholderFragmentSync | src/main/java/com/semantyca/aivox/service/playlist/PlaylistManager.java:104-137 | the waiting jingle when available, else a synthetic "Placeholder Song" fragment |
| ServicePlaylist.PlaylistManager.MakeFillers | src/main/java/com/semantyca/aivox/service/playlist/PlaylistManager.java:95-101 | the creation loop yields the n fillers in order (none for n <= 0) |
| ServicePlaylist.PlaylistManager.FeedFragments | src/main/java/com/semantyca/aivox/service/playlist/PlaylistManager.java:71-102 | an unknown brand or an active 20-second cooldown changes nothing; otherwise the brand's regular queue is fed the allowed quantity and the cooldown clock is restarted when it applies |
| ServicePlaylist.PlaylistManager.GetNextFragment | src/main/java/com/semantyca/aivox/service/playlist/PlaylistManager.java:181-237 | nothing for an unknown brand; otherwise the next fragment with the brand's state advanced accordingly |
| ServicePlaylist.PlaylistManager.GetNextAudioFiles | src/main/java/com/semantyca/aivox/service/playlist/PlaylistManager.java:143-179 | the brand's state is created if missing, and the audio files are those of the next fragment |
| ServicePlaylist.PlaylistManager.AddFragment | src/main/java/com/semantyca/aivox/service/playlist/PlaylistManager.java:265-290 | the admission rule decides acceptance and the brand's new state |
| ServicePlaylist.PlaylistManager.InitializeBrand | src/main/java/com/semantyca/aivox/service/playlist/PlaylistManager.java:292-303 | the brand's state is created if missing and brought to its initial state |
| ServicePlaylist.PlaylistManager.ShutdownBrand | src/main/java/com/semantyca/aivox/service/playlist/PlaylistManager.java:305-320 | only the brand's state is removed |
| ServicePlaylist.PlaylistManager.Shutdown | src/main/java/com/semantyca/aivox/service/playlist/PlaylistManager.java:322-344 | every brand's state is removed |
| ServicePlaylist.PlaylistManager.TickAll | src/main/java/com/semantyca/aivox/service/playlist/PlaylistManager.java:53-63 | the tick loop computes every brand's ticked state and no other brand |
| ServicePlaylist.PlaylistManager.MaintenanceTick | src/main/java/com/semantyca/aivox/service/playlist/PlaylistManager.java:51-68 | every existing brand is ticked with a quantity of 1 or 2, no brand is added or dropped |
| LegacyPlaylist.Placeholders | src/main/java/com/semantyca/aivox/streaming/PlaylistManager.java:84-87 | a feed creates exactly the requested number of placeholders |
| LegacyPlaylist.StarvationRecovery | src/main/java/com/semantyca/aivox/streaming/PlaylistManager.java:149-173 | a starving brand is fed exactly one "Placeholder Song" fragment, which the next dequeue hands out and records as processed |
| LegacyPlaylist.PlaylistManager.constructor | src/main/java/com/semantyca/aivox/streaming/PlaylistManager.java:37-57 | a new supplier has no brands and a zero cooldown clock |
| LegacyPlaylist.PlaylistManager.FeedFragments | src/main/java/com/semantyca/aivox/streaming/PlaylistManager.java:59-88 | an unknown brand or an active cooldown changes nothing; otherwise the regular queue is fed the allowed quantity of placeholders |
| LegacyPlaylist.PlaylistManager.GetNextFragment | src/main/java/com/semantyca/aivox/streaming/PlaylistManager.java:149-173 | a queued fragment when there is one; for a starving brand nothing, after one placeholder is fed unless the 20-second cooldown is active |
| LegacyPlaylist.PlaylistManager.GetNextAudioFiles | src/main/java/com/semantyca/aivox/streaming/PlaylistManager.java:117-147 | the files of the dequeued fragment, or none for a starving brand, which is fed as above |
| LegacyPlaylist.PlaylistManager.AddFragment | src/main/java/com/semantyca/aivox/streaming/PlaylistManager.java:201-226 | the admission rule decides acceptance and the brand's new state |
| LegacyPlaylist.PlaylistManager.InitializeBrand | src/main/java/com/semantyca/aivox/streaming/PlaylistManager.java:228-233 | the brand's state is created if missing and nothing else changes |
| LegacyPlaylist.PlaylistManager.ShutdownBrand | src/main/java/com/semantyca/aivox/streaming/PlaylistManager.java:235-250 | only the brand's state is removed |
| LegacyPlaylist.PlaylistManager.Shutdown | src/main/java/com/semantyca/aivox/streaming/PlaylistManager.java:252-274 | every brand's state is removed |
| LegacyPlaylist.PlaylistManager.MaintenanceTick | src/main/java/com/semantyca/aivox/streaming/PlaylistManager.java:39-56 | every existing brand is topped up with 1 or 2 placeholders, no brand is added or dropped |
| FeederTimer.InitialDelaySpec | src/main/java/com/semantyca/aivox/streaming/SegmentFeederTimer.java:24-31 | the first tick falls on the next multiple of the duration in epoch seconds, strictly in the future and at most one period away |
| FeederTimer.TickValueSpec | src/main/java/com/semantyca/aivox/streaming/SegmentFeederTimer.java:36-39 | a tick carries the epoch second rounded toward zero to a multiple of the duration: at or below it and less than one period before it after the epoch, at or above it and less than one period after it before the epoch |
| FeederTimer.SegmentFeederTimer.constructor | src/main/java/com/semantyca/aivox/streaming/SegmentFeederTimer.java:16 | a new timer has the 6-second default and no ticker |
| FeederTimer.SegmentFeederTimer.SetDurationSec | src/main/java/com/semantyca/aivox/streaming/SegmentFeederTimer.java:20-22 | only the duration changes |
| FeederTimer.SegmentFeederTimer.GetTicker | src/main/java/com/semantyca/aivox/streaming/SegmentFeederTimer.java:49-54 | the ticker is created once, aligned to the boundary, with the duration as period; later calls return the same ticker |
| FeederTimer.SegmentFeederTimer.Tick | src/main/java/com/semantyca/aivox/streaming/SegmentFeederTimer.java:36-39 | each tick emits the aligned value for the duration current at that moment; a zero duration throws (None), a negative one acts as its magnitude, as the truncating % does |
| FeederTimer.SegmentFeederTimer.Cleanup | src/main/java/com/semantyca/aivox/streaming/SegmentFeederTimer.java:56-64 | the subscription is cancelled if there is one, and nothing else changes |
| StreamWindow.LookupSpec | src/main/java/com/semantyca/aivox/streaming/StreamManager.java:143-147 | the sorted window yields an entry exactly when one has the key, and then its slot |
| StreamWindow.PutKeys | src/main/java/com/semantyca/aivox/streaming/StreamManager.java:189 | putting a key adds no key other than that one |
| StreamWindow.PutLookup | src/main/java/com/semantyca/aivox/streaming/StreamManager.java:189 | after a put the key yields the new slot and every other key what it yielded before |
| StreamWindow.PutSpec | src/main/java/com/semantyca/aivox/streaming/StreamManager.java:189 | a put keeps the window sorted by key |
| StreamWindow.PutAfterAll | src/main/java/com/semantyca/aivox/streaming/StreamManager.java:189 | a key above every key already there is appended at the end |
| StreamWindow.FirstValue | src/main/java/com/semantyca/aivox/streaming/StreamManager.java:94-97 | the fallback segment of a slot is the one under its smallest bitrate |
| StreamWindow.MakeSlots | src/main/java/com/semantyca/aivox/streaming/StreamManager.java:214-231 | one slot per audio file |
| StreamWindow.LadderSlotChoice | src/main/java/com/semantyca/aivox/streaming/StreamManager.java:94-97 | in a generated slot the requested bitrate and the fallback give the same segment |
| StreamWindow.GeneratedSlotSpec | src/main/java/com/semantyca/aivox/streaming/StreamManager.java:214-228 | a generated slot has both ladder bitrates, the file's bytes, the segment duration, the sequence number and "Generated Song" metadata |
| StreamWindow.InvariantMonotone | src/main/java/com/semantyca/aivox/streaming/StreamManager.java:215 | advancing the shared sequence counter keeps every stream's invariant |
| StreamWindow.PromoteSpec | src/main/java/com/semantyca/aivox/streaming/StreamManager.java:180-193 | the drip moves the oldest pending slot to the end of the window under its own sequence while the window is under twice the visible size, and keeps the invariant |
| StreamWindow.AppendKeeps | src/main/java/com/semantyca/aivox/streaming/StreamManager.java:186-190 | appending an entry above every key keeps the window keyed and sorted |
| StreamWindow.TailKeeps | src/main/java/com/semantyca/aivox/streaming/StreamManager.java:186 | taking the head of the pending queue keeps the rest ascending |
| StreamWindow.RefillSpec | src/main/java/com/semantyca/aivox/streaming/StreamManager.java:210-231 | creating segments appends one pending slot per file, numbered consecutively from the counter and carrying the file's bytes, leaves the window alone and keeps the invariant |
| StreamWindow.RefillQueue | src/main/java/com/semantyca/aivox/streaming/StreamManager.java:210-231 | the extended pending queue is ascending, below the advanced counter, and numbers the new slots from the counter |
| StreamWindow.SlideSpec | src/main/java/com/semantyca/aivox/streaming/StreamManager.java:245-253 | the slid window holds min(size, maxVisible) entries, is the newest part of the window, and every dropped key is below every kept one |
| StreamWindow.SlideKeepsInvariant | src/main/java/com/semantyca/aivox/streaming/StreamManager.java:245-253 | sliding keeps the stream invariant |
| StreamWindow.SuffixKeeps | src/main/java/com/semantyca/aivox/streaming/StreamManager.java:250-252 | a suffix of a keyed window is keyed and ends where the window ends |
| StreamWindow.MasterListsLadder | src/main/java/com/semantyca/aivox/streaming/StreamManager.java:53-66 | the master manifest lists one variant per ladder bitrate, highest first, each pointing at the lower-cased brand's manifest |
| StreamWindow.PlaylistSpec | src/main/java/com/semantyca/aivox/streaming/StreamManager.java:68-118 | a live manifest starts at the smallest key and lists min(size, maxVisible) entries in strictly ascending sequence order, each under its own sequence number |
| StreamWindow.DefaultPlaylistExactly | src/main/java/com/semantyca/aivox/streaming/StreamManager.java:68-78 | the default manifest is served exactly when the brand is unknown or its window is empty |
| StreamWindow.SegmentLookupSound | src/main/java/com/semantyca/aivox/streaming/StreamManager.java:120-163 | a segment is found only for a name the pattern accepts, with a matching brand, from the window entry of exactly the named sequence, at the named bitrate when the slot has it |
| StreamWindow.ManifestRoundTrip | src/main/java/com/semantyca/aivox/streaming/StreamManager.java:100-158 | requesting a file name the manifest lists yields exactly the segment the manifest described, for a non-empty brand key without '_' and a non-negative requested bitrate a long can hold |
| StreamWindow.UnderscoreBrandNotServed | src/main/java/com/semantyca/aivox/streaming/StreamManager.java:122-131 | when the lower-cased brand holds '_', no file name at all (its manifest's included) yields a segment |
| StreamWindow.ManifestRoundTripWhole | src/main/java/com/semantyca/aivox/streaming/StreamManager.java:100-158 | with the brand group allowed to hold '_', every listed file name resolves to the segment the manifest described, for every non-empty brand key |
| Streaming.RefillStepSpec | src/main/java/com/semantyca/aivox/streaming/StreamManager.java:195-207 | the refill asks the supplier exactly when fewer than 10 slots are pending, queues one slot per file, and keeps the invariant |
| Streaming.FeedStepSpec | src/main/java/com/semantyca/aivox/streaming/StreamManager.java:177-208 | a feed tick keeps the invariant and the window, growing it by at most the one dripped entry |
| Streaming.DrippableQueue | src/main/java/com/semantyca/aivox/streaming/StreamManager.java:186-188 | the head of the pending queue always has the segment its sequence number is read from |
| Streaming.Drip | src/main/java/com/semantyca/aivox/streaming/StreamManager.java:180-193 | the drip loop computes the promotion step |
| Streaming.AppendSlots | src/main/java/com/semantyca/aivox/streaming/StreamManager.java:214-231 | the loop appends the generated slots and advances the counter by the number of files |
| Streaming.AppendEntries | src/main/java/com/semantyca/aivox/streaming/StreamManager.java:91-115 | the forEach writes the entry lines of the visible entries in window order |
| Streaming.SlideLoop | src/main/java/com/semantyca/aivox/streaming/StreamManager.java:250-252 | the pollFirstEntry loop computes the slid window |
| Streaming.SlideAll | src/main/java/com/semantyca/aivox/streaming/StreamManager.java:235-243 | the loop slides every brand's window and touches nothing else |
| Streaming.StreamManager.constructor | src/main/java/com/semantyca/aivox/streaming/StreamManager.java:43-49 | a new engine has no streams, a zero counter and no subscriptions |
| Streaming.StreamManager.GeneratePlaylist | src/main/java/com/semantyca/aivox/streaming/StreamManager.java:68-118 | the manifest text is the one described by the manifest lemmas |
| Streaming.StreamManager.CreateSegmentsFromAudioFiles | src/main/java/com/semantyca/aivox/streaming/StreamManager.java:210-232 | the brand's pending queue gets one slot per file and the counter advances by the number of files |
| Streaming.StreamManager.FeedSegmentsForBrand | src/main/java/com/semantyca/aivox/streaming/StreamManager.java:177-208 | a drip then a refill, with the supplier's state updated exactly when it was asked |
| Streaming.StreamManager.RefillForBrand | src/main/java/com/semantyca/aivox/streaming/StreamManager.java:195-207 | the refill half of a feed tick for one brand |
| Streaming.StreamManager.DripForBrand | src/main/java/com/semantyca/aivox/streaming/StreamManager.java:180-193 | the drip half of a feed tick for one brand |
| Streaming.StreamManager.Store | src/main/java/com/semantyca/aivox/streaming/StreamManager.java:189 | one brand's state is written back with the advanced counter and the invariant kept |
| Streaming.StreamManager.FeedSegments | src/main/java/com/semantyca/aivox/streaming/StreamManager.java:167-175 | every brand is fed exactly once, by one feed step from its state before the loop at a recorded counter value; the supplier's state of a fed brand moves only by that step and that of every other brand is untouched; the invariant, the brands and the subscriptions are kept |
| Streaming.StreamManager.FeedTurn | src/main/java/com/semantyca/aivox/streaming/StreamManager.java:169-172 | one loop turn adds the brand to the fed set at the current counter and leaves the other brands' streams and supplier states as they were |
| Streaming.StreamManager.FeedOne | src/main/java/com/semantyca/aivox/streaming/StreamManager.java:172 | feeding one brand applies one feed step to its stream and its supplier state, read as empty when the supplier has none, and touches no other brand |
| Streaming.StreamManager.SlideWindowForBrand | src/main/java/com/semantyca/aivox/streaming/StreamManager.java:245-253 | only the brand's window is slid |
| Streaming.StreamManager.SlideWindow | src/main/java/com/semantyca/aivox/streaming/StreamManager.java:235-243 | every brand's window is slid and nothing else changes |
| Streaming.StreamManager.InitializeStream | src/main/java/com/semantyca/aivox/streaming/StreamManager.java:255-278 | a new brand gets an empty stream under its lower-cased key, the feeder timer is set to the segment duration and started, and both subscriptions are recorded; a known brand changes nothing |
| Streaming.StreamManager.ShutdownStream | src/main/java/com/semantyca/aivox/streaming/StreamManager.java:280-294 | the brand's stream and its two subscriptions are removed; an unknown brand changes nothing |
| StationRegistry.RadioStationBundle.constructor | src/main/java/com/semantyca/aivox/streaming/RadioStationBundle.java:16-22 | a new bundle is active with its brand and managers |
| StationRegistry.RadioStationBundle.Shutdown | src/main/java/com/semantyca/aivox/streaming/RadioStationBundle.java:24-37 | the bundle becomes inactive and both managers drop the brand |
| StationRegistry.RadioStationPool.constructor | src/main/java/com/semantyca/aivox/streaming/RadioStationPool.java:44-59 | a new pool is empty |
| StationRegistry.RadioStationPool.GetStation | src/main/java/com/semantyca/aivox/streaming/RadioStationPool.java:107-110 | the bundle under the name exactly when there is one |
| StationRegistry.RadioStationPool.ActiveCountSpec | src/main/java/com/semantyca/aivox/streaming/RadioStationPool.java:138-147 | the active count is the number of active bundles, at most the pool size, and equal to it exactly when all are active |
| StationRegistry.RadioStationPool.InitializeStation | src/main/java/com/semantyca/aivox/streaming/RadioStationPool.java:78-105 | an active station is returned as is; an inactive one has its supplier re-initialized; a new name gets a fresh active bundle with an empty stream and an initialized supplier; other stations are untouched |
| StationRegistry.RadioStationPool.StartNewStation | src/main/java/com/semantyca/aivox/streaming/RadioStationPool.java:89-100 | a new name is pooled with a fresh active bundle whose supplier has initialized the brand |
| StationRegistry.RadioStationPool.CreateBundle | src/main/java/com/semantyca/aivox/streaming/RadioStationPool.java:89-95 | the new bundle has fresh managers sharing the pool's waiting provider and an initialized stream |
| StationRegistry.RadioStationPool.AddBundle | src/main/java/com/semantyca/aivox/streaming/RadioStationPool.java:89-97 | the bundle is pooled under its brand |
| StationRegistry.RadioStationPool.InitializeSupplier | src/main/java/com/semantyca/aivox/streaming/RadioStationPool.java:97-100 | only the station's supplier initializes the brand |
| StationRegistry.RadioStationPool.StopAndRemoveStation | src/main/java/com/semantyca/aivox/streaming/RadioStationPool.java:112-128 | a pooled station is shut down and removed; an unknown name changes nothing |
| StationRegistry.RadioStationPool.StartListed | src/main/java/com/semantyca/aivox/streaming/RadioStationPool.java:66-72 | one whitelist entry ends up pooled and the other stations are untouched |
| StationRegistry.RadioStationPool.InitStationsFromWhitelist | src/main/java/com/semantyca/aivox/streaming/RadioStationPool.java:62-76 | afterwards every listed name is pooled, nothing else is added, and the stations already pooled are untouched |
| BrandMemory.BulletsConcat | src/main/java/com/semantyca/aivox/memory/BrandMemoryManager.java:46-48 | the lines of two runs of entries are the lines of each in order |
| BrandMemory.RecentSpec | src/main/java/com/semantyca/aivox/memory/BrandMemoryManager.java:56-64 | after add the list is the newest min(size + 1, maxEntries) entries and ends with the new one |
| BrandMemory.AddThenRecall | src/main/java/com/semantyca/aivox/memory/BrandMemoryManager.java:35-64 | without a stored summary, the memory read right after an add ends with the line of the new entry |
| BrandMemory.NextCountSpec | src/main/java/com/semantyca/aivox/memory/BrandMemoryManager.java:67-73 | the counter counts additions modulo summarizeEvery and stays in range |
| BrandMemory.AppendBullets | src/main/java/com/semantyca/aivox/memory/BrandMemoryManager.java:46-48 | the line-building loop writes one "- text" line per entry in order |
| BrandMemory.ResetDue | src/main/java/com/semantyca/aivox/memory/BrandMemoryManager.java:116-122 | the scheduled loop resets exactly the cached brands whose counter reached summarizeEvery |
| BrandMemory.BrandMemoryManager.constructor | src/main/java/com/semantyca/aivox/memory/BrandMemoryManager.java:21-32 | a new manager has no cached entries and no counters, for any configured maxEntries and summarizeEvery |
| BrandMemory.BrandMemoryManager.GetMemory | src/main/java/com/semantyca/aivox/memory/BrandMemoryManager.java:34-54 | the stored summary when there is one, else the recent interactions, else null |
| BrandMemory.BrandMemoryManager.Add | src/main/java/com/semantyca/aivox/memory/BrandMemoryManager.java:56-74 | the call throws exactly when maxEntries is negative, after the entry was appended and before the counter moves; otherwise the brand's list gains the entry and is trimmed to maxEntries, and its counter advances modulo summarizeEvery |
| BrandMemory.BrandMemoryManager.Remember | src/main/java/com/semantyca/aivox/memory/BrandMemoryManager.java:57-64 | the list half of add: the entry is appended, then the list is trimmed to its last maxEntries, or subList throws when maxEntries is negative with the entry kept |
| BrandMemory.BrandMemoryManager.CountAddition | src/main/java/com/semantyca/aivox/memory/BrandMemoryManager.java:67-73 | the counter half of add |
| BrandMemory.BrandMemoryManager.SummarizeMemories | src/main/java/com/semantyca/aivox/memory/BrandMemoryManager.java:76-90 | the prompt lists every cached entry; nothing is sent for a brand without entries |
| BrandMemory.BrandMemoryManager.ScheduledSummarizeMemories | src/main/java/com/semantyca/aivox/memory/BrandMemoryManager.java:112-129 | the scheduled pass resets exactly the due brands, and since add already resets a counter on reaching summarizeEvery, it never finds one (summarizeEvery >= 1) |
| SoundFilter.ActivationSpec | src/main/java/com/semantyca/aivox/model/soundfragment/SoundFragmentFilter.java:16-44 | a new filter is off; the flag switches it on; a search term alone switches it on exactly when it has a character above a space |
| SoundQueries.AppendQuoted | src/main/java/com/semantyca/aivox/repository/soundfragment/SoundFragmentQueryBuilder.java:51-58 | the indexed loop writes the single-quoted values with ", " between neighbours |
| SoundQueries.Quotes | src/main/java/com/semantyca/aivox/repository/soundfragment/SoundFragmentQueryBuilder.java:51-58 | each value is quoted in place |
| SoundQueries.QuotedListIsJoin | src/main/java/com/semantyca/aivox/repository/soundfragment/SoundFragmentQueryBuilder.java:51-58 | the loop's text is String.join(", ") of the quoted values |
| SoundQueries.RenderAppend | src/main/java/com/semantyca/aivox/repository/soundfragment/SoundFragmentQueryBuilder.java:10-42 | the text of a clause list is the text of its parts in order |
| SoundQueries.FilterTextNonEmpty | src/main/java/com/semantyca/aivox/repository/soundfragment/SoundFragmentQueryBuilder.java:44-88 | every filter clause writes some text |
| SoundQueries.BuilderClausesKind | src/main/java/com/semantyca/aivox/repository/soundfragment/SoundFragmentQueryBuilder.java:44-88 | the query builder writes only filter clauses |
| SoundQueries.BuildersAgree | src/main/java/com/semantyca/aivox/repository/soundfragment/SoundFragmentRepositoryAbstract.java:158-200 | the two builders write the same genre, label, source and type clauses; the query builder only adds the search clause first, and neither reads the flag |
| SoundQueries.BuildersAgreeText | src/main/java/com/semantyca/aivox/repository/soundfragment/SoundFragmentQueryBuilder.java:44-88 | the same agreement on the generated text |
| SoundQueries.RenderFilterClauses | src/main/java/com/semantyca/aivox/repository/soundfragment/SoundFragmentQueryBuilder.java:44-88 | filter clauses render to nothing only when there are none |
| SoundQueries.ConditionsEmptySpec | src/main/java/com/semantyca/aivox/repository/soundfragment/SoundFragmentQueryBuilder.java:44-88 | the conditions are empty exactly when the filter sets nothing (the search term counting only for the query builder) |
| SoundQueries.FilterPartKind | src/main/java/com/semantyca/aivox/repository/soundfragment/SoundFragmentQueryBuilder.java:27-29 | the filter part of a query holds only filter clauses |
| SoundQueries.AssembleHead | src/main/java/com/semantyca/aivox/repository/soundfragment/SoundFragmentQueryBuilder.java:15-21 | any assembled query starts with the columns, the similarity column exactly when searching, then the table, the reader join and the reader condition |
| SoundQueries.AssembleTail | src/main/java/com/semantyca/aivox/repository/soundfragment/SoundFragmentQueryBuilder.java:31-39 | any assembled query orders by similarity exactly when searching, else by date, and ends with LIMIT/OFFSET exactly when limit > 0 |
| SoundQueries.AssembleFilter | src/main/java/com/semantyca/aivox/repository/soundfragment/SoundFragmentQueryBuilder.java:23-29 | the archived clause appears exactly when archived rows are excluded, and no filter clause appears that was not asked for |
| SoundQueries.GetAllHeadSpec | src/main/java/com/semantyca/aivox/repository/soundfragment/SoundFragmentQueryBuilder.java:15-21 | buildGetAllQuery starts with the columns, the similarity column exactly when the term is non-blank, then the table and the reader |
| SoundQueries.GetAllTailSpec | src/main/java/com/semantyca/aivox/repository/soundfragment/SoundFragmentQueryBuilder.java:31-39 | buildGetAllQuery orders by similarity exactly when searching, and pages exactly when limit > 0 |
| SoundQueries.GetAllFilterSpec | src/main/java/com/semantyca/aivox/repository/soundfragment/SoundFragmentQueryBuilder.java:23-29 | buildGetAllQuery excludes archived rows unless asked, and writes filter clauses only for a present, activated filter, and only that filter's |
| SoundQueries.EmptyFilterQuery | src/main/java/com/semantyca/aivox/repository/soundfragment/SoundFragmentQueryBuilder.java:27-29 | a filter that sets nothing gives the same query as no filter |
| BrandQueries.Numbers | src/main/java/com/semantyca/aivox/repository/brand/BrandRepository.java:59 | placeholder numbers run 1, 2, ..., n |
| BrandQueries.OpeningSpec | src/main/java/com/semantyca/aivox/repository/brand/BrandRepository.java:55-57 | the opening text ends with the reader condition at $1 and uses no other placeholder |
| BrandQueries.CountrySpec | src/main/java/com/semantyca/aivox/repository/brand/BrandRepository.java:63-65 | the country condition uses exactly its own placeholder |
| BrandQueries.SearchSpec | src/main/java/com/semantyca/aivox/repository/brand/BrandRepository.java:66-70 | the search condition uses exactly its two consecutive placeholders |
| BrandQueries.AppendArchived | src/main/java/com/semantyca/aivox/repository/brand/BrandRepository.java:60-62 | the archived condition is written unless archived rows are wanted, with no placeholder |
| BrandQueries.AppendCountry | src/main/java/com/semantyca/aivox/repository/brand/BrandRepository.java:63-65 | a given country writes its condition at the running placeholder, which then moves on by one |
| BrandQueries.AppendSearch | src/main/java/com/semantyca/aivox/repository/brand/BrandRepository.java:66-70 | a given query writes its condition at the next two placeholders, which then move on by two |
| BrandQueries.BuildParams | src/main/java/com/semantyca/aivox/repository/brand/BrandRepository.java:76-84 | the parameter tuple is grown in placeholder order |
| BrandQueries.WherePieces | src/main/java/com/semantyca/aivox/repository/brand/BrandRepository.java:54-70 | the WHERE text numbers its placeholders 1, 2, ... without gaps, as many as the given conditions need |
| BrandQueries.AppendWhere | src/main/java/com/semantyca/aivox/repository/brand/BrandRepository.java:54-84 | placeholder i of the WHERE text is bound to the i-th parameter |
| BrandQueries.TailSpec | src/main/java/com/semantyca/aivox/repository/brand/BrandRepository.java:71-74 | the ordering and page use no placeholder |
| BrandQueries.GetAll | src/main/java/com/semantyca/aivox/repository/brand/BrandRepository.java:53-91 | the listing statement binds every placeholder it mentions, in order, to the matching parameter |
| BrandQueries.GetAllCount | src/main/java/com/semantyca/aivox/repository/brand/BrandRepository.java:93-125 | the counting statement has the same conditions and bindings as the listing, without ordering or page |
| BrandQueries.BrandParamsSpec | src/main/java/com/semantyca/aivox/repository/brand/BrandRepository.java:76-84 | the tuple is the reader, the upper-cased country when given, and the lower-cased %query% twice when given; a blank country or query is neither a condition nor a parameter |
| BrandQueries.PlaceholderOrder | src/main/java/com/semantyca/aivox/repository/brand/BrandRepository.java:59-70 | the search placeholders follow the country's: $2 and $3 without a country, $3 and $4 with one |
| BrandQueries.BitRate | src/main/java/com/semantyca/aivox/repository/brand/BrandRepository.java:315-320 | a missing or empty bit-rate array gives 128000; a parsed rate is a long |
| BrandQueries.BitRateRoundTrip | src/main/java/com/semantyca/aivox/repository/brand/BrandRepository.java:315-320 | a stored rate written in decimal reads back as itself, whatever follows it in the array |
| Rating.SecondsBetween | src/main/java/com/semantyca/aivox/repository/soundfragment/SoundFragmentBrandRepository.java:358-362 | the whole seconds between two instants, rounded toward negative infinity |
| Rating.Clamp | src/main/java/com/semantyca/aivox/repository/soundfragment/SoundFragmentBrandRepository.java:372-377 | the rating lies in 0..200 and is the value itself when that is in range |
| Rating.RateAsWritten | src/main/java/com/semantyca/aivox/repository/soundfragment/SoundFragmentBrandRepository.java:331-377 | the rule with the 32-bit sum: refused without edit permission, and any written rating lies in 0..200 |
| Rating.Rate | src/main/java/com/semantyca/aivox/repository/soundfragment/SoundFragmentBrandRepository.java:331-377 | refused without edit permission; refused for waiting exactly when a same-direction rating comes within two seconds of the last; otherwise accepted with a rating in 0..200 |
| Rating.CooldownWindow | src/main/java/com/semantyca/aivox/repository/soundfragment/SoundFragmentBrandRepository.java:358-370 | the cooldown refuses exactly ratings less than two seconds after the last one |
| Rating.FirstRating | src/main/java/com/semantyca/aivox/repository/soundfragment/SoundFragmentBrandRepository.java:346-356 | without a row the sum starts from neutral 100 and no cooldown applies; a row with no rating time is not held back and its sum starts from the stored rating, 100 when that is null |
| Rating.TowardNeutralAlwaysAllowed | src/main/java/com/semantyca/aivox/repository/soundfragment/SoundFragmentBrandRepository.java:363 | a zero delta, or one back toward neutral, is never held back, and a zero delta keeps the rating |
| Rating.RateMonotone | src/main/java/com/semantyca/aivox/repository/soundfragment/SoundFragmentBrandRepository.java:372-377 | from the same row a larger delta never gives a lower rating |
| Rating.CooldownExpires | src/main/java/com/semantyca/aivox/repository/soundfragment/SoundFragmentBrandRepository.java:358-370 | two seconds after the last rating any rating is accepted |
| Rating.AsWrittenAgrees | src/main/java/com/semantyca/aivox/repository/soundfragment/SoundFragmentBrandRepository.java:372-377 | where the sum fits in an int, the rule as written and the corrected one agree |
| Rating.OverflowFlipsRating | src/main/java/com/semantyca/aivox/repository/soundfragment/SoundFragmentBrandRepository.java:372-377 | on an existing row never rated or holding a positive rating, a delta of INT_MAX is written as 0 by the rule as written and as 200 by the corrected one |
| Associations.WithoutMembers | src/main/java/com/semantyca/aivox/repository/soundfragment/SoundFragmentBrandAssociationHandler.java:33-39 | the difference filter keeps exactly the elements not in the other list |
| Associations.WithoutCount | src/main/java/com/semantyca/aivox/repository/soundfragment/SoundFragmentBrandAssociationHandler.java:33-35 | it keeps each kept element as often as the list holds it |
| Associations.WithoutAppend | src/main/java/com/semantyca/aivox/repository/soundfragment/SoundFragmentBrandAssociationHandler.java:33-39 | it keeps the list's order |
| Associations.WithoutElements | src/main/java/com/semantyca/aivox/repository/soundfragment/SoundFragmentBrandAssociationHandler.java:33-39 | as sets, the filter is set difference |
| Associations.InsertStatements | src/main/java/com/semantyca/aivox/repository/soundfragment/SoundFragmentBrandAssociationHandler.java:48-54 | nothing is issued exactly for a null or empty list; otherwise one insert of every requested brand |
| Associations.UpdateStatementsShape | src/main/java/com/semantyca/aivox/repository/soundfragment/SoundFragmentBrandAssociationHandler.java:56-81 | an update issues at most one delete and one insert, for the fragment only, never with an empty list |
| Associations.ApplyAppend | src/main/java/com/semantyca/aivox/repository/soundfragment/SoundFragmentBrandAssociationHandler.java:41-44 | issuing two statement runs one after the other is issuing their concatenation |
| Associations.UpdateReachesRequested | src/main/java/com/semantyca/aivox/repository/soundfragment/SoundFragmentBrandAssociationHandler.java:20-46 | after the update the fragment is associated with exactly the requested brands |
| Associations.UpdateOrderIrrelevant | src/main/java/com/semantyca/aivox/repository/soundfragment/SoundFragmentBrandAssociationHandler.java:41-44 | the delete and insert lists are disjoint, so either order of the two concurrent statements gives the same associations |
| Associations.UpdateIdle | src/main/java/com/semantyca/aivox/repository/soundfragment/SoundFragmentBrandAssociationHandler.java:21-23 | nothing is issued exactly when the list is null or names the current brands |
| Associations.InsertMultiplicity | src/main/java/com/semantyca/aivox/repository/soundfragment/SoundFragmentBrandAssociationHandler.java:33-35 | a requested brand not yet current is inserted once per time the list names it |
| Associations.InsertReachesRequested | src/main/java/com/semantyca/aivox/repository/soundfragment/SoundFragmentBrandAssociationHandler.java:48-54 | a fresh fragment ends up associated with every requested brand |
| Contribution.NextWorkflowSpec | src/main/java/com/semantyca/aivox/model/soundfragment/ContributionWorkflow.java:20-29 | setting a status fails exactly when a previous status must be recorded into a null history; otherwise the status is set and the history grows by exactly the change (previous, new) when there was a previous status |
| Contribution.FirstStatusNotRecorded | src/main/java/com/semantyca/aivox/model/soundfragment/ContributionWorkflow.java:21-28 | the first status leaves no trace in the history |
| Contribution.SameStatusRecorded | src/main/java/com/semantyca/aivox/model/soundfragment/ContributionWorkflow.java:21-27 | setting the current status again still records a change |
| Contribution.ChainPreserved | src/main/java/com/semantyca/aivox/model/soundfragment/ContributionWorkflow.java:20-29 | with non-null statuses the history stays a chain ending at the current status |
| Contribution.NullStatusLeavesGap | src/main/java/com/semantyca/aivox/model/soundfragment/ContributionWorkflow.java:20-29 | a null status breaks the chain: nothing records the change that leaves it |
| Contribution.FreshWorkflowFailsOnSecondStatus | src/main/java/com/semantyca/aivox/model/soundfragment/ContributionWorkflow.java:14-27 | a workflow fresh from its constructor fails on its second status change, its history being null |
| Contribution.ContributionWorkflow.constructor | src/main/java/com/semantyca/aivox/model/soundfragment/ContributionWorkflow.java:14-17 | every field is null |
| Contribution.ContributionWorkflow.SetStatusChangeHistory | src/main/java/com/semantyca/aivox/model/soundfragment/ContributionWorkflow.java:16 | only the history changes |
| Contribution.ContributionWorkflow.SetStatus | src/main/java/com/semantyca/aivox/model/soundfragment/ContributionWorkflow.java:20-29 | fails and changes nothing exactly when the history is null and a previous status exists; otherwise the workflow takes its next state |
| SongSupply.Limit | src/main/java/com/semantyca/aivox/service/playlist/SongSupplier.java:70 | limit(n) keeps the first min(n, size) items and refuses a negative n |
| SongSupply.NotExcludedSpec | src/main/java/com/semantyca/aivox/service/playlist/SongSupplier.java:69 | the exclusion filter keeps exactly the songs not excluded |
| SongSupply.BrandSongsSpec | src/main/java/com/semantyca/aivox/service/playlist/SongSupplier.java:59-73 | an empty list yields nothing; a negative quantity fails; otherwise at most quantity songs of the brand, none excluded, and every non-excluded song when the quantity covers them |
| SongSupply.NextSongSpec | src/main/java/com/semantyca/aivox/service/playlist/SongSupplier.java:75-87 | getNextSong hands out at most quantity songs of the brand, all of them (shuffled) when the quantity covers the list |
| SongSupply.FilterFromRequest | src/main/java/com/semantyca/aivox/service/playlist/SongSupplier.java:167-175 | the filter carries the request's lists and search term and is not switched on by its flag |
| SongSupply.FilterFromRequestActivation | src/main/java/com/semantyca/aivox/service/playlist/SongSupplier.java:167-175 | the built filter is active exactly when the request narrows the selection |
| SongSupply.FetchSpec | src/main/java/com/semantyca/aivox/service/playlist/SongSupplier.java:136 | the fetch size is three times the quantity while that fits in an int, never less than the quantity |
| SongSupply.QueryRequest | src/main/java/com/semantyca/aivox/service/playlist/SongSupplier.java:129-138 | no query exactly for a null or empty type list; otherwise the built filter and a fetch size at least the quantity |
| SongSupply.QueryAndStaticSpec | src/main/java/com/semantyca/aivox/service/playlist/SongSupplier.java:129-165 | both selections hand out nothing when their guard holds, and otherwise at most quantity of the songs the repository found |
| SongSupply.LastUnderscoreOfKey | src/main/java/com/semantyca/aivox/service/playlist/SongSupplier.java:90 | the last underscore of a cache key is the one after the brand name when the type has none |
| SongSupply.CacheKeyInjective | src/main/java/com/semantyca/aivox/service/playlist/SongSupplier.java:90 | two cache keys agree only for the same brand and type |
| SongSupply.CacheStepSpec | src/main/java/com/semantyca/aivox/service/playlist/SongSupplier.java:89-127 | a miss with a known brand returns the loaded list, which is served unchanged for five minutes and then reloaded; other keys are untouched |
| SongSupply.CacheMissWithoutBrand | src/main/java/com/semantyca/aivox/service/playlist/SongSupplier.java:109-114 | a miss without a brand id and with a failed slug lookup fails with "Brand not found" and leaves the cache alone |
| SongSupply.SongSupplier.constructor | src/main/java/com/semantyca/aivox/service/playlist/SongSupplier.java:34 | a new supplier has an empty cache |
| SongSupply.SongSupplier.GetBrandDataCached | src/main/java/com/semantyca/aivox/service/playlist/SongSupplier.java:89-127 | the result and new cache are the cache step's, and a miss hands out the loaded songs in some order |
| SongSupply.SupplierSongMemory.constructor | src/main/java/com/semantyca/aivox/service/playlist/SupplierSongMemory.java:12 | nothing is played yet |
| SongSupply.SupplierSongMemory.UpdateLastSelected | src/main/java/com/semantyca/aivox/service/playlist/SupplierSongMemory.java:14-16 | every selected song now counts as played and no played song is forgotten |
| SongSupply.SupplierSongMemory.Reset | src/main/java/com/semantyca/aivox/service/playlist/SupplierSongMemory.java:22-24 | no song counts as played |

## Left out

- Concurrency is not modelled. This covers the executors, schedulers, locks, the Mutiny `Uni`/`Multi` pipelines and the timer streams. Each public operation is one atomic step, and ticks are explicit method calls. `SliderTimer` is not part of this model; the slide it triggers is `Streaming.StreamManager.SlideWindow`.
- Randomness and time are parameters:
  - `Math.random` draws: the tick quantity is chosen by a caller-given predicate;
  - shuffles: an arbitrary permutation, constrained only by multiset equality;
  - `UUID.randomUUID`: an id function;
  - clocks: numbers in milliseconds or nanoseconds.
- The slicing of MP3 files (FFmpeg), the copying of class-path resources, database execution, the LLM and TTS calls, HTTP resources and messaging are not modelled. Their outcomes enter as parameters. The SQL builders are modelled down to the statement text and the parameter tuple; the rows mapped by `BrandRepository.from`, other than the bit rate, are not modelled.
- Rating.Rate: returns the rating the update writes rather than the affected row count the source returns. With no row the UPDATE matches nothing, so nothing is written and the source returns 0; the model still returns the rating such an update would write.
- SongSupply.FilterFromRequest: null elements inside the request's lists are not modelled.
- SongSupply.CacheStepSpec: a null fragment type in the cache key is not modelled. Keys are proved distinct only for type names without '_'.
- Associations.UpdateReachesRequested: the delete and the insert are issued concurrently in the source. The model applies the delete first, and `Associations.UpdateOrderIrrelevant` shows the order does not matter.
- Contribution.ContributionWorkflow.SetStatus: statuses are carried by name. The `ApprovalStatus` enum is not part of this model.
- Common.ParseLong: ASCII digits only. Java's `parseLong` also accepts the other Unicode decimal digits (`Character.digit`); segment names carrying those are not modelled.
- Common.Lower, Common.Upper, Common.EqualsIgnoreCaseLower: `toLowerCase`, `toUpperCase` and `equalsIgnoreCase` are modelled on ASCII letters only.
- FragmentQueues.HeadIndex: among elements the comparator ranks equal, `PriorityQueue` may hand out any of them. The model hands out the earliest queued.
- StreamWindow.FirstValue: `HashMap` iteration order is modelled as the smallest key first. This is the bucket order for the two ladder bitrates 64000 and 128000.
- Streaming.StreamManager.FeedSegments: the order in which brands are visited is not modelled; the contract holds for any order.
- FragmentQueues.Admit, ServicePlaylist.PlaylistManager.AddFragment, LegacyPlaylist.PlaylistManager.AddFragment, WaitingAudio.CloneSegment: fragments and segments are values. So two effects of shared objects are not captured. First, `setPriority` changes the caller's fragment before the capacity check, so a refused fragment's priority still changes and a fragment queued for two brands shares one priority (service/playlist/PlaylistManager.java:269, streaming/PlaylistManager.java:205). Second, a cloned segment shares its byte payload with the original (streaming/WaitingAudioProvider.java:98-104).
- BrandMemory.BrandMemoryManager.Add: the summarisation started inside `add` is never subscribed in the source, so it has no effect. Only the counter reset is modelled.
- BrandMemory.BrandMemoryManager.SummarizeMemories: the model stops at the prompt. The LLM call, the save and the cache clear that follow it are not modelled.
- FeederTimer.SegmentFeederTimer.Tick: each tick is one method call. In the source, the `ArithmeticException` a zero duration throws inside `.map` ends the broadcast `Multi`, so every subscriber gets the failure and no further tick comes; the model returns None and may be ticked again.
- FeederTimer.SegmentFeederTimer.GetTicker: requires a positive duration. The source fails otherwise: by division by zero for 0, and with a negative delay and period handed to the Mutiny ticks for a negative value.
- `MixplaNameResolver` and `CachedBrandData.java` are not part of this model; the slug lookup enters as a parameter. The DTOs, REST resources, TTS engines and `RadioDJProcessor` are outside this core.

## Findings

| source | as written | input that shows it | evidently intended | confidence | as-written member | corrected member |
|---|---|---|---|---|---|---|
| src/main/java/com/semantyca/aivox/repository/soundfragment/SoundFragmentBrandRepository.java:372-377 | `currentRating + delta` is computed in 32-bit `int` arithmetic before the clamp, so a large delta wraps around to a negative sum | an existing row never rated (rating null, read as 100), delta = 2147483647: the sum wraps to -2147483549 and the clamp writes 0 | the clamp applied to the exact sum, writing 200 | not executed | Rating.OverflowFlipsRating | Rating.Rate |
| src/main/java/com/semantyca/aivox/streaming/StreamManager.java:122-131 | the segment pattern's brand group (line 28) `[^_]+` cannot hold '_', while the manifest writes the whole lower-cased brand into each file name | brand "my_radio": the manifest lists my_radio_128000_5.ts, find() reads the brand group as "radio", equalsIgnoreCase("my_radio") fails and null is returned, for this and every other name | every listed name resolves, for every non-empty brand key (a non-negative requested bitrate a long can hold) | not executed | StreamWindow.UnderscoreBrandNotServed | StreamWindow.ManifestRoundTripWhole |
