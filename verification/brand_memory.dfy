/** The DJ's short-term memory per brand (BrandMemoryManager): a bounded list
    of recent interactions and a counter of additions since the last
    summary. The stored daily summary is a parameter; the language model
    call, the repository and the clock are outside the model. */
module BrandMemory {
  import opened Common

  datatype MemoryEntry = MemoryEntry(text: string, timestamp: int)

  /** The row stored for a brand and a day; its summary column may be null. */
  datatype StoredMemory = StoredMemory(summary: Option<string>)

  const DEFAULT_MAX_ENTRIES: int := 20
  const DEFAULT_SUMMARIZE_EVERY: int := 5
  const RECENT_HEADER: string := "Recent interactions:\n"
  const PROMPT_HEADER: string := "Summarize the following radio DJ interactions into a concise memory:\n\n"
  const PROMPT_FOOTER: string := "\nProvide a brief summary that captures the key patterns and context."

  /** One line per entry: "- " then the text then a newline, in order. */
  function Bullets(entries: seq<MemoryEntry>): string {
    if entries == [] then ""
    else Bullets(entries[..|entries| - 1]) + "- " + entries[|entries| - 1].text + "\n"
  }

  /** The lines of two runs of entries are the lines of each, in order. */
  lemma {:induction false} BulletsConcat(a: seq<MemoryEntry>, b: seq<MemoryEntry>)
    ensures Bullets(a + b) == Bullets(a) + Bullets(b)
    decreases |b|
  {
    if b == [] {
      assert a + b == a;
    } else {
      var last := b[|b| - 1];
      assert (a + b)[..|a + b| - 1] == a + b[..|b| - 1];
      BulletsConcat(a, b[..|b| - 1]);
      AppendAssoc(Bullets(a), Bullets(b[..|b| - 1]), "- " + last.text + "\n");
    }
  }

  /** What getMemory yields: the stored summary when there is a row, else the
      recent interactions when there are any, else null (None). */
  function MemoryText(stored: Option<StoredMemory>, entries: seq<MemoryEntry>): Option<string> {
    if stored.Some? then stored.value.summary
    else if entries != [] then Some(RECENT_HEADER + Bullets(entries))
    else None
  }

  /** The prompt summarizeMemories sends, or None when there is nothing to
      summarize (it then completes at once). */
  function SummaryPrompt(entries: seq<MemoryEntry>): Option<string> {
    if entries == [] then None else Some(PROMPT_HEADER + Bullets(entries) + PROMPT_FOOTER)
  }

  /** The list after add: the new entry appended, then only the newest
      maxEntries kept. */
  function Recent(entries: seq<MemoryEntry>, entry: MemoryEntry, maxEntries: nat): seq<MemoryEntry> {
    var all := entries + [entry];
    if |all| > maxEntries then all[|all| - maxEntries..] else all
  }

  /** The counter after add: one more, back to 0 once it reaches summarizeEvery. */
  function NextCount(count: int, summarizeEvery: int): int {
    if count + 1 >= summarizeEvery then 0 else count + 1
  }

  /** The values a counter can hold between additions. */
  predicate CountInRange(count: int, summarizeEvery: int) {
    0 <= count && (count < summarizeEvery || count == 0)
  }

  /** add keeps the newest entries in insertion order: the result is a suffix
      of the old list plus the new entry, exactly min(n + 1, maxEntries)
      long, ending with the new entry unless nothing may be kept. */
  lemma RecentSpec(entries: seq<MemoryEntry>, entry: MemoryEntry, maxEntries: nat)
    ensures var r := Recent(entries, entry, maxEntries);
      && |r| == Min(|entries| + 1, maxEntries)
      && r == (entries + [entry])[|entries| + 1 - |r|..]
      && (maxEntries > 0 ==> r[|r| - 1] == entry)
  {
  }

  /** With no stored summary, the memory read right after an add lists the
      kept entries and ends with the line of the new one. */
  lemma AddThenRecall(entries: seq<MemoryEntry>, entry: MemoryEntry, maxEntries: nat)
    requires maxEntries > 0
    ensures var r := Recent(entries, entry, maxEntries);
      && MemoryText(None, r) == Some(RECENT_HEADER + Bullets(r[..|r| - 1]) + "- " + entry.text + "\n")
  {
    RecentSpec(entries, entry, maxEntries);
    var r := Recent(entries, entry, maxEntries);
    var b := Bullets(r[..|r| - 1]);
    assert Bullets(r) == b + "- " + entry.text + "\n";
    AppendAssoc(RECENT_HEADER, b + "- " + entry.text, "\n");
    AppendAssoc(RECENT_HEADER, b + "- ", entry.text);
    AppendAssoc(RECENT_HEADER, b, "- ");
  }

  /** The counter counts additions modulo summarizeEvery, and stays in range,
      so a single Java int never overflows. */
  lemma NextCountSpec(count: int, summarizeEvery: int)
    requires CountInRange(count, summarizeEvery)
    ensures CountInRange(NextCount(count, summarizeEvery), summarizeEvery)
    ensures summarizeEvery >= 1 ==> NextCount(count, summarizeEvery) == (count + 1) % summarizeEvery
    ensures summarizeEvery <= 1 ==> NextCount(count, summarizeEvery) == 0
  {
  }

  /** The line-building loop of getMemory and summarizeMemories. */
  method AppendBullets(prefix: string, entries: seq<MemoryEntry>) returns (text: string)
    ensures text == prefix + Bullets(entries)
  {
    text := prefix;
    var i := 0;
    while i < |entries|
      invariant 0 <= i <= |entries|
      invariant text == prefix + Bullets(entries[..i])
    {
      assert entries[..i + 1][..i] == entries[..i];
      text := text + "- " + entries[i].text + "\n";
      i := i + 1;
    }
    assert entries[..|entries|] == entries;
  }

  function CountIn(counts: map<string, int>, brand: string): int {
    if brand in counts then counts[brand] else 0
  }

  /** The cached brands whose counter has reached summarizeEvery. */
  function Due(brands: set<string>, counts: map<string, int>, summarizeEvery: int): set<string> {
    set b | b in brands && CountIn(counts, b) >= summarizeEvery
  }

  /** The loop of the scheduled pass, over a snapshot of the cached brands. */
  method ResetDue(brands: set<string>, counts: map<string, int>, summarizeEvery: int)
    returns (next: map<string, int>, summarized: set<string>)
    ensures summarized == Due(brands, counts, summarizeEvery)
    ensures next.Keys == counts.Keys + summarized
    ensures forall b :: b in next ==> next[b] == if b in summarized then 0 else counts[b]
  {
    next := counts;
    summarized := {};
    var pending := brands;
    while pending != {}
      invariant pending <= brands
      invariant forall b :: b in summarized <==> b in brands && b !in pending && CountIn(counts, b) >= summarizeEvery
      invariant forall b :: b in next <==> b in counts || b in summarized
      invariant forall b :: b in next ==> next[b] == if b in summarized then 0 else counts[b]
      decreases |pending|
    {
      var brand := PickKey(pending);
      assert CountIn(next, brand) == CountIn(counts, brand);
      if CountIn(next, brand) >= summarizeEvery {
        next := next[brand := 0];
        summarized := summarized + {brand};
      }
      pending := pending - {brand};
    }
    assert summarized == Due(brands, counts, summarizeEvery);
    assert next.Keys == counts.Keys + summarized;
  }

  class BrandMemoryManager {
    var inMemoryCache: map<string, seq<MemoryEntry>>
    var processingCount: map<string, int>
    const maxEntries: int
    const summarizeEvery: int

    /** No cached list is longer than a non-negative maxEntries. */
    ghost predicate Bounded()
      reads this
    {
      maxEntries >= 0 ==> forall b :: b in inMemoryCache ==> |inMemoryCache[b]| <= maxEntries
    }

    /** Every counter is in range. */
    ghost predicate Counting()
      reads this
    {
      forall b :: b in processingCount ==> CountInRange(processingCount[b], summarizeEvery)
    }

    ghost predicate Valid()
      reads this
    {
      Bounded() && Counting()
    }

    constructor (maxEntries: int, summarizeEvery: int)
      ensures Valid() && inMemoryCache == map[] && processingCount == map[]
      ensures this.maxEntries == maxEntries && this.summarizeEvery == summarizeEvery
    {
      this.maxEntries := maxEntries;
      this.summarizeEvery := summarizeEvery;
      inMemoryCache := map[];
      processingCount := map[];
    }

    function EntriesOf(brand: string): seq<MemoryEntry>
      reads this
    {
      if brand in inMemoryCache then inMemoryCache[brand] else []
    }

    function CountOf(brand: string): int
      reads this
    {
      if brand in processingCount then processingCount[brand] else 0
    }

    /** getMemory; the repository's row for today is the parameter. */
    method GetMemory(brand: string, stored: Option<StoredMemory>) returns (r: Option<string>)
      ensures r == MemoryText(stored, EntriesOf(brand))
    {
      if stored.Some? {
        return stored.value.summary;
      }
      if brand in inMemoryCache && inMemoryCache[brand] != [] {
        var text := AppendBullets(RECENT_HEADER, inMemoryCache[brand]);
        return Some(text);
      }
      return None;
    }

    /** add: the entry is appended and the list trimmed to the newest
        maxEntries; the counter goes up by one and back to 0 when it reaches
        summarizeEvery (the summary it asks for is never subscribed to, so
        it changes nothing). With a negative maxEntries the trim's subList
        throws IndexOutOfBoundsException (`thrown`) after the entry was
        appended, and the counter is left alone. */
    method Add(brand: string, text: string, nowMillis: int) returns (thrown: bool)
      requires Valid()
      modifies this
      ensures Valid()
      ensures thrown <==> maxEntries < 0
      ensures thrown ==> inMemoryCache == old(inMemoryCache)[brand := old(EntriesOf(brand)) + [MemoryEntry(text, nowMillis)]]
                         && processingCount == old(processingCount)
      ensures !thrown ==> inMemoryCache == old(inMemoryCache)[brand := Recent(old(EntriesOf(brand)), MemoryEntry(text, nowMillis), maxEntries)]
      ensures !thrown ==> processingCount == old(processingCount)[brand := NextCount(old(CountOf(brand)), summarizeEvery)]
    {
      thrown := Remember(brand, MemoryEntry(text, nowMillis));
      if !thrown {
        CountAddition(brand);
      }
    }

    /** The list half of add: append, then trim, which throws for a
        negative maxEntries and leaves the untrimmed list in place. */
    method Remember(brand: string, entry: MemoryEntry) returns (thrown: bool)
      requires Bounded()
      modifies this
      ensures Bounded()
      ensures thrown <==> maxEntries < 0
      ensures thrown ==> inMemoryCache == old(inMemoryCache)[brand := old(EntriesOf(brand)) + [entry]]
      ensures !thrown ==> inMemoryCache == old(inMemoryCache)[brand := Recent(old(EntriesOf(brand)), entry, maxEntries)]
      ensures processingCount == old(processingCount)
    {
      var entries := EntriesOf(brand) + [entry];
      if |entries| > maxEntries && |entries| - maxEntries > |entries| {
        // subList(0, size - maxEntries) with an end index beyond the size
        inMemoryCache := inMemoryCache[brand := entries];
        return true;
      }
      if |entries| > maxEntries {
        entries := entries[|entries| - maxEntries..];
      }
      thrown := false;
      RecentSpec(EntriesOf(brand), entry, maxEntries);
      inMemoryCache := inMemoryCache[brand := entries];
    }

    /** The counter half of add. */
    method CountAddition(brand: string)
      requires Counting()
      modifies this
      ensures Counting()
      ensures processingCount == old(processingCount)[brand := NextCount(old(CountOf(brand)), summarizeEvery)]
      ensures inMemoryCache == old(inMemoryCache)
    {
      NextCountSpec(CountOf(brand), summarizeEvery);
      var count := CountOf(brand) + 1;
      if count >= summarizeEvery {
        count := 0;
      }
      processingCount := processingCount[brand := count];
    }

    /** summarizeMemories up to the model call: the prompt it would send,
        None when the brand has no entries. */
    method SummarizeMemories(brand: string) returns (prompt: Option<string>)
      ensures prompt == SummaryPrompt(EntriesOf(brand))
    {
      if brand !in inMemoryCache || inMemoryCache[brand] == [] {
        return None;
      }
      var text := AppendBullets(PROMPT_HEADER, inMemoryCache[brand]);
      prompt := Some(text + PROMPT_FOOTER);
    }

    /** scheduledSummarizeMemories: every cached brand whose counter has
        reached summarizeEvery is summarized and its counter reset to 0;
        nothing else changes. Because add already resets a counter that
        reaches summarizeEvery, no brand is ever due when summarizeEvery is
        at least 1. When it is 0 or less every cached brand is due, and the
        source clears each one's cache after the LLM call; the cache is kept
        here only because SummarizeMemories stops at the prompt (see its line
        under "Left out" in the README). */
    method ScheduledSummarizeMemories() returns (summarized: set<string>)
      requires Valid()
      modifies this
      ensures Valid()
      ensures summarized == Due(old(inMemoryCache).Keys, old(processingCount), summarizeEvery)
      ensures inMemoryCache == old(inMemoryCache)
      ensures processingCount.Keys == old(processingCount).Keys + summarized
      ensures forall b :: b in processingCount ==>
        processingCount[b] == if b in summarized then 0 else old(processingCount)[b]
      ensures summarizeEvery >= 1 ==> summarized == {}
    {
      var next;
      next, summarized := ResetDue(inMemoryCache.Keys, processingCount, summarizeEvery);
      if summarizeEvery >= 1 {
        forall b | b in inMemoryCache
          ensures b !in summarized
        {
          assert CountOf(b) < summarizeEvery;
        }
      }
      processingCount := next;
    }
  }
}
