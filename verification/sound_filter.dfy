/** The search filter over sound fragments (SoundFragmentFilter). Enum
    values (source types, item types) are carried by their names, which is
    all the query builders read of them; a null list or search term is None. */
module SoundFilter {
  import opened Common
  import opened HlsTypes

  datatype SoundFragmentFilter = SoundFragmentFilter(
    activated: bool,
    genre: Option<seq<Uuid>>,
    labels: Option<seq<Uuid>>,
    source: Option<seq<string>>,
    types: Option<seq<string>>,
    searchTerm: Option<string>)

  /** `new SoundFragmentFilter()`: the flag off and every other field null. */
  const NEW_FILTER: SoundFragmentFilter := SoundFragmentFilter(false, None, None, None, None, None)

  /** `xs != null && !xs.isEmpty()`. */
  predicate Present<T>(xs: Option<seq<T>>) {
    xs.Some? && xs.value != []
  }

  /** Some list holds a value, or the search term has a non-blank character. */
  predicate HasAnyFilter(f: SoundFragmentFilter) {
    || Present(f.genre) || Present(f.labels) || Present(f.source) || Present(f.types)
    || HasText(f.searchTerm)
  }

  predicate IsActivated(f: SoundFragmentFilter) {
    f.activated || HasAnyFilter(f)
  }

  /** A fresh filter is off; the flag alone switches a filter on; a search
      term switches it on exactly when trimming leaves something, so a term
      of spaces and control characters alone does not. */
  lemma ActivationSpec(f: SoundFragmentFilter, term: string)
    ensures !IsActivated(NEW_FILTER)
    ensures f.activated ==> IsActivated(f)
    ensures IsActivated(NEW_FILTER.(searchTerm := Some(term))) <==> exists i :: 0 <= i < |term| && term[i] > ' '
    ensures IsActivated(NEW_FILTER.(activated := true))
  {
  }
}
