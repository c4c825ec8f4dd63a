/** The rating rule applied when a brand rates one of its sound fragments
    (SoundFragmentBrandRepository.updateRatedByBrandCount): the permission
    check, the neutral default, the two-second cooldown against repeated
    ratings in the same direction, and the clamp to 0..200. The permission
    lookup, the row and the clock are parameters; the outcome is the rating
    the update statement writes, or the error the call fails with. Times are
    nanoseconds on the local date-time line. */
module Rating {
  import opened Common

  const NEUTRAL_RATING: int := 100
  const MIN_RATING: int := 0
  const MAX_RATING: int := 200
  const COOLDOWN_SECONDS: int := 2
  const NANOS_PER_SECOND: int := 1_000_000_000

  /** The stored association row: the rating column and the time of the
      last rating, each possibly null. */
  datatype RatingRow = RatingRow(rated: Option<Int32>, lastRatedAt: Option<int>)

  datatype RatingError =
    | AccessDenied      // DocumentModificationAccessException: no edit permission
    | WaitBeforeRating  // IllegalStateException "Please wait before rating again."

  /** The rating before this one: the stored value, or neutral when there is
      no row or the column is null. */
  function CurrentRating(row: Option<RatingRow>): Int32 {
    if row.Some? && row.value.rated.Some? then row.value.rated.value else NEUTRAL_RATING
  }

  function LastRatedAt(row: Option<RatingRow>): Option<int> {
    if row.Some? then row.value.lastRatedAt else None
  }

  /** `Duration.between(last, now).getSeconds()`: whole seconds, rounded
      toward negative infinity (a last rating in the future gives a negative
      count). */
  function SecondsBetween(last: int, now: int): (r: int)
    ensures r * NANOS_PER_SECOND <= now - last < (r + 1) * NANOS_PER_SECOND
  {
    (now - last) / NANOS_PER_SECOND
  }

  /** A rating that pushes further from neutral in the direction it already
      leans. */
  predicate SameDirection(delta: int, current: int) {
    (delta > 0 && current > NEUTRAL_RATING) || (delta < 0 && current < NEUTRAL_RATING)
  }

  /** The cooldown rejects the rating. */
  predicate TooSoon(row: Option<RatingRow>, now: int, delta: int) {
    && LastRatedAt(row).Some?
    && SecondsBetween(LastRatedAt(row).value, now) < COOLDOWN_SECONDS
    && SameDirection(delta, CurrentRating(row))
  }

  function Clamp(x: int): (r: int)
    ensures MIN_RATING <= r <= MAX_RATING
    ensures MIN_RATING <= x <= MAX_RATING ==> r == x
    ensures x < MIN_RATING ==> r == MIN_RATING
    ensures x > MAX_RATING ==> r == MAX_RATING
  {
    if x < MIN_RATING then MIN_RATING else if x > MAX_RATING then MAX_RATING else x
  }

  /** The new rating as the source computes it: `currentRating + delta` in
      32-bit arithmetic, then clamped. */
  function NewRatingAsWritten(current: Int32, delta: Int32): int {
    Clamp(WrapInt32(current + delta))
  }

  /** The new rating as intended: the exact sum, clamped. */
  function NewRating(current: Int32, delta: Int32): int {
    Clamp(current + delta)
  }

  /** The decision as written in the source. */
  function RateAsWritten(canEdit: bool, row: Option<RatingRow>, now: int, delta: Int32): (r: Result<int, RatingError>)
    ensures !canEdit ==> r == Err(AccessDenied)
    ensures r.Ok? ==> MIN_RATING <= r.value <= MAX_RATING
  {
    if !canEdit then Err(AccessDenied)
    else if TooSoon(row, now, delta) then Err(WaitBeforeRating)
    else Ok(NewRatingAsWritten(CurrentRating(row), delta))
  }

  /** The decision with the overflow corrected. The permission check comes
      first, so a caller without edit permission is refused whatever the row
      holds; the cooldown refuses exactly a same-direction rating less than
      two whole seconds after the last one; any other rating succeeds and
      lands in 0..200. */
  function Rate(canEdit: bool, row: Option<RatingRow>, now: int, delta: Int32): (r: Result<int, RatingError>)
    ensures !canEdit ==> r == Err(AccessDenied)
    ensures r == Err(WaitBeforeRating) <==> canEdit && TooSoon(row, now, delta)
    ensures canEdit && !TooSoon(row, now, delta) <==> r.Ok?
    ensures r.Ok? ==> MIN_RATING <= r.value <= MAX_RATING
  {
    if !canEdit then Err(AccessDenied)
    else if TooSoon(row, now, delta) then Err(WaitBeforeRating)
    else Ok(NewRating(CurrentRating(row), delta))
  }

  /** The cooldown window in plain time: less than two whole seconds means
      less than two seconds' worth of nanoseconds, so 1.999 s after the last
      rating is refused and 2 s after it is not. */
  lemma CooldownWindow(last: int, now: int)
    ensures SecondsBetween(last, now) < COOLDOWN_SECONDS <==> now - last < COOLDOWN_SECONDS * NANOS_PER_SECOND
  {
    var s := SecondsBetween(last, now);
    if s < COOLDOWN_SECONDS {
      assert s + 1 <= COOLDOWN_SECONDS;
      assert (s + 1) * NANOS_PER_SECOND <= COOLDOWN_SECONDS * NANOS_PER_SECOND;
    } else {
      assert s * NANOS_PER_SECOND >= COOLDOWN_SECONDS * NANOS_PER_SECOND;
    }
  }

  /** Without a row the rating starts from neutral and no cooldown applies.
      A row with no rating time is not held back either; its sum starts from
      the stored rating (neutral when that is null). */
  lemma FirstRating(now: int, delta: Int32, rated: Option<Int32>)
    ensures Rate(true, None, now, delta) == Ok(Clamp(NEUTRAL_RATING + delta))
    ensures Rate(true, Some(RatingRow(rated, None)), now, delta) == Ok(Clamp(CurrentRating(Some(RatingRow(rated, None))) + delta))
  {
  }

  /** A zero delta, and a rating back toward neutral, are never held back by
      the cooldown; a zero delta leaves an in-range rating as it was. */
  lemma TowardNeutralAlwaysAllowed(row: Option<RatingRow>, now: int, delta: Int32)
    requires delta == 0 || (delta < 0 && CurrentRating(row) >= NEUTRAL_RATING)
                        || (delta > 0 && CurrentRating(row) <= NEUTRAL_RATING)
    ensures Rate(true, row, now, delta).Ok?
    ensures delta == 0 && MIN_RATING <= CurrentRating(row) <= MAX_RATING ==> Rate(true, row, now, delta) == Ok(CurrentRating(row))
  {
  }

  /** From the same row, a larger delta never gives a lower rating. */
  lemma RateMonotone(row: Option<RatingRow>, now: int, d1: Int32, d2: Int32)
    requires d1 <= d2
    requires Rate(true, row, now, d1).Ok? && Rate(true, row, now, d2).Ok?
    ensures Rate(true, row, now, d1).value <= Rate(true, row, now, d2).value
  {
  }

  /** Once the cooldown has passed, any rating is accepted. */
  lemma CooldownExpires(row: Option<RatingRow>, now: int, delta: Int32)
    requires LastRatedAt(row).Some? && now - LastRatedAt(row).value >= COOLDOWN_SECONDS * NANOS_PER_SECOND
    ensures Rate(true, row, now, delta).Ok?
  {
    CooldownWindow(LastRatedAt(row).value, now);
  }

  /** Where the 32-bit sum does not overflow, the source's rule and the
      corrected one agree; in particular for every rating the rule itself can
      have stored and every delta of at most INT_MAX - 200 in size. */
  lemma AsWrittenAgrees(canEdit: bool, row: Option<RatingRow>, now: int, delta: Int32)
    requires INT_MIN <= CurrentRating(row) + delta <= INT_MAX
    ensures RateAsWritten(canEdit, row, now, delta) == Rate(canEdit, row, now, delta)
  {
  }

  /** The overflow: on an existing row that was never rated, or that holds
      a positive rating, a delta of INT_MAX wraps the 32-bit sum round to a
      negative number, which the clamp turns into 0 instead of 200. (Without
      a row the UPDATE matches nothing, so only an existing row shows it.) */
  lemma OverflowFlipsRating(rated: Option<Int32>, now: int)
    requires rated.None? || rated.value > 0
    ensures RateAsWritten(true, Some(RatingRow(rated, None)), now, INT_MAX) == Ok(MIN_RATING)
    ensures Rate(true, Some(RatingRow(rated, None)), now, INT_MAX) == Ok(MAX_RATING)
  {
    var c := CurrentRating(Some(RatingRow(rated, None)));
    assert 0 < c <= INT_MAX;
    var x := c + INT_MAX - INT_MIN;
    assert 0x1_0000_0000 <= x < 2 * 0x1_0000_0000;
    assert x % 0x1_0000_0000 == x - 0x1_0000_0000;
    assert WrapInt32(c + INT_MAX) == c + INT_MAX - 0x1_0000_0000 < 0;
  }
}
