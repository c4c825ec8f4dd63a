/** The shared segment clock (SegmentFeederTimer): a ticker that first fires
    on the next wall-clock multiple of the segment duration and then every
    segment duration, each tick carrying the current epoch second rounded
    down to that grid. The wall clock is a parameter (epoch milliseconds). */
module FeederTimer {
  import opened Common

  const DEFAULT_DURATION_SEC: int := 6

  /** Instant.getEpochSecond of an instant given in epoch milliseconds. */
  function EpochSecond(nowMillis: int): int {
    nowMillis / 1000
  }

  /** Whole seconds from now to the next multiple of d, counting a full
      period when now is already on the grid. */
  function SecondsUntilNextBoundary(d: int, epochSecond: int): int
    requires d > 0
  {
    d - JavaRem(epochSecond, d)
  }

  /** initialDelayMillis: from now to the start of the boundary second. */
  function InitialDelayMillis(d: int, nowMillis: int): int
    requires d > 0
  {
    var s := EpochSecond(nowMillis);
    var boundary := s + SecondsUntilNextBoundary(d, s);
    boundary * 1000 - nowMillis
  }

  /** The value every tick carries: the epoch second rounded toward zero to a
      multiple of the duration (Java's `t - t % d`). */
  function TickValue(d: int, epochSecond: int): int
    requires d > 0
  {
    epochSecond - JavaRem(epochSecond, d)
  }

  /** For a clock after the epoch the first tick lands exactly on the next
      grid second: the first multiple of the duration after the current
      second, strictly in the future and at most one period away. */
  lemma InitialDelaySpec(d: int, nowMillis: int)
    requires d > 0 && nowMillis >= 0
    ensures var s := EpochSecond(nowMillis);
      && nowMillis + InitialDelayMillis(d, nowMillis) == (s / d + 1) * d * 1000
      && (s / d) * d <= s < (s / d + 1) * d
    ensures 0 < InitialDelayMillis(d, nowMillis) <= d * 1000
  {
    var s := EpochSecond(nowMillis);
    var q := s / d;
    var r := s % d;
    assert s == q * d + r && 0 <= r < d;
    assert JavaRem(s, d) == r;
    var u := d - r;
    assert (q + 1) * d == q * d + d;
    assert s + u == (q + 1) * d;
    var m := nowMillis % 1000;
    assert nowMillis == s * 1000 + m && 0 <= m < 1000;
    assert InitialDelayMillis(d, nowMillis) == u * 1000 - m;
    assert (q + 1) * d * 1000 == (s + u) * 1000;
  }

  /** A tick value is a multiple of the duration within one period of the
      clock: the grid second at or below it after the epoch, at or above it
      before (Java's remainder truncates toward zero). */
  lemma TickValueSpec(d: int, t: int)
    requires d > 0
    ensures t >= 0 ==> TickValue(d, t) == (t / d) * d && t - d < TickValue(d, t) <= t
    ensures t < 0 ==> TickValue(d, t) == -(((-t) / d) * d) && t <= TickValue(d, t) < t + d
  {
    if t >= 0 {
      var q := t / d;
      var r := t % d;
      assert t == q * d + r && 0 <= r < d;
      assert JavaRem(t, d) == r;
    } else {
      var a := -t;
      var q := a / d;
      var r := a % d;
      assert a == q * d + r && 0 <= r < d;
      assert JavaRem(t, d) == -r;
    }
  }

  /** The ticker as created: when it first fires and how often. */
  datatype Ticker = Ticker(initialDelayMillis: int, periodSeconds: int)

  class SegmentFeederTimer {
    var durationSec: int
    var ticker: Option<Ticker>
    /** Whether the logging subscription made with the ticker exists and
        whether cleanup has cancelled it. */
    var subscribed: bool
    var cancelled: bool

    constructor ()
      ensures durationSec == DEFAULT_DURATION_SEC && ticker.None? && !subscribed && !cancelled
    {
      durationSec := DEFAULT_DURATION_SEC;
      ticker := None;
      subscribed := false;
      cancelled := false;
    }

    method SetDurationSec(d: int)
      modifies this
      ensures durationSec == d
      ensures ticker == old(ticker) && subscribed == old(subscribed) && cancelled == old(cancelled)
    {
      durationSec := d;
    }

    /** getTicker: created on first use from the duration and clock of that
        moment, then the same ticker for good (a later duration change does
        not alter its period). */
    method GetTicker(nowMillis: int) returns (t: Ticker)
      requires ticker.None? ==> durationSec > 0
      modifies this
      ensures durationSec == old(durationSec) && cancelled == old(cancelled)
      ensures old(ticker).Some? ==> t == old(ticker).value && ticker == old(ticker) && subscribed == old(subscribed)
      ensures old(ticker).None? ==>
        t == Ticker(InitialDelayMillis(durationSec, nowMillis), durationSec) && ticker == Some(t) && subscribed
    {
      if ticker.None? {
        var secondsUntilNextBoundary := durationSec - JavaRem(EpochSecond(nowMillis), durationSec);
        var nextBoundarySecond := EpochSecond(nowMillis) + secondsUntilNextBoundary;
        var initialDelayMillis := nextBoundarySecond * 1000 - nowMillis;
        ticker := Some(Ticker(initialDelayMillis, durationSec));
        subscribed := true;
      }
      t := ticker.value;
    }

    /** The value one tick emits; it reads the duration current at tick time.
        A duration set to 0 after the ticker exists makes the remainder throw
        (ArithmeticException), shown as None; a negative one is used as it
        stands, and Java's remainder by a negative divisor equals the
        remainder by its magnitude. */
    method Tick(nowMillis: int) returns (v: Option<int>)
      ensures v.None? <==> durationSec == 0
      ensures durationSec > 0 ==> v == Some(TickValue(durationSec, EpochSecond(nowMillis)))
      ensures durationSec < 0 ==> v == Some(TickValue(-durationSec, EpochSecond(nowMillis)))
    {
      if durationSec == 0 {
        return None;
      }
      var currentTimestamp := EpochSecond(nowMillis);
      v := Some(currentTimestamp - JavaRem(currentTimestamp, durationSec));
    }

    /** cleanup: cancels the subscription if there is one. */
    method Cleanup()
      modifies this
      ensures cancelled == (old(cancelled) || subscribed)
      ensures durationSec == old(durationSec) && ticker == old(ticker) && subscribed == old(subscribed)
    {
      if subscribed {
        cancelled := true;
      }
    }
  }
}
