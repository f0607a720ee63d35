/**
 * A .NET `TimeSpan` as a whole number of 100-nanosecond ticks, with the two
 * conversions the retry policy uses: building a span from milliseconds and
 * the C# cast `(int)span.TotalMilliseconds`, which truncates toward zero.
 */
module TimeSpans {

  const TicksPerMillisecond: int := 10_000

  datatype TimeSpan = TimeSpan(ticks: int)

  /** `(int)t.TotalMilliseconds` for a span whose millisecond count fits an `int`: rounds toward zero. */
  function TruncatedMilliseconds(t: TimeSpan): (ms: int)
    ensures 0 <= t.ticks ==> 0 <= ms && ms * TicksPerMillisecond <= t.ticks < (ms + 1) * TicksPerMillisecond
    ensures t.ticks < 0 ==> ms <= 0 && (ms - 1) * TicksPerMillisecond < t.ticks <= ms * TicksPerMillisecond
  {
    if 0 <= t.ticks then t.ticks / TicksPerMillisecond else -((-t.ticks) / TicksPerMillisecond)
  }

  /** `TimeSpan.FromMilliseconds(ms)` for an integral `ms`; reading it back as milliseconds gives `ms`. */
  function FromMilliseconds(ms: int): (t: TimeSpan)
    ensures IsWholeMilliseconds(t)
    ensures TruncatedMilliseconds(t) == ms
  {
    TimeSpan(ms * TicksPerMillisecond)
  }

  /** A span that is an exact number of milliseconds. */
  predicate IsWholeMilliseconds(t: TimeSpan) {
    t.ticks % TicksPerMillisecond == 0
  }

  /** Truncating to milliseconds and converting back loses nothing exactly when the span is whole milliseconds. */
  lemma WholeMillisecondsRoundTrip(t: TimeSpan)
    ensures FromMilliseconds(TruncatedMilliseconds(t)) == t <==> IsWholeMilliseconds(t)
  {
  }
}
