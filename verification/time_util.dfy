/** Times as clock ticks, and the range of times the program works with. */
module TimeUtil {
  import opened Outcomes

  const TICKS_PER_MS := 1_000_000
  const MIN_VALID_MS := 946_684_800_000
  const MAX_VALID_MS := 7_258_118_400_000

  predicate TimeValid(ticks: int) {
    MIN_VALID_MS * TICKS_PER_MS <= ticks <= MAX_VALID_MS * TICKS_PER_MS
  }

  /** Milliseconds of a supported time; a part below the millisecond is cut off. */
  function ToMilliseconds(ticks: int): Option<int> {
    if TimeValid(ticks) then Some(ticks / TICKS_PER_MS) else None
  }

  function FromMilliseconds(ms: int): Option<int> {
    if MIN_VALID_MS <= ms <= MAX_VALID_MS then Some(ms * TICKS_PER_MS) else None
  }

  lemma TimeRoundTrip(ticks: int)
    requires ToMilliseconds(ticks).Some?
    ensures FromMilliseconds(ToMilliseconds(ticks).value) == Some(ticks - ticks % TICKS_PER_MS)
    ensures ToMilliseconds(ticks).value >= MIN_VALID_MS
  {
  }
}
