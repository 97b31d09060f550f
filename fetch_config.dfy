/** The request client's process-wide configuration: four integers that a
    partial update may overwrite field by field. */
module FetchConfig {
  import opened Wrappers

  /** A snapshot of the configuration (`{ ...fetchConfig }`). */
  datatype Settings = Settings(attempts: int, baseDelayMs: int, maxDelayMs: int, timeoutMs: int)

  /** A `Partial<FetchConfig>`: each field either given or left out. */
  datatype Partial = Partial(attempts: Option<int>, baseDelayMs: Option<int>,
                             maxDelayMs: Option<int>, timeoutMs: Option<int>)

  /** The values the configuration starts with. */
  const Defaults: Settings := Settings(3, 100, 2000, 5000)

  /** The partial that names every field of `s`. */
  function Full(s: Settings): Partial {
    Partial(Some(s.attempts), Some(s.baseDelayMs), Some(s.maxDelayMs), Some(s.timeoutMs))
  }

  /** The partial update: every field `p` gives replaces the current one, and
      every field it leaves out is kept. */
  function Merge(s: Settings, p: Partial): (r: Settings)
    ensures p.attempts.Some? ==> r.attempts == p.attempts.value
    ensures p.attempts.None? ==> r.attempts == s.attempts
    ensures p.baseDelayMs.Some? ==> r.baseDelayMs == p.baseDelayMs.value
    ensures p.baseDelayMs.None? ==> r.baseDelayMs == s.baseDelayMs
    ensures p.maxDelayMs.Some? ==> r.maxDelayMs == p.maxDelayMs.value
    ensures p.maxDelayMs.None? ==> r.maxDelayMs == s.maxDelayMs
    ensures p.timeoutMs.Some? ==> r.timeoutMs == p.timeoutMs.value
    ensures p.timeoutMs.None? ==> r.timeoutMs == s.timeoutMs
  {
    Settings(p.attempts.GetOr(s.attempts), p.baseDelayMs.GetOr(s.baseDelayMs),
             p.maxDelayMs.GetOr(s.maxDelayMs), p.timeoutMs.GetOr(s.timeoutMs))
  }

  /** Applying the same partial twice is the same as applying it once. */
  lemma MergeIdempotent(s: Settings, p: Partial)
    ensures Merge(Merge(s, p), p) == Merge(s, p)
  {
  }

  /** Applying a full snapshot restores exactly that snapshot, whatever came before. */
  lemma MergeFullRestores(s: Settings, snapshot: Settings)
    ensures Merge(s, Full(snapshot)) == snapshot
  {
  }

  /** The empty partial changes nothing. */
  lemma MergeEmpty(s: Settings)
    ensures Merge(s, Partial(None, None, None, None)) == s
  {
  }

  /** Two partials applied one after the other: the later one wins on every
      field it gives. */
  lemma MergeTwice(s: Settings, p: Partial, q: Partial)
    ensures Merge(Merge(s, p), q) ==
            Merge(s, Partial(if q.attempts.Some? then q.attempts else p.attempts,
                             if q.baseDelayMs.Some? then q.baseDelayMs else p.baseDelayMs,
                             if q.maxDelayMs.Some? then q.maxDelayMs else p.maxDelayMs,
                             if q.timeoutMs.Some? then q.timeoutMs else p.timeoutMs))
  {
  }

  /** The shared, mutable `fetchConfig` object. */
  class Config {
    var attempts: int
    var baseDelayMs: int
    var maxDelayMs: int
    var timeoutMs: int

    /** The configuration as a value. */
    function Snapshot(): Settings
      reads this
    {
      Settings(attempts, baseDelayMs, maxDelayMs, timeoutMs)
    }

    /** The object as the module creates it: three attempts, 100 ms base delay,
        2000 ms delay cap, 5000 ms per-attempt timeout. */
    constructor ()
      ensures Snapshot() == Defaults
      ensures attempts == 3 && baseDelayMs == 100 && maxDelayMs == 2000 && timeoutMs == 5000
    {
      attempts, baseDelayMs, maxDelayMs, timeoutMs := 3, 100, 2000, 5000;
    }

    /** `setFetchConfig(p)`: merge `p` into the object in place. */
    method SetFetchConfig(p: Partial)
      modifies this
      ensures Snapshot() == Merge(old(Snapshot()), p)
    {
      if p.attempts.Some? { attempts := p.attempts.value; }
      if p.baseDelayMs.Some? { baseDelayMs := p.baseDelayMs.value; }
      if p.maxDelayMs.Some? { maxDelayMs := p.maxDelayMs.value; }
      if p.timeoutMs.Some? { timeoutMs := p.timeoutMs.value; }
    }
  }
}
