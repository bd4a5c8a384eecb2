/**
 * The AI analysis of a stock and its cache: one entry per symbol holding the
 * analysis and the time it was saved, served for seven days; and the decision
 * logic of `get_ai_analysis`, which consults the cache before generating a new
 * analysis and stores only an analysis that was generated successfully.
 *
 * Times are integers in microseconds, the resolution of the stored timestamps.
 * The generator is an external service: its outcome is a parameter.
 */
module AiCache {
  import opened Wrappers

  /**
   * The analysis object. Each key may be absent from the JSON object the
   * generator returned; an object without any of them is the empty object.
   */
  datatype Analysis = Analysis(moat: Option<string>, catalysts: Option<seq<string>>, risks: Option<seq<string>>)

  /** A Python dict is truthy when it has at least one key. */
  predicate Truthy(a: Analysis) {
    a.moat.Some? || a.catalysts.Some? || a.risks.Some?
  }

  /** Seven days, in microseconds. */
  const Week: int := 7 * 24 * 60 * 60 * 1000000

  /** One cache row: the analysis and the time it was saved. */
  datatype Entry = Entry(data: Analysis, savedAt: int)

  /** The cached analysis for `symbol`, if there is one saved less than seven days before `now`. */
  function Lookup(entries: map<string, Entry>, symbol: string, now: int): (r: Option<Analysis>)
    ensures r.Some? <==> symbol in entries && now - entries[symbol].savedAt < Week
    ensures r.Some? ==> r.value == entries[symbol].data
  {
    if symbol in entries && now - entries[symbol].savedAt < Week then Some(entries[symbol].data) else None
  }

  /** Storing replaces any previous row for the symbol. */
  function Stored(entries: map<string, Entry>, symbol: string, data: Analysis, now: int): (r: map<string, Entry>)
    ensures r.Keys == entries.Keys + {symbol}
    ensures r[symbol] == Entry(data, now)
    ensures forall s :: s in entries && s != symbol ==> r[s] == entries[s]
  {
    entries[symbol := Entry(data, now)]
  }

  /** A lookup right after a save sees the saved analysis, until it is a week old; other symbols are unaffected. */
  lemma LookupAfterStore(entries: map<string, Entry>, symbol: string, data: Analysis, savedAt: int, other: string, now: int)
    ensures Lookup(Stored(entries, symbol, data, savedAt), other, now) ==
      if other == symbol then (if now - savedAt < Week then Some(data) else None)
      else Lookup(entries, other, now)
  {
  }

  /** A cached analysis expires exactly a week after it was saved, and stays expired. */
  lemma Expiry(entries: map<string, Entry>, symbol: string, now: int, later: int)
    requires symbol in entries && now <= later
    ensures Lookup(entries, symbol, now).None? ==> Lookup(entries, symbol, later).None?
    ensures Lookup(entries, symbol, entries[symbol].savedAt + Week).None?
  {
  }

  /** The `ai_cache` table. */
  class AnalysisCache {
    var entries: map<string, Entry>

    constructor ()
      ensures entries == map[]
    {
      entries := map[];
    }

    /** `get_cached_analysis`: the stored analysis when it is fresh. */
    method Get(symbol: string, now: int) returns (r: Option<Analysis>)
      ensures r == Lookup(entries, symbol, now)
      ensures r.Some? <==> symbol in entries && now - entries[symbol].savedAt < Week
    {
      r := None;
      if symbol in entries {
        var row := entries[symbol];
        if now - row.savedAt < Week {
          r := Some(row.data);
        }
      }
    }

    /** `save_cached_analysis`: insert or replace the row for `symbol`. */
    method Save(symbol: string, data: Analysis, now: int)
      modifies this
      ensures entries == Stored(old(entries), symbol, data, now)
    {
      entries := entries[symbol := Entry(data, now)];
    }
  }

  /** Returned when no API key is configured. */
  const MissingKeyAnalysis :=
    Analysis(Some("Error: API Key is missing in .env file"), Some(["System Config Error"]), Some(["System Config Error"]))

  /** Returned when generation or parsing fails. */
  const UnavailableAnalysis := Analysis(Some("Analysis Unavailable"), Some([]), Some([]))

  /** What the generator produced, had it been called: a parsed analysis, or an error. */
  datatype Generation = Generated(data: Analysis) | GenerationFailed

  /** The result of `get_ai_analysis`, the cache afterwards, and whether generation was attempted. */
  datatype Outcome = Outcome(result: Analysis, entries: map<string, Entry>, attempted: bool)

  /**
   * The cache answers the call: a fresh entry holding a non-empty analysis.
   * A missing, stale or empty entry is a miss.
   */
  predicate ServedFromCache(entries: map<string, Entry>, symbol: string, now: int) {
    Lookup(entries, symbol, now).Some? && Truthy(Lookup(entries, symbol, now).value)
  }

  /** The decision made by `get_ai_analysis`. */
  function Decide(entries: map<string, Entry>, symbol: string, hasKey: bool, generation: Generation, now: int): Outcome
  {
    var cached := Lookup(entries, symbol, now);
    if cached.Some? && Truthy(cached.value) then Outcome(cached.value, entries, false)
    else if !hasKey then Outcome(MissingKeyAnalysis, entries, false)
    else match generation
      case Generated(data) => Outcome(data, Stored(entries, symbol, data, now), true)
      case GenerationFailed => Outcome(UnavailableAnalysis, entries, true)
  }

  /**
   * `get_ai_analysis`. `hasKey` is whether an API key is configured;
   * `generation` is what the generator yields if it is called.
   */
  method GetAiAnalysis(cache: AnalysisCache, symbol: string, hasKey: bool, generation: Generation, now: int)
    returns (r: Analysis, attempted: bool)
    modifies cache
    ensures Outcome(r, cache.entries, attempted) == Decide(old(cache.entries), symbol, hasKey, generation, now)
  {
    attempted := false;
    var cached := cache.Get(symbol, now);
    if cached.Some? && Truthy(cached.value) {
      return cached.value, attempted;
    }
    if !hasKey {
      return MissingKeyAnalysis, attempted;
    }
    attempted := true;
    match generation {
      case Generated(data) =>
        cache.Save(symbol, data, now);
        r := data;
      case GenerationFailed =>
        r := UnavailableAnalysis;
    }
  }

  /** A fresh, non-empty cached analysis is returned as is, without generating and without touching the cache. */
  lemma CacheHitWins(entries: map<string, Entry>, symbol: string, hasKey: bool, generation: Generation, now: int)
    requires symbol in entries && now - entries[symbol].savedAt < Week && Truthy(entries[symbol].data)
    ensures Decide(entries, symbol, hasKey, generation, now) == Outcome(entries[symbol].data, entries, false)
  {
  }

  /**
   * Without an API key: a fresh, non-empty cached analysis is still served;
   * only after a miss comes the missing-key answer. Generation is never tried.
   */
  lemma MissingKeyOnlyOnMiss(entries: map<string, Entry>, symbol: string, generation: Generation, now: int)
    ensures var o := Decide(entries, symbol, false, generation, now);
      var cached := Lookup(entries, symbol, now);
      && !o.attempted
      && o.entries == entries
      && o.result == (if cached.Some? && Truthy(cached.value) then cached.value else MissingKeyAnalysis)
  {
  }

  /**
   * The cache changes only when a generation was attempted and succeeded, and
   * then exactly the row for `symbol` is replaced by the new analysis.
   */
  lemma OnlySuccessIsSaved(entries: map<string, Entry>, symbol: string, hasKey: bool, generation: Generation, now: int)
    ensures var o := Decide(entries, symbol, hasKey, generation, now);
      o.entries != entries ==>
        o.attempted && generation.Generated? && o.result == generation.data &&
        o.entries == Stored(entries, symbol, generation.data, now)
    ensures var o := Decide(entries, symbol, hasKey, generation, now);
      generation.GenerationFailed? ==> o.entries == entries
  {
  }

  /**
   * On any miss, including a fresh entry holding the empty object, a failed
   * generation yields the "Analysis Unavailable" answer with empty lists.
   */
  lemma FailureIsUnavailable(entries: map<string, Entry>, symbol: string, now: int)
    requires !ServedFromCache(entries, symbol, now)
    ensures Decide(entries, symbol, true, GenerationFailed, now) == Outcome(UnavailableAnalysis, entries, true)
    ensures var o := Decide(entries, symbol, true, GenerationFailed, now);
      o.result.moat == Some("Analysis Unavailable") && o.result.catalysts == Some([]) && o.result.risks == Some([])
  {
  }

  /**
   * After any miss, a successful generation is served from the cache by the
   * next call within a week, unless the generated analysis is the empty object.
   */
  lemma GeneratedThenCached(entries: map<string, Entry>, symbol: string, data: Analysis, now: int, later: int,
                            generation: Generation)
    requires !ServedFromCache(entries, symbol, now) && Truthy(data)
    requires now <= later < now + Week
    ensures var first := Decide(entries, symbol, true, Generated(data), now);
      first.result == data &&
      Decide(first.entries, symbol, true, generation, later) == Outcome(data, first.entries, false)
  {
  }
}
