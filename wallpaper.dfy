// The decision the wallpaper effect of index.tsx reaches once its fetch has
// settled: which background is shown, whether a fetch is made and which URL
// is written back to the cache.  The network request itself is an input:
// either it yields a JSON body with a `url`, or it fails.

module Wallpaper {
  import opened Types

  /** The fixed background used when no wallpaper is available. */
  const FallbackUrl: string := "https://images.unsplash.com/photo-1497366216548-37526070297c?auto=format&fit=crop&q=80&w=2000"

  /** How the daily-image request ended.  A body whose `url` is missing is
      `Fetched("")`: the source treats it like a failure. */
  datatype FetchOutcome = Fetched(url: string) | FetchFailed

  predicate Succeeded(outcome: FetchOutcome) {
    outcome.Fetched? && outcome.url != ""
  }

  /** The settled result of the effect. */
  datatype Background = Background(url: string, loading: bool, fetches: bool, saves: Option<string>)

  /** The cached URL when it is truthy, the fallback otherwise. */
  function SavedOrFallback(saved: Option<string>): (r: string)
    ensures r != ""
    ensures Present(saved) ==> r == saved.value
    ensures !Present(saved) ==> r == FallbackUrl
  {
    if Present(saved) then saved.value else FallbackUrl
  }

  /** The effect's outcome from the cached URL, whether the cache is from
      today, and how the fetch ended (ignored when no fetch is made). */
  function Refresh(saved: Option<string>, fetchedToday: bool, outcome: FetchOutcome): (r: Background)
    ensures !r.loading && r.url != ""
    ensures r.fetches <==> !fetchedToday
    ensures r.saves.Some? <==> !fetchedToday && Succeeded(outcome)
    ensures r.saves.Some? ==> r.url == r.saves.value == outcome.url
    ensures r.saves.None? ==> r.url == SavedOrFallback(saved)
  {
    if fetchedToday then Background(SavedOrFallback(saved), false, false, None)
    else if Succeeded(outcome) then Background(outcome.url, false, true, Some(outcome.url))
    else Background(SavedOrFallback(saved), false, true, None)
  }

  /** Once the cache is from today, the fetch outcome does not matter. */
  lemma FreshCacheIgnoresFetch(saved: Option<string>, a: FetchOutcome, b: FetchOutcome)
    ensures Refresh(saved, true, a) == Refresh(saved, true, b)
  {
  }
}
