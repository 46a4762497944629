/**
 * The repository panel: fetchAndRenderRepos and renderRepos. A cache entry in
 * browser storage is served while it is younger than 30 minutes; otherwise the
 * GitHub API is asked, the answer cached best-effort and rendered, and a failed
 * request shows a fixed message and leaves the cache alone.
 */
module RepoPanel {
  import opened Wrappers
  import opened Repos
  import opened Cards

  /** CACHE_TTL: 30 minutes, in milliseconds. */
  const CacheTtl: int := 30 * 60 * 1000

  /** The value stored under the cache key, as JSON.parse would see it. */
  datatype Stored =
    | Missing                                  // no item, or the empty string
    | Unparsable                               // JSON.parse or the destructuring throws
    | Entry(timestamp: int, data: seq<Repo>)   // { timestamp, data }

  /** How the API request ended: a list of repositories, or a thrown error / non-ok status. */
  datatype FetchOutcome = Fetched(repos: seq<Repo>) | FetchFailed

  /** What the grid element holds. */
  datatype GridItem =
    | RepoCard(card: Card)
    | NoReposNotice     // "No public repositories found."
    | LoadFailedNotice  // "Failed to load repositories." with a link to the GitHub profile

  /** The repositories the cache serves at time `now`, if it serves any. */
  function CachedRepos(stored: Stored, now: int): (r: Option<seq<Repo>>)
    ensures r.Some? <==> stored.Entry? && now - stored.timestamp < CacheTtl
    ensures r.Some? ==> r.value == stored.data
  {
    match stored
    case Entry(timestamp, data) => if now - timestamp < CacheTtl then Some(data) else None
    case _ => None
  }

  /** An entry that is stale at `now` stays stale at every later time. */
  lemma StaleStaysStale(stored: Stored, now: int, later: int)
    requires CachedRepos(stored, now).None? && now <= later
    ensures CachedRepos(stored, later).None?
  {
  }

  function CardsOf(s: seq<Repo>): (items: seq<GridItem>)
  {
    seq(|s|, i requires 0 <= i < |s| => RepoCard(CardOf(s[i])))
  }

  /** What renderRepos leaves in the grid for the list `repos`. */
  function GridView(repos: seq<Repo>): (items: seq<GridItem>)
  {
    var shown := Select(repos);
    if shown == [] then [NoReposNotice] else CardsOf(shown)
  }

  /**
   * The grid holds the placeholder alone exactly when nothing survives the filter,
   * and otherwise one card per surviving repository, in sorted order; excluded
   * repositories and forks never get a card.
   */
  lemma {:induction false} GridViewShape(repos: seq<Repo>)
    ensures GridView(repos) == [NoReposNotice] <==> Select(repos) == []
    ensures Select(repos) != [] ==>
      |GridView(repos)| == |Select(repos)| &&
      forall i :: 0 <= i < |Select(repos)| ==> GridView(repos)[i] == RepoCard(CardOf(Select(repos)[i]))
    ensures forall item :: item in GridView(repos) && item.RepoCard? ==>
      exists r :: r in repos && Listed(r) && item.card == CardOf(r)
  {
    var shown := Select(repos);
    SelectContents(repos);
    if shown != [] {
      assert GridView(repos)[0] == RepoCard(CardOf(shown[0]));
      forall item | item in GridView(repos) && item.RepoCard?
        ensures exists r :: r in repos && Listed(r) && item.card == CardOf(r)
      {
        var i :| 0 <= i < |shown| && GridView(repos)[i] == item;
        assert shown[i] in shown;
      }
    }
  }

  /** After the request: the new cache value and the grid. */
  function AfterFetch(stored: Stored, outcome: FetchOutcome, fetchedAt: int, writeOk: bool): (r: (Stored, seq<GridItem>))
    ensures outcome.FetchFailed? ==> r == (stored, [LoadFailedNotice])
    ensures outcome.Fetched? ==> r.1 == GridView(outcome.repos)
    ensures outcome.Fetched? && writeOk ==> r.0 == Entry(fetchedAt, outcome.repos)
    ensures outcome.Fetched? && !writeOk ==> r.0 == stored
    ensures r.0 != stored ==> outcome.Fetched? && writeOk && r.0 == Entry(fetchedAt, outcome.repos)
  {
    match outcome
    case FetchFailed => (stored, [LoadFailedNotice])
    case Fetched(repos) => (if writeOk then Entry(fetchedAt, repos) else stored, GridView(repos))
  }

  /**
   * The whole panel load: storage before, the time of the freshness test, the
   * request's outcome, the time recorded with a new entry and whether the storage
   * write succeeds; yields storage after and the grid.
   */
  function Load(stored: Stored, now: int, outcome: FetchOutcome, fetchedAt: int, writeOk: bool): (r: (Stored, seq<GridItem>))
  {
    match CachedRepos(stored, now)
    case Some(data) => (stored, GridView(data))
    case None => AfterFetch(stored, outcome, fetchedAt, writeOk)
  }

  /** A fresh entry is served as stored, the request is not consulted, the cache is left as it is. */
  lemma CacheHit(stored: Stored, now: int, outcome: FetchOutcome, fetchedAt: int, writeOk: bool)
    requires stored.Entry? && now - stored.timestamp < CacheTtl
    ensures Load(stored, now, outcome, fetchedAt, writeOk) == (stored, GridView(stored.data))
    ensures forall o, t, w :: Load(stored, now, o, t, w) == Load(stored, now, outcome, fetchedAt, writeOk)
  {
  }

  /** A missing, unparsable or stale entry is no error: the load goes on to the request. */
  lemma CacheMiss(stored: Stored, now: int, outcome: FetchOutcome, fetchedAt: int, writeOk: bool)
    requires !(stored.Entry? && now - stored.timestamp < CacheTtl)
    ensures Load(stored, now, outcome, fetchedAt, writeOk) == AfterFetch(stored, outcome, fetchedAt, writeOk)
  {
  }

  /** A failed request shows only the failure message and leaves the cache as it was. */
  lemma FetchFailureKeepsCache(stored: Stored, now: int, fetchedAt: int, writeOk: bool)
    requires CachedRepos(stored, now).None?
    ensures Load(stored, now, FetchFailed, fetchedAt, writeOk) == (stored, [LoadFailedNotice])
  {
  }

  /** A successful request renders its list whether or not the storage write succeeds. */
  lemma FetchSuccessRenders(stored: Stored, now: int, repos: seq<Repo>, fetchedAt: int)
    requires CachedRepos(stored, now).None?
    ensures Load(stored, now, Fetched(repos), fetchedAt, true) == (Entry(fetchedAt, repos), GridView(repos))
    ensures Load(stored, now, Fetched(repos), fetchedAt, false) == (stored, GridView(repos))
  {
  }

  /**
   * Round trip: after a load that fetched and cached a list at `fetchedAt`, a later
   * load within the TTL shows the same grid without a request.
   */
  lemma {:induction false} CachedLoadShowsSameGrid(stored: Stored, now: int, repos: seq<Repo>, fetchedAt: int,
                                                   later: int, outcome: FetchOutcome, t: int, w: bool)
    requires CachedRepos(stored, now).None?
    requires later - fetchedAt < CacheTtl
    ensures var first := Load(stored, now, Fetched(repos), fetchedAt, true);
            Load(first.0, later, outcome, t, w) == first
  {
    var first := Load(stored, now, Fetched(repos), fetchedAt, true);
    assert first.0 == Entry(fetchedAt, repos);
    CacheHit(first.0, later, outcome, t, w);
  }

  /**
   * The page's state around the panel: the storage item, the grid, the optional
   * window.__staggerCards hook and how often it ran, and whether a request is
   * in flight (the async function suspended at its first await).
   */
  class Page {
    const hasGrid: bool
    var storage: Stored
    var grid: seq<GridItem>
    var staggerHook: bool
    var staggerCalls: nat
    var awaitingFetch: bool

    constructor (hasGrid: bool, storage: Stored, grid: seq<GridItem>)
      ensures this.hasGrid == hasGrid && this.storage == storage && this.grid == grid
      ensures !staggerHook && staggerCalls == 0 && !awaitingFetch
    {
      this.hasGrid := hasGrid;
      this.storage := storage;
      this.grid := grid;
      staggerHook := false;
      staggerCalls := 0;
      awaitingFetch := false;
    }

    /** renderRepos: clear the grid, then the placeholder, or one card per selected repository and the hook. */
    method RenderRepos(repos: seq<Repo>)
      modifies this`grid, this`staggerCalls
      ensures grid == GridView(repos)
      ensures staggerCalls == old(staggerCalls) + (if staggerHook && Select(repos) != [] then 1 else 0)
    {
      var filtered := Select(repos);
      grid := [];
      if filtered == [] {
        grid := [NoReposNotice];
      } else {
        ghost var cards := CardsOf(filtered);
        for i := 0 to |filtered|
          invariant grid == cards[..i]
          invariant staggerCalls == old(staggerCalls)
        {
          grid := grid + [RepoCard(CardOf(filtered[i]))];
          assert cards[..i + 1] == cards[..i] + [cards[i]];
        }
        assert cards[..|filtered|] == cards;
        assert GridView(repos) == cards;
        if staggerHook {
          staggerCalls := staggerCalls + 1;
        }
      }
    }

    /**
     * fetchAndRenderRepos up to its first await: serve a fresh cache entry, or
     * start the request.
     */
    method FetchAndRenderRepos(now: int)
      requires !awaitingFetch
      modifies this
      ensures storage == old(storage) && staggerHook == old(staggerHook)
      ensures awaitingFetch <==> hasGrid && CachedRepos(storage, now).None?
      ensures hasGrid && CachedRepos(storage, now).Some? ==>
        grid == GridView(storage.data) &&
        staggerCalls == old(staggerCalls) + (if staggerHook && Select(storage.data) != [] then 1 else 0)
      ensures !(hasGrid && CachedRepos(storage, now).Some?) ==>
        grid == old(grid) && staggerCalls == old(staggerCalls)
    {
      if !hasGrid {
        return;
      }
      var cached := CachedRepos(storage, now);
      if cached.Some? {
        RenderRepos(cached.value);
        return;
      }
      awaitingFetch := true;
    }

    /** window.__staggerCards = staggerRevealCards */
    method InstallStaggerHook()
      modifies this`staggerHook
      ensures staggerHook
    {
      staggerHook := true;
    }

    /** fetchAndRenderRepos after its await: cache best-effort and render, or show the failure message. */
    method ResumeFetch(outcome: FetchOutcome, fetchedAt: int, writeOk: bool)
      requires awaitingFetch
      modifies this
      ensures !awaitingFetch && staggerHook == old(staggerHook)
      ensures (storage, grid) == AfterFetch(old(storage), outcome, fetchedAt, writeOk)
      ensures staggerCalls == old(staggerCalls) +
        (if outcome.Fetched? && staggerHook && Select(outcome.repos) != [] then 1 else 0)
    {
      awaitingFetch := false;
      match outcome {
        case Fetched(repos) =>
          if writeOk {
            storage := Entry(fetchedAt, repos);
          }
          RenderRepos(repos);
        case FetchFailed =>
          grid := [LoadFailedNotice];
      }
    }

    /**
     * The script's order: the load call, then the hook installed, then the
     * request's continuation. A cache hit renders before the hook exists, so only
     * a fetched, non-empty list is staggered.
     */
    method RunScript(now: int, outcome: FetchOutcome, fetchedAt: int, writeOk: bool)
      requires !awaitingFetch && !staggerHook
      modifies this
      ensures staggerHook && !awaitingFetch
      ensures hasGrid ==> (storage, grid) == Load(old(storage), now, outcome, fetchedAt, writeOk)
      ensures !hasGrid ==> storage == old(storage) && grid == old(grid)
      ensures staggerCalls == old(staggerCalls) +
        (if hasGrid && CachedRepos(old(storage), now).None? && outcome.Fetched? && Select(outcome.repos) != []
         then 1 else 0)
    {
      FetchAndRenderRepos(now);
      InstallStaggerHook();
      if awaitingFetch {
        ResumeFetch(outcome, fetchedAt, writeOk);
      }
    }
  }
}
