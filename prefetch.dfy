/** `usePrefetch(options)`: whether the current page is prefetched or being
    prefetched, seeded once from the router's cache lookups and then driven
    by the router's `prefetching` and `prefetched` events.

    The path of the current location is read anew at each event, so it is a
    parameter of each event handler; the router's lookups are constructor
    parameters. */
module Prefetch {
  import opened Base
  import opened Router

  /** A router cache entry, as far as this code reads it. */
  datatype CacheEntry = CacheEntry(staleTimestamp: Option<int>)

  const BrowserOnly: string := "Prefetching is only available in the browser."

  class PrefetchStatus {
    /** `false` during server rendering. */
    const browser: bool
    const router: Router
    const options: map<string, Value>

    var isPrefetched: bool
    var isPrefetching: bool
    var lastUpdatedAt: Option<int>
    /** Whether the `prefetching` and `prefetched` handlers are registered. */
    var onPrefetching: bool
    var onPrefetched: bool

    /** Off-browser nothing is ever set; a timestamp is only known for a
        cached page, which stays prefetched. */
    ghost predicate Valid()
      reads this
    {
      && (!browser ==> !isPrefetched && !isPrefetching && lastUpdatedAt == None && !onPrefetching && !onPrefetched)
      && (lastUpdatedAt.Some? ==> isPrefetched)
    }

    /** `usePrefetch(options)` with the router's answers to `getCached` and
        `getPrefetching` for the current path; off-browser they are not asked. */
    constructor (browser: bool, router: Router, options: map<string, Value>, cached: Option<CacheEntry>, inFlight: Option<CacheEntry>)
      ensures Valid()
      ensures this.browser == browser && this.router == router && this.options == options
      ensures isPrefetched <==> browser && cached.Some?
      ensures isPrefetching <==> browser && inFlight.Some?
      ensures lastUpdatedAt == if browser && cached.Some? then cached.value.staleTimestamp else None
      ensures !onPrefetching && !onPrefetched
    {
      this.browser := browser;
      this.router := router;
      this.options := options;
      var c := if browser then cached else None;
      var f := if browser then inFlight else None;
      isPrefetched := c.Some?;
      isPrefetching := f.Some?;
      lastUpdatedAt := if c.Some? then c.value.staleTimestamp else None;
      onPrefetching, onPrefetched := false, false;
    }

    /** `onMount`: both handlers are registered, in the browser only. */
    method Mount()
      requires Valid()
      modifies this`onPrefetching, this`onPrefetched
      ensures Valid()
      ensures browser ==> onPrefetching && onPrefetched
      ensures !browser ==> onPrefetching == old(onPrefetching) && onPrefetched == old(onPrefetched)
    {
      if browser {
        onPrefetching, onPrefetched := true, true;
      }
    }

    /** The cleanup `onMount` returns: both handlers are removed. */
    method Unmount()
      requires Valid()
      modifies this`onPrefetching, this`onPrefetched
      ensures Valid() && !onPrefetching && !onPrefetched
    {
      onPrefetching, onPrefetched := false, false;
    }

    /** A `prefetching` event for `eventPath` while the location's path is
        `currentPath`. */
    method OnPrefetchingEvent(eventPath: string, currentPath: string)
      requires Valid()
      modifies this`isPrefetching
      ensures Valid()
      ensures onPrefetching && eventPath == currentPath ==> isPrefetching
      ensures !(onPrefetching && eventPath == currentPath) ==> isPrefetching == old(isPrefetching)
    {
      if onPrefetching && eventPath == currentPath {
        isPrefetching := true;
      }
    }

    /** A `prefetched` event for `eventPath` while the location's path is
        `currentPath`. */
    method OnPrefetchedEvent(eventPath: string, currentPath: string)
      requires Valid()
      modifies this`isPrefetched, this`isPrefetching
      ensures Valid()
      ensures old(isPrefetched) ==> isPrefetched
      ensures onPrefetched && eventPath == currentPath ==> isPrefetched && !isPrefetching
      ensures !(onPrefetched && eventPath == currentPath) ==>
        isPrefetched == old(isPrefetched) && isPrefetching == old(isPrefetching)
    {
      if onPrefetched && eventPath == currentPath {
        isPrefetched := true;
        isPrefetching := false;
      }
    }

    /** `flush()`: off-browser it throws; otherwise the router flushes the
        current path with the hook's options. */
    method Flush(currentPath: string) returns (r: Result<()>)
      modifies router`flushed
      ensures !browser ==> r == Err(BrowserOnly) && router.flushed == old(router.flushed)
      ensures browser ==> r == Ok(()) && router.flushed == old(router.flushed) + [FlushRequest(currentPath, options)]
    {
      if !browser {
        return Err(BrowserOnly);
      }
      router.flushed := router.flushed + [FlushRequest(currentPath, options)];
      r := Ok(());
    }
  }

  /** A prefetched page stays prefetched through any later event, and its
      timestamp is the one read at creation. */
  method PrefetchedStays(p: PrefetchStatus, paths: seq<(bool, string)>, currentPath: string)
    requires p.Valid() && p.isPrefetched
    modifies p
    ensures p.Valid() && p.isPrefetched && p.lastUpdatedAt == old(p.lastUpdatedAt)
  {
    var i := 0;
    while i < |paths|
      invariant 0 <= i <= |paths|
      invariant p.Valid() && p.isPrefetched && p.lastUpdatedAt == old(p.lastUpdatedAt)
    {
      if paths[i].0 {
        p.OnPrefetchedEvent(paths[i].1, currentPath);
      } else {
        p.OnPrefetchingEvent(paths[i].1, currentPath);
      }
      i := i + 1;
    }
  }

  /** After teardown no event changes a flag. */
  method EventsAfterUnmount(p: PrefetchStatus, eventPath: string, currentPath: string)
    requires p.Valid()
    modifies p
    ensures p.isPrefetched == old(p.isPrefetched) && p.isPrefetching == old(p.isPrefetching)
  {
    p.Unmount();
    p.OnPrefetchingEvent(eventPath, currentPath);
    p.OnPrefetchedEvent(eventPath, currentPath);
  }
}
