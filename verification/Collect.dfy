/** Collecting desired state from the sources and actual state from the upstreams
    (internal/reconcile/collect.go, internal/reconcile/upstream_collect.go). */
module Collect {
  import opened Text
  import opened Model

  datatype Snapshot = Records(records: seq<Record>) | Unavailable

  type Cache = map<string, seq<Record>>

  function Cached(cache: Cache, name: string): seq<Record> {
    if name in cache then cache[name] else []
  }

  function CacheAfter(sources: seq<string>, snaps: seq<Snapshot>, cache: Cache): Cache
    requires |sources| == |snaps|
  {
    if sources == [] then cache
    else
      var last := |sources| - 1;
      var before := CacheAfter(sources[..last], snaps[..last], cache);
      if snaps[last].Records? then before[sources[last] := snaps[last].records] else before
  }

  function DesiredOf(sources: seq<string>, snaps: seq<Snapshot>, cache: Cache): seq<Record>
    requires |sources| == |snaps|
  {
    if sources == [] then []
    else
      var last := |sources| - 1;
      DesiredOf(sources[..last], snaps[..last], cache) +
      match snaps[last]
      case Records(records) => records
      case Unavailable => Cached(CacheAfter(sources[..last], snaps[..last], cache), sources[last])
  }

  function CleanSources(sources: seq<string>, snaps: seq<Snapshot>): set<string>
    requires |sources| == |snaps|
  {
    set i | 0 <= i < |sources| && snaps[i].Records? :: sources[i]
  }

  lemma CleanOneMore(sources: seq<string>, snaps: seq<Snapshot>, i: nat)
    requires |sources| == |snaps| && i < |sources|
    ensures CleanSources(sources[..i + 1], snaps[..i + 1]) ==
            CleanSources(sources[..i], snaps[..i]) + if snaps[i].Records? then {sources[i]} else {}
  {
  }

  class Collector {
    const sources: seq<string>
    var lastGood: Cache

    constructor (sources: seq<string>)
      ensures this.sources == sources && lastGood == map[]
    {
      this.sources, lastGood := sources, map[];
    }

    /** Collect; the i-th source's Snapshot call returned `snaps[i]`. */
    method Collect(snaps: seq<Snapshot>) returns (desired: seq<Record>, snapshotted: set<string>)
      requires |snaps| == |sources|
      modifies this
      ensures lastGood == CacheAfter(sources, snaps, old(lastGood))
      ensures desired == DesiredOf(sources, snaps, old(lastGood))
      ensures snapshotted == CleanSources(sources, snaps)
    {
      desired, snapshotted := [], {};
      for i := 0 to |sources|
        invariant lastGood == CacheAfter(sources[..i], snaps[..i], old(lastGood))
        invariant desired == DesiredOf(sources[..i], snaps[..i], old(lastGood))
        invariant snapshotted == CleanSources(sources[..i], snaps[..i])
      {
        assert sources[..i + 1][..i] == sources[..i] && snaps[..i + 1][..i] == snaps[..i];
        CleanOneMore(sources, snaps, i);
        match snaps[i] {
          case Unavailable =>
            desired := desired + Cached(lastGood, sources[i]);
          case Records(records) =>
            lastGood := lastGood[sources[i] := records];
            snapshotted := snapshotted + {sources[i]};
            desired := desired + records;
        }
      }
      assert sources[..|sources|] == sources && snaps[..|sources|] == snaps;
    }
  }

  // ---- upstream listing, throttled per upstream ----

  type Listing = string -> Option<seq<Record>>

  predicate IsDue(interval: map<string, int>, nextCheck: map<string, int>, u: string, now: int) {
    u in interval && interval[u] > 0 && !(u in nextCheck && now < nextCheck[u])
  }

  function ListsCalled(listers: set<string>, interval: map<string, int>, nextCheck: map<string, int>,
                       now: int): set<string> {
    set u | u in listers && IsDue(interval, nextCheck, u, now)
  }

  function FetchedOf(listers: set<string>, interval: map<string, int>, nextCheck: map<string, int>, now: int,
                     listing: Listing): set<string> {
    set u | u in listers && IsDue(interval, nextCheck, u, now) && listing(u).Some?
  }

  function ActualOf(fetched: set<string>, listing: Listing): map<string, seq<Record>>
    requires forall u :: u in fetched ==> listing(u).Some?
  {
    map u | u in fetched :: listing(u).value
  }

  function NextCheckAfter(interval: map<string, int>, nextCheck: map<string, int>, fetched: set<string>,
                          now: int): map<string, int>
    requires fetched <= interval.Keys
  {
    map u | u in nextCheck.Keys + fetched :: if u in fetched then now + interval[u] else nextCheck[u]
  }

  lemma CheckOneMore(interval: map<string, int>, nextCheck: map<string, int>, fetched: set<string>, now: int, u: string)
    requires fetched <= interval.Keys && u in interval && u !in fetched
    ensures NextCheckAfter(interval, nextCheck, fetched + {u}, now)
         == NextCheckAfter(interval, nextCheck, fetched, now)[u := now + interval[u]]
    ensures u in NextCheckAfter(interval, nextCheck, fetched, now) <==> u in nextCheck
    ensures u in nextCheck ==> NextCheckAfter(interval, nextCheck, fetched, now)[u] == nextCheck[u]
  {
  }

  class UpstreamCollector {
    const listers: set<string>
    const interval: map<string, int>
    var nextCheck: map<string, int>

    constructor (listers: set<string>, interval: map<string, int>)
      ensures this.listers == listers && this.interval == interval && nextCheck == map[]
    {
      this.listers, this.interval, nextCheck := listers, interval, map[];
    }

    /** Collect; upstreams without Lister are not in `listers`. A List call on u returns `listing(u)`. */
    method Collect(now: int, listing: Listing) returns (actual: map<string, seq<Record>>, fetched: set<string>)
      modifies this
      ensures fetched == FetchedOf(listers, interval, old(nextCheck), now, listing)
      ensures actual == ActualOf(fetched, listing)
      ensures nextCheck == NextCheckAfter(interval, old(nextCheck), fetched, now)
    {
      actual, fetched := map[], {};
      var left := listers;
      ghost var nextCheck0 := nextCheck;
      ghost var all := FetchedOf(listers, interval, nextCheck, now, listing);
      assert NextCheckAfter(interval, nextCheck0, {}, now) == nextCheck0;
      while left != {}
        invariant left <= listers
        invariant fetched == all - left
        invariant actual == ActualOf(fetched, listing)
        invariant nextCheck == NextCheckAfter(interval, nextCheck0, fetched, now)
        decreases left
      {
        var u :| u in left;
        left := left - {u};
        if u in interval { CheckOneMore(interval, nextCheck0, fetched, now, u); }
        if IsDue(interval, nextCheck, u, now) && listing(u).Some? {
          nextCheck := nextCheck[u := now + interval[u]];
          actual := actual[u := listing(u).value];
          fetched := fetched + {u};
        }
      }
    }
  }

  /** After a List call at `now`, another is allowed at a later time `t` exactly when the call failed or the
      interval has passed: a failing upstream is listed again on every pass, interval or not. */
  lemma ListedAgainIff(listers: set<string>, interval: map<string, int>, nextCheck: map<string, int>,
                       now: int, listing: Listing, u: string, t: int)
    requires u in ListsCalled(listers, interval, nextCheck, now) && now <= t
    ensures var fetched := FetchedOf(listers, interval, nextCheck, now, listing);
            u in ListsCalled(listers, interval, NextCheckAfter(interval, nextCheck, fetched, now), t)
            <==> listing(u).None? || t >= now + interval[u]
  {
  }
}
