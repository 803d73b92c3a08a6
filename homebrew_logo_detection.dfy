/**
 * Reverse logo region search (logo_finders/homebrew_logo_detection.py):
 * score each detected region with the logo classifier, rank the regions,
 * query the best ones with each reverse-image-search engine and stream the
 * origin URLs the engines report.
 *
 * The region detector, the classifier and the search engines are oracles.
 * The group of futures is modelled by the ordered list of queries scheduled
 * into it, and what the group yields by a finite sequence of task outcomes
 * chosen by the oracle `collect`, because the order in which tasks finish is
 * not determined by this code.
 */
module HomebrewLogoDetection {
  import opened Wrappers
  import opened LogoRanking

  /** The two fields of the search settings that this code reads. */
  datatype SearchSettings = SearchSettings(homebrewRegions: int, homebrewSearchResults: int)

  /** A reverse-image-search engine, known by its name. */
  datatype Engine = Engine(name: string)

  /** What one scheduled query delivers when the stream consumes it: its URLs, or an exception. */
  datatype TaskOutcome = Done(urls: seq<string>) | Raised

  /** What iterating one engine's stream produced: the URLs yielded, and whether it ended by raising. */
  datatype Yield = Yield(urls: seq<string>, raised: bool)

  function Min(a: int, b: int): int { if a <= b then a else b }

  /**
   * `find_logo_probas`: one (region, probability) pair per detected region, in
   * detection order. `clf` gives `None` where the classifier raises; then the
   * exception is logged and the result is `None`, never a partial list.
   */
  method FindLogoProbas(regions: seq<RegionData>, clf: RegionData -> Option<real>)
    returns (r: Option<seq<Scored>>)
    ensures r.Some? <==> AllScored(regions, clf)
    ensures r.Some? ==> |r.value| == |regions|
    ensures r.Some? ==> forall i :: 0 <= i < |regions| ==>
              r.value[i] == Scored(regions[i], clf(regions[i]).value)
  {
    var probas: seq<Scored> := [];
    for i := 0 to |regions|
      invariant |probas| == i
      invariant forall k :: 0 <= k < i ==>
                  clf(regions[k]).Some? && probas[k] == Scored(regions[k], clf(regions[k]).value)
    {
      var p := clf(regions[i]);
      if p.None? {
        return None;
      }
      probas := probas + [Scored(regions[i], p.value)];
    }
    return Some(probas);
  }

  /** The classifier scores every region without raising. */
  predicate AllScored(regions: seq<RegionData>, clf: RegionData -> Option<real>) {
    forall i :: 0 <= i < |regions| ==> clf(regions[i]).Some?
  }

  /** The scores of all regions, defined when the classifier scores each of them. */
  function ScoresOf(regions: seq<RegionData>, clf: RegionData -> Option<real>): seq<Scored>
    requires AllScored(regions, clf)
  {
    seq(|regions|, i requires 0 <= i < |regions| => Scored(regions[i], clf(regions[i]).value))
  }

  /**
   * The regions the counter-and-break loop schedules from `ranked`, once
   * `count` regions have been scheduled: the loop schedules a region first and
   * only then tests `count >= limit`.
   */
  function Scan(ranked: seq<Scored>, limit: int, count: nat): (q: seq<RegionData>)
    ensures count + 1 >= limit ==> |q| == Min(|ranked|, 1)
    ensures count + 1 < limit ==> |q| == Min(|ranked|, limit - count)
    ensures forall i :: 0 <= i < |q| ==> q[i] == ranked[i].region
  {
    if ranked == [] then []
    else [ranked[0].region] + (if count + 1 >= limit then [] else Scan(ranked[1..], limit, count + 1))
  }

  /**
   * The queries `find_logo_origins` schedules: the top `limit` regions of the
   * ranking, in ranking order, and one region even when `limit <= 0`.
   */
  function TopRegions(ranked: seq<Scored>, limit: int): (q: seq<RegionData>)
    ensures limit >= 1 ==> |q| == Min(|ranked|, limit)
    ensures limit <= 0 ==> |q| == Min(|ranked|, 1)
    ensures forall i :: 0 <= i < |q| ==> q[i] == ranked[i].region
  {
    Scan(ranked, limit, 0)
  }

  /** The scheduling loop of `find_logo_origins`: one query per region, with a counter and a break. */
  method ScheduleQueries(ranked: seq<Scored>, limit: int) returns (queries: seq<RegionData>)
    ensures queries == TopRegions(ranked, limit)
  {
    queries := [];
    var count := 0;
    var i := 0;
    while i < |ranked|
      invariant 0 <= i <= |ranked| && count == i
      invariant i == 0 || i < limit
      invariant |queries| == i
      invariant forall k :: 0 <= k < i ==> queries[k] == ranked[k].region
    {
      queries := queries + [ranked[i].region];
      count := count + 1;
      if count >= limit {
        break;
      }
      i := i + 1;
    }
    ghost var top := TopRegions(ranked, limit);
    assert |queries| == |top|;
  }

  /** `pipe.take(n)`: the first `n` items, and none when `n` is zero or negative. */
  function Take(s: seq<string>, n: int): (r: seq<string>)
    ensures n <= 0 ==> r == []
    ensures n >= 0 ==> |r| == Min(|s|, n)
    ensures r <= s
  {
    if n <= 0 then [] else s[..Min(|s|, n)]
  }

  /**
   * The flat-mapped stream of one engine, in a sequential schedule: each
   * task's URL list truncated to its first `k` items, task after task in the
   * order the tasks are yielded, until a task raises; the exception then ends
   * the stream. The concurrent merge may interleave the tasks' URLs instead.
   */
  function Drain(outcomes: seq<TaskOutcome>, k: int): (y: Yield)
    ensures y.raised <==> exists i :: 0 <= i < |outcomes| && outcomes[i].Raised?
    ensures k >= 0 ==> |y.urls| <= |outcomes| * k
    ensures k <= 0 ==> y.urls == []
  {
    if outcomes == [] then Yield([], false)
    else match outcomes[0]
      case Raised => Yield([], true)
      case Done(urls) =>
        var rest := Drain(outcomes[1..], k);
        assert k >= 0 ==> (|outcomes| - 1) * k + k == |outcomes| * k;
        Yield(Take(urls, k) + rest.urls, rest.raised)
  }

  /** A raising task ends the stream: the tasks yielded before it keep what they yielded. */
  lemma {:induction false} DrainUpToFailure(done: seq<TaskOutcome>, rest: seq<TaskOutcome>, k: int)
    requires forall i :: 0 <= i < |done| ==> done[i].Done?
    ensures Drain(done + [Raised] + rest, k) == Yield(Drain(done, k).urls, true)
  {
    if done != [] {
      assert (done + [Raised] + rest)[1..] == done[1..] + [Raised] + rest;
      DrainUpToFailure(done[1..], rest, k);
    }
  }

  /** One completed task yields its own list cut to its first `k` URLs. */
  lemma DrainOne(u: seq<string>, k: int)
    ensures Drain([Done(u)], k) == Yield(Take(u, k), false)
  {
    assert [Done(u)][1..] == [];
  }

  /**
   * Truncation is per task list: after completed tasks, the stream is their
   * truncated lists followed by what the remaining tasks yield, so the limit
   * is never applied to the merged total.
   */
  lemma {:induction false} DrainAppend(a: seq<TaskOutcome>, b: seq<TaskOutcome>, k: int)
    requires forall i :: 0 <= i < |a| ==> a[i].Done?
    ensures Drain(a + b, k) == Yield(Drain(a, k).urls + Drain(b, k).urls, Drain(b, k).raised)
  {
    if a == [] {
      assert a + b == b;
    } else {
      assert (a + b)[1..] == a[1..] + b;
      DrainAppend(a[1..], b, k);
    }
  }

  /** The stream one engine produces for a given ranking (before the ranking step). */
  function EngineYield(ranked: seq<Scored>, engine: Engine, settings: SearchSettings,
                       collect: (Engine, seq<RegionData>) -> seq<TaskOutcome>): Yield
  {
    Drain(collect(engine, TopRegions(ranked, settings.homebrewRegions)), settings.homebrewSearchResults)
  }

  /**
   * `find_logo_origins`: ranks the caller's list in place, schedules the top
   * regions for `engine` and returns the flattened, per-list truncated stream.
   */
  method FindLogoOrigins(logoProbas: array<Scored>, engine: Engine, settings: SearchSettings,
                         collect: (Engine, seq<RegionData>) -> seq<TaskOutcome>)
    returns (y: Yield)
    modifies logoProbas
    ensures logoProbas[..] == SortDesc(old(logoProbas[..]))
    ensures y == EngineYield(logoProbas[..], engine, settings, collect)
  {
    SortByProbaDesc(logoProbas);
    var queries := ScheduleQueries(logoProbas[..], settings.homebrewRegions);
    y := Drain(collect(engine, queries), settings.homebrewSearchResults);
  }

  /**
   * What `find` yields for a ranking and a list of engines: the engines in
   * list order, each contributing whatever it yielded, whether or not it
   * raised afterwards.
   */
  function AllEngines(ranked: seq<Scored>, engines: seq<Engine>, settings: SearchSettings,
                      collect: (Engine, seq<RegionData>) -> seq<TaskOutcome>): seq<string>
  {
    if engines == [] then []
    else EngineYield(ranked, engines[0], settings, collect).urls
         + AllEngines(ranked, engines[1..], settings, collect)
  }

  /** An engine added at the end runs and contributes its yield whatever the earlier engines did. */
  lemma {:induction false} AllEnginesSnoc(ranked: seq<Scored>, engines: seq<Engine>, last: Engine,
                                          settings: SearchSettings,
                                          collect: (Engine, seq<RegionData>) -> seq<TaskOutcome>)
    ensures AllEngines(ranked, engines + [last], settings, collect)
         == AllEngines(ranked, engines, settings, collect) + EngineYield(ranked, last, settings, collect).urls
  {
    if engines != [] {
      assert (engines + [last])[1..] == engines[1..] + [last];
      AllEnginesSnoc(ranked, engines[1..], last, settings, collect);
    }
  }

  /**
   * `find`: detects and scores the regions, then runs every engine in order
   * over the same list. `detected` is `None` when the region detector raises,
   * which `find` does not catch. A failing classifier makes the scores `None`,
   * and then every engine fails at once (sorting `None` raises) and yields
   * nothing. Each engine's exception is caught and the next engine still runs.
   */
  method Find(detected: Option<seq<RegionData>>, clf: RegionData -> Option<real>,
              engines: seq<Engine>, settings: SearchSettings,
              collect: (Engine, seq<RegionData>) -> seq<TaskOutcome>)
    returns (out: seq<string>, raised: bool)
    ensures raised <==> detected.None?
    ensures detected.None? ==> out == []
    ensures detected.Some? && !AllScored(detected.value, clf) ==> out == []
    ensures detected.Some? && AllScored(detected.value, clf) ==>
              out == AllEngines(SortDesc(ScoresOf(detected.value, clf)), engines, settings, collect)
  {
    out, raised := [], false;
    if detected.None? {
      raised := true;
      return;
    }
    var probas := FindLogoProbas(detected.value, clf);
    if probas.None? {
      return;
    }
    var scores := probas.value;
    assert scores == ScoresOf(detected.value, clf);
    var regionPredictions := new Scored[|scores|](i requires 0 <= i < |scores| => scores[i]);
    assert regionPredictions[..] == scores;
    out := SearchEngines(regionPredictions, engines, settings, collect);
  }

  /**
   * The engine loop of `find`: every engine receives the same list object,
   * which the first engine ranks in place, so later engines see the ranked
   * list and, ranking being idempotent, query the same regions.
   */
  method SearchEngines(regionPredictions: array<Scored>, engines: seq<Engine>, settings: SearchSettings,
                       collect: (Engine, seq<RegionData>) -> seq<TaskOutcome>)
    returns (out: seq<string>)
    modifies regionPredictions
    ensures regionPredictions[..] == if engines == [] then old(regionPredictions[..]) else SortDesc(old(regionPredictions[..]))
    ensures out == AllEngines(SortDesc(old(regionPredictions[..])), engines, settings, collect)
  {
    ghost var scores := regionPredictions[..];
    out := [];
    for i := 0 to |engines|
      invariant regionPredictions[..] == if i == 0 then scores else SortDesc(scores)
      invariant out == AllEngines(SortDesc(scores), engines[..i], settings, collect)
    {
      var y := FindLogoOrigins(regionPredictions, engines[i], settings, collect);
      SortDescIdempotent(scores);
      assert engines[..i + 1] == engines[..i] + [engines[i]];
      AllEnginesSnoc(SortDesc(scores), engines[..i], engines[i], settings, collect);
      out := out + y.urls;
    }
    assert engines[..|engines|] == engines;
  }
}
