# Phishing detection orchestrator and reverse logo region search, in Dafny

This project models two sequential pieces of a phishing-detection service.

**The detection orchestrator** (`detection.py`):
- `DetectionData.from_json` parses a request body.
- `check(uuid, data)` answers a request. It serves a verdict from the per-(uuid, url) session cache when it can. Otherwise it:
  - marks the session `PROCESSING`/`STARTED`;
  - runs the configured detection methods in order;
  - lets the configured decision strategy combine their results;
  - marks the session `<verdict>`/`DONE`;
  - appends one record to the archive.

**The reverse logo region search** (`logo_finders/homebrew_logo_detection.py`):
- Every detected region of a screenshot is scored with a logo classifier.
- The scored regions are ranked in place by descending probability.
- The top regions are queried with each reverse-image-search engine.
- The origin URLs the engines report are streamed back.

Modules:

- `Wrappers` provides `Option`, `Result` and a map lookup.
- `Detection` holds the orchestrator:
  - `FromJson` is the request parser.
  - `CheckSpec` gives, for one call of `check`, the response together with the ordered list of effects the call has: session writes, method invocations, the strategy's decision and archive appends.
  - The class `Detector` holds the session store (a map from (uuid, url) to a (result name, state) pair) and the append-only archive. `Detector.Check` is the imperative orchestrator, proved to return what `CheckSpec` says and to leave the stores as its effects say.
  - The lemmas about `CheckSpec` state what `check` promises.
- `LogoRanking` holds the ranking. `SortDesc` is the stable sort by descending probability. It is proved:
  - sorted;
  - a permutation of its input;
  - stable;
  - idempotent;
  - the only list with these properties.

  `SortByProbaDesc` is the in-place insertion sort on an array, proved to produce `SortDesc`.
- `HomebrewLogoDetection` holds the region search:
  - `FindLogoProbas` is the scoring loop.
  - `ScheduleQueries` is the counter-and-break scheduling loop, and `TopRegions` specifies it.
  - `Drain` is the flattened, per-list truncated result stream.
  - `FindLogoOrigins` handles one engine, and `Find` runs the engine loop.

Collaborators are parameters and oracles. They are not modelled:
- the settings store and the settings parser;
- the detection method and decision strategy registries and bodies;
- SHA-256, modelled as an opaque function of the URL;
- the region detector and the logo classifier;
- the search engines;
- the group of futures: it is modelled as the ordered list of region queries scheduled into it, with the lists of URLs it yields chosen by an oracle.

## Model

| member | source | states |
|---|---|---|
| `Detection.FromJson` | detection.py:51-70 | Succeeds exactly when "URL" or "url" and "pagetitle" are present. Otherwise it fails with KeyError("url") or KeyError("pagetitle"). The screenshot URL is "URL" if present, else "url". `url` is "phishURL" if present, else that same original URL. `pagetitle` is the "pagetitle" field |
| `Detection.FromJsonOverride` | detection.py:64-65 | Adding "phishURL" to a request changes only the parsed `url`, and does not change whether parsing fails |
| `Detection.FromName` | detection.py:103 | `ResultType[name]` yields the member whose name is `name`, and fails exactly when no member has that name |
| `Detection.NameRoundTrip` | detection.py:126 | A verdict stored by its name reads back as the same verdict |
| `Detection.RunMethods` | detection.py:109-123 | The method loop invokes at most one method per configured name. When it completes, it holds one result per method |
| `Detection.RunMethodsResults` | detection.py:109-123 | The loop completes exactly when every method is registered, configured and returns. Result i is method i's own result. The invocations are the configured methods, in order |
| `Detection.RunMethodsFirstFailure` | detection.py:111-123 | The loop stops at the first method that is unregistered (ValueError), unconfigured (KeyError) or raises, with that error. It has invoked exactly the methods before it, plus the failing method itself if that method was called |
| `Detection.CheckServedFromCache` | detection.py:93-104 | With caching on and any stored state (STARTED included), `check` has no effects. It answers with the stored state and the verdict read back from the stored name. For a name no verdict has, it answers with the KeyError for that stored name |
| `Detection.CheckMarksStartedFirst` | detection.py:107 | Off the cache path, the first effect, before any method runs, sets the session to PROCESSING/STARTED |
| `Detection.CheckInvokesInOrder` | detection.py:109-123 | The methods invoked are a prefix of the configured list, in order. On a successful uncached call they are the whole list |
| `Detection.CheckStopsAtFirstFailure` | detection.py:111-123 | At the first method that does not complete, `check` raises that method's error after running the methods before it, and the failing method itself when it was registered and configured and then raised. The session stays PROCESSING/STARTED, no strategy decides and nothing is archived |
| `Detection.CheckCompletes` | detection.py:125-130 | A successful uncached call returns (url, hash(url), "DONE", verdict), where verdict is the strategy's decision over the methods' results. The session ends as (verdict name, "DONE") and exactly one record (uuid, url, settings JSON, verdict name) is archived |
| `Detection.CheckTouchesOnlyItsSession` | detection.py:85-130 | No session other than the call's own (uuid, url) entry is changed |
| `Detection.CheckIdempotent` | detection.py:93-128 | After a successful call without cache bypass, the same request returns the same response from the cache, with no effects: no method runs, nothing is written and nothing is archived |
| `Detection.CheckUsesOverriddenUrl` | detection.py:64-85 | With a "phishURL" override, the override is the URL that is returned, hashed and used as the session key |
| `Detection.Detector.constructor` | detection.py:29-35 | The detector starts with the given session store and archive, and no effects |
| `Detection.Detector.SetSessionState` | detection.py:107 | Writes one session entry and records the write |
| `Detection.Detector.AppendToArchive` | detection.py:128 | Appends one record to the archive and records the append |
| `Detection.Detector.Check` | detection.py:73-130 | Returns the response of `CheckSpec` for the old session store. Its effects are appended to the record. The new session store is the old one with those effects applied, and the archive gains the records they append |
| `Detection.Detector.RunAndRecord` | detection.py:106-130 | The uncached part of `check` returns and changes exactly what the uncached path of `CheckSpec` says |
| `Detection.Detector.Finish` | detection.py:125-128 | The verdict is the strategy's decision. The session becomes (verdict name, "DONE") and one record is archived |
| `Detection.Detector.RunDetectionMethods` | detection.py:109-123 | The imperative method loop produces the results and the invocations of `RunMethods` |
| `LogoRanking.SortDescSorted` | logo_finders/homebrew_logo_detection.py:119 | The ranking is non-increasing in probability |
| `LogoRanking.SortDescPermutation` | logo_finders/homebrew_logo_detection.py:119 | The ranking is a permutation of its input |
| `LogoRanking.SortDescStable` | logo_finders/homebrew_logo_detection.py:119 | Entries of equal probability keep their input order |
| `LogoRanking.SortDescIdempotent` | logo_finders/homebrew_logo_detection.py:119 | Ranking a ranked list leaves it unchanged |
| `LogoRanking.StableRankingUnique` | logo_finders/homebrew_logo_detection.py:119 | Two non-increasing lists with the same entries, in the same order, for every probability are equal |
| `LogoRanking.SortDescCharacterized` | logo_finders/homebrew_logo_detection.py:119 | Any non-increasing list that keeps the input order among equal probabilities is `SortDesc` of the input, so `SortDesc` is what a stable descending sort returns |
| `LogoRanking.SortByProbaDesc` | logo_finders/homebrew_logo_detection.py:119 | The in-place sort leaves the array holding `SortDesc` of its old contents |
| `HomebrewLogoDetection.FindLogoProbas` | logo_finders/homebrew_logo_detection.py:58-110 | Returns a list exactly when the classifier scores every region. The list has one (region, probability) pair per region, in detection order. Otherwise it returns `None`, never a partial list |
| `HomebrewLogoDetection.TopRegions` | logo_finders/homebrew_logo_detection.py:123-133 | The regions queried are the first ones of the ranking, in ranking order. There are min(n, limit) of them when limit >= 1, and min(n, 1) when limit <= 0 |
| `HomebrewLogoDetection.ScheduleQueries` | logo_finders/homebrew_logo_detection.py:123-133 | The counter-and-break loop schedules exactly `TopRegions` |
| `HomebrewLogoDetection.Take` | logo_finders/homebrew_logo_detection.py:135 | `pipe.take(n)` yields a prefix of min(len, n) items, and nothing when n <= 0 |
| `HomebrewLogoDetection.Drain` | logo_finders/homebrew_logo_detection.py:135 | The stream raises exactly when some task raises. With budget k >= 0 it yields at most k URLs times the number of tasks, and none at all when k <= 0. What each task contributes is stated by `DrainOne` and `DrainAppend` |
| `HomebrewLogoDetection.DrainUpToFailure` | logo_finders/homebrew_logo_detection.py:135 | In the model's sequential schedule, a raising task ends the stream. The URLs of the tasks yielded before it stay yielded |
| `HomebrewLogoDetection.DrainOne` | logo_finders/homebrew_logo_detection.py:135 | A completed task yields exactly its own list cut to its first k URLs (`pipe.take(k)`) |
| `HomebrewLogoDetection.DrainAppend` | logo_finders/homebrew_logo_detection.py:135 | In the model's sequential schedule, for any completed tasks followed by any others, the stream is the completed tasks' truncated lists followed by what the others yield. So the limit applies to each task's list, not to the merged total |
| `HomebrewLogoDetection.FindLogoOrigins` | logo_finders/homebrew_logo_detection.py:112-135 | Ranks the caller's list in place, then yields the truncated stream of the queries for the top regions of that ranking |
| `HomebrewLogoDetection.AllEnginesSnoc` | logo_finders/homebrew_logo_detection.py:48-56 | Each engine runs after the earlier ones and adds whatever it yielded, whatever the earlier engines did |
| `HomebrewLogoDetection.Find` | logo_finders/homebrew_logo_detection.py:41-56 | Raises exactly when region detection raises. It yields nothing when scoring failed. Otherwise it yields the engines' streams in engine order, all over the same stable ranking of the scores |
| `HomebrewLogoDetection.SearchEngines` | logo_finders/homebrew_logo_detection.py:48-56 | Every engine works on the same list object. The first engine ranks it in place, so the list ends ranked, and it is left as it was when there are no engines. Later engines see the ranked list, and the output is each engine's stream for the ranking of the original list |

Behaviour of the code worth knowing; the model follows it:

- **Cache hits.** The cache serves any stored state, including an unfinished `STARTED` one. Nothing polls or waits for `DONE`.
- **The override URL.** It is used for everything `check` does with the URL: the hash, the session key, the methods and the archive record. It is not only the fingerprint.
- **Cache bypass.** With `bypass_cache` on, an existing `DONE` entry is overwritten with `PROCESSING`/`STARTED`.
- **Truncation.** The `homebrew_search_results` limit truncates each task's URL list, not the merged stream.
- **Scheduling.** One region is scheduled even when `homebrew_regions <= 0`.

## Left out

- Logging, `TimeIt`, the `mkdir` at import time and the construction of the SQLite stores and the CSV archive. The stores are a map and a sequence.
- The settings parser is an oracle `parseSettings`, because `DetectionSettings` is not part of this model. So is the defaults object: only the four fields `check` reads are kept.
- The `ResultType` names are not taken from the code. `utils/result.py` is not part of this model; the names used are PHISHING, NOT_PHISHING, INCONCLUSIVE and PROCESSING.
- The decision strategy's `decide` is a total oracle. An exception raised inside a strategy is not modelled; only an unknown strategy name (the KeyError) is.
- An exception raised inside a detection method is an oracle result of `None`, whatever the exception and whatever partial work the method did. `asyncio.run` is not modelled.
- Concurrency:
  - two concurrent `check` calls on one (uuid, url) are not modelled, nor the race between reading the cache and writing `STARTED`;
  - the thread pool and the group of futures are not modelled;
  - the order in which tasks finish is the oracle `collect`;
  - `schedule` and `generate` are not modelled, because `utils/async_threads.py` is not part of this model (its `FutureGroup` has a different `schedule` signature and no `generate`).
- `Drain` yields each task's truncated list contiguously and in full, in `collect` order. `stream.flatmap` runs the per-task streams concurrently, so the program may interleave URLs of different tasks, and a raising task may cut short tasks that are still streaming. The model keeps which URLs each task contributes and the per-list truncation.
- Laziness is not modelled: the model yields the whole finite stream at once. Asynchronous iteration and the cancellation of a stream whose consumer stops early are left out.
- Classifier scores are mathematical reals, so a NaN score and float rounding are not modelled. The classifier features (`region.shape`, colour statistics) are folded into the oracle `clf`, and a failure while extracting them counts as the classifier raising.
- A `find` whose engine list is `None` (the class default) is not modelled. Such a call raises `TypeError`; the model's engine list is always a sequence.
- `api_versions/v2.py` (HTTP routes), `utils/utils.py` (file, network and time helpers) and `detection-methods/detection_methods.py` (an enum and an abstract base class) are outside this model.
