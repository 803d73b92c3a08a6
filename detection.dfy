/**
 * The detection orchestrator of detection.py: the request parser
 * `DetectionData.from_json` and `check`, which serves a cached verdict or runs
 * the configured detection methods, combines their results with a decision
 * strategy, records the verdict in the session store and archives it.
 *
 * The session store is a map from (uuid, url) to the stored (result, state)
 * pair; a missing key is Python's `None`. The archive is an append-only
 * sequence. The settings store, the method and strategy registries, the
 * methods and strategies themselves and SHA-256 are collaborators, gathered
 * in `Env`. `CheckSpec` gives the response of one call together with the
 * ordered list of effects it has on its collaborators; `Detector.Check` is
 * the imperative orchestrator, proved to behave as `CheckSpec` says.
 */
module Detection {
  import opened Wrappers

  /** The verdicts; a name is what the session store and the archive hold. */
  datatype ResultType = PHISHING | NOT_PHISHING | INCONCLUSIVE | PROCESSING

  /** `result.name`. */
  function Name(t: ResultType): string {
    match t
    case PHISHING => "PHISHING"
    case NOT_PHISHING => "NOT_PHISHING"
    case INCONCLUSIVE => "INCONCLUSIVE"
    case PROCESSING => "PROCESSING"
  }

  /** `ResultType[name]`: the member with that name; `None` stands for the KeyError. */
  function FromName(s: string): (r: Option<ResultType>)
    ensures r.Some? ==> Name(r.value) == s
    ensures r.None? ==> forall t: ResultType :: Name(t) != s
  {
    if s == "PHISHING" then Some(PHISHING)
    else if s == "NOT_PHISHING" then Some(NOT_PHISHING)
    else if s == "INCONCLUSIVE" then Some(INCONCLUSIVE)
    else if s == "PROCESSING" then Some(PROCESSING)
    else None
  }

  /** A stored name reads back as the verdict it was written from. */
  lemma NameRoundTrip(t: ResultType)
    ensures FromName(Name(t)) == Some(t)
  {
  }

  /** A request body, with its string-valued fields. */
  type Json = map<string, string>

  datatype DetectionData = DetectionData(url: string, screenshotUrl: string, pagetitle: string)

  /** The KeyError raised by a subscript on a missing key. */
  datatype KeyError = KeyError(key: string)

  /**
   * `DetectionData.from_json`: the deprecated key "URL" wins over "url"; the
   * screenshot URL is always that original URL; "phishURL", when present,
   * replaces only `url`; "pagetitle" is required.
   */
  function FromJson(json: Json): (r: Result<DetectionData, KeyError>)
    ensures r.Ok? <==> ("URL" in json || "url" in json) && "pagetitle" in json
    ensures "URL" !in json && "url" !in json ==> r == Err(KeyError("url"))
    ensures ("URL" in json || "url" in json) && "pagetitle" !in json ==> r == Err(KeyError("pagetitle"))
    ensures r.Ok? ==> r.value.screenshotUrl == (if "URL" in json then json["URL"] else json["url"])
    ensures r.Ok? ==> r.value.url == (if "phishURL" in json then json["phishURL"] else r.value.screenshotUrl)
    ensures r.Ok? ==> r.value.pagetitle == json["pagetitle"]
  {
    if "URL" in json || "url" in json then
      var original := if "URL" in json then json["URL"] else json["url"];
      var url := if "phishURL" in json then json["phishURL"] else original;
      if "pagetitle" in json then Ok(DetectionData(url, original, json["pagetitle"]))
      else Err(KeyError("pagetitle"))
    else Err(KeyError("url"))
  }

  /** Adding "phishURL" to a request changes the parsed `url` and nothing else. */
  lemma FromJsonOverride(json: Json, phishUrl: string)
    requires "phishURL" !in json
    ensures var r := FromJson(json["phishURL" := phishUrl]);
            FromJson(json).Ok? ==> r == Ok(FromJson(json).value.(url := phishUrl))
    ensures FromJson(json).Err? ==> FromJson(json["phishURL" := phishUrl]) == FromJson(json)
  {
  }

  /** The part of `DetectionSettings` that `check` reads. */
  datatype Settings = Settings(
    bypassCache: bool,
    detectionMethods: seq<string>,
    methodsSettings: map<string, string>,
    decisionStrategy: string)

  /** What a detection method returns; `check` only collects it for the decision strategy. */
  type RawResult = string

  /**
   * The collaborators of `check`: the stored settings JSON per uuid, the
   * default settings and the settings parser, the registered detection
   * methods and their behaviour (`None` where a method raises), the
   * registered decision strategies and their decisions, and the URL hash.
   */
  datatype Env = Env(
    settingsStore: map<string, string>,
    defaults: Settings,
    parseSettings: string -> Settings,
    methods: set<string>,
    run: (string, DetectionData, string) -> Option<RawResult>,
    strategies: set<string>,
    decide: (string, seq<RawResult>) -> ResultType,
    hash: string -> string)

  datatype SessionKey = SessionKey(uuid: string, url: string)

  /** A stored session entry: the result name and the state label. */
  datatype CacheEntry = CacheEntry(result: string, state: string)

  datatype ArchiveRecord = ArchiveRecord(uuid: string, url: string, settingsJson: Option<string>, result: string)

  datatype DetectionResult = DetectionResult(url: string, urlHash: string, state: string, result: ResultType)

  /** The exceptions `check` lets through. */
  datatype CheckError =
    | UnknownResultName(name: string)     // KeyError from `ResultType[...]` on a cached name
    | UnknownMethod(name: string)         // the ValueError for an unregistered method
    | MissingMethodSettings(name: string) // KeyError from `settings.methods_settings[method]`
    | MethodFailed(name: string)          // an exception raised by the method itself
    | UnknownStrategy(name: string)       // KeyError from `DECISION_STRATEGIES[...]`

  /** One interaction of `check` with its collaborators. */
  datatype Effect =
    | SetState(key: SessionKey, entry: CacheEntry)
    | Invoke(name: string)
    | Decide(strategy: string)
    | Append(record: ArchiveRecord)

  datatype Outcome = Outcome(response: Result<DetectionResult, CheckError>, effects: seq<Effect>)

  /** The session store after the effects, in order. */
  function ApplySessions(sessions: map<SessionKey, CacheEntry>, effects: seq<Effect>): map<SessionKey, CacheEntry>
  {
    if effects == [] then sessions
    else
      var before := ApplySessions(sessions, effects[..|effects| - 1]);
      match effects[|effects| - 1]
      case SetState(k, e) => before[k := e]
      case _ => before
  }

  /** The records the effects append to the archive, in order. */
  function Archived(effects: seq<Effect>): seq<ArchiveRecord>
  {
    if effects == [] then []
    else
      Archived(effects[..|effects| - 1])
      + match effects[|effects| - 1] case Append(rec) => [rec] case _ => []
  }

  /** The methods invoked by the effects, in order. */
  function Invocations(effects: seq<Effect>): seq<string>
  {
    if effects == [] then []
    else
      Invocations(effects[..|effects| - 1])
      + match effects[|effects| - 1] case Invoke(m) => [m] case _ => []
  }

  /** The settings of `uuid`: the stored ones, or the defaults when none are stored. */
  function SettingsFor(env: Env, uuid: string): Settings {
    match Lookup(env.settingsStore, uuid)
    case None => env.defaults
    case Some(j) => env.parseSettings(j)
  }

  /** Method `m` is registered, has settings, and returns without raising. */
  predicate Completes(env: Env, settings: Settings, data: DetectionData, m: string) {
    m in env.methods && m in settings.methodsSettings
    && env.run(m, data, settings.methodsSettings[m]).Some?
  }

  /** The exception raised at method `m` when it does not complete. */
  function StepError(env: Env, settings: Settings, m: string): CheckError {
    if m !in env.methods then UnknownMethod(m)
    else if m !in settings.methodsSettings then MissingMethodSettings(m)
    else MethodFailed(m)
  }

  /** The results collected by the method loop, and the invocations it made. */
  datatype MethodRun = MethodRun(results: Result<seq<RawResult>, CheckError>, invoked: seq<Effect>)

  /**
   * The loop over `settings.detection_methods`: one result per method, in
   * order, stopping at the first method that is unregistered, has no
   * settings, or raises.
   */
  function RunMethods(env: Env, settings: Settings, data: DetectionData, ms: seq<string>): (r: MethodRun)
    ensures |r.invoked| <= |ms|
    ensures r.results.Ok? ==> |r.results.value| == |ms| && |r.invoked| == |ms|
  {
    if ms == [] then MethodRun(Ok([]), [])
    else
      var m := ms[0];
      if m !in env.methods || m !in settings.methodsSettings then
        MethodRun(Err(StepError(env, settings, m)), [])
      else match env.run(m, data, settings.methodsSettings[m])
        case None => MethodRun(Err(MethodFailed(m)), [Invoke(m)])
        case Some(res) =>
          var rest := RunMethods(env, settings, data, ms[1..]);
          MethodRun(
            match rest.results case Ok(more) => Ok([res] + more) case Err(e) => Err(e),
            [Invoke(m)] + rest.invoked)
  }

  /**
   * The loop completes exactly when every method completes, and then holds
   * each method's own result at that method's position; the methods it
   * invokes are the first ones of `ms`, in order.
   */
  lemma {:induction false} RunMethodsResults(env: Env, settings: Settings, data: DetectionData, ms: seq<string>)
    ensures var r := RunMethods(env, settings, data, ms);
            && (r.results.Ok? <==> forall i :: 0 <= i < |ms| ==> Completes(env, settings, data, ms[i]))
            && (r.results.Ok? ==> forall i :: 0 <= i < |ms| ==>
                  Some(r.results.value[i]) == env.run(ms[i], data, settings.methodsSettings[ms[i]]))
            && forall i :: 0 <= i < |r.invoked| ==> r.invoked[i] == Invoke(ms[i])
  {
    if ms != [] {
      RunMethodsResults(env, settings, data, ms[1..]);
      var r := RunMethods(env, settings, data, ms);
      if Completes(env, settings, data, ms[0]) {
        if r.results.Ok? {
          forall i | 0 <= i < |ms|
            ensures Some(r.results.value[i]) == env.run(ms[i], data, settings.methodsSettings[ms[i]])
          {
            if i > 0 {
              assert ms[i] == ms[1..][i - 1];
            }
          }
        }
        if forall i :: 0 <= i < |ms| ==> Completes(env, settings, data, ms[i]) {
          assert forall i :: 0 <= i < |ms| - 1 ==> Completes(env, settings, data, ms[1..][i]);
        }
      }
    }
  }

  /** Method `ms[i]` is the first that does not complete. */
  predicate FirstFailure(env: Env, settings: Settings, data: DetectionData, ms: seq<string>, i: int)
    requires 0 <= i < |ms|
  {
    !Completes(env, settings, data, ms[i])
    && forall j :: 0 <= j < i ==> Completes(env, settings, data, ms[j])
  }

  /**
   * The loop stops at the first method that does not complete, with that
   * method's exception, after invoking exactly the methods before it, and the
   * method itself when it was registered and configured (it raised).
   */
  lemma {:induction false} RunMethodsFirstFailure(env: Env, settings: Settings, data: DetectionData,
                                                  ms: seq<string>, i: int)
    requires 0 <= i < |ms| && FirstFailure(env, settings, data, ms, i)
    ensures RunMethods(env, settings, data, ms).results == Err(StepError(env, settings, ms[i]))
    ensures |RunMethods(env, settings, data, ms).invoked|
         == if ms[i] in env.methods && ms[i] in settings.methodsSettings then i + 1 else i
  {
    if i > 0 {
      assert Completes(env, settings, data, ms[0]);
      assert FirstFailure(env, settings, data, ms[1..], i - 1);
      RunMethodsFirstFailure(env, settings, data, ms[1..], i - 1);
    }
  }

  lemma RunMethodsSingle(env: Env, settings: Settings, data: DetectionData, m: string)
    requires Completes(env, settings, data, m)
    ensures RunMethods(env, settings, data, [m])
         == MethodRun(Ok([env.run(m, data, settings.methodsSettings[m]).value]), [Invoke(m)])
  {
    var res := env.run(m, data, settings.methodsSettings[m]).value;
    assert [m][0] == m && [m][1..] == [];
    assert RunMethods(env, settings, data, []) == MethodRun(Ok([]), []);
    assert [res] + [] == [res] && [Invoke(m)] + [] == [Invoke(m)];
  }

  /** Running `p` then `q`: the second part runs only when the first completed. */
  function Chain(a: MethodRun, b: MethodRun): MethodRun {
    match a.results
    case Err(_) => a
    case Ok(first) =>
      MethodRun(match b.results case Ok(second) => Ok(first + second) case Err(e) => Err(e),
                a.invoked + b.invoked)
  }

  lemma {:induction false} RunMethodsAppend(env: Env, settings: Settings, data: DetectionData,
                                            p: seq<string>, q: seq<string>)
    ensures RunMethods(env, settings, data, p + q)
         == Chain(RunMethods(env, settings, data, p), RunMethods(env, settings, data, q))
  {
    if p == [] {
      assert p + q == q;
      var second := RunMethods(env, settings, data, q);
      assert [] + second.invoked == second.invoked;
      if second.results.Ok? {
        assert [] + second.results.value == second.results.value;
      }
    } else {
      var m := p[0];
      assert (p + q)[0] == m && (p + q)[1..] == p[1..] + q;
      if Completes(env, settings, data, m) {
        RunMethodsAppend(env, settings, data, p[1..], q);
        var head := env.run(m, data, settings.methodsSettings[m]).value;
        var rest, second := RunMethods(env, settings, data, p[1..]), RunMethods(env, settings, data, q);
        if rest.results.Ok? && second.results.Ok? {
          assert [head] + (rest.results.value + second.results.value)
              == ([head] + rest.results.value) + second.results.value;
        }
        assert [Invoke(m)] + (rest.invoked + second.invoked) == ([Invoke(m)] + rest.invoked) + second.invoked;
      }
    }
  }

  /**
   * `check(uuid, data)`: the response and the ordered effects on the
   * session store, the methods, the strategy and the archive.
   */
  function CheckSpec(env: Env, sessions: map<SessionKey, CacheEntry>, uuid: string, data: DetectionData): Outcome
  {
    if Cached(env, sessions, uuid, data) then FromCache(env, sessions[SessionKey(uuid, data.url)], data)
    else Uncached(env, uuid, data)
  }

  /** `check` returns the cached entry: caching is on and the session has a stored state. */
  predicate Cached(env: Env, sessions: map<SessionKey, CacheEntry>, uuid: string, data: DetectionData) {
    !SettingsFor(env, uuid).bypassCache && SessionKey(uuid, data.url) in sessions
  }

  /** The cache hit: the stored state and the verdict read back from the stored name. */
  function FromCache(env: Env, cached: CacheEntry, data: DetectionData): Outcome {
    match FromName(cached.result)
    case None => Outcome(Err(UnknownResultName(cached.result)), [])
    case Some(t) => Outcome(Ok(DetectionResult(data.url, env.hash(data.url), cached.state, t)), [])
  }

  /** The entry written before any method runs. */
  function StartedEntry(): CacheEntry {
    CacheEntry(Name(PROCESSING), "STARTED")
  }

  /** The effects after a verdict: the strategy decides, the session is DONE, one record is archived. */
  function Completion(uuid: string, data: DetectionData, settingsJson: Option<string>,
                      strategy: string, verdict: ResultType): seq<Effect>
  {
    [Decide(strategy),
     SetState(SessionKey(uuid, data.url), CacheEntry(Name(verdict), "DONE")),
     Append(ArchiveRecord(uuid, data.url, settingsJson, Name(verdict)))]
  }

  /** The path of `check` that is not served from the cache; it does not read the session store. */
  function Uncached(env: Env, uuid: string, data: DetectionData): Outcome
  {
    var settings := SettingsFor(env, uuid);
    var started := SetState(SessionKey(uuid, data.url), StartedEntry());
    var run := RunMethods(env, settings, data, settings.detectionMethods);
    match run.results
    case Err(e) => Outcome(Err(e), [started] + run.invoked)
    case Ok(results) =>
      if settings.decisionStrategy !in env.strategies then
        Outcome(Err(UnknownStrategy(settings.decisionStrategy)), [started] + run.invoked)
      else
        var verdict := env.decide(settings.decisionStrategy, results);
        Outcome(Ok(DetectionResult(data.url, env.hash(data.url), "DONE", verdict)),
                [started] + run.invoked
                + Completion(uuid, data, Lookup(env.settingsStore, uuid), settings.decisionStrategy, verdict))
  }

  // ---------------------------------------------------------------------------
  // Effects of concatenated logs

  lemma EffectSnoc(sessions: map<SessionKey, CacheEntry>, effects: seq<Effect>, x: Effect)
    ensures ApplySessions(sessions, effects + [x])
         == match x case SetState(k, e) => ApplySessions(sessions, effects)[k := e]
                    case _ => ApplySessions(sessions, effects)
    ensures Archived(effects + [x]) == Archived(effects) + match x case Append(rec) => [rec] case _ => []
    ensures Invocations(effects + [x]) == Invocations(effects) + match x case Invoke(m) => [m] case _ => []
  {
    assert (effects + [x])[..|effects|] == effects;
  }

  lemma {:induction false} EffectsAppend(sessions: map<SessionKey, CacheEntry>, a: seq<Effect>, b: seq<Effect>)
    ensures ApplySessions(sessions, a + b) == ApplySessions(ApplySessions(sessions, a), b)
    ensures Archived(a + b) == Archived(a) + Archived(b)
    ensures Invocations(a + b) == Invocations(a) + Invocations(b)
    decreases |b|
  {
    if b == [] {
      assert a + b == a;
    } else {
      var init, last := b[..|b| - 1], b[|b| - 1];
      assert a + b == (a + init) + [last];
      assert b == init + [last];
      EffectsAppend(sessions, a, init);
      EffectSnoc(sessions, a + init, last);
      EffectSnoc(ApplySessions(sessions, a), init, last);
    }
  }

  /** A log of invocations only leaves the session store and the archive alone. */
  lemma {:induction false} InvocationsOnly(sessions: map<SessionKey, CacheEntry>, effects: seq<Effect>, ms: seq<string>)
    requires |effects| <= |ms| && forall i :: 0 <= i < |effects| ==> effects[i] == Invoke(ms[i])
    ensures ApplySessions(sessions, effects) == sessions
    ensures Archived(effects) == []
    ensures Invocations(effects) == ms[..|effects|]
  {
    if effects != [] {
      var n := |effects| - 1;
      InvocationsOnly(sessions, effects[..n], ms);
      assert ms[..n + 1] == ms[..n] + [ms[n]];
    }
  }

  lemma CompletionEffects(sessions: map<SessionKey, CacheEntry>, uuid: string, data: DetectionData,
                          settingsJson: Option<string>, strategy: string, verdict: ResultType)
    ensures var tail := Completion(uuid, data, settingsJson, strategy, verdict);
            && ApplySessions(sessions, tail) == sessions[SessionKey(uuid, data.url) := CacheEntry(Name(verdict), "DONE")]
            && Archived(tail) == [ArchiveRecord(uuid, data.url, settingsJson, Name(verdict))]
            && Invocations(tail) == []
  {
    var key, rec := SessionKey(uuid, data.url), ArchiveRecord(uuid, data.url, settingsJson, Name(verdict));
    var e0, e1, e2 := Decide(strategy), SetState(key, CacheEntry(Name(verdict), "DONE")), Append(rec);
    assert Completion(uuid, data, settingsJson, strategy, verdict) == [e0, e1, e2];
    assert [e0, e1, e2][..2] == [e0, e1];
    assert [e0, e1][..1] == [e0];
    assert [e0][..0] == [];
    assert ApplySessions(sessions, [e0]) == sessions && Archived([e0]) == [] && Invocations([e0]) == [];
    assert ApplySessions(sessions, [e0, e1]) == sessions[key := e1.entry];
    assert Archived([e0, e1]) == [] && Invocations([e0, e1]) == [];
    assert ApplySessions(sessions, [e0, e1, e2]) == sessions[key := e1.entry];
    assert Archived([e0, e1, e2]) == [] + [rec] && Invocations([e0, e1, e2]) == [];
  }

  /** The effects of the uncached path up to and including the method loop. */
  lemma UncachedPrefix(env: Env, sessions: map<SessionKey, CacheEntry>, uuid: string, data: DetectionData)
    ensures var settings := SettingsFor(env, uuid);
            var ms := settings.detectionMethods;
            var started := SetState(SessionKey(uuid, data.url), StartedEntry());
            var run := RunMethods(env, settings, data, ms);
            && ApplySessions(sessions, [started] + run.invoked) == sessions[SessionKey(uuid, data.url) := StartedEntry()]
            && Archived([started] + run.invoked) == []
            && Invocations([started] + run.invoked) == ms[..|run.invoked|]
            && forall j :: 0 <= j < |[started] + run.invoked| ==> !([started] + run.invoked)[j].Decide?
  {
    var settings := SettingsFor(env, uuid);
    var ms := settings.detectionMethods;
    var started := SetState(SessionKey(uuid, data.url), StartedEntry());
    var run := RunMethods(env, settings, data, ms);
    EffectSnoc(sessions, [], started);
    assert [] + [started] == [started];
    RunMethodsResults(env, settings, data, ms);
    InvocationsOnly(ApplySessions(sessions, [started]), run.invoked, ms);
    EffectsAppend(sessions, [started], run.invoked);
  }

  /**
   * When the uncached path raises, the session is left PROCESSING/STARTED,
   * no strategy decides and nothing is archived.
   */
  lemma UncachedRaises(env: Env, sessions: map<SessionKey, CacheEntry>, uuid: string, data: DetectionData)
    requires Uncached(env, uuid, data).response.Err?
    ensures var out := Uncached(env, uuid, data);
            var settings := SettingsFor(env, uuid);
            var run := RunMethods(env, settings, data, settings.detectionMethods);
            && ApplySessions(sessions, out.effects) == sessions[SessionKey(uuid, data.url) := CacheEntry("PROCESSING", "STARTED")]
            && Archived(out.effects) == []
            && Invocations(out.effects) == settings.detectionMethods[..|run.invoked|]
            && forall j :: 0 <= j < |out.effects| ==> !out.effects[j].Decide?
  {
    UncachedPrefix(env, sessions, uuid, data);
  }

  /**
   * When the uncached path returns, it returns the strategy's verdict over
   * the methods' results, the session ends `(verdict name, "DONE")` and
   * exactly one record is archived.
   */
  lemma UncachedReturns(env: Env, sessions: map<SessionKey, CacheEntry>, uuid: string, data: DetectionData)
    requires Uncached(env, uuid, data).response.Ok?
    ensures var out := Uncached(env, uuid, data);
            var settings := SettingsFor(env, uuid);
            var run := RunMethods(env, settings, data, settings.detectionMethods);
            var verdict := out.response.value.result;
            && run.results.Ok?
            && verdict == env.decide(settings.decisionStrategy, run.results.value)
            && out.response.value == DetectionResult(data.url, env.hash(data.url), "DONE", verdict)
            && ApplySessions(sessions, out.effects)
               == sessions[SessionKey(uuid, data.url) := CacheEntry(Name(verdict), "DONE")]
            && Archived(out.effects) == [ArchiveRecord(uuid, data.url, Lookup(env.settingsStore, uuid), Name(verdict))]
            && Invocations(out.effects) == settings.detectionMethods
  {
    var settings := SettingsFor(env, uuid);
    var ms := settings.detectionMethods;
    var started := SetState(SessionKey(uuid, data.url), StartedEntry());
    var run := RunMethods(env, settings, data, ms);
    var verdict := env.decide(settings.decisionStrategy, run.results.value);
    var tail := Completion(uuid, data, Lookup(env.settingsStore, uuid), settings.decisionStrategy, verdict);
    UncachedPrefix(env, sessions, uuid, data);
    EffectsAppend(sessions, [started] + run.invoked, tail);
    CompletionEffects(ApplySessions(sessions, [started] + run.invoked), uuid, data,
                      Lookup(env.settingsStore, uuid), settings.decisionStrategy, verdict);
    assert ms[..|ms|] == ms;
  }

  // ---------------------------------------------------------------------------
  // What one call of `check` does

  /**
   * With caching on, any stored state, an unfinished "STARTED" one included,
   * is returned at once: no method runs, nothing is written or archived.
   */
  lemma CheckServedFromCache(env: Env, sessions: map<SessionKey, CacheEntry>, uuid: string, data: DetectionData)
    requires Cached(env, sessions, uuid, data)
    ensures var out := CheckSpec(env, sessions, uuid, data);
            var entry := sessions[SessionKey(uuid, data.url)];
            && out.effects == []
            && ApplySessions(sessions, out.effects) == sessions && Archived(out.effects) == []
            && (out.response.Ok? <==> FromName(entry.result).Some?)
            && (out.response.Err? ==> out.response.error == UnknownResultName(entry.result))
            && (out.response.Ok? ==>
                  && out.response.value.url == data.url && out.response.value.urlHash == env.hash(data.url)
                  && out.response.value.state == entry.state && Name(out.response.value.result) == entry.result)
  {
  }

  /** Otherwise the first effect, before any method runs, marks the session PROCESSING/STARTED. */
  lemma CheckMarksStartedFirst(env: Env, sessions: map<SessionKey, CacheEntry>, uuid: string, data: DetectionData)
    requires !Cached(env, sessions, uuid, data)
    ensures var out := CheckSpec(env, sessions, uuid, data);
            && |out.effects| >= 1
            && out.effects[0] == SetState(SessionKey(uuid, data.url), CacheEntry("PROCESSING", "STARTED"))
  {
  }

  /**
   * The methods run in the configured order: those invoked are a prefix of
   * `detection_methods`, and all of them when an uncached call succeeds.
   */
  lemma CheckInvokesInOrder(env: Env, sessions: map<SessionKey, CacheEntry>, uuid: string, data: DetectionData)
    ensures var out := CheckSpec(env, sessions, uuid, data);
            var ms := SettingsFor(env, uuid).detectionMethods;
            && Invocations(out.effects) <= ms
            && (!Cached(env, sessions, uuid, data) && out.response.Ok? ==> Invocations(out.effects) == ms)
  {
    if !Cached(env, sessions, uuid, data) {
      if Uncached(env, uuid, data).response.Ok? {
        UncachedReturns(env, sessions, uuid, data);
      } else {
        UncachedRaises(env, sessions, uuid, data);
      }
    }
  }

  /**
   * When method `ms[i]` is the first that does not complete (unregistered:
   * the ValueError; no settings; or it raises), `check` raises that error
   * after running exactly the methods before it (and `ms[i]` itself when it
   * was called and raised); the session stays PROCESSING/STARTED, no strategy
   * decides and nothing is archived.
   */
  lemma CheckStopsAtFirstFailure(env: Env, sessions: map<SessionKey, CacheEntry>, uuid: string,
                                 data: DetectionData, i: int)
    requires !Cached(env, sessions, uuid, data)
    requires 0 <= i < |SettingsFor(env, uuid).detectionMethods|
    requires FirstFailure(env, SettingsFor(env, uuid), data, SettingsFor(env, uuid).detectionMethods, i)
    ensures var out := CheckSpec(env, sessions, uuid, data);
            var settings := SettingsFor(env, uuid);
            var ms := settings.detectionMethods;
            && out.response == Err(StepError(env, settings, ms[i]))
            && Invocations(out.effects)
               == (if ms[i] in env.methods && ms[i] in settings.methodsSettings then ms[..i + 1] else ms[..i])
            && ApplySessions(sessions, out.effects)
               == sessions[SessionKey(uuid, data.url) := CacheEntry("PROCESSING", "STARTED")]
            && Archived(out.effects) == []
            && forall j :: 0 <= j < |out.effects| ==> !out.effects[j].Decide?
  {
    var settings := SettingsFor(env, uuid);
    RunMethodsFirstFailure(env, settings, data, settings.detectionMethods, i);
    UncachedRaises(env, sessions, uuid, data);
  }

  /**
   * A successful call that was not served from the cache returns
   * `(url, hash(url), "DONE", verdict)` for the strategy's verdict over the
   * methods' results, leaves the session as `(verdict name, "DONE")` and
   * appends exactly one archive record.
   */
  lemma CheckCompletes(env: Env, sessions: map<SessionKey, CacheEntry>, uuid: string, data: DetectionData)
    requires !Cached(env, sessions, uuid, data)
    requires CheckSpec(env, sessions, uuid, data).response.Ok?
    ensures var out := CheckSpec(env, sessions, uuid, data);
            var settings := SettingsFor(env, uuid);
            var run := RunMethods(env, settings, data, settings.detectionMethods);
            var verdict := out.response.value.result;
            && run.results.Ok?
            && verdict == env.decide(settings.decisionStrategy, run.results.value)
            && out.response.value == DetectionResult(data.url, env.hash(data.url), "DONE", verdict)
            && ApplySessions(sessions, out.effects)
               == sessions[SessionKey(uuid, data.url) := CacheEntry(Name(verdict), "DONE")]
            && Archived(out.effects)
               == [ArchiveRecord(uuid, data.url, Lookup(env.settingsStore, uuid), Name(verdict))]
  {
    UncachedReturns(env, sessions, uuid, data);
  }

  /** Whatever path it takes, `check` writes no session other than its own (uuid, url) one. */
  lemma CheckTouchesOnlyItsSession(env: Env, sessions: map<SessionKey, CacheEntry>, uuid: string, data: DetectionData)
    ensures ApplySessions(sessions, CheckSpec(env, sessions, uuid, data).effects) - {SessionKey(uuid, data.url)}
         == sessions - {SessionKey(uuid, data.url)}
  {
    if !Cached(env, sessions, uuid, data) {
      if Uncached(env, uuid, data).response.Ok? {
        UncachedReturns(env, sessions, uuid, data);
      } else {
        UncachedRaises(env, sessions, uuid, data);
      }
    }
  }

  /**
   * Idempotence: once a call without cache bypass has succeeded, the same
   * request returns the same result, now from the cache via the stored name,
   * and runs nothing, writes nothing and archives nothing.
   */
  lemma CheckIdempotent(env: Env, sessions: map<SessionKey, CacheEntry>, uuid: string, data: DetectionData)
    requires !SettingsFor(env, uuid).bypassCache
    requires CheckSpec(env, sessions, uuid, data).response.Ok?
    ensures var first := CheckSpec(env, sessions, uuid, data);
            var second := CheckSpec(env, ApplySessions(sessions, first.effects), uuid, data);
            second.response == first.response && second.effects == []
  {
    if !Cached(env, sessions, uuid, data) {
      UncachedReturns(env, sessions, uuid, data);
      NameRoundTrip(CheckSpec(env, sessions, uuid, data).response.value.result);
    }
  }

  /**
   * With a "phishURL" override, the URL returned, hashed and used as the
   * session key is the override, while the screenshot URL stays the original.
   */
  lemma CheckUsesOverriddenUrl(env: Env, sessions: map<SessionKey, CacheEntry>, uuid: string, json: Json)
    requires FromJson(json).Ok? && "phishURL" in json
    ensures var data := FromJson(json).value;
            var out := CheckSpec(env, sessions, uuid, data);
            && data.url == json["phishURL"]
            && (out.response.Ok? ==> out.response.value.url == json["phishURL"]
                                     && out.response.value.urlHash == env.hash(json["phishURL"]))
            && forall j :: 0 <= j < |out.effects| && out.effects[j].SetState? ==>
                 out.effects[j].key == SessionKey(uuid, json["phishURL"])
  {
    var data := FromJson(json).value;
    var settings := SettingsFor(env, uuid);
    RunMethodsResults(env, settings, data, settings.detectionMethods);
  }

  // ---------------------------------------------------------------------------
  // The orchestrator with its stores

  /**
   * The process-wide state `check` works on: the session store and the
   * archive, with the collaborators it reads. `calls` records, in order, the
   * effects `check` has had on its collaborators.
   */
  class Detector {
    const env: Env
    var sessions: map<SessionKey, CacheEntry>
    var archive: seq<ArchiveRecord>
    ghost var calls: seq<Effect>

    constructor (env: Env, sessions: map<SessionKey, CacheEntry>, archive: seq<ArchiveRecord>)
      ensures this.env == env && this.sessions == sessions && this.archive == archive && calls == []
    {
      this.env := env;
      this.sessions := sessions;
      this.archive := archive;
      calls := [];
    }

    /** `session.set_state(result, state)`. */
    method SetSessionState(key: SessionKey, entry: CacheEntry)
      modifies this`sessions, this`calls
      ensures sessions == old(sessions)[key := entry]
      ensures calls == old(calls) + [SetState(key, entry)]
    {
      sessions := sessions[key := entry];
      calls := calls + [SetState(key, entry)];
    }

    /** `archive.append(...)`. */
    method AppendToArchive(rec: ArchiveRecord)
      modifies this`archive, this`calls
      ensures archive == old(archive) + [rec]
      ensures calls == old(calls) + [Append(rec)]
    {
      archive := archive + [rec];
      calls := calls + [Append(rec)];
    }

    /** `check(uuid, data)`. */
    method Check(uuid: string, data: DetectionData) returns (r: Result<DetectionResult, CheckError>)
      modifies this`sessions, this`archive, this`calls
      ensures var out := CheckSpec(env, old(sessions), uuid, data);
              && r == out.response
              && calls == old(calls) + out.effects
              && sessions == ApplySessions(old(sessions), out.effects)
              && archive == old(archive) + Archived(out.effects)
    {
      var urlHash := env.hash(data.url);
      var key := SessionKey(uuid, data.url);
      var settingsJson := Lookup(env.settingsStore, uuid);
      var settings := env.defaults;
      if settingsJson.Some? {
        settings := env.parseSettings(settingsJson.value);
      }

      if !settings.bypassCache {
        var cacheResult := Lookup(sessions, key);
        if cacheResult.Some? {
          var t := FromName(cacheResult.value.result);
          if t.None? {
            return Err(UnknownResultName(cacheResult.value.result));
          }
          return Ok(DetectionResult(data.url, urlHash, cacheResult.value.state, t.value));
        }
      }
      r := RunAndRecord(uuid, data, settings, settingsJson, urlHash);
    }

    /**
     * The uncached part of `check`: mark the session STARTED, run the
     * methods, decide, mark it DONE and archive the verdict.
     */
    method RunAndRecord(uuid: string, data: DetectionData, settings: Settings, settingsJson: Option<string>,
                        urlHash: string)
      returns (r: Result<DetectionResult, CheckError>)
      requires settings == SettingsFor(env, uuid) && settingsJson == Lookup(env.settingsStore, uuid)
      requires urlHash == env.hash(data.url)
      modifies this`sessions, this`archive, this`calls
      ensures var out := Uncached(env, uuid, data);
              && r == out.response
              && calls == old(calls) + out.effects
              && sessions == ApplySessions(old(sessions), out.effects)
              && archive == old(archive) + Archived(out.effects)
    {
      ghost var s0, c0, a0 := sessions, calls, archive;
      ghost var out := Uncached(env, uuid, data);
      ghost var run := RunMethods(env, settings, data, settings.detectionMethods);
      ghost var prefix := [SetState(SessionKey(uuid, data.url), StartedEntry())] + run.invoked;
      var key := SessionKey(uuid, data.url);
      SetSessionState(key, CacheEntry(Name(PROCESSING), "STARTED"));
      var results := RunDetectionMethods(data, settings);
      assert calls == c0 + prefix;
      assert sessions == ApplySessions(s0, prefix) && archive == a0 + Archived(prefix) by {
        UncachedPrefix(env, s0, uuid, data);
      }
      if results.Err? {
        assert out == Outcome(Err(results.error), prefix);
        return Err(results.error);
      }
      if settings.decisionStrategy !in env.strategies {
        assert out == Outcome(Err(UnknownStrategy(settings.decisionStrategy)), prefix);
        return Err(UnknownStrategy(settings.decisionStrategy));
      }
      ghost var s1, a1 := sessions, archive;
      var result := Finish(uuid, data, settingsJson, settings.decisionStrategy, results.value);
      r := Ok(DetectionResult(data.url, urlHash, "DONE", result));
      ghost var tail := Completion(uuid, data, settingsJson, settings.decisionStrategy, result);
      assert out == Outcome(r, prefix + tail);
      assert calls == c0 + (prefix + tail);
      assert sessions == ApplySessions(s0, prefix + tail) && archive == a0 + Archived(prefix + tail) by {
        EffectsAppend(s0, prefix, tail);
        CompletionEffects(s1, uuid, data, settingsJson, settings.decisionStrategy, result);
      }
    }

    /** The end of `check`: decide, mark the session DONE and archive the verdict. */
    method Finish(uuid: string, data: DetectionData, settingsJson: Option<string>,
                  strategy: string, results: seq<RawResult>)
      returns (verdict: ResultType)
      modifies this`sessions, this`archive, this`calls
      ensures verdict == env.decide(strategy, results)
      ensures calls == old(calls) + Completion(uuid, data, settingsJson, strategy, verdict)
      ensures sessions == old(sessions)[SessionKey(uuid, data.url) := CacheEntry(Name(verdict), "DONE")]
      ensures archive == old(archive) + [ArchiveRecord(uuid, data.url, settingsJson, Name(verdict))]
    {
      calls := calls + [Decide(strategy)];
      verdict := env.decide(strategy, results);
      SetSessionState(SessionKey(uuid, data.url), CacheEntry(Name(verdict), "DONE"));
      AppendToArchive(ArchiveRecord(uuid, data.url, settingsJson, Name(verdict)));
    }

    /**
     * The loop over `settings.detection_methods`: each method is looked up,
     * its settings fetched and the method run, its result appended.
     */
    method RunDetectionMethods(data: DetectionData, settings: Settings)
      returns (results: Result<seq<RawResult>, CheckError>)
      modifies this`calls
      ensures var run := RunMethods(env, settings, data, settings.detectionMethods);
              results == run.results && calls == old(calls) + run.invoked
    {
      var ms := settings.detectionMethods;
      var collected: seq<RawResult> := [];
      for i := 0 to |ms|
        invariant RunMethods(env, settings, data, ms[..i]).results == Ok(collected)
        invariant calls == old(calls) + RunMethods(env, settings, data, ms[..i]).invoked
      {
        var m := ms[i];
        assert ms == ms[..i] + ms[i..] && ms[i..][0] == m;
        RunMethodsAppend(env, settings, data, ms[..i], ms[i..]);
        if m !in env.methods {
          return Err(UnknownMethod(m));
        }
        if m !in settings.methodsSettings {
          return Err(MissingMethodSettings(m));
        }
        calls := calls + [Invoke(m)];
        var res := env.run(m, data, settings.methodsSettings[m]);
        if res.None? {
          return Err(MethodFailed(m));
        }
        RunMethodsSingle(env, settings, data, m);
        assert ms[..i + 1] == ms[..i] + [m];
        RunMethodsAppend(env, settings, data, ms[..i], [m]);
        collected := collected + [res.value];
      }
      assert ms[..|ms|] == ms;
      return Ok(collected);
    }
  }
}
