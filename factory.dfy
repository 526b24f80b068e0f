/**
 * The provider factory: which backend a provider name selects, the cache of
 * instances it keeps, the fallback scan used after a failure and the health
 * report. The environment (the OpenAI key, which backends answer their
 * health check, what the OpenAI client raises without a key) is fixed for
 * the factory's lifetime.
 */
module Factory {
  import opened Wrappers
  import opened Providers

  datatype Env = Env(openAiKey: Option<string>, healthy: set<ProviderKind>, clientError: string)

  /** The key is set and non-empty (the original tests its truthiness). */
  predicate HasOpenAiKey(env: Env) {
    env.openAiKey.Some? && env.openAiKey.value != ""
  }

  /** Automatic selection: openai when a key is configured, the free ollama otherwise. */
  function SelectBestProvider(env: Env): (name: string)
    ensures name == "openai" <==> HasOpenAiKey(env)
    ensures name == "openai" || name == "ollama"
  {
    if HasOpenAiKey(env) then "openai" else "ollama"
  }

  /** The name under which an instance is looked up and cached. */
  function ResolveName(env: Env, name: string): (r: string)
    ensures name != "auto" ==> r == name
    ensures name == "auto" ==> r == SelectBestProvider(env)
  {
    if name == "auto" then SelectBestProvider(env) else name
  }

  /** The backend an instance of that name is: every name but openai builds Ollama. */
  function KindFor(name: string): (k: ProviderKind)
    ensures k == OpenAIKind <==> name == "openai"
  {
    if name == "openai" then OpenAIKind else OllamaKind
  }

  /** Building an instance: the OpenAI client refuses to be built without a key. */
  function CreateOutcome(env: Env, name: string): (r: Result<ProviderKind, string>)
    ensures r.Failure? <==> name == "openai" && env.openAiKey.None?
    ensures r.Failure? ==> r.error == env.clientError
    ensures r.Success? ==> r.value == KindFor(name)
  {
    if KindFor(name) == OpenAIKind && env.openAiKey.None? then Failure(env.clientError)
    else Success(KindFor(name))
  }

  /** What asking the factory for a provider name yields, cache or not. */
  function ProviderOutcome(env: Env, name: string): Result<ProviderKind, string> {
    CreateOutcome(env, ResolveName(env, name))
  }

  /** Automatic selection never fails, and picks OpenAI exactly when a key is configured. */
  lemma AutoSelection(env: Env)
    ensures ProviderOutcome(env, "auto").Success?
    ensures ProviderOutcome(env, "auto").value == OpenAIKind <==> HasOpenAiKey(env)
  {
  }

  /** Names without an implementation (claude, gemini, anything else) get an Ollama instance. */
  lemma UnknownNamesGetOllama(env: Env, name: string)
    requires name != "auto" && name != "openai"
    ensures ProviderOutcome(env, name) == Success(OllamaKind)
  {
  }

  /** The order in which fallbacks are tried. */
  function FallbackOrder(): seq<string> {
    ["ollama", "openai", "claude", "gemini"]
  }

  /** The list the fallback scan skips: the caller's list (or a new one) with the failed name appended. */
  function EffectiveTried(failed: string, tried: seq<string>): seq<string> {
    tried + [failed]
  }

  /** The caller's list after the call: an empty list is replaced by a new one, not appended to. */
  function CallerListAfter(failed: string, tried: seq<string>): (r: seq<string>)
    ensures tried == [] ==> r == []
    ensures tried != [] ==> r == tried + [failed]
  {
    if tried == [] then [] else EffectiveTried(failed, tried)
  }

  /**
   * The fallback scan: the first untried name whose instance reports
   * healthy; an instance that cannot be built aborts the scan with its error.
   */
  function FallbackChoice(env: Env, order: seq<string>, tried: seq<string>): Result<Option<ProviderKind>, string>
    decreases |order|
  {
    if order == [] then Success(None)
    else if order[0] in tried then FallbackChoice(env, order[1..], tried)
    else match ProviderOutcome(env, order[0])
      case Failure(e) => Failure(e)
      case Success(k) => if k in env.healthy then Success(Some(k)) else FallbackChoice(env, order[1..], tried)
  }

  /** The cache after the scan: every instance the scan built is cached, up to where it stopped. */
  function CacheAfterScan(env: Env, order: seq<string>, tried: seq<string>, cache: map<string, ProviderKind>): map<string, ProviderKind>
    decreases |order|
  {
    if order == [] then cache
    else if order[0] in tried then CacheAfterScan(env, order[1..], tried, cache)
    else match ProviderOutcome(env, order[0])
      case Failure(_) => cache
      case Success(k) =>
        var c := cache[ResolveName(env, order[0]) := k];
        if k in env.healthy then c else CacheAfterScan(env, order[1..], tried, c)
  }

  /**
   * A provider the scan returns is healthy and comes from a name that was
   * not tried, and every untried name before it was built and unhealthy.
   */
  lemma {:induction false} FallbackPicksFirstHealthy(env: Env, order: seq<string>, tried: seq<string>)
    requires forall i :: 0 <= i < |order| ==> order[i] != "auto"
    requires FallbackChoice(env, order, tried).Success? && FallbackChoice(env, order, tried).value.Some?
    ensures var k := FallbackChoice(env, order, tried).value.value;
            k in env.healthy &&
            exists j :: 0 <= j < |order| && order[j] !in tried && KindFor(order[j]) == k &&
              forall i :: 0 <= i < j && order[i] !in tried ==>
                CreateOutcome(env, order[i]).Success? && KindFor(order[i]) !in env.healthy
    decreases |order|
  {
    var k := FallbackChoice(env, order, tried).value.value;
    if order[0] in tried || KindFor(order[0]) !in env.healthy {
      FallbackPicksFirstHealthy(env, order[1..], tried);
      var j' :| 0 <= j' < |order[1..]| && order[1..][j'] !in tried && KindFor(order[1..][j']) == k &&
              forall i :: 0 <= i < j' && order[1..][i] !in tried ==>
                CreateOutcome(env, order[1..][i]).Success? && KindFor(order[1..][i]) !in env.healthy;
      assert order[j' + 1] == order[1..][j'];
      forall i | 0 <= i < j' + 1 && order[i] !in tried
        ensures CreateOutcome(env, order[i]).Success? && KindFor(order[i]) !in env.healthy
      {
        if i > 0 { assert order[i] == order[1..][i - 1]; }
      }
    } else {
      assert order[0] !in tried && KindFor(order[0]) == k;
    }
  }

  /** No provider means every untried name was built and reported unhealthy. */
  lemma {:induction false} FallbackNoneMeansAllUnhealthy(env: Env, order: seq<string>, tried: seq<string>)
    requires forall i :: 0 <= i < |order| ==> order[i] != "auto"
    ensures FallbackChoice(env, order, tried) == Success(None) <==>
            forall i :: 0 <= i < |order| && order[i] !in tried ==>
              CreateOutcome(env, order[i]).Success? && KindFor(order[i]) !in env.healthy
    decreases |order|
  {
    if order != [] {
      FallbackNoneMeansAllUnhealthy(env, order[1..], tried);
      assert forall i :: 1 <= i < |order| ==> order[i] == order[1..][i - 1];
    }
  }

  /** The scan fails only because the OpenAI instance could not be built. */
  lemma {:induction false} FallbackFailsOnlyWithoutKey(env: Env, order: seq<string>, tried: seq<string>)
    requires forall i :: 0 <= i < |order| ==> order[i] != "auto"
    requires FallbackChoice(env, order, tried).Failure?
    ensures FallbackChoice(env, order, tried).error == env.clientError
    ensures env.openAiKey.None? && "openai" in order && "openai" !in tried
    decreases |order|
  {
    if order[0] in tried || CreateOutcome(env, order[0]).Success? {
      FallbackFailsOnlyWithoutKey(env, order[1..], tried);
    }
  }

  /** A provider the scan returns can be built again from its own name, and yields the same backend. */
  lemma {:induction false} FallbackResultBuildable(env: Env, order: seq<string>, tried: seq<string>)
    requires forall i :: 0 <= i < |order| ==> order[i] != "auto"
    requires FallbackChoice(env, order, tried).Success? && FallbackChoice(env, order, tried).value.Some?
    ensures var k := FallbackChoice(env, order, tried).value.value;
            ProviderOutcome(env, k.Name()) == Success(k)
    decreases |order|
  {
    if order[0] in tried || (CreateOutcome(env, order[0]).Success? && KindFor(order[0]) !in env.healthy) {
      FallbackResultBuildable(env, order[1..], tried);
    } else {
      assert ProviderOutcome(env, order[0]) == Success(KindFor(order[0]));
    }
  }

  /** A backend the fallback scan finds can be built again under its own name. */
  lemma FoundBackendBuilds(env: Env, tried: seq<string>, k: ProviderKind)
    requires FallbackChoice(env, FallbackOrder(), tried) == Success(Some(k))
    ensures ProviderOutcome(env, k.AsProvider().Name()) == Success(k)
  {
    FallbackResultBuildable(env, FallbackOrder(), tried);
  }

  /** The scan never returns a name the caller had already tried, nor the one that failed. */
  lemma FallbackSkipsTried(env: Env, failed: string, tried: seq<string>)
    requires FallbackChoice(env, FallbackOrder(), EffectiveTried(failed, tried)) == Success(Some(OpenAIKind))
    ensures "openai" !in tried && failed != "openai"
  {
    var eff := EffectiveTried(failed, tried);
    FallbackPicksFirstHealthy(env, FallbackOrder(), eff);
    var j :| 0 <= j < 4 && FallbackOrder()[j] !in eff && KindFor(FallbackOrder()[j]) == OpenAIKind;
    assert FallbackOrder()[j] == "openai";
  }

  /**
   * The scan may hand back the backend that just failed: after ollama fails,
   * a claude entry builds another Ollama instance.
   */
  lemma FallbackCanReturnFailedBackend(env: Env)
    requires OllamaKind in env.healthy && OpenAIKind !in env.healthy && env.openAiKey.Some?
    ensures FallbackChoice(env, FallbackOrder(), EffectiveTried("ollama", [])) == Success(Some(OllamaKind))
  {
    var eff := EffectiveTried("ollama", []);
    assert FallbackOrder()[1..][1..] == ["claude", "gemini"];
    assert "claude" !in eff && "openai" !in eff && "ollama" in eff;
  }

  /** Without an OpenAI key, a failure of ollama makes the scan raise instead of answering. */
  lemma FallbackRaisesWithoutKey(env: Env)
    requires env.openAiKey.None?
    ensures FallbackChoice(env, FallbackOrder(), EffectiveTried("ollama", [])) == Failure(env.clientError)
  {
    var eff := EffectiveTried("ollama", []);
    assert "openai" !in eff && "ollama" in eff;
  }

  /** One line of the health report. */
  function HealthEntry(env: Env, name: string): (s: string)
    ensures s == "healthy" || s == "unhealthy" || (s == "error: " + env.clientError && name == "openai")
  {
    match CreateOutcome(env, name)
    case Failure(e) => "error: " + e
    case Success(k) => if k in env.healthy then "healthy" else "unhealthy"
  }

  /** The backends the health report covers. */
  function HealthNames(): seq<string> {
    ["openai", "ollama"]
  }

  /** The report for a prefix of the names, one entry per name. */
  function HealthReport(env: Env, names: seq<string>): (r: map<string, string>)
    ensures r.Keys == set i | 0 <= i < |names| :: names[i]
    ensures forall i :: 0 <= i < |names| ==> r[names[i]] == HealthEntry(env, names[i])
    decreases |names|
  {
    if names == [] then map[]
    else
      var init := names[..|names| - 1];
      var r := HealthReport(env, init);
      assert forall i :: 0 <= i < |init| ==> init[i] == names[i];
      r[names[|names| - 1] := HealthEntry(env, names[|names| - 1])]
  }

  /** The cache after building instances for some names (failed builds are not cached). */
  function CacheAfterBuilding(env: Env, names: seq<string>, cache: map<string, ProviderKind>): map<string, ProviderKind>
    decreases |names|
  {
    if names == [] then cache
    else
      var c := CacheAfterBuilding(env, names[..|names| - 1], cache);
      var name := names[|names| - 1];
      match CreateOutcome(env, name)
      case Failure(_) => c
      case Success(k) => c[name := k]
  }

  /** The full report names exactly openai and ollama; ollama is never an error. */
  lemma HealthReportShape(env: Env)
    ensures HealthReport(env, HealthNames()).Keys == {"openai", "ollama"}
    ensures HealthReport(env, HealthNames())["ollama"] in {"healthy", "unhealthy"}
    ensures HealthReport(env, HealthNames())["openai"] == "error: " + env.clientError <==> env.openAiKey.None?
  {
    var r := HealthReport(env, HealthNames());
    assert HealthNames()[0] == "openai" && HealthNames()[1] == "ollama";
    assert r["ollama"] == HealthEntry(env, "ollama");
    assert r["openai"] == HealthEntry(env, "openai");
    var err := "error: " + env.clientError;
    assert err[0] == 'e' && "healthy"[0] == 'h' && "unhealthy"[0] == 'u';
  }

  /** The factory with its cache of instances by resolved name. */
  class ProviderFactory {
    const env: Env
    var instances: map<string, ProviderKind>

    /** Every cached instance is what building that name would give. */
    predicate Valid()
      reads this
    {
      forall name :: name in instances ==> CreateOutcome(env, name) == Success(instances[name])
    }

    constructor (env: Env)
      ensures Valid()
      ensures this.env == env && instances == map[]
    {
      this.env := env;
      instances := map[];
    }

    /** The instance for a name: a cached one if any, otherwise a newly built and cached one. */
    method GetProvider(name: string) returns (r: Result<ProviderKind, string>)
      requires Valid()
      modifies this
      ensures Valid()
      ensures r == ProviderOutcome(env, name)
      ensures r.Success? ==> instances == old(instances)[ResolveName(env, name) := r.value]
      ensures r.Failure? ==> instances == old(instances)
    {
      var resolved := name;
      if name == "auto" {
        resolved := SelectBestProvider(env);
      }
      if resolved in instances {
        r := Success(instances[resolved]);
        assert instances == instances[resolved := r.value];
        return;
      }
      var kind := KindFor(resolved);
      if kind == OpenAIKind && env.openAiKey.None? {
        r := Failure(env.clientError);
        return;
      }
      instances := instances[resolved := kind];
      r := Success(kind);
    }

    /**
     * The provider to fall back to after `failed`. Returns the scan's
     * outcome and the caller's list as the call leaves it.
     */
    method GetFallbackProvider(failed: string, tried: seq<string>)
      returns (r: Result<Option<ProviderKind>, string>, callerList: seq<string>)
      requires Valid()
      modifies this
      ensures Valid()
      ensures r == FallbackChoice(env, FallbackOrder(), EffectiveTried(failed, tried))
      ensures instances == CacheAfterScan(env, FallbackOrder(), EffectiveTried(failed, tried), old(instances))
      ensures callerList == CallerListAfter(failed, tried)
    {
      var list := if tried == [] then [] else tried;
      list := list + [failed];
      callerList := if tried == [] then [] else list;
      var order := FallbackOrder();
      var i := 0;
      while i < |order|
        invariant 0 <= i <= |order| && list == EffectiveTried(failed, tried)
        invariant Valid()
        invariant FallbackChoice(env, order, list) == FallbackChoice(env, order[i..], list)
        invariant CacheAfterScan(env, order, list, old(instances)) == CacheAfterScan(env, order[i..], list, instances)
      {
        assert order[i..][1..] == order[i + 1..];
        if order[i] !in list {
          var p := GetProvider(order[i]);
          if p.Failure? {
            r := Failure(p.error);
            return;
          }
          if p.value in env.healthy {
            r := Success(Some(p.value));
            return;
          }
        }
        i := i + 1;
      }
      r := Success(None);
    }

    /** The health report, building (and caching) the instances it needs. */
    method HealthCheckAll() returns (results: map<string, string>)
      requires Valid()
      modifies this
      ensures Valid()
      ensures results == HealthReport(env, HealthNames())
      ensures instances == CacheAfterBuilding(env, HealthNames(), old(instances))
    {
      var names := HealthNames();
      results := map[];
      for i := 0 to |names|
        invariant Valid()
        invariant results == HealthReport(env, names[..i])
        invariant instances == CacheAfterBuilding(env, names[..i], old(instances))
      {
        assert names[..i + 1][..i] == names[..i];
        var p := GetProvider(names[i]);
        match p {
          case Failure(e) => results := results[names[i] := "error: " + e];
          case Success(k) => results := results[names[i] := if k in env.healthy then "healthy" else "unhealthy"];
        }
      }
      assert names[..|names|] == names;
    }
  }
}
