/**
 * The client facade: it keeps the merged configuration and hands out one
 * object per API group, built by the factory on first access and cached for
 * the facade's lifetime.
 */
module EbayApi {
  import opened Wrappers
  import opened AppConfig

  /** The API groups the facade exposes, one getter each. */
  datatype Group =
    | Buy | Commerce | Developer | PostOrder | Sell
    | Trading | Finding | Shopping | ClientAlerts

  /**
   * An API-group object built by the factory.  The factory is taken to
   * build a new object on every call, so `serial`, the number of the factory call that
   * built it, stands for object identity.
   */
  datatype Instance = Instance(group: Group, serial: nat)

  /**
   * The facade's state: the merged configuration, the cached group objects
   * (the `_buy` … `_clientAlerts` fields, a missing key being `undefined`),
   * and the groups the factory has been asked for, in order.
   */
  datatype Facade = Facade(appConfig: AppConfig, cache: map<Group, Instance>, factoryCalls: seq<Group>)

  /**
   * The invariant of every reachable facade: each cached object was built by
   * the factory call its serial names, for its own group; every factory call
   * filled a cache slot; no group was ever built twice.
   */
  predicate Valid(f: Facade) {
    && (forall g :: g in f.cache ==>
          && f.cache[g].group == g
          && f.cache[g].serial < |f.factoryCalls|
          && f.factoryCalls[f.cache[g].serial] == g)
    && (forall i :: 0 <= i < |f.factoryCalls| ==> f.factoryCalls[i] in f.cache)
    && (forall i, j :: 0 <= i < j < |f.factoryCalls| ==> f.factoryCalls[i] != f.factoryCalls[j])
  }

  /** The constructor: the caller's configuration merged over the defaults, nothing cached yet. */
  function New(config: CallerConfig): (f: Facade)
    ensures Valid(f)
    ensures f.appConfig == Merge(config)
    ensures f.cache == map[] && f.factoryCalls == []
  {
    Facade(Merge(config), map[], [])
  }

  /**
   * The static `fromEnv`: a facade built from the environment's
   * configuration, or the error naming the first missing required variable.
   */
  function FromEnv(env: Env, parseInt10: string -> JsNumber, marketplaces: EnumObject)
    : (r: Result<Facade, EnvError>)
    ensures r.Failure? <==> ConfigFromEnv(env, parseInt10, marketplaces).Failure?
    ensures r.Failure? ==> r.error == ConfigFromEnv(env, parseInt10, marketplaces).error
    ensures r.Success? ==> Valid(r.value) && r.value.cache == map[]
    ensures r.Success? ==>
              && r.value.appConfig.appId == env[AppIdVar]
              && r.value.appConfig.certId == env[CertIdVar]
              && r.value.appConfig.devId == env[DevIdVar]
              && r.value.appConfig.authToken == Lookup(env, AuthTokenVar)
              && r.value.appConfig.ruName == Lookup(env, RuNameVar)
    ensures r.Success? ==>
              (r.value.appConfig.sandbox == Some(true) <==> SandboxVar in env && env[SandboxVar] == "true")
    ensures r.Success? ==> r.value.appConfig.sandbox.Some?
    ensures r.Success? && !IsSet(env, SiteIdVar) ==> r.value.appConfig.siteId == Some(SiteIdEbayDe)
    ensures r.Success? && IsSet(env, SiteIdVar) ==> r.value.appConfig.siteId == Some(parseInt10(env[SiteIdVar]))
    ensures r.Success? ==> r.value.appConfig.marketplaceId == Some(ResolveMarketplace(env, marketplaces))
    ensures (r.Success? && ResolveMarketplaceAsWritten(env, marketplaces).Member?)
              ==> r.value.appConfig.marketplaceId == Some(ResolveMarketplaceAsWritten(env, marketplaces).value)
  {
    match ConfigFromEnv(env, parseInt10, marketplaces)
    case Failure(e) => Failure(e)
    case Success(config) => Success(New(config))
  }

  /**
   * A group getter (`buy`, `commerce`, … `clientAlerts`): the cached object
   * when there is one, otherwise a new one from the factory, which is cached.
   */
  function Access(f: Facade, g: Group): (res: (Facade, Instance))
    ensures g in f.cache ==> res == (f, f.cache[g])
    ensures g !in f.cache ==> res.0.factoryCalls == f.factoryCalls + [g] && res.1.group == g
    ensures res.0.cache == f.cache[g := res.1]
    ensures res.0.appConfig == f.appConfig
  {
    if g in f.cache then (f, f.cache[g])
    else
      var built := Instance(g, |f.factoryCalls|);
      (f.(cache := f.cache[g := built], factoryCalls := f.factoryCalls + [g]), built)
  }

  /** Every getter keeps the facade invariant. */
  lemma AccessPreservesValid(f: Facade, g: Group)
    requires Valid(f)
    ensures Valid(Access(f, g).0)
  {
  }

  /**
   * The first access of a group makes a factory call no cached object came
   * from (a serial none of them carries); later accesses return that same
   * object and change nothing.
   */
  lemma AccessMemoises(f: Facade, g: Group)
    requires Valid(f)
    ensures g !in f.cache ==> forall h :: h in f.cache ==> f.cache[h].serial != Access(f, g).1.serial
    ensures Access(Access(f, g).0, g) == (Access(f, g).0, Access(f, g).1)
  {
  }

  /** Accessing one group leaves every other group's cached object untouched. */
  lemma AccessLeavesOthers(f: Facade, g: Group, h: Group)
    requires g != h
    ensures h in Access(f, g).0.cache <==> h in f.cache
    ensures h in f.cache ==> Access(f, g).0.cache[h] == f.cache[h]
  {
  }

  /** A run of getter calls, in order: the final facade and what each call returned. */
  function Run(f: Facade, trace: seq<Group>): (res: (Facade, seq<Instance>))
    ensures |res.1| == |trace|
    decreases trace
  {
    if trace == [] then (f, [])
    else
      var (f1, first) := Access(f, trace[0]);
      var (f2, rest) := Run(f1, trace[1..]);
      (f2, [first] + rest)
  }

  /**
   * Over any run of getter calls: the invariant holds throughout, objects
   * cached before the run stay cached, every call returns the object finally
   * cached for its group, and the factory is asked only for groups the run
   * accessed.
   */
  lemma {:induction false} RunMemoises(f: Facade, trace: seq<Group>)
    requires Valid(f)
    decreases trace
    ensures Valid(Run(f, trace).0)
    ensures Run(f, trace).0.appConfig == f.appConfig
    ensures forall g :: g in f.cache ==> g in Run(f, trace).0.cache && Run(f, trace).0.cache[g] == f.cache[g]
    ensures forall k :: 0 <= k < |trace| ==>
              trace[k] in Run(f, trace).0.cache && Run(f, trace).1[k] == Run(f, trace).0.cache[trace[k]]
    ensures f.factoryCalls <= Run(f, trace).0.factoryCalls
    ensures forall i :: |f.factoryCalls| <= i < |Run(f, trace).0.factoryCalls| ==>
              Run(f, trace).0.factoryCalls[i] in trace
  {
    if trace != [] {
      var (f1, first) := Access(f, trace[0]);
      AccessPreservesValid(f, trace[0]);
      RunMemoises(f1, trace[1..]);
      var (f2, rest) := Run(f1, trace[1..]);
      assert Run(f, trace) == (f2, [first] + rest);
      forall k | 0 <= k < |trace|
        ensures trace[k] in f2.cache && Run(f, trace).1[k] == f2.cache[trace[k]]
      {
        if k > 0 {
          assert trace[k] == trace[1..][k - 1];
        }
      }
      forall i | |f.factoryCalls| <= i < |f2.factoryCalls|
        ensures f2.factoryCalls[i] in trace
      {
        if i >= |f1.factoryCalls| {
          assert f2.factoryCalls[i] in trace[1..];
        } else {
          assert f2.factoryCalls[i] == f1.factoryCalls[i];
        }
      }
    }
  }

  /**
   * On a freshly constructed facade, any run of getter calls asks the factory
   * at most once per group, and only for groups accessed; two calls of the
   * same getter return the identical object.
   */
  lemma FreshFacadeBuildsEachGroupOnce(config: CallerConfig, trace: seq<Group>)
    ensures forall i, j :: 0 <= i < j < |Run(New(config), trace).0.factoryCalls| ==>
              Run(New(config), trace).0.factoryCalls[i] != Run(New(config), trace).0.factoryCalls[j]
    ensures forall i :: 0 <= i < |Run(New(config), trace).0.factoryCalls| ==>
              Run(New(config), trace).0.factoryCalls[i] in trace
    ensures forall k, l :: 0 <= k < |trace| && 0 <= l < |trace| && trace[k] == trace[l] ==>
              Run(New(config), trace).1[k] == Run(New(config), trace).1[l]
    ensures forall k :: 0 <= k < |trace| ==> Run(New(config), trace).1[k].group == trace[k]
  {
    RunMemoises(New(config), trace);
  }
}
