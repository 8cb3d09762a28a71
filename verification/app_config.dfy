/**
 * Configuration of the client facade: reading it from the process
 * environment (the static `fromEnv`) and merging a caller's configuration
 * over the defaults (the constructor).
 */
module AppConfig {
  import opened Wrappers

  /** The process environment: an unset variable has no key. */
  type Env = map<string, string>

  const AppIdVar: string := "EBAY_APP_ID"
  const CertIdVar: string := "EBAY_CERT_ID"
  const DevIdVar: string := "EBAY_DEV_ID"
  const AuthTokenVar: string := "EBAY_AUTH_TOKEN"
  const SiteIdVar: string := "EBAY_SITE_ID"
  const MarketplaceIdVar: string := "EBAY_MARKETPLACE_ID"
  const RuNameVar: string := "EBAY_RU_NAME"
  const SandboxVar: string := "EBAY_SANDBOX"

  /** The required variables, in the order they are checked. */
  const RequiredVars: seq<string> := [AppIdVar, CertIdVar, DevIdVar]

  /** The error raised when a required variable is missing; it names the variable. */
  datatype EnvError = EnvError(variable: string)

  /** JavaScript truthiness of `process.env[name]`: set, and not the empty string. */
  predicate IsSet(env: Env, name: string) {
    name in env && env[name] != ""
  }

  /** `process.env[name]`, which is `undefined` when the variable is unset. */
  function Lookup(env: Env, name: string): (r: Option<string>)
    ensures r.Some? <==> name in env
    ensures r.Some? ==> r.value == env[name]
  {
    if name in env then Some(env[name]) else None
  }

  /** A JavaScript number as `parseInt` can return it: an integer or NaN. */
  datatype JsNumber = Int(value: int) | NaN

  /** `SiteId.EBAY_DE`, the default site. */
  const SiteIdEbayDe: JsNumber := Int(77)

  /** `MarketplaceId.EBAY_DE`, the default marketplace. */
  const MarketplaceEbayDe: string := "EBAY_DE"

  /**
   * A compiled TypeScript string enum at run time: a plain object whose own
   * keys are the member names, mapped to the member values.  Like every plain
   * object it also inherits the properties of `Object.prototype`.
   */
  datatype EnumObject = EnumObject(own: map<string, string>)

  /** Property names every plain object inherits from `Object.prototype`. */
  const ObjectPrototypeKeys: set<string> := {
    "constructor", "hasOwnProperty", "isPrototypeOf", "propertyIsEnumerable",
    "toLocaleString", "toString", "valueOf", "__proto__",
    "__defineGetter__", "__defineSetter__", "__lookupGetter__", "__lookupSetter__"
  }

  /** What reading a property of an enum object yields: a member's value, or an inherited non-member. */
  datatype PropertyValue = Member(value: string) | Inherited(key: string)

  /** The JavaScript `key in obj` test, which also finds inherited properties. */
  predicate InOperator(key: string, obj: EnumObject) {
    key in obj.own || key in ObjectPrototypeKeys
  }

  /** `obj[key]` for a key that `in` accepts: own properties shadow inherited ones. */
  function GetProperty(obj: EnumObject, key: string): (r: PropertyValue)
    requires InOperator(key, obj)
    ensures r.Member? <==> key in obj.own
    ensures r.Member? ==> r.value == obj.own[key]
    ensures r.Inherited? ==> r.key == key
  {
    if key in obj.own then Member(obj.own[key]) else Inherited(key)
  }

  /**
   * The marketplace as `fromEnv` computes it: the enum member named by
   * `EBAY_MARKETPLACE_ID` when that variable is set and passes the `in` test,
   * otherwise `MarketplaceId.EBAY_DE`.
   */
  function ResolveMarketplaceAsWritten(env: Env, marketplaces: EnumObject): (r: PropertyValue)
    ensures !IsSet(env, MarketplaceIdVar) ==> r == Member(MarketplaceEbayDe)
    ensures (IsSet(env, MarketplaceIdVar) && env[MarketplaceIdVar] in marketplaces.own)
              ==> r == Member(marketplaces.own[env[MarketplaceIdVar]])
    ensures r.Inherited? <==>
              (IsSet(env, MarketplaceIdVar) && env[MarketplaceIdVar] !in marketplaces.own
               && env[MarketplaceIdVar] in ObjectPrototypeKeys)
    ensures (IsSet(env, MarketplaceIdVar) && env[MarketplaceIdVar] !in marketplaces.own
             && env[MarketplaceIdVar] !in ObjectPrototypeKeys)
              ==> r == Member(MarketplaceEbayDe)
    ensures r.Inherited? ==> MarketplaceIdVar in env && r.key == env[MarketplaceIdVar]
  {
    if IsSet(env, MarketplaceIdVar) && InOperator(env[MarketplaceIdVar], marketplaces)
    then GetProperty(marketplaces, env[MarketplaceIdVar])
    else Member(MarketplaceEbayDe)
  }

  /**
   * Setting `EBAY_MARKETPLACE_ID=toString` makes `fromEnv` take
   * `Object.prototype.toString`, a function, as the marketplace: the `in`
   * test lets inherited property names through.
   */
  lemma MarketplaceAcceptsInheritedName(marketplaces: EnumObject)
    requires "toString" !in marketplaces.own
    ensures ResolveMarketplaceAsWritten(map[MarketplaceIdVar := "toString"], marketplaces)
              == Inherited("toString")
  {
  }

  /**
   * The marketplace with the evidently intended own-key test: the enum member
   * named by `EBAY_MARKETPLACE_ID` when there is one, otherwise
   * `MarketplaceId.EBAY_DE`.  The result is always a value of the enum or the
   * default.
   */
  function ResolveMarketplace(env: Env, marketplaces: EnumObject): (r: string)
    ensures (IsSet(env, MarketplaceIdVar) && env[MarketplaceIdVar] in marketplaces.own)
              ==> r == marketplaces.own[env[MarketplaceIdVar]]
    ensures (!(IsSet(env, MarketplaceIdVar) && env[MarketplaceIdVar] in marketplaces.own))
              ==> r == MarketplaceEbayDe
    ensures r == MarketplaceEbayDe || r in marketplaces.own.Values
  {
    if IsSet(env, MarketplaceIdVar) && env[MarketplaceIdVar] in marketplaces.own
    then marketplaces.own[env[MarketplaceIdVar]]
    else MarketplaceEbayDe
  }

  /**
   * The default `MarketplaceEbayDe` is a constant of the model, independent of
   * the enum object; when the enum maps `EBAY_DE` to that constant, as the
   * library's enum does, every resolved marketplace is a value of the enum.
   */
  lemma ResolveMarketplaceInEnum(env: Env, marketplaces: EnumObject)
    ensures ("EBAY_DE" in marketplaces.own && marketplaces.own["EBAY_DE"] == MarketplaceEbayDe)
              ==> ResolveMarketplace(env, marketplaces) in marketplaces.own.Values
  {
  }

  /** The corrected marketplace agrees with the code as written whenever the latter yields an enum member. */
  lemma ResolveMarketplaceAgreesOnMembers(env: Env, marketplaces: EnumObject)
    ensures (ResolveMarketplaceAsWritten(env, marketplaces).Member?)
              ==> ResolveMarketplaceAsWritten(env, marketplaces) == Member(ResolveMarketplace(env, marketplaces))
  {
  }

  /**
   * The site as `fromEnv` computes it: the base-10 parse of `EBAY_SITE_ID`
   * when set, otherwise `SiteId.EBAY_DE`.
   */
  function ResolveSiteId(env: Env, parseInt10: string -> JsNumber): JsNumber {
    if IsSet(env, SiteIdVar) then parseInt10(env[SiteIdVar]) else SiteIdEbayDe
  }

  /**
   * The index of the first name in `names` that is not set, or `None` when
   * all are set.
   */
  function FirstMissing(env: Env, names: seq<string>): (r: Option<nat>)
    ensures r.None? <==> forall i :: 0 <= i < |names| ==> IsSet(env, names[i])
    ensures r.Some? ==> r.value < |names| && !IsSet(env, names[r.value])
    ensures r.Some? ==> forall i :: 0 <= i < r.value ==> IsSet(env, names[i])
  {
    if names == [] then None
    else if !IsSet(env, names[0]) then Some(0)
    else
      match FirstMissing(env, names[1..])
      case None => None
      case Some(k) => Some(k + 1)
  }

  /**
   * A key of the caller's configuration object for which there is a default:
   * the key may be omitted, or given (possibly with the value `undefined`).
   */
  datatype Field<T> = Omitted | Given(value: Option<T>)

  /** The configuration object a caller passes to the constructor. */
  datatype CallerConfig = CallerConfig(
    appId: string,
    certId: string,
    devId: string,
    authToken: Option<string>,
    ruName: Option<string>,
    sandbox: Field<bool>,
    siteId: Field<JsNumber>,
    marketplaceId: Field<string>)

  /** The configuration the facade keeps: the caller's, spread over the defaults. */
  datatype AppConfig = AppConfig(
    appId: string,
    certId: string,
    devId: string,
    authToken: Option<string>,
    ruName: Option<string>,
    sandbox: Option<bool>,
    siteId: Option<JsNumber>,
    marketplaceId: Option<string>)

  /** One key of `{...defaults, ...config}`: a key the caller gives wins, even with `undefined`. */
  function Overlay<T>(default: T, field: Field<T>): Option<T> {
    match field
    case Omitted => Some(default)
    case Given(v) => v
  }

  /**
   * The constructor's merge of the caller's configuration over
   * `{sandbox: false, siteId: SiteId.EBAY_DE, marketplaceId: MarketplaceId.EBAY_DE}`.
   */
  function Merge(config: CallerConfig): (r: AppConfig)
    ensures r.appId == config.appId && r.certId == config.certId && r.devId == config.devId
    ensures r.authToken == config.authToken && r.ruName == config.ruName
    ensures config.sandbox.Given? ==> r.sandbox == config.sandbox.value
    ensures config.siteId.Given? ==> r.siteId == config.siteId.value
    ensures config.marketplaceId.Given? ==> r.marketplaceId == config.marketplaceId.value
    ensures config.sandbox.Omitted? ==> r.sandbox == Some(false)
    ensures config.siteId.Omitted? ==> r.siteId == Some(SiteIdEbayDe)
    ensures config.marketplaceId.Omitted? ==> r.marketplaceId == Some(MarketplaceEbayDe)
  {
    AppConfig(
      config.appId, config.certId, config.devId, config.authToken, config.ruName,
      Overlay(false, config.sandbox),
      Overlay(SiteIdEbayDe, config.siteId),
      Overlay(MarketplaceEbayDe, config.marketplaceId))
  }

  /** Merging a configuration that gives every defaulted key a value keeps the caller's values: the defaults are never seen. */
  lemma MergeOfCompleteConfig(config: CallerConfig, sandbox: bool, siteId: JsNumber, marketplaceId: string)
    requires config.sandbox == Given(Some(sandbox))
    requires config.siteId == Given(Some(siteId))
    requires config.marketplaceId == Given(Some(marketplaceId))
    ensures Merge(config) == AppConfig(config.appId, config.certId, config.devId, config.authToken,
                                       config.ruName, Some(sandbox), Some(siteId), Some(marketplaceId))
  {
  }

  /**
   * The configuration `fromEnv` builds from the environment, or the error
   * naming the first required variable (application id, then certificate id,
   * then developer id) that is unset or empty.
   */
  function ConfigFromEnv(env: Env, parseInt10: string -> JsNumber, marketplaces: EnumObject)
    : (r: Result<CallerConfig, EnvError>)
    ensures r == Failure(EnvError(AppIdVar)) <==> !IsSet(env, AppIdVar)
    ensures r == Failure(EnvError(CertIdVar)) <==> IsSet(env, AppIdVar) && !IsSet(env, CertIdVar)
    ensures (r == Failure(EnvError(DevIdVar)))
              <==> IsSet(env, AppIdVar) && IsSet(env, CertIdVar) && !IsSet(env, DevIdVar)
    ensures r.Success? <==> IsSet(env, AppIdVar) && IsSet(env, CertIdVar) && IsSet(env, DevIdVar)
    ensures r.Success? ==>
              && r.value.appId == env[AppIdVar]
              && r.value.certId == env[CertIdVar]
              && r.value.devId == env[DevIdVar]
              && r.value.authToken == Lookup(env, AuthTokenVar)
              && r.value.ruName == Lookup(env, RuNameVar)
    ensures r.Success? ==>
              (r.value.sandbox == Given(Some(true)) <==> SandboxVar in env && env[SandboxVar] == "true")
    ensures r.Success? ==> r.value.sandbox.Given? && r.value.sandbox.value.Some?
    ensures r.Success? && !IsSet(env, SiteIdVar) ==> r.value.siteId == Given(Some(SiteIdEbayDe))
    ensures r.Success? && IsSet(env, SiteIdVar) ==> r.value.siteId == Given(Some(parseInt10(env[SiteIdVar])))
    ensures r.Success? ==> r.value.marketplaceId == Given(Some(ResolveMarketplace(env, marketplaces)))
    ensures (r.Success? && ResolveMarketplaceAsWritten(env, marketplaces).Member?)
              ==> r.value.marketplaceId == Given(Some(ResolveMarketplaceAsWritten(env, marketplaces).value))
  {
    match FirstMissing(env, RequiredVars)
    case Some(i) =>
      assert AppIdVar != CertIdVar && CertIdVar != DevIdVar && AppIdVar != DevIdVar;
      assert i == 0 ==> !IsSet(env, AppIdVar);
      assert i == 1 ==> IsSet(env, AppIdVar) && !IsSet(env, CertIdVar);
      assert i == 2 ==> IsSet(env, RequiredVars[0]) && IsSet(env, RequiredVars[1]);
      assert i == 2 ==> IsSet(env, AppIdVar) && IsSet(env, CertIdVar) && !IsSet(env, DevIdVar);
      Failure(EnvError(RequiredVars[i]))
    case None =>
      assert IsSet(env, RequiredVars[0]) && IsSet(env, RequiredVars[1]) && IsSet(env, RequiredVars[2]);
      Success(CallerConfig(
        env[AppIdVar], env[CertIdVar], env[DevIdVar],
        Lookup(env, AuthTokenVar),
        Lookup(env, RuNameVar),
        Given(Some(SandboxVar in env && env[SandboxVar] == "true")),
        Given(Some(ResolveSiteId(env, parseInt10))),
        Given(Some(ResolveMarketplace(env, marketplaces)))))
  }

  /**
   * A missing or empty application id fails `fromEnv` with the error naming
   * it, whatever the other variables hold.
   */
  lemma MissingAppIdWins(env: Env, other: Env, parseInt10: string -> JsNumber, marketplaces: EnumObject)
    requires !IsSet(env, AppIdVar)
    ensures ConfigFromEnv(env + (other - {AppIdVar}), parseInt10, marketplaces) == Failure(EnvError(AppIdVar))
  {
    var merged := env + (other - {AppIdVar});
    assert AppIdVar in merged ==> merged[AppIdVar] == env[AppIdVar];
  }
}
