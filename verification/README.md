# eBay API client: configuration, facade getters and the Post-Order Case routes

A Dafny model of two pieces of the TypeScript eBay API client.

- **The `eBayApi` facade** (`src/index.ts`).
  - The static `fromEnv` reads the process environment, here an immutable `map<string, string>`. It fails with an `EnvError` that names the first required variable that is unset or empty. The checks run in a fixed order: `EBAY_APP_ID`, then `EBAY_CERT_ID`, then `EBAY_DEV_ID`. When all three are set it builds the configuration.
  - The constructor spreads the caller's configuration over the defaults `{sandbox: false, siteId: SiteId.EBAY_DE, marketplaceId: MarketplaceId.EBAY_DE}`.
  - The nine getters `buy` … `clientAlerts` each fill a cache slot on first access and return the cached object afterwards.
- **The Post-Order Case Management API** (`src/api/restful/postOrder/case/index.ts`). Each of its seven operations becomes a pure function from its arguments to a request description: verb, relative path, body or query options. The base path is `/post-order/v2/casemanagement`. A parser turns a verb and path back into the route they address. This is the partner of the seven operations: every unambiguous operation's request line parses back to its own route. It follows that no two unambiguous calls share a request line; the one meeting point, `getCase` of an id that encodes to `search`, is stated separately.

Modules:

- `Wrappers`: `Option` and `Result`.
- `AppConfig` (`app_config.dfy`): the environment, the check order, site and marketplace resolution, and the defaults merge.
- `EbayApi` (`ebay_api.dfy`): the facade state and the memoised group getters.
- `PostOrderCase` (`post_order_case.dfy`): request descriptions, the route parser, and the distinctness lemmas.

Modelling choices:

- **Abstract functions.** `encodeURIComponent` and `parseInt(…, 10)` are function-valued parameters (`encode`, `parseInt10`).
- **The `MarketplaceId` enum** is a parameter too: an `EnumObject` that maps its own keys to values. The enum's contents are in `src/enums.ts`, which is not part of this model.
- **The two defaults** `SiteId.EBAY_DE` and `MarketplaceId.EBAY_DE` are taken as `77` and `"EBAY_DE"`. These are eBay's identifiers for its German site. The marketplace default is a constant of the model and does not depend on the enum parameter; `AppConfig.ResolveMarketplaceInEnum` shows that, when the enum maps `EBAY_DE` to that constant, every resolved marketplace is a value of the enum.
- **JavaScript truthiness.** `!process.env.X` holds when the variable is unset or empty. This is `!IsSet(env, X)`.
- **Spread semantics.** A key the caller gives overrides the default, even when its value is `undefined`. Only an omitted key takes the default. A defaulted key is a `Field<T>`: `Omitted`, or `Given` with an optional value.
- **Object identity.** The factory is taken to build a new object on every call (see "## Left out" for the factory methods this assumes). Each `Instance` carries the serial number of the factory call that built it, and that number stands for identity. The nine getters are one function, `Access`, over the `Group` enumeration. The nine `_buy` … `_clientAlerts` fields are one map from group to cached instance. A getter's `||` re-runs the factory only when the field is `undefined`, because the objects the factory returns are always truthy. So a cache slot is either empty or holds the object.
- **Full paths.** The full path of a request is the base path followed by the relative path. The joining itself happens in the `Api` class, which is not part of this model.
- **The `/` in case ids.** `encodeURIComponent` escapes `/`. So the round-trip lemmas assume that the encoded id has no `/`, and state that assumption as a precondition.
- **`getCase("search")`.** `getCase` of an id that encodes to `search` sends `GET /search`, the same request line as `search`. `GetCaseMeetsSearch` states this. The round-trip lemmas exclude that one call.

## Model

| member | source | states |
|---|---|---|
| `AppConfig.FirstMissing` | src/index.ts:51-59 | gives the index of the first required variable that is unset or empty, with all earlier ones set; gives none exactly when every one is set |
| `AppConfig.ConfigFromEnv` | src/index.ts:50-72 | fails with `EBAY_APP_ID` iff it is unset or empty; fails with `EBAY_CERT_ID` iff the app id is set and the cert id is not; fails with `EBAY_DEV_ID` iff both are set and the dev id is not; succeeds iff all three are set; on success copies the three ids verbatim, takes `authToken` and `ruName` from the environment or leaves them undefined, sets `sandbox` true iff `EBAY_SANDBOX` is exactly `"true"`, sets `siteId` to the parse of a set `EBAY_SITE_ID` or else `SiteId.EBAY_DE`; sets the marketplace by the corrected own-key resolution, which equals the code's own result whenever that result is an enum member |
| `AppConfig.MissingAppIdWins` | src/index.ts:51-53 | an unset or empty `EBAY_APP_ID` fails with the error naming it, whatever the other variables hold |
| `AppConfig.GetProperty` | src/index.ts:68 | reading an enum key yields the member's value for an own key and otherwise the inherited property of that same name, never an enum member |
| `AppConfig.ResolveMarketplaceAsWritten` | src/index.ts:67-69 | the marketplace as the code computes it: the default when the variable is unset or empty; the member's value for an own key; the default for a set name that is neither an own key nor an `Object.prototype` name; a non-member exactly when the value is an inherited `Object.prototype` name that is not an own key, and then that very name |
| `AppConfig.MarketplaceAcceptsInheritedName` | src/index.ts:67-69 | `EBAY_MARKETPLACE_ID=toString` yields the inherited `toString`, not an enum value |
| `AppConfig.ResolveMarketplace` | src/index.ts:67-69 | the member's value when the variable is set and is an own key of the enum, otherwise `MarketplaceId.EBAY_DE`; always the default or a value of the enum |
| `AppConfig.ResolveMarketplaceAgreesOnMembers` | src/index.ts:67-69 | the corrected resolution agrees with the code as written whenever the latter yields an enum member |
| `AppConfig.ResolveMarketplaceInEnum` | src/index.ts:67-69 | when the enum maps `EBAY_DE` to the default, the resolved marketplace is always one of the enum's values |
| `AppConfig.Merge` | src/index.ts:81 | the three ids, the auth token and the RuName are the caller's; each defaulted key the caller gives keeps the caller's value, even `undefined`; each omitted one takes `sandbox=false`, `siteId=SiteId.EBAY_DE`, `marketplaceId=MarketplaceId.EBAY_DE` |
| `AppConfig.MergeOfCompleteConfig` | src/index.ts:81 | when every defaulted key is given a value, the merged configuration holds exactly the caller's values |
| `EbayApi.New` | src/index.ts:80-81 | a new facade holds the merged configuration, has nothing cached, has made no factory call, and satisfies the facade invariant |
| `EbayApi.FromEnv` | src/index.ts:50-74 | fails exactly when the environment configuration fails, with the same error; otherwise gives a new facade with nothing cached whose merged configuration holds the three ids verbatim, `authToken` and `ruName` from the environment or undefined, `sandbox` true iff `EBAY_SANDBOX` is exactly `"true"`, `siteId` the parse of a set `EBAY_SITE_ID` or else `SiteId.EBAY_DE`, and the marketplace by the corrected resolution, which equals the code's whenever the code yields an enum member |
| `EbayApi.Access` | src/index.ts:95-130 | a getter returns the cached object unchanged when there is one; otherwise it makes one factory call for its group and caches the result; no other slot changes |
| `EbayApi.AccessPreservesValid` | src/index.ts:95-130 | every getter keeps the invariant: each cached object came from its own group's factory call, and no group is built twice |
| `EbayApi.AccessMemoises` | src/index.ts:95-130 | a first access makes a factory call whose serial no cached object carries; a second access returns the identical object and leaves the facade unchanged |
| `EbayApi.AccessLeavesOthers` | src/index.ts:95-130 | accessing one group neither adds nor changes another group's cached object |
| `EbayApi.RunMemoises` | src/index.ts:95-130 | over any run of getter calls, the invariant holds, earlier cached objects stay, each call returns the object finally cached for its group, and the factory is asked only for groups in the run |
| `EbayApi.FreshFacadeBuildsEachGroupOnce` | src/index.ts:95-130 | from a fresh facade, any run of getter calls builds each group at most once and only groups accessed, and two calls of the same getter return the identical object of that group |
| `PostOrderCase.FullPath` | src/api/restful/postOrder/case/index.ts:8-10 | every full path begins with `/post-order/v2/casemanagement` and continues with the operation's relative path |
| `PostOrderCase.ActionOfSuffix` | src/api/restful/postOrder/case/index.ts:18-79 | the suffix-to-action reading is the inverse of the five action suffixes |
| `PostOrderCase.SuffixesDistinct` | src/api/restful/postOrder/case/index.ts:18-79 | `/appeal`, `/close`, `/issue_refund`, `/provide_shipment_info` and `/provide_return_address` are pairwise distinct |
| `PostOrderCase.AppealCaseDecision` | src/api/restful/postOrder/case/index.ts:18-21 | a POST that forwards the optional payload unchanged; its path parses back to the appeal action on the encoded id |
| `PostOrderCase.CloseCase` | src/api/restful/postOrder/case/index.ts:29-32 | a POST that forwards the payload unchanged; its path parses back to the close action on the encoded id |
| `PostOrderCase.GetCase` | src/api/restful/postOrder/case/index.ts:39-42 | a GET with no body and no options; its path parses back to the case itself on the encoded id, with no action |
| `PostOrderCase.IssueCaseRefund` | src/api/restful/postOrder/case/index.ts:50-53 | a POST that forwards the optional payload unchanged; its path parses back to the refund action on the encoded id |
| `PostOrderCase.ProvideReturnShipmentInfo` | src/api/restful/postOrder/case/index.ts:62-68 | a POST whose body is an object with exactly the two members `shippingCarrierName` and `trackingNumber`, copied from the input; its path parses back to the shipment-info action on the encoded id |
| `PostOrderCase.ProvidesReturnAddress` | src/api/restful/postOrder/case/index.ts:76-79 | a POST that forwards the optional payload unchanged; its path parses back to the return-address action on the encoded id |
| `PostOrderCase.Search` | src/api/restful/postOrder/case/index.ts:86-92 | a GET with no body whose path parses as the search, with no id segment; its options are exactly `{params: {params}}` around the caller's parameters: one member `params` holding an object whose one member `params` is the caller's value |
| `PostOrderCase.DispatchParses` | src/api/restful/postOrder/case/index.ts:18-92 | every unambiguous call's verb and path parse back to the operation and the encoded id it targets; the id is encoded once and is the first segment |
| `PostOrderCase.RequestLineDeterminesTarget` | src/api/restful/postOrder/case/index.ts:18-92 | two unambiguous calls with the same verb and path target the same operation on the same encoded id |
| `PostOrderCase.ActionPathsDistinct` | src/api/restful/postOrder/case/index.ts:18-79 | for one case id, the five POST operations address five different paths |
| `PostOrderCase.GetCaseMeetsSearch` | src/api/restful/postOrder/case/index.ts:39-91 | `getCase` of an id that encodes to `search` has the verb and path of `search` |

## Findings

| source | as written | input that shows it | evidently intended | confidence | as-written member | corrected member |
|---|---|---|---|---|---|---|
| src/index.ts:67-69 | the marketplace is accepted when `EBAY_MARKETPLACE_ID in MarketplaceId`; JavaScript's `in` also finds properties inherited from `Object.prototype` | `EBAY_MARKETPLACE_ID=toString`: the check passes and `marketplaceId` becomes the function `Object.prototype.toString` | accept only the enum's own keys, otherwise fall back to `MarketplaceId.EBAY_DE` | high; not executed | `AppConfig.MarketplaceAcceptsInheritedName` | `AppConfig.ResolveMarketplace` |

`AppConfig.ConfigFromEnv` and `EbayApi.FromEnv` use the corrected resolution.

## Left out

- The token lifecycle (`Auth`, src/index.ts:84-87): `src/auth` is not part of this model.
- Request execution (`createRequest`, `Api.get`/`Api.post`, and the default request at src/index.ts:82) is network I/O. The request descriptions stop where the HTTP helper starts. The `req` argument of `fromEnv` and of the constructor is not modelled.
- `AppConfig.ConfigFromEnv`: resolves the marketplace with the corrected own-key test, not the `in` test of src/index.ts:67. For an `EBAY_MARKETPLACE_ID` that names an inherited `Object.prototype` property, the code stores that property but the model stores `MarketplaceId.EBAY_DE`. The model therefore agrees with the code only when the code yields an enum member. `AppConfig.ResolveMarketplaceAsWritten` models the code's result exactly (see "## Findings").
- `EbayApi.FromEnv`: inherits the same marketplace difference from `AppConfig.ConfigFromEnv`.
- The factory methods for the groups are not modelled, only assumed. `src/index.ts:108` calls `createPostOrderApi`, which the factory in src/api/factory.ts:12-86 does not declare; the model assumes such a method exists and returns a new object. `createTradingApi`, `createFindingApi`, `createShoppingApi` and `createClientAlertsApi` (src/api/factory.ts:67-81) delegate to a `Traditional` object that is not part of this model; they too are assumed to return a new, truthy object on each call.
- The factory (src/index.ts:89-92, src/api/factory.ts) is object-construction wiring. Each factory call is modelled only as the creation of a fresh `Instance`. Its argument order is not modelled: it is constructed with `(auth, req)` but declares `(settings, auth)`.
- The static `SiteId` and `MarketplaceId` members (src/index.ts:21-22) only re-export the enums.
- `encodeURIComponent`, `parseInt` and the enum's contents are not modelled. ECMAScript and `src/enums.ts` define them, so they are parameters.
- `parseInt` returning `Infinity` for very long digit strings is not modelled. `JsNumber` holds only integers and NaN.
- The `AppConfig` type (`src/types`) is not part of this model. The caller's configuration holds the fields `fromEnv` sets, and `scopes` is not modelled.
- `encodeURIComponent`'s `URIError`: a case id is taken to be well-formed Unicode, because a Dafny string cannot hold a lone surrogate, and `encode` is total. The `URIError` that `encodeURIComponent` throws on a lone surrogate, which would reject the six id-taking operations before any request is built, is not modelled.
- The per-operation round-trip contracts assume that the encoded id has no `/`. This is true of `encodeURIComponent`, but the model does not derive it, since the encoder is abstract.
