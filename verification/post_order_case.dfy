/**
 * The Post-Order Case Management API: each operation turns its arguments
 * into a request description (verb, path relative to the API's base path,
 * body or query options) for the shared HTTP helper.  The case identifier is
 * passed through `encodeURIComponent`, here the parameter `encode`.
 */
module PostOrderCase {
  import opened Wrappers

  /** A JSON value, the shape of request payloads and query parameters. */
  datatype Json =
    | JNull
    | JBool(b: bool)
    | JNumber(n: int)
    | JString(s: string)
    | JArray(items: seq<Json>)
    | JObject(members: seq<(string, Json)>)

  /** The value of the first member named `key` of a JSON object; none when there is no such member. */
  function FieldOf(obj: Json, key: string): (r: Option<Json>)
    ensures r.Some? <==> obj.JObject? && exists i :: 0 <= i < |obj.members| && obj.members[i].0 == key
    ensures r.Some? ==>
              exists i :: 0 <= i < |obj.members| && obj.members[i] == (key, r.value)
                && forall j :: 0 <= j < i ==> obj.members[j].0 != key
    decreases if obj.JObject? then |obj.members| else 0
  {
    if !obj.JObject? || obj.members == [] then None
    else if obj.members[0].0 == key then Some(obj.members[0].1)
    else FieldOf(JObject(obj.members[1..]), key)
  }

  datatype Verb = GET | POST

  /** What an operation hands to the HTTP helper: `get(path, options)` or `post(path, body)`. */
  datatype Request = Request(verb: Verb, path: string, body: Option<Json>, options: Option<Json>)

  /** The base path every operation's relative path is appended to. */
  const BasePath: string := "/post-order/v2/casemanagement"

  /** The full path a request addresses: the base path followed by the relative one. */
  function FullPath(r: Request): (p: string)
    ensures BasePath <= p
    ensures p[|BasePath|..] == r.path
  {
    BasePath + r.path
  }

  /** The actions a POST can take on a case. */
  datatype Action = Appeal | Close | IssueRefund | ProvideShipmentInfo | ProvideReturnAddress

  /** The path segment after the case identifier that selects the action. */
  function Suffix(a: Action): string {
    match a
    case Appeal => "/appeal"
    case Close => "/close"
    case IssueRefund => "/issue_refund"
    case ProvideShipmentInfo => "/provide_shipment_info"
    case ProvideReturnAddress => "/provide_return_address"
  }

  /** The action a path suffix selects, if any: the inverse of `Suffix`. */
  function ActionOfSuffix(s: string): (r: Option<Action>)
    ensures r.Some? ==> Suffix(r.value) == s
    ensures forall a :: Suffix(a) == s ==> r == Some(a)
  {
    if s == "/appeal" then Some(Appeal)
    else if s == "/close" then Some(Close)
    else if s == "/issue_refund" then Some(IssueRefund)
    else if s == "/provide_shipment_info" then Some(ProvideShipmentInfo)
    else if s == "/provide_return_address" then Some(ProvideReturnAddress)
    else None
  }

  /** Distinct actions have distinct suffixes. */
  lemma SuffixesDistinct(a1: Action, a2: Action)
    requires a1 != a2
    ensures Suffix(a1) != Suffix(a2)
  {
    assert ActionOfSuffix(Suffix(a1)) == Some(a1);
  }

  /**
   * Splits a path at its first `/`: the segment before it, and the rest,
   * which is empty or starts with `/`.
   */
  function SplitSegment(s: string): (r: (string, string))
    ensures s == r.0 + r.1
    ensures '/' !in r.0
    ensures r.1 == [] || r.1[0] == '/'
  {
    if s == [] then ([], [])
    else if s[0] == '/' then ([], s)
    else
      var (seg, rest) := SplitSegment(s[1..]);
      ([s[0]] + seg, rest)
  }

  /** Splitting a segment without `/` joined to a rest that starts with `/` recovers both. */
  lemma {:induction false} SplitSegmentOfJoin(seg: string, rest: string)
    requires '/' !in seg
    requires rest == [] || rest[0] == '/'
    ensures SplitSegment(seg + rest) == (seg, rest)
  {
    if seg == [] {
      assert seg + rest == rest;
    } else {
      assert (seg + rest)[1..] == seg[1..] + rest;
      SplitSegmentOfJoin(seg[1..], rest);
      assert [seg[0]] + seg[1..] == seg;
    }
  }

  /** What a request addresses: an action (or, with none, the case itself) on one case, or the search. */
  datatype Route = CaseRoute(caseSegment: string, action: Option<Action>) | SearchRoute

  /**
   * Reads a request line back as the route it addresses: `GET /search` is the
   * search, `GET /<id>` a case, `POST /<id><suffix>` an action on a case.
   */
  function Parse(verb: Verb, path: string): (r: Option<Route>)
    ensures r.Some? && r.value.CaseRoute? ==> '/' !in r.value.caseSegment
    ensures r.Some? && r.value.CaseRoute? ==>
              path == "/" + r.value.caseSegment + (if r.value.action.Some? then Suffix(r.value.action.value) else "")
    ensures r.Some? && (r.value.SearchRoute? || r.value.action.None?) ==> verb == GET
    ensures r.Some? && r.value.SearchRoute? ==> path == "/search"
  {
    if |path| == 0 || path[0] != '/' then None
    else
      var (seg, rest) := SplitSegment(path[1..]);
      assert path == "/" + seg + rest;
      match verb
      case GET =>
        if rest != [] then None
        else if seg == "search" then Some(SearchRoute)
        else Some(CaseRoute(seg, None))
      case POST =>
        match ActionOfSuffix(rest)
        case Some(a) => Some(CaseRoute(seg, Some(a)))
        case None => None
  }

  /** The path `/<encoded id><suffix>` of an operation on one case. */
  function CasePath(encodedId: string, suffix: string): string {
    "/" + encodedId + suffix
  }

  /** A case path whose encoded id has no `/` parses back into its id and suffix. */
  lemma CasePathSplits(encodedId: string, suffix: string)
    ensures CasePath(encodedId, suffix)[1..] == encodedId + suffix
    ensures ('/' !in encodedId && (suffix == [] || suffix[0] == '/'))
              ==> SplitSegment(CasePath(encodedId, suffix)[1..]) == (encodedId, suffix)
  {
    assert CasePath(encodedId, suffix)[1..] == encodedId + suffix;
    if '/' !in encodedId && (suffix == [] || suffix[0] == '/') {
      SplitSegmentOfJoin(encodedId, suffix);
    }
  }

  /** A POST of `body` to action `a` of the case whose encoded id is given. */
  function PostAction(encodedId: string, a: Action, body: Option<Json>): (r: Request)
    ensures r.verb == POST && r.body == body && r.options == None
    ensures '/' !in encodedId ==> Parse(r.verb, r.path) == Some(CaseRoute(encodedId, Some(a)))
  {
    CasePathSplits(encodedId, Suffix(a));
    Request(POST, CasePath(encodedId, Suffix(a)), body, None)
  }

  /** `appealCaseDecision`: a POST of the optional appeal payload to `/<id>/appeal`. */
  function AppealCaseDecision(encode: string -> string, caseId: string, payload: Option<Json>): (r: Request)
    ensures r.verb == POST && r.body == payload && r.options == None
    ensures '/' !in encode(caseId) ==> Parse(r.verb, r.path) == Some(CaseRoute(encode(caseId), Some(Appeal)))
  {
    PostAction(encode(caseId), Appeal, payload)
  }

  /** `closeCase`: a POST of the close request to `/<id>/close`. */
  function CloseCase(encode: string -> string, caseId: string, payload: Json): (r: Request)
    ensures r.verb == POST && r.body == Some(payload) && r.options == None
    ensures '/' !in encode(caseId) ==> Parse(r.verb, r.path) == Some(CaseRoute(encode(caseId), Some(Close)))
  {
    PostAction(encode(caseId), Close, Some(payload))
  }

  /** `getCase`: a GET of `/<id>` with no body and no options. */
  function GetCase(encode: string -> string, caseId: string): (r: Request)
    ensures r.verb == GET && r.body == None && r.options == None
    ensures ('/' !in encode(caseId) && encode(caseId) != "search")
              ==> Parse(r.verb, r.path) == Some(CaseRoute(encode(caseId), None))
  {
    var e := encode(caseId);
    CasePathSplits(e, "");
    Request(GET, CasePath(e, ""), None, None)
  }

  /** `issueCaseRefund`: a POST of the optional refund payload to `/<id>/issue_refund`. */
  function IssueCaseRefund(encode: string -> string, caseId: string, payload: Option<Json>): (r: Request)
    ensures r.verb == POST && r.body == payload && r.options == None
    ensures '/' !in encode(caseId) ==> Parse(r.verb, r.path) == Some(CaseRoute(encode(caseId), Some(IssueRefund)))
  {
    PostAction(encode(caseId), IssueRefund, payload)
  }

  /** The argument of `provideReturnShipmentInfo`, of which only these two fields are read. */
  datatype ShipmentInfo = ShipmentInfo(shippingCarrierName: string, trackingNumber: string)

  /**
   * `provideReturnShipmentInfo`: a POST to `/<id>/provide_shipment_info` of an
   * object holding exactly the carrier name and the tracking number.
   */
  function ProvideReturnShipmentInfo(encode: string -> string, caseId: string, info: ShipmentInfo): (r: Request)
    ensures r.verb == POST && r.options == None
    ensures r.body.Some? && r.body.value.JObject? && |r.body.value.members| == 2
    ensures FieldOf(r.body.value, "shippingCarrierName") == Some(JString(info.shippingCarrierName))
    ensures FieldOf(r.body.value, "trackingNumber") == Some(JString(info.trackingNumber))
    ensures forall k :: FieldOf(r.body.value, k).Some? ==> k == "shippingCarrierName" || k == "trackingNumber"
    ensures '/' !in encode(caseId) ==>
              Parse(r.verb, r.path) == Some(CaseRoute(encode(caseId), Some(ProvideShipmentInfo)))
  {
    var body := JObject([("shippingCarrierName", JString(info.shippingCarrierName)),
                         ("trackingNumber", JString(info.trackingNumber))]);
    PostAction(encode(caseId), ProvideShipmentInfo, Some(body))
  }

  /** `providesReturnAddress`: a POST of the optional address payload to `/<id>/provide_return_address`. */
  function ProvidesReturnAddress(encode: string -> string, cancelId: string, payload: Option<Json>): (r: Request)
    ensures r.verb == POST && r.body == payload && r.options == None
    ensures '/' !in encode(cancelId) ==>
              Parse(r.verb, r.path) == Some(CaseRoute(encode(cancelId), Some(ProvideReturnAddress)))
  {
    PostAction(encode(cancelId), ProvideReturnAddress, payload)
  }

  /** `search`: a GET of `/search` whose options are `{params: {params}}`. */
  function Search(params: Json): (r: Request)
    ensures r.verb == GET && r.body == None
    ensures Parse(r.verb, r.path) == Some(SearchRoute)
    ensures r.options.Some? && FieldOf(r.options.value, "params").Some?
    ensures FieldOf(FieldOf(r.options.value, "params").value, "params") == Some(params)
    ensures r.options.value.JObject? && |r.options.value.members| == 1
    ensures FieldOf(r.options.value, "params").value.JObject?
              && |FieldOf(r.options.value, "params").value.members| == 1
  {
    var path := "/search";
    assert SplitSegment(path[1..]) == ("search", []) by {
      SplitSegmentOfJoin("search", []);
      assert path[1..] == "search" + [];
    }
    Request(GET, path, None, Some(JObject([("params", JObject([("params", params)]))])))
  }

  /** A call of one of the case operations, with its arguments. */
  datatype CaseCall =
    | AppealCaseDecisionCall(caseId: string, payload: Option<Json>)
    | CloseCaseCall(caseId: string, closeRequest: Json)
    | GetCaseCall(caseId: string)
    | IssueCaseRefundCall(caseId: string, payload: Option<Json>)
    | ProvideReturnShipmentInfoCall(caseId: string, info: ShipmentInfo)
    | ProvidesReturnAddressCall(cancelId: string, payload: Option<Json>)
    | SearchCall(params: Json)

  /** The request a call produces. */
  function Dispatch(encode: string -> string, c: CaseCall): Request {
    match c
    case AppealCaseDecisionCall(id, p) => AppealCaseDecision(encode, id, p)
    case CloseCaseCall(id, p) => CloseCase(encode, id, p)
    case GetCaseCall(id) => GetCase(encode, id)
    case IssueCaseRefundCall(id, p) => IssueCaseRefund(encode, id, p)
    case ProvideReturnShipmentInfoCall(id, info) => ProvideReturnShipmentInfo(encode, id, info)
    case ProvidesReturnAddressCall(id, p) => ProvidesReturnAddress(encode, id, p)
    case SearchCall(params) => Search(params)
  }

  /** The route a call is meant to address: the operation and the encoded case id. */
  function Target(encode: string -> string, c: CaseCall): Route {
    match c
    case AppealCaseDecisionCall(id, _) => CaseRoute(encode(id), Some(Appeal))
    case CloseCaseCall(id, _) => CaseRoute(encode(id), Some(Close))
    case GetCaseCall(id) => CaseRoute(encode(id), None)
    case IssueCaseRefundCall(id, _) => CaseRoute(encode(id), Some(IssueRefund))
    case ProvideReturnShipmentInfoCall(id, _) => CaseRoute(encode(id), Some(ProvideShipmentInfo))
    case ProvidesReturnAddressCall(id, _) => CaseRoute(encode(id), Some(ProvideReturnAddress))
    case SearchCall(_) => SearchRoute
  }

  /**
   * A call whose request line identifies it: its encoded id has no `/` (as
   * `encodeURIComponent` guarantees, escaping `/`), and it is not a `getCase`
   * whose encoded id is `search`.
   */
  predicate Unambiguous(encode: string -> string, c: CaseCall) {
    match c
    case SearchCall(_) => true
    case GetCaseCall(id) => '/' !in encode(id) && encode(id) != "search"
    case ProvidesReturnAddressCall(id, _) => '/' !in encode(id)
    case _ => '/' !in encode(c.caseId)
  }

  /** Every unambiguous call's request line parses back to the route the call targets. */
  lemma DispatchParses(encode: string -> string, c: CaseCall)
    requires Unambiguous(encode, c)
    ensures Parse(Dispatch(encode, c).verb, Dispatch(encode, c).path) == Some(Target(encode, c))
  {
  }

  /**
   * Two unambiguous calls with the same verb and path target the same
   * operation on the same encoded case id: no two operations share a request
   * line, and the id segment is the encoded id.
   */
  lemma RequestLineDeterminesTarget(encode: string -> string, c1: CaseCall, c2: CaseCall)
    requires Unambiguous(encode, c1) && Unambiguous(encode, c2)
    ensures Dispatch(encode, c1).verb == Dispatch(encode, c2).verb
              && Dispatch(encode, c1).path == Dispatch(encode, c2).path
            ==> Target(encode, c1) == Target(encode, c2)
  {
    DispatchParses(encode, c1);
    DispatchParses(encode, c2);
  }

  /** For one case id, the five POST operations address five different paths. */
  lemma ActionPathsDistinct(encodedId: string, a1: Action, a2: Action)
    requires a1 != a2
    ensures CasePath(encodedId, Suffix(a1)) != CasePath(encodedId, Suffix(a2))
  {
    SuffixesDistinct(a1, a2);
  }

  /**
   * `getCase` of an id that encodes to `search` sends the same request line as
   * `search`: the two operations meet there.
   */
  lemma GetCaseMeetsSearch(encode: string -> string, caseId: string, params: Json)
    requires encode(caseId) == "search"
    ensures GetCase(encode, caseId).verb == Search(params).verb
    ensures GetCase(encode, caseId).path == Search(params).path
  {
  }
}
