/** The inventory client's decision logic (`SaltApiClient` in salt-api-mcp/src/salt-api-client.ts).
    The HTTP transport is abstracted as an `Upstream` value: what the service answers to each
    request, with schema validation of the body already decided (`Checked`). Every operation
    reports the request it sent, if any, next to its result. */
module Client {
  import opened Wrappers
  import opened Text
  import opened Values
  import opened Normaliser

  /** The client's configuration: the bearer token read once at construction. */
  datatype Config = Config(bearerToken: Option<string>)

  /** The constructor's `process.env.SALT_BEARER_TOKEN || null`: an empty variable counts as unset. */
  function NewConfig(env: Option<string>): (c: Config)
    ensures c.bearerToken.Some? <==> Truthy(env)
    ensures c.bearerToken.Some? ==> c.bearerToken == env
  {
    Config(if Truthy(env) then env else None)
  }

  /** Outcome of validating a response body against its schema; the diagnostic stands for the
      validator's error text, which the model does not reproduce. */
  datatype Checked<T> = Conforms(value: T) | Violates(diagnostic: string)

  /** What a request yields at the transport: a 2xx response with its body, a non-2xx response
      (status, the body's `message` field if any, the status text), no response at all, or any
      other failure of the attempted request, such as one while setting it up. */
  datatype Outcome<B> =
    | Ok(body: B)
    | Status(code: int, message: Option<string>, statusText: string)
    | NoResponse
    | Other(reason: string)

  /** The list endpoint's body as accepted by the page schema: `records` is required. */
  datatype RawPage = RawPage(
    records: seq<CloudAsset>,
    data: Option<seq<CloudAsset>>,
    total: Option<int>,
    limit: Option<int>,
    offset: Option<int>,
    hasMore: Option<bool>)

  /** The upstream service: its answer to a list request (limit, offset) and to an asset request. */
  datatype Upstream = Upstream(
    listAssets: (int, int) -> Outcome<Checked<RawPage>>,
    getAsset: string -> Outcome<Checked<CloudAsset>>)

  /** A request the client sends; the asset id is carried before percent-encoding. */
  datatype Request = ListRequest(limit: int, offset: int) | AssetRequest(id: string)

  datatype ClientError =
    | TokenMissing
    | BlankId
    | AuthenticationFailed
    | Forbidden
    | NotFound
    | RateLimited
    | ApiError(status: int, detail: string)
    | NetworkError
    | RequestError(reason: string)
    | InvalidFormat(diagnostic: string)

  /** The text of the `Error` the client throws (longer texts are written sentence by sentence).
      Upstream detail is never altered: it closes the message. */
  function Message(e: ClientError): (m: string)
    ensures e.ApiError? ==> |m| > |e.detail| && m[|m| - |e.detail|..] == e.detail
    ensures e.RequestError? ==> |m| > |e.reason| && m[|m| - |e.reason|..] == e.reason
    ensures e.InvalidFormat? ==> |m| > |e.diagnostic| && m[|m| - |e.diagnostic|..] == e.diagnostic
  {
    match e
    case TokenMissing =>
      "Salt Security Bearer token not configured." + " Please set SALT_BEARER_TOKEN environment variable."
    case BlankId => "Asset ID is required and cannot be empty"
    case AuthenticationFailed => "Authentication failed." + " Please check your Bearer token."
    case Forbidden => "Access forbidden." + " Insufficient permissions."
    case NotFound => "Resource not found."
    case RateLimited => "Rate limit exceeded." + " Please try again later."
    case ApiError(status, detail) => "API error (" + IntToString(status) + "): " + detail
    case NetworkError => "Network error: " + "Unable to reach Salt Security API"
    case RequestError(reason) => "Request error: " + reason
    case InvalidFormat(diagnostic) => "Invalid API response format: " + diagnostic
  }

  /** The response interceptor: maps a failed request to the error the client throws. */
  function TransportError<B>(o: Outcome<B>): (e: ClientError)
    requires !o.Ok?
    ensures o.Status? && o.code == 401 <==> e == AuthenticationFailed
    ensures o.Status? && o.code == 403 <==> e == Forbidden
    ensures o.Status? && o.code == 404 <==> e == NotFound
    ensures o.Status? && o.code == 429 <==> e == RateLimited
    ensures e.ApiError? <==> o.Status? && o.code !in {401, 403, 404, 429}
    ensures e.ApiError? ==> e.status == o.code && e.detail == (if Truthy(o.message) then o.message.value else o.statusText)
    ensures e == NetworkError <==> o.NoResponse?
    ensures e.RequestError? <==> o.Other?
    ensures e.RequestError? ==> e.reason == o.reason
  {
    match o
    case Status(code, message, statusText) =>
      if code == 401 then AuthenticationFailed
      else if code == 403 then Forbidden
      else if code == 404 then NotFound
      else if code == 429 then RateLimited
      else ApiError(code, OrElse(message, Some(statusText)).value)
    case NoResponse => NetworkError
    case Other(reason) => RequestError(reason)
  }

  /** `Math.min(Math.max(limit, 1), 1000)` */
  function ClampLimit(limit: int): (l: int)
    ensures 1 <= l <= 1000
    ensures 1 <= limit <= 1000 ==> l == limit
    ensures limit < 1 ==> l == 1
    ensures limit > 1000 ==> l == 1000
  {
    if limit < 1 then 1 else if limit > 1000 then 1000 else limit
  }

  /** `Math.max(offset, 0)` */
  function ClampOffset(offset: int): (o: int)
    ensures o >= 0
    ensures offset >= 0 ==> o == offset
    ensures offset < 0 ==> o == 0
  {
    if offset < 0 then 0 else offset
  }

  /** The page `listCloudAssets` returns: `data` and `records` both carry the assets. */
  datatype AssetsPage = AssetsPage(
    data: seq<CloudAsset>,
    records: seq<CloudAsset>,
    yaml: string,
    total: Option<int>,
    limit: Option<int>,
    offset: Option<int>,
    hasMore: Option<bool>)

  /** What `getCloudAsset` returns: the validated asset, its rendering and its display record. */
  datatype AssetView = AssetView(asset: CloudAsset, yaml: string, transformed: Record)

  /** A client call: the request it attempted (none when a guard failed first) and its result. */
  datatype Call<T> = Call(sent: Option<Request>, result: Result<T, ClientError>)

  /** `listCloudAssets(limit, offset)`; `yaml` renders a structured value as text. */
  function ListCloudAssets(cfg: Config, up: Upstream, yaml: Value -> string, limit: int, offset: int): (c: Call<AssetsPage>)
    ensures !Truthy(cfg.bearerToken) ==> c == Call(None, Failure(TokenMissing))
    ensures Truthy(cfg.bearerToken) ==> c.sent == Some(ListRequest(ClampLimit(limit), ClampOffset(offset)))
    ensures Truthy(cfg.bearerToken) ==>
      var o := up.listAssets(ClampLimit(limit), ClampOffset(offset));
      && (c.result.Success? <==> o.Ok? && o.body.Conforms?)
      && (o.Ok? && o.body.Violates? ==> c.result == Failure(InvalidFormat(o.body.diagnostic)))
      && (!o.Ok? ==> c.result == Failure(TransportError(o)))
    ensures c.result.Success? ==>
      var page := up.listAssets(ClampLimit(limit), ClampOffset(offset)).body.value;
      var p := c.result.value;
      && p.data == p.records == page.records
      && p.total == page.total && p.limit == page.limit && p.offset == page.offset && p.hasMore == page.hasMore
      && p.yaml == yaml(Obj(AssetsDocument(page.records)))
  {
    if !Truthy(cfg.bearerToken) then Call(None, Failure(TokenMissing))
    else
      var request := ListRequest(ClampLimit(limit), ClampOffset(offset));
      var o := up.listAssets(request.limit, request.offset);
      Call(Some(request),
        match o
        case Ok(Violates(diagnostic)) => Failure(InvalidFormat(diagnostic))
        case Ok(Conforms(page)) =>
          // `records` is required by the page schema, so `records || data || []` is `records`.
          var assets := page.records;
          Success(AssetsPage(assets, assets, yaml(Obj(AssetsDocument(assets))),
                             page.total, page.limit, page.offset, page.hasMore))
        case _ => Failure(TransportError(o)))
  }

  /** `!id || id.trim().length === 0` */
  predicate IsBlankId(id: string) {
    |Trim(id)| == 0
  }

  /** `getCloudAsset(id)`: the token check comes first, then the blank-id check, then the request. */
  function GetCloudAsset(cfg: Config, up: Upstream, yaml: Value -> string, id: string): (c: Call<AssetView>)
    ensures !Truthy(cfg.bearerToken) ==> c == Call(None, Failure(TokenMissing))
    ensures Truthy(cfg.bearerToken) && IsBlankId(id) ==> c == Call(None, Failure(BlankId))
    ensures Truthy(cfg.bearerToken) && !IsBlankId(id) ==>
      var o := up.getAsset(id);
      && c.sent == Some(AssetRequest(id))
      && (c.result.Success? <==> o.Ok? && o.body.Conforms?)
      && (o.Ok? && o.body.Violates? ==> c.result == Failure(InvalidFormat(o.body.diagnostic)))
      && (!o.Ok? ==> c.result == Failure(TransportError(o)))
    ensures c.result.Success? ==>
      var a := up.getAsset(id).body.value;
      c.result.value == AssetView(a, yaml(Obj(TransformAsset(a))), TransformAsset(a))
  {
    if !Truthy(cfg.bearerToken) then Call(None, Failure(TokenMissing))
    else if IsBlankId(id) then Call(None, Failure(BlankId))
    else
      var o := up.getAsset(id);
      Call(Some(AssetRequest(id)),
        match o
        case Ok(Violates(diagnostic)) => Failure(InvalidFormat(diagnostic))
        case Ok(Conforms(asset)) =>
          var transformed := TransformAsset(asset);
          Success(AssetView(asset, yaml(Obj(transformed)), transformed))
        case _ => Failure(TransportError(o)))
  }

  /** `healthCheck()`: true exactly when a one-asset list call succeeds; it never fails itself. */
  function HealthCheck(cfg: Config, up: Upstream, yaml: Value -> string): (healthy: bool)
    ensures healthy <==> Truthy(cfg.bearerToken) && up.listAssets(1, 0).Ok? && up.listAssets(1, 0).body.Conforms?
  {
    ListCloudAssets(cfg, up, yaml, 1, 0).result.Success?
  }

  // ---------------------------------------------------------------------------
  // Properties relating several calls

  /** With a token configured, an asset id reaches the network exactly when it has a character
      that is not white space. */
  lemma GetCloudAssetSendsIffNotBlank(cfg: Config, up: Upstream, yaml: Value -> string, id: string)
    requires Truthy(cfg.bearerToken)
    ensures GetCloudAsset(cfg, up, yaml, id).sent.Some? <==> exists i :: 0 <= i < |id| && !IsJsSpace(id[i])
  {
    TrimEmptyIffBlank(id);
  }

  /** The page schema requires `records`, so the legacy `data` field of a response never
      influences the result: the `data` fallback is dead code. */
  lemma ListIgnoresLegacyData(cfg: Config, up: Upstream, yaml: Value -> string, limit: int, offset: int,
                              page: RawPage, data: Option<seq<CloudAsset>>)
    requires Truthy(cfg.bearerToken)
    requires up.listAssets(ClampLimit(limit), ClampOffset(offset)) == Ok(Conforms(page))
    ensures var up' := up.(listAssets := (l, o) => if (l, o) == (ClampLimit(limit), ClampOffset(offset))
                                                    then Ok(Conforms(page.(data := data)))
                                                    else up.listAssets(l, o));
      ListCloudAssets(cfg, up', yaml, limit, offset) == ListCloudAssets(cfg, up, yaml, limit, offset)
  {
  }

  /** Clamping is idempotent: a clamped request is sent unchanged when clamped again. */
  lemma ClampIdempotent(limit: int, offset: int)
    ensures ClampLimit(ClampLimit(limit)) == ClampLimit(limit)
    ensures ClampOffset(ClampOffset(offset)) == ClampOffset(offset)
  {
  }

  /** The three characters at the head of a message name its category. */
  function Category(e: ClientError): string {
    match e
    case TokenMissing => "Sal"
    case BlankId => "Ass"
    case AuthenticationFailed => "Aut"
    case Forbidden => "Acc"
    case NotFound => "Res"
    case RateLimited => "Rat"
    case ApiError(_, _) => "API"
    case NetworkError => "Net"
    case RequestError(_) => "Req"
    case InvalidFormat(_) => "Inv"
  }

  /** True for the errors whose message carries text from elsewhere. */
  predicate HasDetail(e: ClientError) {
    e.ApiError? || e.RequestError? || e.InvalidFormat?
  }

  lemma DetailedMessageHead(e: ClientError)
    requires HasDetail(e)
    ensures |Message(e)| >= 3 && Message(e)[..3] == Category(e)
  {
    match e
    case ApiError(status, detail) =>
      assert Message(e)[0] == "API"[0] && Message(e)[1] == "API"[1] && Message(e)[2] == "API"[2];
    case RequestError(reason) =>
      assert Message(e)[0] == "Req"[0] && Message(e)[1] == "Req"[1] && Message(e)[2] == "Req"[2];
    case InvalidFormat(diagnostic) =>
      assert Message(e)[0] == "Inv"[0] && Message(e)[1] == "Inv"[1] && Message(e)[2] == "Inv"[2];
  }

  lemma ConfigurationMessageHead(e: ClientError)
    requires e == TokenMissing || e == BlankId || e == NetworkError
    ensures |Message(e)| >= 3 && Message(e)[..3] == Category(e)
  {
    match e
    case TokenMissing =>
      assert Message(e)[0] == "Sal"[0] && Message(e)[1] == "Sal"[1] && Message(e)[2] == "Sal"[2];
    case BlankId =>
      assert Message(e)[0] == "Ass"[0] && Message(e)[1] == "Ass"[1] && Message(e)[2] == "Ass"[2];
    case NetworkError =>
      assert Message(e)[0] == "Net"[0] && Message(e)[1] == "Net"[1] && Message(e)[2] == "Net"[2];
  }

  lemma StatusMessageHead(e: ClientError)
    requires e == AuthenticationFailed || e == Forbidden || e == NotFound || e == RateLimited
    ensures |Message(e)| >= 3 && Message(e)[..3] == Category(e)
  {
    match e
    case AuthenticationFailed =>
      assert Message(e)[0] == "Aut"[0] && Message(e)[1] == "Aut"[1] && Message(e)[2] == "Aut"[2];
    case Forbidden =>
      assert Message(e)[0] == "Acc"[0] && Message(e)[1] == "Acc"[1] && Message(e)[2] == "Acc"[2];
    case NotFound =>
      assert Message(e)[0] == "Res"[0] && Message(e)[1] == "Res"[1] && Message(e)[2] == "Res"[2];
    case RateLimited =>
      assert Message(e)[0] == "Rat"[0] && Message(e)[1] == "Rat"[1] && Message(e)[2] == "Rat"[2];
  }

  /** Every message opens with its category. */
  lemma MessageHead(e: ClientError)
    ensures |Message(e)| >= 3 && Message(e)[..3] == Category(e)
  {
    if HasDetail(e) {
      DetailedMessageHead(e);
    } else if e == TokenMissing || e == BlankId || e == NetworkError {
      ConfigurationMessageHead(e);
    } else {
      StatusMessageHead(e);
    }
  }

  /** A decimal rendering followed by ')' can be split off again: the first ')' ends it. */
  lemma StatusPrefixCancel(s1: int, s2: int, rest1: string, rest2: string)
    requires IntToString(s1) + rest1 == IntToString(s2) + rest2
    requires |rest1| > 0 && rest1[0] == ')' && |rest2| > 0 && rest2[0] == ')'
    ensures s1 == s2 && rest1 == rest2
  {
    var d1 := IntToString(s1);
    var d2 := IntToString(s2);
    var t := d1 + rest1;
    assert forall i :: 0 <= i < |d1| ==> t[i] != ')';
    assert forall i :: 0 <= i < |d2| ==> t[i] != ')';
    assert t[|d1|] == ')' && t[|d2|] == ')';
    assert |d1| == |d2|;
    assert d1 == t[..|d1|] == d2;
    ParseIntOfDecimal(s1);
    ParseIntOfDecimal(s2);
    assert rest1 == t[|d1|..] == rest2;
  }

  lemma ApiMessageShape(s: int, m: string)
    ensures Message(ApiError(s, m)) == "API error (" + (IntToString(s) + ("): " + m))
  {
    var pre, d, sep := "API error (", IntToString(s), "): ";
    assert Message(ApiError(s, m)) == pre + d + sep + m;
    assert pre + d + sep + m == pre + (d + (sep + m));
  }

  lemma ApiMessageInjective(s1: int, m1: string, s2: int, m2: string)
    requires Message(ApiError(s1, m1)) == Message(ApiError(s2, m2))
    ensures s1 == s2 && m1 == m2
  {
    var pre := "API error (";
    var r1 := "): " + m1;
    var r2 := "): " + m2;
    var t := Message(ApiError(s1, m1));
    ApiMessageShape(s1, m1);
    ApiMessageShape(s2, m2);
    assert IntToString(s1) + r1 == t[|pre|..] == IntToString(s2) + r2;
    StatusPrefixCancel(s1, s2, r1, r2);
    assert m1 == r1[3..] == r2[3..] == m2;
  }

  /** Different errors produce different messages, so the message text alone identifies the
      error, status code and upstream detail included. */
  lemma MessageInjective(e1: ClientError, e2: ClientError)
    requires Message(e1) == Message(e2)
    ensures e1 == e2
  {
    MessageHead(e1);
    MessageHead(e2);
    assert Category(e1) == Category(e2);
    match e1
    case ApiError(s1, m1) =>
      ApiMessageInjective(s1, m1, e2.status, e2.detail);
    case RequestError(x) =>
      assert x == Message(e1)[15..] == Message(e2)[15..] == e2.reason;
    case InvalidFormat(x) =>
      assert x == Message(e1)[29..] == Message(e2)[29..] == e2.diagnostic;
    case _ =>
  }

  // ---------------------------------------------------------------------------
  // The returned objects as structured values (what `JSON.stringify` is given)

  function OptionalNumber(o: Option<int>): Value {
    if o.Some? then Num(o.value) else Undefined
  }

  function OptionalArray(o: Option<seq<Value>>): Value {
    if o.Some? then Arr(o.value) else Undefined
  }

  function DatumValue(d: AdditionalDatum): Value {
    Obj([("key", Str(d.key)), ("type", Str(d.kind)), ("value", Str(d.value))])
  }

  function TagsValue(t: Tags): Value {
    match t
    case TagMap(entries) => Obj(seq(|entries|, i requires 0 <= i < |entries| => (entries[i].0, Str(entries[i].1))))
    case TagList(items) => Arr(items)
  }

  /** A validated asset as a record, in the asset schema's field order; absent fields are `Undefined`. */
  function AssetRecord(a: CloudAsset): Record {
    [ ("id", Str(a.id)),
      ("cloudAccountId", OptionalValue(a.cloudAccountId)),
      ("cloudId", OptionalValue(a.cloudId)),
      ("collectStatus", OptionalValue(a.collectStatus)),
      ("endpoints", OptionalValue(a.endpoints)),
      ("provider", OptionalValue(a.provider)),
      ("region", OptionalValue(a.region)),
      ("resourceName", OptionalValue(a.resourceName)),
      ("resourceType", OptionalValue(a.resourceType)),
      ("accountId", OptionalValue(a.accountId)),
      ("firstDiscovered", OptionalValue(a.firstDiscovered)),
      ("link", OptionalValue(a.link)),
      ("additionalData",
        if a.additionalData.Some?
        then Arr(seq(|a.additionalData.value|, i requires 0 <= i < |a.additionalData.value| => DatumValue(a.additionalData.value[i])))
        else Undefined),
      ("availableConnectors", OptionalArray(a.availableConnectors)),
      ("installedConnectors", OptionalArray(a.installedConnectors)),
      ("tags", if a.tags.Some? then TagsValue(a.tags.value) else Undefined),
      ("name", OptionalValue(a.name)),
      ("type", OptionalValue(a.legacyType)),
      ("status", OptionalValue(a.status)),
      ("created_at", OptionalValue(a.createdAt)),
      ("updated_at", OptionalValue(a.updatedAt)),
      ("metadata", if a.metadata.Some? then Obj(a.metadata.value) else Undefined) ]
  }

  function AssetsValue(assets: seq<CloudAsset>): Value {
    Arr(seq(|assets|, i requires 0 <= i < |assets| => Obj(AssetRecord(assets[i]))))
  }

  /** The object `listCloudAssets` resolves to. */
  function PageValue(p: AssetsPage): (v: Value)
    ensures v.Obj? && |v.fields| == 7
    ensures Lookup(v.fields, "data") == Some(AssetsValue(p.data))
    ensures Lookup(v.fields, "records") == Some(AssetsValue(p.records))
    ensures Lookup(v.fields, "yaml") == Some(Str(p.yaml))
    ensures Lookup(v.fields, "total") == Some(OptionalNumber(p.total))
    ensures Lookup(v.fields, "limit") == Some(OptionalNumber(p.limit))
    ensures Lookup(v.fields, "offset") == Some(OptionalNumber(p.offset))
    ensures Lookup(v.fields, "has_more") == Some(if p.hasMore.Some? then Bool(p.hasMore.value) else Undefined)
  {
    var head := [("data", AssetsValue(p.data)), ("records", AssetsValue(p.records)), ("yaml", Str(p.yaml))];
    var tail := [ ("total", OptionalNumber(p.total)),
                  ("limit", OptionalNumber(p.limit)),
                  ("offset", OptionalNumber(p.offset)),
                  ("has_more", if p.hasMore.Some? then Bool(p.hasMore.value) else Undefined) ];
    PageHeadLookups(head, p);
    assert Keys(head) == ["data", "records", "yaml"];
    LookupAppend(head, tail, "data");
    LookupAppend(head, tail, "records");
    LookupAppend(head, tail, "yaml");
    PageTailLookups(head, tail, p);
    Obj(head + tail)
  }

  /** The paging fields come after data, records and yaml, so each is found in the tail. */
  lemma PageTailLookups(head: Record, tail: Record, p: AssetsPage)
    requires Keys(head) == ["data", "records", "yaml"]
    requires tail == [ ("total", OptionalNumber(p.total)),
                       ("limit", OptionalNumber(p.limit)),
                       ("offset", OptionalNumber(p.offset)),
                       ("has_more", if p.hasMore.Some? then Bool(p.hasMore.value) else Undefined) ]
    ensures Lookup(head + tail, "total") == Some(OptionalNumber(p.total))
    ensures Lookup(head + tail, "limit") == Some(OptionalNumber(p.limit))
    ensures Lookup(head + tail, "offset") == Some(OptionalNumber(p.offset))
    ensures Lookup(head + tail, "has_more") == Some(if p.hasMore.Some? then Bool(p.hasMore.value) else Undefined)
  {
    PagingKeysAreNotHeadKeys(Keys(head));
    PagingLookups(tail, p);
    LookupAppend(head, tail, "total");
    LookupAppend(head, tail, "limit");
    LookupAppend(head, tail, "offset");
    LookupAppend(head, tail, "has_more");
  }

  lemma PagingKeysAreNotHeadKeys(ks: seq<string>)
    requires ks == ["data", "records", "yaml"]
    ensures "total" !in ks && "limit" !in ks && "offset" !in ks && "has_more" !in ks
  {
    forall i | 0 <= i < |ks| ensures |ks[i]| == 4 || |ks[i]| == 7 { }
  }

  lemma PagingLookups(tail: Record, p: AssetsPage)
    requires tail == [ ("total", OptionalNumber(p.total)),
                       ("limit", OptionalNumber(p.limit)),
                       ("offset", OptionalNumber(p.offset)),
                       ("has_more", if p.hasMore.Some? then Bool(p.hasMore.value) else Undefined) ]
    ensures Lookup(tail, "total") == Some(OptionalNumber(p.total))
    ensures Lookup(tail, "limit") == Some(OptionalNumber(p.limit))
    ensures Lookup(tail, "offset") == Some(OptionalNumber(p.offset))
    ensures Lookup(tail, "has_more") == Some(if p.hasMore.Some? then Bool(p.hasMore.value) else Undefined)
  {
    assert |"total"| == 5 && |"limit"| == 5 && |"offset"| == 6 && |"has_more"| == 8;
    assert "total" != "limit" && "total" != "offset" && "limit" != "offset";
    assert tail[1..] == tail[1..4];
    assert tail[1..][1..] == tail[2..4];
    assert tail[1..][1..][1..] == [tail[3]];
    assert Lookup(tail[1..][1..], "offset") == Some(tail[2].1);
    assert Lookup(tail[1..][1..][1..], "has_more") == Some(tail[3].1);
  }

  lemma PageHeadLookups(head: Record, p: AssetsPage)
    requires head == [("data", AssetsValue(p.data)), ("records", AssetsValue(p.records)), ("yaml", Str(p.yaml))]
    ensures Lookup(head, "data") == Some(AssetsValue(p.data))
    ensures Lookup(head, "records") == Some(AssetsValue(p.records))
    ensures Lookup(head, "yaml") == Some(Str(p.yaml))
  {
    assert "data" != "records" && "data" != "yaml" && "records" != "yaml";
    assert head[1..] == [("records", AssetsValue(p.records)), ("yaml", Str(p.yaml))];
    assert head[1..][1..] == [("yaml", Str(p.yaml))];
    assert Lookup(head[1..][1..], "yaml") == Some(Str(p.yaml));
  }

  /** The object `getCloudAsset` resolves to: the validated asset spread, then `yaml` and `transformed`. */
  function AssetViewValue(v: AssetView): (r: Value)
    ensures r.Obj? && |r.fields| == |AssetRecord(v.asset)| + 2
    ensures forall k :: k in Keys(AssetRecord(v.asset)) ==> Lookup(r.fields, k) == Lookup(AssetRecord(v.asset), k)
    ensures Lookup(r.fields, "id") == Some(Str(v.asset.id))
    ensures Lookup(r.fields, "yaml") == Some(Str(v.yaml))
    ensures Lookup(r.fields, "transformed") == Some(Obj(v.transformed))
  {
    var rec := AssetRecord(v.asset);
    var extra := [("yaml", Str(v.yaml)), ("transformed", Obj(v.transformed))];
    AssetRecordKeys(v.asset);
    forall k | k in Keys(rec) ensures Lookup(rec + extra, k) == Lookup(rec, k) {
      LookupAppend(rec, extra, k);
    }
    LookupAppend(rec, extra, "id");
    LookupAppend(rec, extra, "yaml");
    LookupAppend(rec, extra, "transformed");
    assert extra[1..] == [("transformed", Obj(v.transformed))];
    Obj(rec + extra)
  }

  /** The asset's own fields start with `id` and include neither `yaml` nor `transformed`. */
  lemma AssetRecordKeys(a: CloudAsset)
    ensures Lookup(AssetRecord(a), "id") == Some(Str(a.id))
    ensures "yaml" !in Keys(AssetRecord(a)) && "transformed" !in Keys(AssetRecord(a))
  {
    var rec := AssetRecord(a);
    forall i | 0 <= i < |rec| ensures rec[i].0 != "yaml" && rec[i].0 != "transformed" {
      assert |rec[i].0| != 4 || rec[i].0[0] != 'y';
    }
  }
}
