# salt-api-mcp core, modelled in Dafny

salt-api-mcp is a Model Context Protocol server in front of the Salt Security cloud-asset
inventory API. Its core has three parts:

- the inventory client (`salt-api-client.ts`) with its normalisation helpers;
- the tool registry and dispatcher (`mcp-tools.ts`);
- the command-line test harness (`cli-test.ts`).

This project models those three parts as pure Dafny functions over immutable data and proves
what each of them promises.

| module | file | models |
|---|---|---|
| `Wrappers` | wrappers.dfy | `Option` and `Result` |
| `Text` | text.dfy | the JavaScript string operations the core uses: ASCII `toLowerCase`, `includes`, `startsWith`, `trim`, `parseInt`, and integer-to-decimal rendering |
| `Values` | values.dfy | JSON-like values, and objects as ordered `(key, value)` lists with JavaScript assignment semantics: an existing key keeps its position and takes the new value, a new key is appended |
| `Normaliser` | normaliser.dfy | `simplifyProvider`, `simplifyResourceType`, `removeEmptyFields`, `transformAssetForOutput`, and the object `formatAssetsAsYAML` builds before serialisation: grouping by provider, the summary, and the per-provider lists |
| `Client` | client.dfy | `SaltApiClient`: the token gate, limit/offset clamping, response validation, the blank-id guard, the HTTP-error-to-message mapping, and `healthCheck` |
| `Tools` | tools.dfy | `McpTools`: the two tool descriptors, the two argument schemas, and `callTool` with its error envelope |
| `Cli` | cli.dfy | `maskToken`, `parseArgs`, `main`'s usage, tool-name and required-id checks, and `runTest`'s classification of the answer |

## Modelling choices

- **The upstream HTTP service is a parameter.** `Client.Upstream` holds one function per
  endpoint. Each returns either a body, already checked against the response schema
  (`Conforms` or `Violates` with a diagnostic), or a transport outcome: an HTTP status with
  its optional `message` and status text, no response, or any other failure of the request.
- **Requests are recorded.** Every operation returns the request it attempted, if any. A
  request counts as attempted even when it fails before reaching the service. So "no network
  call" is a provable statement: the request list is empty.
- **Rendering is a parameter.** `Renderers` supplies YAML and JSON rendering and the text of
  a schema-validation failure. The model proves which value is handed to the renderer.
- **The credential is a parameter.** `SALT_BEARER_TOKEN` is an `Option<string>`. It counts
  as configured only when it is present and non-empty, as JavaScript truthiness decides.
- **The legacy `data` field is never used.** The list-response schema makes
  `records` mandatory. So the `records || data` fallback in `listCloudAssets` can never
  reach `data`. `Client.ListIgnoresLegacyData` proves that the legacy `data` field has no
  influence on the result.
- **Provider names that differ only in case overwrite each other.** Providers that are not
  AWS, Azure or GCP keep their own spelling. Buckets such as `X` and `x` are then distinct
  while grouping, but both write `x_count` and `x_assets`, and the later bucket overwrites
  the earlier one. `Normaliser.CaseCollidingProviders` shows the summary reporting
  `x_count: 1` for two assets. `Normaliser.SummaryWhenCaseDistinct` proves that the counts
  add up to `total_assets` whenever no two keys collide.
- **Two details of `simplifyProvider` are easy to miss.**
  - It matches `GCP` case-sensitively, so a lower-case `gcp` is recognised only through
    `google` (`salt-api-client.ts:70`).
  - An empty or absent provider gives no provider at all, not the input unchanged
    (`salt-api-client.ts:64`).

## Model

| member | source | states |
|---|---|---|
| Normaliser.SimplifyProvider | salt-api-mcp/src/salt-api-client.ts:63-75 | absent/empty input gives absent; otherwise AWS if the lower-cased name contains "aws", else Azure for "azure", else GCP if it contains "GCP" exactly or "google" lower-cased, else the name unchanged |
| Normaliser.SimplifyProviderIdempotent | salt-api-mcp/src/salt-api-client.ts:63-75 | simplifying an already simplified provider changes nothing |
| Normaliser.SimplifyResourceType | salt-api-mcp/src/salt-api-client.ts:77-82 | absent/empty input gives absent; otherwise the result is the input without exactly one leading `AWS-`, `Azure-` or `GCP-`, or the input itself when it has no such prefix; a prefixed input always gets shorter |
| Normaliser.SimplifyResourceTypeStripsOnce | salt-api-mcp/src/salt-api-client.ts:81 | the anchored pattern strips one prefix only: `AWS-AWS-x` becomes `AWS-x` |
| Normaliser.RemoveEmptyFields | salt-api-mcp/src/salt-api-client.ts:84-100 | exactly the entries whose value is not null, undefined, "", "N/A", "unknown" or an empty array are kept |
| Normaliser.RemoveEmptyFieldsSubsequence | salt-api-mcp/src/salt-api-client.ts:87-97 | the kept entries appear in their original order |
| Normaliser.RemoveEmptyFieldsIdempotent | salt-api-mcp/src/salt-api-client.ts:84-100 | cleaning a cleaned record changes nothing |
| Normaliser.RemoveEmptyFieldsConcat | salt-api-mcp/src/salt-api-client.ts:87-97 | cleaning is entry-wise: cleaning a concatenation concatenates the cleaned parts |
| Normaliser.RemoveEmptyFieldsLookup | salt-api-mcp/src/salt-api-client.ts:94-95 | on a record with distinct keys, a key survives with its value exactly when its value is not empty |
| Normaliser.TransformAsset | salt-api-mcp/src/salt-api-client.ts:102-115 | the display record uses only the ten display keys, in their order, without duplicates, and every value is a non-empty string |
| Normaliser.TransformAssetFallbackFields | salt-api-mcp/src/salt-api-client.ts:105-110 | name, type, status and account_id come from the new field if it is truthy, else from the legacy field; the type is vendor-stripped; an empty result is dropped |
| Normaliser.TransformAssetDirectFields | salt-api-mcp/src/salt-api-client.ts:104-113 | id, region, endpoints, cloud_id, first_discovered and link are copied through unless empty |
| Normaliser.PlaceholderNameHidesLegacyName | salt-api-mcp/src/salt-api-client.ts:105 | a resourceName of "N/A" is truthy, so it wins over the legacy name and is then removed, leaving no name |
| Normaliser.LegacyNameFallback | salt-api-mcp/src/salt-api-client.ts:105 | without a resourceName, a non-empty legacy name is shown |
| Normaliser.TransformIgnoresOtherFields | salt-api-mcp/src/salt-api-client.ts:102-115 | provider, tags, connectors, metadata and the timestamps do not influence the display record |
| Normaliser.ProviderKey | salt-api-mcp/src/salt-api-client.ts:123 | the grouping key is never empty: the simplified provider, or "Unknown" when it is absent or empty |
| Normaliser.FirstEncounterSpec | salt-api-mcp/src/salt-api-client.ts:126-129 | the first-encounter order holds each key once, exactly the keys present, ordered by first occurrence |
| Normaliser.GroupByKeySpec | salt-api-mcp/src/salt-api-client.ts:119-133 | buckets appear in first-encounter order of their keys, and each holds exactly the items with its key, in input order |
| Normaliser.GroupByKeyPartition | salt-api-mcp/src/salt-api-client.ts:119-133 | bucket keys are distinct, every item's key has a bucket, no bucket is empty, and the bucket sizes add up to the number of items |
| Normaliser.GroupByProvider | salt-api-mcp/src/salt-api-client.ts:119-133 | the provider buckets have distinct keys, none is empty, and their sizes add up to the number of assets |
| Normaliser.GroupByProviderSpec | salt-api-mcp/src/salt-api-client.ts:119-133 | the same statements for assets grouped by provider key, with each bucket holding its assets' display records |
| Normaliser.Summary | salt-api-mcp/src/salt-api-client.ts:136-143 | the summary opens with total_assets, the number of assets, which no count entry can displace |
| Normaliser.SummaryTotal | salt-api-mcp/src/salt-api-client.ts:136-137 | the summary's total_assets is the number of input assets |
| Normaliser.SummaryCount | salt-api-mcp/src/salt-api-client.ts:138-142 | `<provider lowercased>_count` is the size of that provider's bucket when no later bucket lower-cases to the same name |
| Normaliser.SummaryWhenCaseDistinct | salt-api-mcp/src/salt-api-client.ts:136-143 | without case collisions the summary is total_assets followed by one count per bucket in encounter order, and the counts add up to the total |
| Normaliser.AssetsDocument | salt-api-mcp/src/salt-api-client.ts:146-152 | the document opens with the summary, which no `_assets` entry can displace |
| Normaliser.AssetsDocumentWhenCaseDistinct | salt-api-mcp/src/salt-api-client.ts:146-152 | without case collisions the document is exactly the summary followed by one `<provider lowercased>_assets` entry per bucket, in encounter order, each holding that bucket's display records |
| Normaliser.AssetsDocumentContents | salt-api-mcp/src/salt-api-client.ts:146-152 | the document starts with the summary, and `<provider lowercased>_assets` holds that provider's display records |
| Normaliser.CaseCollidingProviders | salt-api-mcp/src/salt-api-client.ts:136-152 | providers "X" and "x" form two buckets, but the summary shows x_count 1 for two assets and the document keeps only the later list |
| Text.TrimEmptyIffBlank | salt-api-mcp/src/salt-api-client.ts:275 | a string trims to empty exactly when every character is JavaScript whitespace |
| Text.ParseIntShape | salt-api-mcp/src/cli-test.ts:82 | parseInt gives a number only when the first non-blank character is a sign or a decimal digit, and a leading minus gives a non-positive number |
| Text.ParseIntOfDecimal | salt-api-mcp/src/cli-test.ts:82 | parseInt reads back any integer written in decimal |
| Client.NewConfig | salt-api-mcp/src/salt-api-client.ts:167 | a token is configured exactly when the environment value is present and non-empty, and it is that value |
| Client.TransportError | salt-api-mcp/src/salt-api-client.ts:187-211 | 401, 403, 404 and 429 map to their fixed errors; any other status gives an API error carrying the status and the body's message, or the status text when the message is empty; no response gives a network error; anything else a request error carrying the failure's own message |
| Client.Message | salt-api-mcp/src/salt-api-client.ts:197-257 | the API, request and format error messages end with the upstream status text, reason or diagnostic, unaltered |
| Client.MessageInjective | salt-api-mcp/src/salt-api-client.ts:187-211 | distinct client errors have distinct messages, so the message identifies the error |
| Client.ClampLimit | salt-api-mcp/src/salt-api-client.ts:232 | the limit sent lies in [1, 1000] and equals the requested one when that is in range |
| Client.ClampOffset | salt-api-mcp/src/salt-api-client.ts:233 | the offset sent is non-negative and equals the requested one when that is non-negative |
| Client.ClampIdempotent | salt-api-mcp/src/salt-api-client.ts:232-233 | clamping a clamped value changes nothing |
| Client.ListCloudAssets | salt-api-mcp/src/salt-api-client.ts:222-261 | no token: failure and no request; otherwise exactly one request with the clamped arguments; success exactly when the body conforms; a non-conforming body gives the format error; transport failures are mapped; on success data and records are both the upstream records, the paging fields are copied, and the YAML is the rendering of the grouped document |
| Client.PageValue | salt-api-mcp/src/salt-api-client.ts:246-254 | the list result is an object of seven fields in which data and records hold the page's assets, yaml holds the rendered text, total, limit and offset pass the response's values through (undefined when absent), and has_more is the response's flag or undefined |
| Client.ListIgnoresLegacyData | salt-api-mcp/src/salt-api-client.ts:238-241 | replacing the legacy data field of the upstream page leaves the result unchanged |
| Client.GetCloudAsset | salt-api-mcp/src/salt-api-client.ts:268-304 | the token check comes first, then the blank-id check, each without a request; otherwise one request for that id; on success the view keeps the asset and renders its display record |
| Client.AssetViewValue | salt-api-mcp/src/salt-api-client.ts:293-297 | the get result spreads the asset's fields and adds two more: every asset field keeps its value, so the id is the asset's id; yaml is the rendered text and transformed is the display record, neither shadowed by an asset field |
| Client.GetCloudAssetSendsIffNotBlank | salt-api-mcp/src/salt-api-client.ts:275-277 | with a token, a request is sent exactly when the id contains a non-whitespace character |
| Client.HealthCheck | salt-api-mcp/src/salt-api-client.ts:310-318 | healthy exactly when a token is configured and the list call with limit 1, offset 0 returns a conforming body |
| Tools.ListTools | salt-api-mcp/src/mcp-tools.ts:24-65 | two descriptors, list_cloud_assets and get_cloud_asset, with nothing required and id required respectively |
| Tools.DescriptorsAgreeWithValidation | salt-api-mcp/src/mcp-tools.ts:7-65 | a number is accepted as limit or offset exactly when it lies within the advertised bounds; the advertised defaults are the ones applied; the advertised required id is enforced |
| Tools.NumberField | salt-api-mcp/src/mcp-tools.ts:8-9 | an omitted field takes its default; a number within bounds is accepted as is; otherwise one issue naming the field |
| Tools.ParseListArgs | salt-api-mcp/src/mcp-tools.ts:7-10 | success exactly when the arguments are an object and both fields validate; then limit is in [1, 1000] and offset is non-negative; the defaults are 100 and 0; a failure on an object lists one issue per failing field, limit's first and offset's last |
| Tools.ParseGetArgs | salt-api-mcp/src/mcp-tools.ts:12-14 | success exactly when the arguments are an object whose id is a string of length at least 1, giving that string; otherwise exactly one issue |
| Tools.ErrorResult | salt-api-mcp/src/mcp-tools.ts:102-113 | a failure result is one text block, exactly "Error: " followed by the message, flagged as an error |
| Tools.AnswerText | salt-api-mcp/src/mcp-tools.ts:79 | the answer is the YAML text when it is non-empty, otherwise the JSON text |
| Tools.Invoke | salt-api-mcp/src/mcp-tools.ts:72-96 | a list call runs the client's list operation with the validated arguments, a get call its get operation, with the same request and the same failure; on success the text is the YAML, or the JSON rendering of the whole result object when the YAML is empty |
| Tools.CallTool | salt-api-mcp/src/mcp-tools.ts:68-114 | always one text block; an unknown name gives "Error: Unknown tool: " + name without a request; the client runs exactly when the arguments validate; validation and client failures become "Error: " + message; the error flag is set exactly on failure |
| Tools.ListRequestCarriesValidatedArguments | salt-api-mcp/src/mcp-tools.ts:71-73 | a list request that is sent carries limit in [1, 1000] and a non-negative offset |
| Tools.NoTokenNoRequests | salt-api-mcp/src/mcp-tools.ts:68-114 | without a token no tool call sends a request, and every call that gets past validation answers with the missing-token error |
| Tools.EmptyIdNeverInvokesClient | salt-api-mcp/src/mcp-tools.ts:85-87 | an empty id is rejected by the schema before the client is called |
| Tools.BlankIdStopsInClient | salt-api-mcp/src/mcp-tools.ts:85-87 | a whitespace-only id passes the schema but is stopped by the client with the "required" message and no request |
| Tools.DefaultListCall | salt-api-mcp/src/mcp-tools.ts:7-10 | listing with no arguments calls the client with limit 100 and offset 0 |
| Tools.UnauthorisedListCall | salt-api-mcp/src/mcp-tools.ts:68-114 | an upstream 401 makes list_cloud_assets answer "Error: Authentication failed. Please check your Bearer token." with the error flag |
| Tools.ErrorTextIdentifiesClientError | salt-api-mcp/src/mcp-tools.ts:102-113 | two client errors rendered to the same error text are the same error |
| Cli.MaskToken | salt-api-mcp/src/cli-test.ts:9-16 | tokens of up to six characters mask to "***"; longer ones to their first three characters, "...", and their last three |
| Cli.MaskHidesMiddle | salt-api-mcp/src/cli-test.ts:9-16 | two tokens of more than six characters that share their first and last three characters mask identically |
| Cli.ArgEntry | salt-api-mcp/src/cli-test.ts:72-90 | the key is the flag without "--"; limit and offset are stored as the parsed integer, rejected when parseInt gives NaN; other keys are stored as the string |
| Cli.ParseArgsSpec | salt-api-mcp/src/cli-test.ts:57-94 | a successful parse names the first word as the tool, covers an odd number of words (every flag has its value), and holds each parameter key once |
| Cli.ParseArgs | salt-api-mcp/src/cli-test.ts:57-94 | the loop over flag/value pairs computes the recursive parse definition |
| Cli.PairsFromSomeIff | salt-api-mcp/src/cli-test.ts:66-91 | parsing the pairs from a position succeeds exactly when no flag at a pair position is malformed, missing its value, or has a non-numeric limit or offset |
| Cli.ParseArgsNoneIff | salt-api-mcp/src/cli-test.ts:57-94 | parseArgs fails exactly when there are no arguments or some pair is bad |
| Cli.PairsFromValues | salt-api-mcp/src/cli-test.ts:75-90 | parsed limit/offset hold numbers, and every other key holds a non-empty string |
| Cli.ParsedParamsLastWins | salt-api-mcp/src/cli-test.ts:87-89 | parameter keys are distinct, and a repeated flag keeps its last value |
| Cli.NumericFlagRoundTrip | salt-api-mcp/src/cli-test.ts:81-87 | `tool --limit <decimal n>` parses to limit n |
| Cli.ClassifyFailure | salt-api-mcp/src/cli-test.ts:140-161 | each kind holds exactly when its text occurs and no earlier kind's does: missing token before authentication before not-found; anything else is an execution failure |
| Cli.Preview | salt-api-mcp/src/cli-test.ts:164 | the preview is a prefix of the answer of at most 200 characters |
| Cli.RunTest | salt-api-mcp/src/cli-test.ts:111-172 | without a token it exits 1 with no request; list_tools lists the descriptors; other tools go through callTool, sending exactly its requests; an answer starting "Error:" is reported as a failure of the classified kind, any other answer as a success with its preview, both with exit code 0 |
| Cli.CliMain | salt-api-mcp/src/cli-test.ts:175-204 | no arguments or a help flag print usage; unparsable arguments exit 1 exactly; on parsed arguments an unknown tool exits 1 naming it, get_cloud_asset without a truthy id exits 1, and every other invocation is the test run of that tool with those parameters; requests are sent only with a token and a valid tool |
| Cli.CliGetAlwaysInvokesClient | salt-api-mcp/src/cli-test.ts:200-204 | a get_cloud_asset that passes the id check always reaches the client: its id is a non-empty string |

## Left out

- YAML and JSON serialisation are parameters. The model proves which structured value is rendered, not the rendered text: indent, line width, quoting and key order in the output.
- The text of schema-validation errors is a parameter, because the schema library formats it. This covers the diagnostic carried by "Invalid API response format" and the issues list of a rejected tool argument.
- HTTP transport is not modelled: base URL, headers, the 30-second timeout and the request-logging interceptor. A timeout surfaces as one of the modelled transport outcomes.
- `encodeURIComponent` is not modelled. The recorded request carries the raw asset id.
- `dotenv` and `process.env` are not modelled. The environment value is passed in.
- Asynchrony is not modelled: each call is modelled as completing once.
- Console output is not modelled: `printUsage`, `printTokenStatus` and the progress lines. `Cli.Run` reports the outcome, exit code and requests sent instead of the printed text.
- `index.ts`, `test-mode.ts` and `demo-test.ts` are not part of this model. They wire the same operations to stdio or repeat the test harness.
- Numbers are integers. Fractional limit/offset values, floating-point rounding in `parseInt` for very long digit strings, and `Infinity` are not modelled.
- Strings are sequences of code points, not UTF-16 units. This affects `maskToken`'s length and slicing, and `Cli.Preview`'s 200-character cut, on astral characters. `toLowerCase` is modelled for ASCII letters only.
- JavaScript's reordering of integer-like object keys is not modelled. Objects keep insertion order.
- Provider names that are names of inherited object members are not modelled. Examples are `constructor` and `toString`. In the source, `groupedAssets[provider]` is then the inherited member, so `.push` throws a `TypeError` and listing fails. The model groups such a provider like any other name, so listing succeeds.
- A non-string `message` in an error body is not modelled. The model takes it as an optional string.
- Tools.ToolResult: an absent `isError` flag is modelled as `false`.
- Client.AssetRecord lists absent optional fields with an undefined value rather than omitting them. JSON serialisation drops both alike.
