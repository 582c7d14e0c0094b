# BayEngage client and tools, modelled in Dafny

This project models the HTTP client of the BayEngage e-mail marketing
integration and the agent tools built on it.

**The client** (module `Client`) covers:

- the constructor's defaults and headers;
- the response interceptor, which retries a failed request with exponential backoff;
- `shouldRetry` and `getRetryDelay`;
- the error taxonomy of `normalizeError`;
- `request` and its verb wrappers;
- the process-wide client slot that `getBayEngageClient` and `resetClient` manage.

The transport is an oracle: `outcomes(k)` is what the k-th attempt of a call
brings back. `jitter(k)` is the random part of the k-th backoff, and `now`
is the timestamp. The retry loop is the method `Dispatch`. Its `ensures`
ties the loop's result to the function `Pipeline`: the settlement, the
requests sent and the delays waited. Module `ClientProperties` then proves
what that function promises:

- the attempt count;
- which attempts were retried;
- the backoff schedule;
- the classifier's priority order;
- what `request` finally returns.

**The tools** (modules `Contacts`, `Campaigns`, `Automation`, `Templates`)
each model one `execute` as a `ToolRun`. A run records the client call the
tool makes (none when a guard rejects first) and the result object it
returns, given the client's response. Module `ToolCommon` holds the result
shapes the tools share:

- the failure mapping;
- list results;
- saved-entity summaries with their field renames.

Module `ToolProperties` relates several tool members.

JSON values are the datatype `JsonValue.Json`. An undefined value is
modelled explicitly, so `v || d`, `v?.key` and JavaScript truthiness are
written out.

## Model

| member | source | states |
|---|---|---|
| Client.RetryCount | src/client.ts:60 | a missing `__retryCount` reads as 0; a present one is its value |
| Client.ShouldRetry | src/client.ts:59-70 | no retry once the count reaches `maxRetries`; below the limit, a retry if and only if the failure has no status, status 0, or one of 408/429/500/502/503/504 |
| Client.Transient | src/client.ts:46-69 | a transient attempt is a failure with its config; with no status or a status in the retry list it is transient; 400/401/403/404/422/501 never are |
| Client.Retried | src/client.ts:46 | an attempt is retried only if it failed transiently, kept its config and the count is below `maxRetries` |
| Client.ExponentialDelay | src/client.ts:72-75 | the exponential part lies between the 1000 ms base and the 10000 ms cap |
| Client.GetRetryDelay | src/client.ts:72-78 | the delay is the exponential part plus jitter, so it lies between base+jitter and cap+jitter |
| Client.Classify | src/client.ts:92-119 | the code is never UNEXPECTED_ERROR; BAD_REQUEST exactly for status 400; UNKNOWN_ERROR carries "An unexpected error occurred"; every code but BAD_REQUEST carries a string message (its text per code: `ClassifierFollowsTaxonomy`) |
| Client.NormalizeError | src/client.ts:88-132 | a failure whose details are the raw response body and whose meta has no request id; its code is never UNEXPECTED_ERROR |
| Client.CatchToResponse | src/client.ts:156-171 | an axios error is normalised; any other thrown value becomes UNEXPECTED_ERROR without details, with its own message when it is an `Error` and "An unexpected error occurred" otherwise |
| Client.RequestResponse | src/client.ts:134-172 | `request` never throws: success exactly when the call resolved, carrying its body and `x-request-id` |
| Client.Pipeline | src/client.ts:41-56 | one logical call makes at least 1 and at most `maxRetries - count + 1` attempts, with one delay between each pair |
| Client.RequestOutcome | src/client.ts:134-172 | `request` as written: success exactly when the last attempt delivered, then with that body and request id; the timestamp is always `now` |
| Client.Settle | src/client.ts:43-47 | a delivery resolves with its body and request id; a failure that is not retried rejects with `normalizeError(error)` |
| Client.WithDefaults | src/client.ts:11-16 | timeout and maxRetries default to 30000 and 3; values the caller gives win; the other fields are unchanged |
| Client.BayEngageClient.constructor | src/client.ts:10-29 | the stored config is the defaulted config; `maxRetries` and timeout are the defaulted values; the headers carry the API key as bearer token and `X-API-Key` |
| Client.BayEngageClient.Dispatch | src/client.ts:41-56 | the retry loop settles as `Pipeline` says, sends the same request exactly `attempts` times and waits exactly `Pipeline`'s delays |
| Client.BayEngageClient.Request | src/client.ts:134-172 | returns `RequestOutcome`; every attempt puts the same method, endpoint and data on the wire |
| Client.BayEngageClient.Get | src/client.ts:174-176 | returns `RequestOutcome`; a GET request without a body, sent exactly as many times as `Pipeline` makes attempts, with `Pipeline`'s delays between them |
| Client.BayEngageClient.Post | src/client.ts:178-180 | returns `RequestOutcome`; a POST request carrying the data, sent exactly as many times as `Pipeline` makes attempts, with `Pipeline`'s delays between them |
| Client.BayEngageClient.Put | src/client.ts:182-184 | returns `RequestOutcome`; a PUT request carrying the data, sent exactly as many times as `Pipeline` makes attempts, with `Pipeline`'s delays between them |
| Client.BayEngageClient.Patch | src/client.ts:186-188 | returns `RequestOutcome`; a PATCH request carrying the data, sent exactly as many times as `Pipeline` makes attempts, with `Pipeline`'s delays between them |
| Client.BayEngageClient.Delete | src/client.ts:190-192 | returns `RequestOutcome`; a DELETE request without a body, sent exactly as many times as `Pipeline` makes attempts, with `Pipeline`'s delays between them |
| Client.EnvConfig | src/client.ts:199-214 | the config built from the environment: the key, the secret only when truthy, the URL or the default URL when it is nullish, no timeout or retry override |
| Client.ClientSlot.constructor | src/client.ts:195 | the slot starts empty |
| Client.ClientSlot.GetClient | src/client.ts:197-220 | a filled slot returns its instance unchanged; with no truthy key it fails with the configuration error and stays empty; otherwise it stores and returns a fresh client built from the environment |
| Client.ClientSlot.Reset | src/client.ts:222-224 | the slot is empty afterwards |
| Client.SingletonLifecycle | src/client.ts:195-224 | two gets return the same instance; after a reset, a get returns a different instance with the same config |
| ClientProperties.FirstMatchIsEarliest | src/client.ts:92-119 | an if/else-if table picks the earliest rule that holds, and the fallback (UNKNOWN_ERROR, "An unexpected error occurred") only when none holds |
| ClientProperties.ClassifierFollowsTaxonomy | src/client.ts:92-119 | `normalizeError` reports exactly the code and message of the first matching taxonomy rule: 400 "Invalid request parameters" (the body's truthy `message` first), 401 "Invalid API credentials", 403 "Insufficient permissions", 404 "Resource not found", 429 "API rate limit exceeded. Please try again later.", 5xx "BayEngage API server error", then ECONNABORTED "Request timeout", then ENOTFOUND/ECONNREFUSED "Network connection error"; no match gives UNKNOWN_ERROR "An unexpected error occurred" |
| ClientProperties.StatusBeatsTransportCode | src/client.ts:92-119 | a status the taxonomy names decides the error whatever the transport code |
| ClientProperties.TransportCodeOnlyWithoutClassifiedStatus | src/client.ts:92-119 | TIMEOUT, NETWORK_ERROR or UNKNOWN_ERROR if and only if no classified status; TIMEOUT if and only if, in addition, the code is ECONNABORTED |
| ClientProperties.Exhausted408IsUnknown | src/client.ts:92-131 | a 408 (retryable, yet not in the taxonomy) whose transport code is none of ECONNABORTED, ENOTFOUND and ECONNREFUSED ends as UNKNOWN_ERROR with the generic message |
| ClientProperties.BadRequestMessage | src/client.ts:92-95 | a 400 reports the body's truthy `message`, else "Invalid request parameters"; details are the raw body |
| ClientProperties.Pow2Monotone | src/client.ts:75 | powers of two grow with the exponent |
| ClientProperties.DelayNonDecreasing | src/client.ts:72-78 | for a fixed jitter, a later retry never waits less |
| ClientProperties.DelayCapReached | src/client.ts:72-78 | from the fifth retry on, the exponential part is the 10000 ms cap |
| ClientProperties.FirstDelays | src/client.ts:72-78 | with jitter in [0,1000), the first four retries wait [1000,2000), [2000,3000), [4000,5000) and [8000,9000) ms |
| ClientProperties.RetriedIffTransient | src/client.ts:46-70 | below the retry limit, an attempt is retried if and only if it is transient |
| ClientProperties.PersistentTransientAttempts | src/client.ts:41-70 | when every attempt fails transiently, the call makes exactly `maxRetries - count + 1` attempts and ends on the last one |
| ClientProperties.NoRetriesOneAttempt | src/client.ts:59-64 | with `maxRetries == 0`, exactly one attempt |
| ClientProperties.PermanentFailureOneAttempt | src/client.ts:46-47 | a first failure that is not transient, or that lost its config, ends the call after one attempt |
| ClientProperties.SuccessAfterTransients | src/client.ts:41-56 | k transient failures (k ≤ maxRetries) followed by a delivery make k+1 attempts and end on that delivery |
| ClientProperties.RetriedAttemptsWereTransient | src/client.ts:46-54 | every attempt before the last one failed transiently |
| ClientProperties.Backoffs | src/client.ts:50-51 | the backoff schedule from a given retry number has one delay per retry |
| ClientProperties.BackoffAt | src/client.ts:50-51 | the i-th scheduled delay is `getRetryDelay` of the i-th post-increment count |
| ClientProperties.DelaysFollowBackoff | src/client.ts:50-53 | the delays waited are exactly the backoff schedule from the next retry count |
| ClientProperties.StopsAtLastAttempt | src/client.ts:41-56 | the call ends on the outcome of its last attempt, and that attempt is either a delivery or a failure that was not retried |
| ClientProperties.FailedRequestIsUnexpected | src/client.ts:156-171 | as written, every failed call returns UNEXPECTED_ERROR with the generic message and no details |
| ClientProperties.DeliveredRequestSucceeds | src/client.ts:141-155 | a delivered first attempt returns success with its body and request id |
| ClientProperties.ServerErrorSurfacesAsUnexpected | src/client.ts:46-47 | a 500 with no retries is normalised to SERVER_ERROR, yet `request` returns UNEXPECTED_ERROR |
| ClientProperties.TwoUnavailableThenSuccess | src/client.ts:41-56 | two 503s then a 200 under three retries: three attempts, and success |
| ClientProperties.IntendedCatch | src/client.ts:156-158 | corrected catch: an already normalised response is returned unchanged; anything else is handled as written |
| ClientProperties.IntendedRequestResponse | src/client.ts:134-172 | with the corrected catch, a resolved call is handled as written |
| ClientProperties.IntendedRequestClassifies | src/client.ts:156-158 | with the corrected catch, a call fails if and only if its last attempt failed, and it reports that attempt's classification |
| ClientProperties.RateLimitedThreeAttempts | src/client.ts:41-78 | three 429s under two retries: three attempts, waits in [1000,2000) and [2000,3000), and, with the corrected catch, RATE_LIMIT_EXCEEDED |
| ClientProperties.BadRequestNotRetried | src/client.ts:59-70 | a 400 is never retried and, with the corrected catch, reports BAD_REQUEST |
| JsonValue.Or | src/tools/campaigns.ts:29-30 | `v \|\| d` is v when v is truthy, d otherwise |
| ToolCommon.Project | src/tools/contacts.ts:42-48 | a summary object has exactly the renamed keys, each holding the corresponding response field |
| ToolCommon.FailureResult | src/tools/contacts.ts:32-38 | `success: false`; the error message when truthy, else the tool's fallback; the error as details |
| ToolCommon.ErrorObject | src/client.ts:121-131 | the error object carries the code's name, the message (absent when undefined) and the details when they are defined |
| ToolCommon.Rejection | src/tools/contacts.ts:68-73 | a guard's early result: `success: false`, the message, and the extra fields |
| ToolCommon.Succeeded | src/tools/contacts.ts:40-50 | `success: true` next to the given fields |
| ToolCommon.ProjectWith | src/tools/automation.ts:51-60 | a summary with an added key holding the given value |
| ToolCommon.ListResult | src/tools/campaigns.ts:20-33 | the failure mapping, or the listed array (else `[]`), the total (else 0) and "Retrieved n noun" |
| ToolCommon.Saved | src/tools/contacts.ts:32-50 | the failure mapping, or exactly `success: true`, the entity summary and the message; the summary has exactly the renamed keys |
| ToolCommon.SavedCounted | src/tools/automation.ts:43-60 | as `Saved`, with exactly the same top-level keys; the summary has exactly the renamed keys plus the count, which it reports |
| Contacts.ContactEndpoint | src/tools/contacts.ts:77-79 | by id when one is present, by URL-encoded e-mail otherwise |
| Contacts.NewContactPayload | src/tools/contacts.ts:21-30 | the input in snake_case, with `subscription_status` "subscribed" |
| Contacts.CreateContact | src/tools/contacts.ts:18-50 | POST `/contacts` with that payload; the saved contact summary and "Contact e-mail created successfully" |
| Contacts.ContactUpdateBody | src/tools/contacts.ts:81-87 | the body holds exactly the truthy changes, in snake_case |
| Contacts.UpdateContact | src/tools/contacts.ts:67-109 | rejected without a call if and only if neither id nor e-mail is present; otherwise PATCH of exactly the truthy changes, and the saved summary |
| Contacts.GetContact | src/tools/contacts.ts:120-158 | the same guard; GET of the contact; the failure mapping or exactly `success` and the detailed camelCase contact, which has exactly the detail keys |
| Contacts.DeleteContact | src/tools/contacts.ts:169-196 | the same guard; DELETE of the contact; the failure mapping or exactly `success` and the success message |
| Campaigns.ListSegments | src/tools/campaigns.ts:13-33 | GET `/segments` with limit and offset; the list result |
| Campaigns.NewCampaignPayload | src/tools/campaigns.ts:62-75 | the input in snake_case, as a regular draft |
| Campaigns.CampaignCreated | src/tools/campaigns.ts:77-95 | the failure mapping, or the saved summary, the draft message and the warning that the campaign is a draft |
| Campaigns.DraftMessage | src/tools/campaigns.ts:93 | the message starts with `Campaign "` followed by the campaign name |
| Campaigns.CreateCampaign | src/tools/campaigns.ts:52-95 | rejected without a call if and only if neither template id nor HTML content is present; otherwise POST `/campaigns` |
| Campaigns.SendPayload | src/tools/campaigns.ts:118-124 | `scheduled` with `scheduled_at` when a time is present, `sending` otherwise |
| Campaigns.SendMessage | src/tools/campaigns.ts:143-145 | "Campaign scheduled for " followed by exactly the time when one is present, "Campaign is now sending" otherwise |
| Campaigns.SendCampaign | src/tools/campaigns.ts:107-146 | rejected, with the safety warning, if and only if the send is unconfirmed; otherwise PATCH `/campaigns/{id}/send` |
| Campaigns.StatsObject | src/tools/campaigns.ts:171-187 | exactly the thirteen statistics; the counters and rates read 0 when missing or falsy, the rest pass through |
| Campaigns.GetCampaignStats | src/tools/campaigns.ts:156-189 | GET `/campaigns/{id}/stats`; the failure mapping or the stats object |
| Campaigns.CampaignsEndpoint | src/tools/campaigns.ts:204-207 | limit and offset always, `&status=` only under a filter |
| Campaigns.ListCampaigns | src/tools/campaigns.ts:201-224 | GET of that endpoint; the list result |
| Campaigns.DeleteCampaign | src/tools/campaigns.ts:234-250 | DELETE `/campaigns/{id}`; the failure mapping or exactly `success` and the success message |
| Automation.DripEmailObject | src/tools/automation.ts:34-39 | one drip e-mail in snake_case |
| Automation.DripEmails | src/tools/automation.ts:34-39 | one object per e-mail, in the same order |
| Automation.DripPayload | src/tools/automation.ts:30-41 | the drip campaign in snake_case, as a draft |
| Automation.CreateDripCampaign | src/tools/automation.ts:27-60 | POST `/automation/drip-campaigns`; the saved summary counting the e-mails |
| Automation.ActivateDripCampaign | src/tools/automation.ts:71-94 | PATCH `.../activate` with status active; the saved status summary |
| Automation.DripListEndpoint | src/tools/automation.ts:306-309 | the limit always, `&status=` only under a filter |
| Automation.ListDripCampaigns | src/tools/automation.ts:303-326 | GET of that endpoint; the list result |
| Automation.TotalPercentage | src/tools/automation.ts:127 | the fold of the shares is not negative when no share is, and at most 100 per variant when no share exceeds 100 |
| Automation.SumFromFrontSnoc | src/tools/automation.ts:127 | appending a variant adds its percentage to the reference sum |
| Automation.FoldsAgree | src/tools/automation.ts:127 | the left fold the tool runs equals the reference sum on every input |
| Automation.PrefixWithinTotal | src/tools/automation.ts:127 | with no negative share, no prefix of the variants sums above the total |
| Automation.VariantObject | src/tools/automation.ts:139-144 | one variant in snake_case |
| Automation.VariantObjects | src/tools/automation.ts:139-144 | one object per variant, in the same order |
| Automation.ABTestMessage | src/tools/automation.ts:168 | the message names the test and ends with the variant count and " variants" |
| Automation.ABTestPayload | src/tools/automation.ts:137-150 | the A/B test in snake_case, as a draft |
| Automation.CreateABTest | src/tools/automation.ts:126-169 | rejected without a call if and only if the percentages sum above 100; otherwise POST `/campaigns/ab-tests`, with the summary counting the variants |
| Automation.AcceptedTestFits | src/tools/automation.ts:127-133 | shares folding to at most 100 are accepted, and then no run of leading variants sums above 100, summed either way |
| Automation.StartABTest | src/tools/automation.ts:181-211 | rejected if and only if the start is unconfirmed; otherwise PATCH `.../start` with status testing |
| Automation.NewsletterPayload | src/tools/automation.ts:232-240 | the newsletter in snake_case, as active |
| Automation.CreateNewsletter | src/tools/automation.ts:229-259 | POST `/automation/newsletters`; the saved summary |
| Automation.NewsletterMessage | src/tools/automation.ts:258 | the message names the newsletter and ends with its frequency and " frequency" |
| Automation.PauseNewsletter | src/tools/automation.ts:269-292 | PATCH of the newsletter with status paused; the saved status summary |
| Templates.TemplatesEndpoint | src/tools/templates.js:14-17 | limit and offset always, the encoded category only when it is non-empty |
| Templates.ListTemplates | src/tools/templates.js:12-31 | GET of that endpoint; the list result |
| Templates.GetTemplate | src/tools/templates.js:40-62 | GET `/templates/{id}`; the failure mapping or exactly `success` and the template, which has exactly the detail keys under the same field names |
| Templates.NewTemplatePayload | src/tools/templates.js:76-81 | the template with `html_content` |
| Templates.CreateTemplate | src/tools/templates.js:74-96 | POST `/templates`; the saved summary |
| Templates.TemplateUpdateBody | src/tools/templates.js:111-119 | the body holds exactly the non-empty changes |
| Templates.UpdateTemplate | src/tools/templates.js:109-135 | PATCH of exactly the non-empty changes; the saved summary |
| Templates.DeleteTemplate | src/tools/templates.js:144-157 | DELETE `/templates/{id}`; the failure mapping or exactly `success` and the success message |
| ToolProperties.ContactUpdateBodyDetermined | src/tools/contacts.ts:81-87 | only one body meets the contact-update description, so the loop-free builder computes exactly it |
| ToolProperties.NoContactChangesEmptyBody | src/tools/contacts.ts:81-91 | an update that changes nothing truthy still goes out, with `{}` |
| ToolProperties.TemplateUpdateBodyDetermined | src/tools/templates.js:111-119 | only one body meets the template-update description |
| ToolProperties.NoTemplateChangesEmptyBody | src/tools/templates.js:111-120 | a template update with no non-empty field patches with `{}` |
| ToolProperties.DripCountMatchesPayload | src/tools/automation.ts:57 | the reported `emailCount` is the number of e-mails the request carried |
| ToolProperties.VariantCountMatchesPayload | src/tools/automation.ts:166 | the reported `variantCount` is the number of variants the request carried |
| ToolProperties.PercentageBoundary | src/tools/automation.ts:127-133 | 50+50 passes the guard; 50+51 is refused without a call |
| ToolProperties.TwoVariantTotal | src/tools/automation.ts:127 | the fold over two variants is the sum of their shares |

## Left out

- The axios instance is not modelled: base URL handling, timeout enforcement and header transport. The transport is the oracle `outcomes`, and the configured timeout is only stored.
- The request interceptor (src/client.ts:31-38) is not modelled: it stamps each attempt with `X-Request-ID` and `X-Timestamp` headers, and passes request errors through. `WireRequest` carries no headers, so these per-attempt headers are not captured.
- The response interceptor's success handler (src/client.ts:41) passes the response through; only its error handler is modelled in detail, by `Pipeline` and `Dispatch`.
- `Math.random()` is the parameter `jitter` and `sleep` is not modelled. The model records the delays waited, but it does not model time passing or asynchrony.
- `new Date().toISOString()` is the parameter `now`. `generateRequestId` (src/client.ts:84-86) is used only by the request interceptor and is left out with it.
- The spread of a caller's `config` into `request` (the optional last argument of the verb wrappers) is left out, so every call uses the instance defaults.
- `{ timeout: 30000, maxRetries: 3, ...config }` lets an explicitly `undefined` field override a default. `WithDefaults` treats a missing field and an `undefined` one alike.
- The constructor does not check that an API key is present: only `getBayEngageClient` does (src/client.ts:203-205), and the model follows that.
- `maxRetries` and the retry count are `nat`; the source accepts any `number`, so negative and fractional values are not modelled.
- A thrown configuration error from `getBayEngageClient` inside a tool's `execute` is not modelled: each tool takes the client's response as a parameter.
- zod input validation is left out: defaults, enum and e-mail format checks, and the percentage bounds. Where a tool's logic relies on a bound (each A/B variant between 0 and 100, at least two variants), it is a precondition (`WellFormedVariants`).
- `limit` and `offset` are integers; fractional or NaN values that the schema would reject are not modelled.
- Percentages are exact reals. Floating-point rounding in the `reduce` sum is not modelled.
- The `summary` string of the campaign stats tool, formatted with `toFixed`, is left out: floating-point formatting.
- `Count` models `v?.length || 0` for arrays and strings; the `length` property of other values is 0 in the model.
- JSON objects are maps, so the key order of payloads and results is not modelled.
- `encodeURIComponent` is the parameter `encode`.
- The broken stub `src/tools/bayengage.ts`, the agent and the server are not part of this model.

## Findings

| source | as written | input that shows it | evidently intended | confidence | as-written member | corrected member |
|---|---|---|---|---|---|---|
| src/client.ts:46-47, 156-171 | the interceptor rejects with the already normalised `APIResponse`; the catch in `request` finds no axios error and returns UNEXPECTED_ERROR with the generic message, losing the classification | `maxRetries = 0`, one attempt answered with HTTP 500: the interceptor builds SERVER_ERROR, `request` returns UNEXPECTED_ERROR | the catch returns the normalised response unchanged, so callers see SERVER_ERROR, RATE_LIMIT_EXCEEDED, etc. | not executed | ClientProperties.ServerErrorSurfacesAsUnexpected | ClientProperties.IntendedRequestClassifies |
