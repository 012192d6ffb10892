# Hyphen Go SDK: a verified model of its client logic

This project models, in Dafny, the logic of the Hyphen Go SDK's clients that
does not depend on the network:

- **Toggle**, the feature-flag client:
  - how `New` resolves its options;
  - decoding the organisation ID out of a `public_` key;
  - the tenant and global Horizon endpoints;
  - resolving the targeting key;
  - building the evaluation request;
  - the evaluator `Get`, which falls back from one endpoint to the next in order;
  - the typed accessors.
- **Link**, the short-link client:
  - constructor validation;
  - the URI builder `getURI`;
  - for every CRUD method, its path, verb, body, query and expected status.
- **NetInfo**, the IP-geolocation client:
  - key validation and the default base URI;
  - the two lookup URLs;
  - refusing an empty batch.
- **The shared HTTP client**: `CreateHeaders`, and the way `do` lays the
  caller's headers over its JSON defaults through `http.Header.Set`, whose
  key canonicalisation is modelled.
- **The README example extractor**:
  - `sanitizeSection`;
  - the option injector `injectOption` and its string-aware parenthesis matcher;
  - the `ExtractGoCodeBlocks` line scanner.

The modules follow the source packages:

| file | module | models |
|---|---|---|
| `toggle.dfy` | `Toggle` | pkg/toggle/toggle.go |
| `link.dfy` | `Link` | pkg/link/link.go |
| `netinfo.dfy` | `NetInfo` | pkg/netinfo/netinfo.go |
| `client.dfy` | `Client` | internal/client/client.go |
| `parser.dfy` | `Parser` | tests/examples/testutil/parser.go |
| `text.dfy` | `Text` | the `strings` and `fmt` functions the SDK calls |
| `base64.dfy` | `Base64` | padded standard base64, as in section 4 of RFC 4648, as Go's `StdEncoding` reads it |
| `json.dfy` | `Json` | decoded JSON values |
| `wrappers.dfy` | `Wrappers` | Option and Result |

**Clients.** Each client is modelled as a `class` with the fields of its Go struct.
- `New` applies the functional options in a loop.
- `SetErrorHandler` assigns the handler field.
- Two ghost fields record what the Go code does outside itself:
  - `handlerCalls` lists the calls to the error handler, in order;
  - `sent` lists the requests handed to the transport, in order.
- The transport is a function parameter `send`. The reply it returns is a transport error, or a status code with its status text and the outcome of decoding the body.
- Every network method is specified by a pure function of its inputs, for example `Toggle.Evaluate`, `Link.Perform` or `NetInfo.LookupMany`. Lemmas state the promised behaviour about that function: order of attempts, number of requests, error exactly when, and so on.

**Toggle.**
- A client built by `New` satisfies `Valid()`: it has at least one endpoint and a non-empty default targeting key.
- `Get` does not require `Valid()`, just as the Go code does not. On an empty endpoint list it fails with the error wrapping a nil cause.

**HTTP client.** `CreateHeaders` is a function, although it fills a local map step by step. The map is never visible half-built, so its observable meaning is the finished map.

**Example extractor.**
- Strings are byte sequences, with one `char` per byte, as Go indexes them. The one exception is the sanitiser: `strings.Map` works on runes, so there a `char` stands for one rune.
- The scanner works over a sequence of lines rather than a file.
- The Go builder adds a `"\n"` only when it already holds text. So a block's code is its non-heading inner lines, with leading empty lines dropped, joined by `"\n"`, as `Parser.AccumulateFromEmpty` states. This differs from "the inner lines joined by `"\n"`" when a block starts with an empty line.

## Model

| member | source | states |
|---|---|---|
| Toggle.GetOrgIDFromPublicKey | pkg/toggle/toggle.go:329-346 | "" when the key lacks `public_` or the rest is not valid padded base64; the result never contains ':' |
| Toggle.OrgIDOfEncodedKey | pkg/toggle/toggle.go:334-345 | a key made of `public_` and the base64 of any text yields that text up to its first ':' (all of it when there is none) |
| Toggle.OrgIDOfTenantSecret | pkg/toggle/toggle.go:340-345 | `public_` + base64("org:secret") yields exactly `org` when `org` has no ':' |
| Toggle.DocumentedTextOrgID | pkg/toggle/toggle_test.go:169-179 | the key built from "test-org:secret" names `test-org` |
| Toggle.DocumentedKeyText | pkg/toggle/toggle_test.go:171 | the base64 text of "test-org:secret" is `dGVzdC1vcmc6c2VjcmV0` |
| Toggle.DocumentedKeyOrgID | pkg/toggle/toggle_test.go:169-179 | `public_dGVzdC1vcmc6c2VjcmV0` yields `test-org` |
| Base64.Decode | pkg/toggle/toggle.go:335 | text whose length, once newlines are skipped, is not a multiple of four is rejected |
| Base64.DecodeFull | pkg/toggle/toggle.go:335 | an unpadded group decodes, to three bytes, exactly when all four characters are in the alphabet |
| Base64.RoundTrip | pkg/toggle/toggle.go:335 | decoding inverts encoding for every byte string |
| Base64.DecodeEncode | pkg/toggle/toggle.go:335 | the group decoder inverts encoding, by induction over the groups |
| Toggle.GetDefaultHorizonURL | pkg/toggle/toggle.go:349-360 | the global URL for an empty key or one naming no organisation, else `https://<org>.toggle.hyphen.cloud`, which differs from the global URL |
| Toggle.GetDefaultHorizonURLs | pkg/toggle/toggle.go:363-376 | one or two URLs, always ending with the global one; only one exactly when no organisation is resolved; otherwise the tenant URL first |
| Toggle.GenerateTargetKey | pkg/toggle/toggle.go:379-392 | the non-empty ones of application and environment, each followed by '-', then the random number in decimal; never empty |
| Toggle.GetTargetingKey | pkg/toggle/toggle.go:395-403 | the context's key if non-empty, else a non-empty user id, else the generated key; never empty |
| Text.NatToStringRoundTrip | pkg/toggle/toggle.go:380 | the decimal text of the random suffix reads back as the number |
| Toggle.LastOptionWins | pkg/toggle/toggle.go:129-132 | after the option loop, each setting holds the value of the last option of its kind |
| Toggle.UnsetOptionKeepsZero | pkg/toggle/toggle.go:129-132 | a setting no option touches keeps its zero value |
| Toggle.Toggle.New | pkg/toggle/toggle.go:128-186 | key and application ID are the option's, else the environment's; environment defaults to "development"; the org ID comes from the key; a non-empty URL option is kept verbatim, else the default URLs; the default targeting key is resolved; `Valid()` holds |
| Toggle.Toggle.SetErrorHandler | pkg/toggle/toggle.go:189-191 | the handler becomes the one given |
| Toggle.Toggle.EmitError | pkg/toggle/toggle.go:194-198 | the handler, if set, is called once with the error; otherwise nothing happens |
| Toggle.Toggle.BuildEvaluationContext | pkg/toggle/toggle.go:297-326 | application and environment are always copied; the override context takes precedence over the default one; its key, IP, attributes and user are copied; the targeting key falls back to `getTargetingKey` or to the default key, and so is never empty on a client `New` made |
| Toggle.EvaluateURLShape | pkg/toggle/toggle.go:209 | the evaluation URL is the base less one trailing '/', followed by `/toggle/evaluate`; a trailing '/' on the base makes no difference |
| Toggle.Toggle.PostOnce | pkg/toggle/toggle.go:209-226 | one POST to the evaluation URL; a transport error, a non-200 status or an unparseable body classify the attempt as failed |
| Toggle.Toggle.EvaluateEndpoints | pkg/toggle/toggle.go:206-235 | the loop returns the value, the error and the requests the evaluation function gives |
| Toggle.FirstParsed | pkg/toggle/toggle.go:208-233 | the first endpoint whose response parses, with every endpoint before it failed; or none, with every endpoint failed |
| Toggle.FirstParsedWins | pkg/toggle/toggle.go:208-233 | if endpoint i is the first to parse: no error, the flag's value (or the default when absent), and exactly i+1 POSTs, to endpoints 0..i in order |
| Toggle.AllEndpointsFail | pkg/toggle/toggle.go:207-237 | if every endpoint fails: the default, an error wrapping the last failure (none for an empty list), and one POST per endpoint, in order |
| Toggle.ErrorIffNoEndpointParses | pkg/toggle/toggle.go:208-237 | `Get` reports an error exactly when no endpoint's response parses |
| Toggle.FallbackToSecondary | pkg/toggle/toggle.go:208-233 | the primary answers 500 and the secondary answers with the flag: the secondary's value, no error, two requests |
| Toggle.Toggle.Get | pkg/toggle/toggle.go:201-238 | the evaluation over this client's endpoints, with the standard headers and the built context; the handler is called exactly once on total failure, and never otherwise |
| Toggle.TypedAccessorResult | pkg/toggle/toggle.go:241-294 | a typed accessor returns the flag from the first parsed response when it is present and of its type, and the default otherwise |
| Toggle.ObjectAccessorRejectsArray | pkg/toggle/toggle.go:283-294 | an array-valued flag read through `GetObject` gives the default |
| Toggle.Toggle.GetBoolean | pkg/toggle/toggle.go:241-252 | the default on error or a non-boolean value, else the boolean |
| Toggle.Toggle.GetString | pkg/toggle/toggle.go:255-266 | the default on error or a non-string value, else the string |
| Toggle.Toggle.GetNumber | pkg/toggle/toggle.go:269-280 | the default on error or a non-numeric value, else the number |
| Toggle.Toggle.GetObject | pkg/toggle/toggle.go:283-294 | the default on error or a non-object value, else the object |
| Link.URIFor | pkg/link/link.go:210-242 | fails with "organization ID is required" exactly when the organisation ID is empty, whatever the prefixes |
| Text.ReplaceFirst | pkg/link/link.go:215 | only the first occurrence of the placeholder is replaced; without one the URI is unchanged |
| Link.AppendSegmentTrimmed | pkg/link/link.go:217-223 | one conditional append adds exactly "/prefix" once a trailing '/' is trimmed, and nothing for an empty prefix |
| Link.AppendChainTrimmed | pkg/link/link.go:217-241 | the three appends and the final trim give the trimmed base followed by "/p" for each non-empty prefix, in order |
| Link.URIForSegments | pkg/link/link.go:210-242 | `getURI` gives: `uris[0]` with the organisation substituted and one trailing '/' trimmed, then "/p" for each non-empty prefix, in order |
| Link.Link.GetURI | pkg/link/link.go:210-242 | the step-by-step builder computes the URI function |
| Link.Link.New | pkg/link/link.go:159-195 | an API key (option, else environment) starting with `public_` is refused, and only such a key; the organisation ID falls back to the environment; no URIs means the default list, so `uris` is never empty |
| Link.Link.SetErrorHandler | pkg/link/link.go:198-200 | the handler becomes the one given |
| Link.Link.EmitError | pkg/link/link.go:203-207 | the handler, if set, is called once with the error |
| Link.Operation.ExpectedStatus | pkg/link/link.go:277-281 | 201 exactly for the creations (POST), 204 exactly for the deletions, 200 exactly for the reads and the update |
| Link.NoRequestWithoutOrganization | pkg/link/link.go:246-250 | without an organisation ID every operation fails before sending anything |
| Link.PerformOneRequest | pkg/link/link.go:269-291 | with an organisation ID: exactly one request, to the built URI, with the standard headers; a transport error gives "failed to <op>: <cause>"; any status but the operation's gives "failed to <op>: HTTP <code>: <status>"; on the operation's status a deletion succeeds with nothing decoded, and any other operation returns the decoded body or "failed to unmarshal response: <cause>" |
| Link.Link.Execute | pkg/link/link.go:245-291 | the shared request, check and decode sequence computes the operation function; every error is reported to the handler once |
| Link.CreateShortCodeBody | pkg/link/link.go:252-267 | `long_url` and `domain` always; `code`, `title` and `tags` exactly when given and non-empty, with their values; no other key |
| Link.UpdateShortCodeBody | pkg/link/link.go:51-55 | `null` for a nil options pointer; otherwise exactly the non-empty fields, with their values |
| Link.CreateQRCodeBody | pkg/link/link.go:66-72 | `null` for a nil options pointer; otherwise exactly the non-empty fields among the five, with their values |
| Link.PageQuery | pkg/link/link.go:576-582 | `pageNum` and `pageSize` each exactly when positive, in decimal; no other key |
| Link.ShortCodesQuery | pkg/link/link.go:334-350 | `title` when non-empty, `tags` joined by ',' when there are any, the paging parameters; empty (so no '?') exactly when none applies |
| Link.Link.CreateShortCode | pkg/link/link.go:245-291 | POST to the bare URI with the built body, expecting 201 |
| Link.Link.GetShortCode | pkg/link/link.go:294-323 | GET `/<code>`, expecting 200 |
| Link.Link.GetShortCodes | pkg/link/link.go:326-374 | GET the bare URI with the built query, expecting 200 |
| Link.Link.GetTags | pkg/link/link.go:377-406 | GET `/tags`, expecting 200 |
| Link.Link.GetCodeStats | pkg/link/link.go:409-444 | GET `/<code>/stats` with both dates, expecting 200 |
| Link.Link.UpdateShortCode | pkg/link/link.go:447-476 | PATCH `/<code>` with the options as body, expecting 200 |
| Link.Link.DeleteShortCode | pkg/link/link.go:479-501 | DELETE `/<code>`, expecting 204, no decoding |
| Link.Link.CreateQRCode | pkg/link/link.go:504-533 | POST `/<code>/qrs` with the options as body, expecting 201 |
| Link.Link.GetQRCode | pkg/link/link.go:536-565 | GET `/<code>/qrs/<id>`, expecting 200 |
| Link.Link.GetQRCodes | pkg/link/link.go:568-610 | GET `/<code>/qrs` with the paging query, expecting 200 |
| Link.Link.DeleteQRCode | pkg/link/link.go:613-635 | DELETE `/<code>/qrs/<id>`, expecting 204, no decoding |
| Client.CreateHeaders | internal/client/client.go:124-133 | `Content-Type` and `Accept` are always `application/json`; `x-api-key` is present exactly when the key is non-empty, and holds it; no other key |
| Client.SetRequestHeaders | internal/client/client.go:96-102 | the keys are the two defaults plus the canonical custom keys; a default not overridden keeps `application/json`; each canonical key holds one of its custom values, and the custom value when only one key maps there |
| Client.CanonicalPointwise | internal/client/client.go:96-102 | in the canonical key, each byte is upper-cased at the start of a word and lower-cased elsewhere |
| Client.CanonicalKeyIdempotent | internal/client/client.go:96-102 | canonicalising a canonical key changes nothing |
| Client.CreatedHeaderKeys | internal/client/client.go:96-102 | `CreateHeaders` output lands under `Content-Type`, `Accept` and, exactly when there is a key, `X-Api-Key` |
| NetInfo.NetInfo.New | pkg/netinfo/netinfo.go:77-110 | fails exactly when the key (option, else environment) is empty or starts with `public_`, with the matching message; the base URI defaults to `https://net.info` |
| NetInfo.NetInfo.SetErrorHandler | pkg/netinfo/netinfo.go:113-115 | the handler becomes the one given |
| NetInfo.NetInfo.EmitError | pkg/netinfo/netinfo.go:118-122 | the handler, if set, is called once with the error |
| NetInfo.SingleURLExtendsBatchURL | pkg/netinfo/netinfo.go:126-160 | the single-lookup URL is the batch URL followed by "/<ip>", and starts with the trimmed base URI |
| NetInfo.TrailingSlashIgnored | pkg/netinfo/netinfo.go:126-160 | one trailing '/' on the base URI changes neither URL |
| NetInfo.Exchange | pkg/netinfo/netinfo.go:129-149 | exactly one request; success exactly on a 200 reply whose body decodes, with the decoded value; a transport error, another status and an undecodable body each give their own error and message |
| NetInfo.BatchRejectsOnlyEmpty | pkg/netinfo/netinfo.go:154-163 | a batch lookup sends nothing exactly when the list is empty, then failing with the invalid-IPs error; otherwise it posts the addresses once to the batch URL |
| NetInfo.NetInfo.Send | pkg/netinfo/netinfo.go:163-183 | the shared request and check sequence computes the exchange function; a failure is reported to the handler once |
| NetInfo.NetInfo.GetIPInfo | pkg/netinfo/netinfo.go:125-150 | GET to the single-lookup URL; result, requests and handler calls as the lookup function says |
| NetInfo.NetInfo.GetIPInfos | pkg/netinfo/netinfo.go:153-184 | the empty-list refusal, reported to the handler without a request, else a POST to the batch URL |
| Parser.ContainsDouble | tests/examples/testutil/parser.go:244 | the loop condition holds exactly when two adjacent underscores remain |
| Parser.ReplaceDoublesShrinks | tests/examples/testutil/parser.go:244-246 | each pass of the loop shortens the text, so the loop ends |
| Parser.ReplaceDoublesSqueeze | tests/examples/testutil/parser.go:245 | one ReplaceAll pass leaves what collapsing the underscore runs gives unchanged |
| Parser.SqueezeNoDouble | tests/examples/testutil/parser.go:244-246 | collapsing the runs leaves no "__" |
| Parser.TrimUnderscores | tests/examples/testutil/parser.go:249 | the result neither starts nor ends with '_' |
| Parser.SanitizeSection | tests/examples/testutil/parser.go:234-252 | the loop of ReplaceAll passes computes the map, collapse and trim |
| Parser.SanitizedAlphabet | tests/examples/testutil/parser.go:236-241 | the output holds only ASCII letters, digits and '_' |
| Parser.SanitizedNoDouble | tests/examples/testutil/parser.go:244-246 | the output never contains "__" |
| Parser.SanitizedEdges | tests/examples/testutil/parser.go:249 | the output neither starts nor ends with '_' |
| Parser.SanitizedKeepsAlnum | tests/examples/testutil/parser.go:234-252 | the section's letters and digits all survive, in order |
| Parser.SanitizedEmpty | tests/examples/testutil/parser.go:234-252 | the output is empty exactly when the section has no letter or digit |
| Parser.SanitizedIdempotent | tests/examples/testutil/parser.go:234-252 | sanitising a sanitised name changes nothing |
| Parser.HeadingText | tests/examples/testutil/parser.go:34-44 | a match is one or more '#', one or more whitespace characters and the capture, which is the rest of the line, non-empty and without a line break |
| Parser.HeadingOfTitle | tests/examples/testutil/parser.go:34 | hashes, whitespace, then a title capture exactly the title |
| Parser.FenceIsNoHeading | tests/examples/testutil/parser.go:41-47 | a fence line is never taken for a heading |
| Parser.ScanAppend | tests/examples/testutil/parser.go:36-72 | scanning two runs of lines is scanning the first, then the second from where it left off |
| Parser.StepInside | tests/examples/testutil/parser.go:40-71 | inside a block, a heading renames the section and is not added to the code; any other non-fence line is added |
| Parser.AccumulateFromEmpty | tests/examples/testutil/parser.go:66-71 | the builder ends up holding the lines, leading empty ones dropped, joined by "\n" |
| Parser.BlockRecorded | tests/examples/testutil/parser.go:47-63 | a "```go" line, inner lines and a closing "```" line record one block: the opening line's 1-based number, the non-heading inner lines as code, and the sanitised section in force at the close |
| Parser.OpenBlockDropped | tests/examples/testutil/parser.go:72-78 | a block still open when the lines run out is not returned |
| Parser.ExtractGoCodeBlocks | tests/examples/testutil/parser.go:36-78 | the line loop returns the blocks the scanner function gives |
| Text.Index | tests/examples/testutil/parser.go:143 | the first position of the constructor name: a match there, none before; None only when it occurs nowhere |
| Parser.DepthWithoutQuotes | tests/examples/testutil/parser.go:154-176 | where no quote occurs, the matcher's depth is the count of '(' minus ')' |
| Parser.FindClose | tests/examples/testutil/parser.go:148-176 | -1 exactly when no ')' closes the call; otherwise the first position where depth, outside strings, returns to 0 |
| Parser.FirstCloseUnique | tests/examples/testutil/parser.go:165-173 | the closing position is unique |
| Parser.TrimRightBlank | tests/examples/testutil/parser.go:184 | a prefix of the input that does not end in ' ', '\t' or '\n', with only those characters removed |
| Parser.TrailingCommaTest | tests/examples/testutil/parser.go:183-185 | the trimmed prefix ends in ',' exactly when the last character of the prefix that is not ' ', '\t' or '\n' is ',' |
| Parser.Insertion | tests/examples/testutil/parser.go:182-190 | when the last non-blank character before the closing parenthesis is a comma, only the option and its comma are added; otherwise a comma comes first; either way the text ends in the option, a comma, a newline and a tab |
| Parser.InjectOption | tests/examples/testutil/parser.go:142-191 | the code, unchanged, when the constructor is absent or its call never closes; otherwise the prefix before the closing ')', the insertion, then the rest |
| Text.TrimSuffix | pkg/netinfo/netinfo.go:126 | removes the suffix once when present, else returns the input |
| Text.TrimPrefix | pkg/toggle/toggle.go:334 | removes the prefix once when present, else returns the input |
| Text.BeforeFirst | pkg/toggle/toggle.go:340-345 | the longest prefix without the separator, followed in the input by the separator or its end |

## Left out

- The HTTP transport (`do`'s request building, `http.Client.Do`, reading the body, timeouts) is network I/O: it is the `send` parameter, and a transport error stands for every failure before a status arrives.
- `encoding/json` marshalling and unmarshalling is a foreign library. A reply carries the decoded body, or the decoder's message. A body without `toggles` decodes to an empty map.
- `url.Values.Encode` percent-encoding and key sorting are library code: a request carries its query as a map, sent after '?' exactly when non-empty.
- RFC 3339 formatting of the statistics dates is not modelled: the dates arrive as already-formatted strings.
- `math/rand` is a parameter: the random number is a `nat` argument.
- `os.Getenv` is a parameter: the environment is a map argument.
- Floating point: `float64` flag values and coordinates are opaque reals, and no arithmetic is done on them.
- Concurrent replacement of the error handler is not modelled: nothing in the source guards it.
- How Go marshals a caller's `*Context` (its `nil` maps and pointers) is not modelled: a context is a datatype, and an absent user is None.
- The default context is stored by value. Go keeps the caller's `*Context` pointer and reads it again on every `Get`, so later changes the caller makes to it are seen there; the model does not capture that aliasing.
- The transport is a pure function of the request, so two attempts that send the same request get the same reply. In Go they need not: in `Get`, the base URLs "https://a" and "https://a/" post the same request, and the first may time out while the second succeeds. The model's fallback order covers only transports that answer equal requests alike.
- Go's typed nil error is not modelled: when the endpoint list is empty, the error's message carries the text `fmt` prints for a nil cause.
- File opening and the `bufio.Scanner` line-length limit of `ExtractGoCodeBlocks` are I/O: the model scans a given sequence of lines.
- `ReplaceCredentials`, `InjectDevURIs`, `AddOsImport` and `IsCompleteProgram` in tests/examples/testutil/parser.go are not part of this model: they are regular-expression and environment-dependent test scaffolding.
- tests/examples/testutil/runner.go is not part of this model: it runs subprocesses.
- pkg/env/env.go is not part of this model: it is dotenv file I/O.
- hyphen.go is not part of this model: it only forwards options to the clients.
- The demonstration programs and the live-service test suites are not part of this model: they only call the clients.
- The response structs (`ShortCodeResponse`, `IPInfo` and the rest) are JSON values: the model does not check their field shapes.
- Link.URIForSegments: the closed form holds only for prefixes that do not themselves end in '/'. For a prefix that does, the next append does not add a separator, and only `Link.URIFor` describes the result.
- Client.SetRequestHeaders: Go's map order is modelled as an arbitrary choice, so when two custom keys share a canonical key, the contract states only that one of their values wins, not which.
