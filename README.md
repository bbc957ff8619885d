# Topaz signature-pad demo, modelled in Dafny

The demo is an Angular page that drives a Topaz signature tablet through the
vendor's SigWeb host (a local REST service on port 47289), plus a small
Express bridge that lets an HTTPS page reach that host. This project models
the parts of it that decide things:

- **Signature component** (`signature.dfy`, module `Signature`): parsing the
  raw endpoint catalogue into items (host flag, method guess, path
  parameters, notes), classifying each endpoint into one of eleven groups,
  describing it, grouping and ordering the items, and the component's own
  state (expanded rows, the captured image, the SigString draft).
- **Topaz service** (`topaz.dfy`, module `Topaz`): which address the page
  calls, how a text answer is normalised, how an HTTP failure becomes a
  message, and what each action (`refreshBridgeStatus`, `refreshStatus`,
  `startCapture`, `clear`, `getImage`) does to the status fields and to the
  list of requests sent. The class `TopazService` holds those fields; each
  method is proved equal to a pure step function, and the promises are
  lemmas about those functions.
- **Bridge** (`bridge.dfy`, module `Bridge`): the CORS headers, the
  preflight short-circuit, which route answers a request, how a `/sigweb`
  request is rewritten and forwarded, the headers of a forwarded answer,
  the certificate choice and the start-up error decision.
- **SigWeb client** (`sigweb_tablet.dfy`, module `SigWebTablet`): the base
  URI and browser checks, the XMLHttpRequest helpers and their 200-only
  result rule, the installation probe, `GetVersionString`,
  `SetTabletState`, and the shape of `generateUUID`'s identifiers.
- `jsarray.dfy` (module `JsArray`) gives `Array.prototype.map` with its
  element-wise facts.
- `jsstring.dfy` (module `JsString`) gives the JavaScript string operations
  the code relies on (`trim`, `slice`, `startsWith`, `lastIndexOf`,
  `Number`, ...) and `wrappers.dfy` the `Option` type.

Network answers, the random digits and the browser's location are inputs:
each action takes the outcome of its requests as parameters, and records
the requests it would send in a `sent` list.

## Model

| member | source | states |
|---|---|---|
| Signature.NonBlankLinesOfJoin | src/app/signature/signature.ts:480-483 | splitting catalogue text on line breaks, trimming and dropping blank lines gives back exactly the trimmed, non-empty lines it was made of |
| Signature.SplitLinesAtFirstBreak | src/app/signature/signature.ts:481 | a `\n` splits a line off, and the `\r` of a `\r\n` goes with the break |
| Signature.HostFlagSplit | src/app/signature/signature.ts:486-502 | the flag is `TU` iff the line ends in `TU`, else `T` iff it ends in `T`, else none; the path is the line minus that flag; the method guess is GET for `TU`, POST for `T`, varies otherwise |
| Signature.PathParams | src/app/signature/signature.ts:497-500 | every captured parameter name is non-empty and contains no `}` |
| Signature.ExtractParams | src/app/signature/signature.ts:497-500 | the `matchAll` loop pushes exactly the placeholder names in order |
| Signature.ParamsOfRender | src/app/signature/signature.ts:498-500 | for a path built from literals without `{` and `{name}` placeholders, the extracted parameters are exactly the placeholder names in order |
| Signature.ItemNotesFacts | src/app/signature/signature.ts:504-515 | a host-flag note appears iff there is a flag and then comes first; the Content-Length note appears iff the guess is POST; the parameter note appears iff there are parameters and then comes last; at most three notes |
| Signature.SplitFlag | src/app/signature/signature.ts:486-495 | the suffix checks, `TU` before `T`, give the flag and path that `SplitHostFlag` describes |
| Signature.CollectNotes | src/app/signature/signature.ts:504-515 | the note pushes build the notes that `ItemNotes` describes |
| Signature.ParseLine | src/app/signature/signature.ts:485-527 | the per-line callback with its pushes builds the item that `LineItem` describes |
| Signature.LineItemFacts | src/app/signature/signature.ts:485-527 | `LineItem`, the item built for one line: an item's key and raw text are the line, its path plus flag give back the line, its guess matches its flag, its parameters are well formed and its group is one of the eleven |
| JsArray.MapSeqAt | src/app/signature/signature.ts:484 | `map` puts the image of element `k` at index `k` |
| JsArray.MapSeqSnoc | src/app/signature/signature.ts:484 | mapping one more element appends its image |
| Signature.Catalogue | src/app/signature/signature.ts:479-485 | one item per non-blank line |
| Signature.ParseRawApiDocs | src/app/signature/signature.ts:479-529 | the loop over the lines yields the catalogue item by item |
| Signature.CatalogueLines | src/app/signature/signature.ts:480-485 | item `i` is keyed by the `i`-th trimmed non-blank line |
| Signature.GroupForRawPath | src/app/signature/signature.ts:570-616 | every path lands in one of the eleven preferred groups |
| Signature.FirstSegmentOnly | src/app/signature/signature.ts:571-572 | the endpoint name is the first path segment, with or without the leading slash, whatever follows it |
| Signature.TabletPrefixWins | src/app/signature/signature.ts:574-576 | any name starting with `Tablet` is `Tablet / capture`, even one that later rules would also match (such as `TabletEncryptionMode`) |
| Signature.DescribeByName | src/app/signature/signature.ts:618-620 | `DescribeRawEndpoint`: the description of a path is that of its endpoint name: the leading slash is optional and parameters or deeper segments after the name change nothing |
| Signature.Position | src/app/signature/signature.ts:557-558 | the index recorded for a name is its last occurrence in the list, and absent names have none |
| Signature.Rank | src/app/signature/signature.ts:543-564 | a preferred group ranks by its place in the list (below 11), any other group ranks 999 |
| Signature.GroupLeReflexive | src/app/signature/signature.ts:562-567 | the comparator lets a group precede itself |
| Signature.GroupLeTotal | src/app/signature/signature.ts:562-567 | any two groups are ordered one way or the other |
| Signature.GroupLeTransitive | src/app/signature/signature.ts:562-567 | the comparator's order is transitive |
| Signature.Insert | src/app/signature/signature.ts:560-567 | one insertion step adds exactly the new group |
| Signature.SortGroups | src/app/signature/signature.ts:560-567 | sorting permutes the groups (same multiset) |
| Signature.InsertSorted | src/app/signature/signature.ts:560-567 | inserting into a sorted list keeps it sorted |
| Signature.SortGroupsSorted | src/app/signature/signature.ts:560-567 | the sorted groups are in preferred order, then by name |
| Signature.SortGroupsDistinct | src/app/signature/signature.ts:560-567 | sorting keeps group names distinct |
| Signature.GroupNames | src/app/signature/signature.ts:532-541 | there are no more buckets than items |
| Signature.GroupNamesFacts | src/app/signature/signature.ts:532-541 | a bucket exists for a name iff some item has that group, and bucket names are distinct |
| Signature.ItemsOf | src/app/signature/signature.ts:532-541 | a bucket holds no more than all items |
| Signature.ItemsOfMembers | src/app/signature/signature.ts:532-541 | a bucket holds exactly the items of its group |
| Signature.BucketStepKnown | src/app/signature/signature.ts:535-537 | pushing onto an existing bucket keeps the map equal to the grouping of the items seen so far |
| Signature.BucketStepNew | src/app/signature/signature.ts:538-539 | creating a bucket appends its name in insertion order and keeps the map equal to the grouping so far |
| Signature.EntriesAreBuckets | src/app/signature/signature.ts:559-560 | reading the buckets in insertion order gives one group per name, holding that name's bucket |
| Signature.GroupRawApiDocs | src/app/signature/signature.ts:531-567 | the bucket loop and the sort return exactly `Grouped(docs)` |
| Signature.GroupedIsPartition | src/app/signature/signature.ts:531-567 | `Grouped`, the bucketed and sorted groups: the groups are sorted with distinct names; each holds exactly its items, in order and non-empty; every item sits in the group named by its own group field and in no other |
| Signature.Toggle | src/app/signature/signature.ts:471-477 | the expanded id becomes none iff it was the same id, else that id |
| Signature.ToggleTwice | src/app/signature/signature.ts:471-477 | toggling twice restores the state exactly when nothing or the same id was expanded |
| Signature.ImportDecision | src/app/signature/signature.ts:845-852 | nothing is passed on iff the draft is blank |
| Signature.ImportDecisionFacts | src/app/signature/signature.ts:845-852 | what is passed on is the trimmed, non-empty draft, and importing it again passes on the same value |
| Signature.DataUrl | src/app/signature/signature.ts:796-800 | the image is a PNG data URL that ends with the payload |
| Signature.SaveShowsPayload | src/app/signature/signature.ts:796-800 | after connecting, the image payload is delivered iff the answer succeeded with non-empty normalised text, and it is that text |
| Signature.SignatureComponent.constructor | src/app/signature/signature.ts:55-59 | no image, an empty draft, nothing expanded |
| Signature.SignatureComponent.ToggleApiDetails | src/app/signature/signature.ts:471-473 | toggles the expanded API id and leaves everything else |
| Signature.SignatureComponent.ToggleRawApiDetails | src/app/signature/signature.ts:475-477 | toggles the expanded raw key and leaves everything else |
| Signature.SignatureComponent.EnsureConnected | src/app/signature/signature.ts:796-800 | registers the listener and changes no status field |
| Signature.SignatureComponent.Start | src/app/signature/signature.ts:802-805 | connects, then the service performs `startCapture` |
| Signature.SignatureComponent.Clear | src/app/signature/signature.ts:817-821 | connects, drops the shown image, then the service performs `clear` |
| Signature.SignatureComponent.Save | src/app/signature/signature.ts:823-826 | connects, fetches the image, and shows it as a data URL exactly when one is delivered |
| Signature.SignatureComponent.ImportSigString | src/app/signature/signature.ts:845-852 | a blank draft sets the empty-SigString error and passes nothing on; otherwise the trimmed draft is passed on and no status changes |
| Topaz.BaseUrl | src/app/services/topaz.ts:9-26 | every API address ends in `/sigweb` |
| Topaz.AddressesAgree | src/app/services/topaz.ts:9-46 | the health URL is the displayed origin plus `/health`; an HTTPS page calls the API on that same origin; any other page calls SigWeb directly on port 47289 |
| Topaz.NormalizeTextResponse | src/app/services/topaz.ts:140-146 | the result is never longer than the trimmed answer |
| Topaz.NormalizeUnquotes | src/app/services/topaz.ts:140-146 | an answer wrapped in a matching pair of `"` or `'` loses exactly that pair |
| Topaz.NormalizeKeepsUnquoted | src/app/services/topaz.ts:140-146 | a trimmed answer without a matching pair of outer quotes is returned unchanged |
| Topaz.NormalizeNotIdempotent | src/app/services/topaz.ts:140-146 | only one layer of quotes goes: normalising `""1""` twice differs from once |
| Topaz.ToHelpfulError | src/app/services/topaz.ts:77-109 | every message starts with `Failed to <action>.`, and it is only that when the error is not an HTTP error |
| Topaz.StatusLineKeepsBase | src/app/services/topaz.ts:105 | trimming the status line keeps the base message, `HTTP` and the status |
| Topaz.HelpfulErrorShowsBody | src/app/services/topaz.ts:101-103 | a non-zero status with a non-blank string body gives the base message and the trimmed body |
| Topaz.HelpfulErrorPageMattersOnlyForStatusZero | src/app/services/topaz.ts:78-99 | the page's protocol changes the message only for status 0 |
| Topaz.HelpfulErrorStatusZero | src/app/services/topaz.ts:82-98 | status 0 gives the mixed-content advice on an HTTPS page and the unreachable advice otherwise, and the two differ |
| Topaz.RefreshBridgeFacts | src/app/services/topaz.ts:48-65 | `AfterRefreshBridge`: without a window or off HTTPS the flag is cleared and nothing is sent; otherwise the health URL is asked and the flag records whether it answered; nothing else changes |
| Topaz.RefreshStatusFacts | src/app/services/topaz.ts:115-127 | `AfterRefreshStatus`: connected is true iff the normalised answer is exactly `1`, and none iff that request failed; the version is the normalised text, or none on failure; the action, error and listener are untouched; the requests sent are exactly the health check on an HTTPS page, then `version`, then `TabletConnectQuery` |
| Topaz.RefreshStatusSent | src/app/services/topaz.ts:115-127 | a status refresh appends exactly the health check on an HTTPS page, then `version` and `TabletConnectQuery` |
| Topaz.RefreshKeepsOutcome | src/app/services/topaz.ts:115-127 | a status refresh leaves the action, the error and the listener as they were |
| Topaz.QuotedOneCountsAsConnected | src/app/services/topaz.ts:124 | a quoted `"1"` counts as connected |
| Topaz.StartCaptureOutcome | src/app/services/topaz.ts:152-171 | `AfterStartCapture`: the action is `Start`; the error is none iff both posts succeed, else the message for the step that failed |
| Topaz.StartCaptureSent | src/app/services/topaz.ts:152-171 | the requests sent are `OpenTablet/0`, then `TabletState/1` iff the open succeeded, then those of the status refresh |
| Topaz.StartCaptureOrder | src/app/services/topaz.ts:152-171 | `OpenTablet/0` is sent first, and `TabletState/1` is sent iff it succeeded |
| Topaz.OpenAndStatePathsDiffer | src/app/services/topaz.ts:148-158 | the two posts of `startCapture` are different requests |
| Topaz.NoPostInRefresh | src/app/services/topaz.ts:48-65 | every request of a status refresh, the health check included, is a GET |
| Topaz.ClearFacts | src/app/services/topaz.ts:173-184 | `AfterClear`: the action is `Clear`; `ClearSignature` is sent first; the error is none iff it succeeded, else its message |
| Topaz.GetImageFacts | src/app/services/topaz.ts:186-205 | `AfterGetImage`: the action is `Save`; `SigImage/0` is sent; the listener receives the normalised payload iff one is attached and the answer is non-empty; an empty answer sets the empty-image error; the error is none iff a payload came |
| Topaz.RefreshKeepsBody | src/app/services/topaz.ts:129-134 | after a refresh every POST sent still carries the body `x=` |
| Topaz.ConcatKeepsBody | src/app/services/topaz.ts:129-134 | two request lists whose POSTs carry `x=` joined still do |
| Topaz.StartCaptureKeepsBody | src/app/services/topaz.ts:152-171 | after `startCapture` every POST sent carries `x=` |
| Topaz.ClearKeepsBody | src/app/services/topaz.ts:173-184 | after `clear` every POST sent carries `x=` |
| Topaz.ActionsKeepBody | src/app/services/topaz.ts:129-134 | every action keeps every POST's body `x=`, which is non-empty |
| Topaz.TopazService.constructor | src/app/services/topaz.ts:28-75 | every status field starts as none, nothing sent, no listener |
| Topaz.TopazService.Connect | src/app/services/topaz.ts:111-113 | stores the listener and changes nothing else |
| Topaz.TopazService.RefreshBridgeStatus | src/app/services/topaz.ts:48-65 | the new state is the `refreshBridgeStatus` step |
| Topaz.TopazService.RefreshStatus | src/app/services/topaz.ts:115-127 | the new state is the `refreshStatus` step |
| Topaz.TopazService.StartCapture | src/app/services/topaz.ts:152-171 | the new state is the `startCapture` step |
| Topaz.TopazService.Clear | src/app/services/topaz.ts:173-184 | the new state is the `clear` step |
| Topaz.TopazService.GetImage | src/app/services/topaz.ts:186-205 | the new state and the delivered payload are those of the `getImage` step |
| Bridge.Target | bridge/server.js:8 | an unset or empty variable gives `http://localhost:47289`, any other value is used as is |
| Bridge.Port | bridge/server.js:9 | an unset or empty variable gives port 9443 |
| Bridge.PortFromDigits | bridge/server.js:9 | a port given in decimal is read as that number |
| Bridge.CorsHeadersFacts | bridge/server.js:22-37 | `CorsHeaders`: the origin is reflected verbatim with `Vary: Origin` iff the request has one; the allowed headers echo the request headers or are `Content-Type`; methods, max-age 600 and the private-network grant are always set; nothing else |
| Bridge.CorsSetsInOrder | bridge/server.js:22-37 | the header-by-header `setHeader` calls, origin pair only when present, give the old headers overridden by the CORS headers |
| Bridge.CorsDependsOnTwoHeaders | bridge/server.js:22-37 | the CORS headers depend only on the request's `Origin` and request-headers values |
| Bridge.ApplyCors | bridge/server.js:22-37 | the response's headers become the old ones overridden by the CORS headers; status and body untouched |
| Bridge.CorsMiddleware | bridge/server.js:39-46 | CORS is applied to every request; the request is finished with 204 and an empty body iff it is `OPTIONS` |
| Bridge.PreflightFirst | bridge/server.js:39-46 | `Route`, with `AppOrMount` and `Mount` the middleware and routes in registration order (bridge/server.js:39-113): every `OPTIONS` request on any path is a 204 preflight, and no other request is |
| Bridge.HealthAlwaysAnswers | bridge/server.js:48-50 | `GET /health` is answered by the bridge whatever the app and the target |
| Bridge.SpaFallbackExclusions | bridge/server.js:93 | the fallback takes every path starting with `/` except those under `/sigweb/` and exactly `/health` |
| Bridge.BareSigwebServesApp | bridge/server.js:89-96 | with a built app, `GET /sigweb` without a trailing slash gets the app, not the proxy |
| Bridge.NoBuiltApp | bridge/server.js:89-96 | without a built app nothing serves the app or a file, and an unmatched path outside `/sigweb` is a 404 |
| Bridge.MountMatch | bridge/server.js:99-100 | the mount consumes `/sigweb` or `/sigweb/`, never more |
| Bridge.MountedUrl | bridge/server.js:99-105 | the URL seen below the mount always starts with `/` |
| Bridge.ForwardsSigwebPath | bridge/server.js:99-105 | `/sigweb` plus a single-slash path and its query is forwarded as the same path and query |
| Bridge.ProxyForwarding | bridge/server.js:99-113 | any verb but `OPTIONS` on `/sigweb/` plus a single-slash path, GET and HEAD included when the app is built, goes to the target with `/sigweb` and the query kept, unless it names a file of the built app; the SPA fallback never takes it |
| Bridge.MountRewritesCaseless | bridge/server.js:99-105 | the mount takes `/sigweb` in any letter case and the rewritten path is `/sigweb` in lower case, then the rest of the path and the query |
| Bridge.MountIgnoresCase | bridge/server.js:89-105 | every request whose path starts with `/sigweb` in any letter case, followed by a single-slash path, and that no earlier route takes is forwarded as `/sigweb` in lower case plus the rest and the query |
| Bridge.UpperSigwebGetServesApp | bridge/server.js:93 | with a built app the case-sensitive fallback answers `GET /SIGWEB/…` with the app before the mount sees it |
| Bridge.StatusCode | bridge/server.js:39-113 | the bridge itself sets a status for every outcome except a forwarded one |
| Bridge.OnProxyRes | bridge/server.js:107-111 | re-applies CORS to the response and sets the host's `cache-control` to `no-store`; the response's status, body and ended flag are unchanged |
| Bridge.ForwardResponse | bridge/server.js:107-111 | the response headers are the old ones, then CORS, then the host's headers with `cache-control` replaced; the host's headers end with `cache-control: no-store`; status, body and ended flag are unchanged |
| Bridge.ProxiedHeadersFacts | bridge/server.js:107-111 | a forwarded answer always has `cache-control: no-store`; a CORS header keeps the bridge's value unless the host sends its own |
| Bridge.ChooseCertificate | bridge/server.js:118-144 | the files are used iff both exist; otherwise a 365-day, 2048-bit, SHA-256 certificate for `localhost` with names `localhost` and `127.0.0.1` is generated |
| Bridge.OnServerError | bridge/server.js:148-168 | the process exits with status 1 iff the error is `EADDRINUSE`; any other error is thrown again |
| SigWebTablet.IsChromeIff | public/SigWebTablet.js:38-50 | the check holds iff `Chrome/` occurs at some index other than 0 |
| SigWebTablet.SigWebUri | public/SigWebTablet.js:52-86 | an HTTPS page uses `https://tablet.sigwebtablet.com:47290/SigWeb/`, a `file:` page `http:` on 47289, any other protocol itself on 47289 |
| SigWebTablet.MakeUriDependsOnlyOnProtocol | public/SigWebTablet.js:52-86 | `MakeUri`: the IE, Chrome and other branches give the same URI, the one `SigWebUri` names |
| SigWebTablet.MakeUriPorts | public/SigWebTablet.js:52-86 | two browsers get the same URI, ending in the 47290 host for HTTPS and the 47289 host otherwise |
| SigWebTablet.Xhr.constructor | public/SigWebTablet.js:88-97 | a new request is unsent with status 0 and no text |
| SigWebTablet.Xhr.Open | public/SigWebTablet.js:107 | opening records the verb, URL and mode and resets status and text |
| SigWebTablet.Xhr.SetContentType | public/SigWebTablet.js:134 | records the content type and nothing else |
| SigWebTablet.Xhr.Send | public/SigWebTablet.js:108-109 | a synchronous send completes with the host's status and text, or status 0 and an exception when the host is unreachable; an asynchronous one returns with nothing received |
| SigWebTablet.OkText | public/SigWebTablet.js:109-113 | the text is returned only when the request is done with status 200, otherwise `""` |
| SigWebTablet.SyncReply | public/SigWebTablet.js:116-127 | a synchronous helper throws iff the host is unreachable |
| SigWebTablet.SyncReplyOnlyOn200 | public/SigWebTablet.js:190-201 | a status-200 answer gives its text, any other status `""`, and a non-empty result comes only from a 200 answer with that text |
| SigWebTablet.SigWebGetProperty | public/SigWebTablet.js:190-201 | a synchronous GET of the property with a cache-busting identifier, following the 200 rule |
| SigWebTablet.SigWebSetPropertySync | public/SigWebTablet.js:116-127 | a synchronous POST without a body, following the 200 rule |
| SigWebTablet.SigWebSetProperty | public/SigWebTablet.js:103-114 | an asynchronous POST, which always returns `""` |
| SigWebTablet.SigWebSetStreamProperty | public/SigWebTablet.js:129-141 | an asynchronous text POST of the stream, returning `""` |
| SigWebTablet.SyncStreamPost | public/SigWebTablet.js:143-188 | a synchronous POST of the stream with the given content type, following the 200 rule |
| SigWebTablet.SigWebSyncSetStreamProperty | public/SigWebTablet.js:143-155 | posts as `text/plain` and follows the 200 rule |
| SigWebTablet.SigWebSetImageStreamProperty | public/SigWebTablet.js:157-169 | posts as `image/png` and follows the 200 rule |
| SigWebTablet.SigWebSetImageBlobProperty | public/SigWebTablet.js:171-188 | posts as `blob` and follows the 200 rule |
| SigWebTablet.IsSigWebInstalled | public/SigWebTablet.js:14-30 | installed iff the host answered with a status other than 404 and 0; an unreachable host is caught and reads as not installed |
| SigWebTablet.ReadableHostIsInstalled | public/SigWebTablet.js:14-30 | a host whose property reads return text passes the installation probe |
| SigWebTablet.VersionText | public/SigWebTablet.js:253 | the version is never longer than the answer |
| SigWebTablet.VersionTextStrips | public/SigWebTablet.js:248-255 | exactly the first character and the last two are dropped |
| SigWebTablet.VersionTextShort | public/SigWebTablet.js:253 | an answer of fewer than three characters leaves `""` |
| SigWebTablet.GetVersionString | public/SigWebTablet.js:248-255 | reads `Version` and returns it with the first character and the last two removed, or throws when the host is unreachable |
| SigWebTablet.VersionOfFailedRead | public/SigWebTablet.js:248-255 | a non-200 answer yields an empty version |
| SigWebTablet.ClearTablet | public/SigWebTablet.js:257-262 | reads `ClearSignature` under the 200 rule |
| SigWebTablet.TabletConnectQuery | public/SigWebTablet.js:264-269 | reads `TabletConnectQuery` under the 200 rule |
| SigWebTablet.GetTabletState | public/SigWebTablet.js:285-290 | reads `TabletState` under the 200 rule |
| SigWebTablet.OpenTablet | public/SigWebTablet.js:271-276 | posts `OpenTablet/<v>` and drops the result; only an unreachable host escapes |
| SigWebTablet.SetRealTabletState | public/SigWebTablet.js:278-283 | posts `TabletState/<v>` and drops the result; only an unreachable host escapes |
| SigWebTablet.SetTabletState | public/SigWebTablet.js:292-318 | reads the state, and posts `TabletState/<v>` iff the reply, read as a number, is not `v`; `tv` plays no part; it returns null unless a send throws |
| SigWebTablet.SetTabletStateSkipsWhenEqual | public/SigWebTablet.js:305 | a tablet that already reports `v` is not written to |
| SigWebTablet.FailedReadLooksLikeStateZero | public/SigWebTablet.js:305 | a non-200 read gives `""`, which compares equal to state 0 and unequal to 1 |
| SigWebTablet.HexChar | public/SigWebTablet.js:244 | a digit renders as a lower-case hex character |
| SigWebTablet.VariantDigit | public/SigWebTablet.js:244 | masking to the low two bits and setting bit 3 gives one of 8, 9, a, b |
| SigWebTablet.FillShape | public/SigWebTablet.js:241-245 | filling keeps the template's length and fixed characters, puts on each `x` the digit drawn for it, in order, and on each `y` one of 8, 9, a, b |
| SigWebTablet.TemplateLayout | public/SigWebTablet.js:241 | the template has 36 characters, 31 placeholders, hyphens at 8, 13, 18 and 23, `4` at 14 and `y` at 19 |
| SigWebTablet.GenerateUuid | public/SigWebTablet.js:236-246 | the replace loop fills the template from the digits and yields `xxxxxxxx-xxxx-4xxx-yxxx-xxxxxxxxxxxx` with hex digits, a 4 and a variant digit in place |

## Left out

- HTTP transport: Angular `HttpClient` and its Observables, XMLHttpRequest networking, the proxy's own forwarding, `express.static`, `sendFile` and `https.createServer`. Each request's outcome is an input, and `express.static` is reduced to a set of file paths served to GET and HEAD.
- Asynchronous ordering. The three requests of `refreshStatus` and the callbacks of every action are taken to complete in the order they are issued. Races between overlapping UI actions are not modelled.
- `localeCompare`, whose collation depends on the locale. The tie-break between group names uses code-unit order, which is proved a strict total order; the sorting proofs use only that.
- `Array.prototype.sort`: modelled by a stable insertion sort on the same comparator.
- The static documentation table `apiDocs` and the literal endpoint list (src/app/signature/signature.ts:61-337). They are data without behaviour.
- Angular wiring: signals, templates, `ngOnInit` and the bridge's inline HTML status page.
- Component actions that call service methods missing from src/app/services/topaz.ts: `stop`, `closeTablet`, `refreshDeviceInfo`, `refreshStats` and `exportSigString`.
- Signature.SignatureComponent.ImportSigString: returns the trimmed draft rather than passing it to the service, because the service's `importSigString` does not exist in src/app/services/topaz.ts.
- `Number(...)` is modelled only for blank strings and optionally signed decimal integers. Anything else is `NaN`, so `SetTabletState` treats `1.0` or `0x1` as differing, where JavaScript would not.
- The bridge assumes Express 4 routing: string routes are case-insensitive and ignore a trailing slash, `app.get` also answers HEAD, and the mounted proxy sees the URL with `/sigweb` removed. The forwarded path `/sigweb` plus that URL relies on this last point. A proxy library that rewrites from the original URL would double the prefix. The options `onProxyRes` and `logLevel` are spelled as http-proxy-middleware version 2 spells them, and that version rewrites from the original URL, so it would send `/sigweb/sigweb/…`; version 3 strips the mount but ignores a top-level `onProxyRes`. The modelled pair, the prefix kept once and `onProxyRes` applied, therefore matches no single version of that library: it is the evident intent.
- Headers that Express and the proxy add themselves (`x-powered-by`, `connection`, content type and length), and the proxy's `changeOrigin`/`secure` options.
- Certificate generation and file reads: only the decision and the requested parameters are modelled.
- `BRIDGE_CERT_PATH` and `BRIDGE_KEY_PATH`: where the files live is not modelled, only whether both exist.
- Console output and `process.exit` itself, beyond the exit status.
- public/SigWebTablet.js `GetSigImageB64` (canvas, Blob URLs, image decoding) and the `getBlobURL`/`revokeBlobURL` globals.
- `SigWebcreateXHR`'s fallback to ActiveX objects and `alert`. A request object is always available.
- `generateUUID`'s clock and `Math.random`. Each digit is an input below 16, which is what `(d + Math.random() * 16) % 16 | 0` gives for a non-negative clock.
- The `onreadystatechange` handler of `IsSigWebInstalled`, which only logs.
- public/sigwebtablet-adapter.js, src/sigwebtablet.d.ts and src/app/app.ts, which only delegate, declare types or hold the root component.
- Quote stripping in `normalizeTextResponse` is sometimes described as idempotent, but the code removes one layer only. The model follows the code, and `NormalizeNotIdempotent` shows the difference.
- Nothing is dropped for path parameters: a name may contain `{`, because the pattern `\{([^}]+)\}` only excludes `}`, and the model keeps that.
