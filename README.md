# Video comments and metadata on IPFS: a Dafny model

This project models the core of a video-sharing web application that stores
everything on IPFS through the Pinata pinning service.

- **Comment log** (`app/lib/commentManager.ts`). Every comment is pinned as its own
  JSON document. Each video has a comment *index*, a JSON document that lists
  the CIDs of its comments. Every update publishes a new index, and the index
  is found again by querying pins by tag. The modelled pieces are:
  - the tag layout;
  - picking the newest index;
  - the single-writer append;
  - the per-manager index cache;
  - fetching a comment with gateway fallback.
- **Comments route** (`app/api/comments/route.ts`). It checks the configuration,
  the body's fields, the timestamp and an optional wallet signature over a
  canonical JSON message, then hands the comment to the log.
- **Comments hook** (`app/hooks/useComments.ts`). It holds the list, loading flag
  and error message of a comment section. It fetches the list and runs the
  sign-then-post flow for a new comment.
- **Video hook** (`app/hooks/usePinata.ts`). It covers:
  - reading a metadata document and listing the metadata group newest first;
  - the three-step upload (cover, video, metadata) with its progress bar;
  - the metadata document it publishes.
- **Pinata proxy route** (`app/api/pinata/route.ts`). `GET` lists a group or reads
  a document. `POST` forwards a file or a JSON upload, merging the group tag into
  the pin metadata.
- **Address display** (`app/lib/utils.ts`): `formatDisplayAddress`.

The network, the clock and the wallet are parameters. An HTTP exchange is an
`HttpResult`: either the request threw, or the reply came back with its `ok`
flag and its parsed body (`None` when the body did not parse). State-changing
code is modelled as classes:
- The `CommentManager` methods return the requests they issued, so a contract
  can say that an operation makes no request. Each is tied to a pure step
  function, and the properties are proved about those functions.
- The `CommentsState` methods return their requests too, and state their new
  fields directly.
- The `PinataState` methods state their new fields directly. `GetLatestCIDs`
  returns nothing. `UploadFile` returns the values the progress bar took and
  the metadata upload request it made. The result itself is the pure
  function `LatestVideos`.

Files:

| file | contents |
|---|---|
| `wrappers.dfy` | `Option`, `Result` |
| `js.dfy` | JSON values with JavaScript truthiness, member access, `||`, object spread; HTTP results |
| `js_strings.dfy` | `includes`, `startsWith`, ASCII `toLowerCase`, `String(n)`, `parseInt(s, 10)` |
| `json.dfy` | `JSON.stringify` of a string and its decoding |
| `comment_log.dfy` | the comment log and the `CommentManager` class |
| `comments_api.dfy` | the comments route's `POST` |
| `comments_hook.dfy` | the comments hook, class `CommentsState` |
| `pinata_proxy.dfy` | the proxy route's `GET` and `POST` |
| `pinata_hook.dfy` | the video hook, class `PinataState` |
| `display_utils.dfy` | `formatDisplayAddress` |

## Model

| member | source | states |
|---|---|---|
| DisplayUtils.FormatDisplayAddress | app/lib/utils.ts:4-8 | an absent or empty address shows as "Unknown Creator"; one of at most 10 characters is shown whole; a longer one shows its first 6 and last 4 characters around "..." |
| JsStrings.ToLowerIdempotent | app/api/comments/route.ts:36 | lower-casing twice equals lower-casing once; `CommentsApi.VerifyIgnoresAuthorCase` uses it |
| JsStrings.ParseIntOfDecimal | app/api/comments/route.ts:87 | `parseInt` of the decimal form of any integer gives that integer back |
| JsStrings.ParseIntValueOfNumber | app/api/comments/route.ts:87 | a timestamp sent as a JSON number, or as the string of its decimal form, parses to that number |
| JsStrings.DecimalValueOfDecimal | app/lib/commentManager.ts:202 | the decimal form of an integer (the `timestamp` tag) reads back to that integer and holds only digits and `-` |
| Json.UnescapeEscapeAll | app/api/comments/route.ts:31 | decoding the escaped text of a string up to its closing quote gives back the string and leaves the rest of the input untouched |
| Json.QuoteUnescapes | app/api/comments/route.ts:31 | a string written by `JSON.stringify` reads back to the same string, whatever text follows it |
| CommentsApi.CanonicalMessage | app/api/comments/route.ts:25-31 | the signed message is the JSON text of the object {videoId, author, text, timestamp}, with its keys in that order: it opens with the `videoId` member's quoted string and closes with `}`, and `CanonicalMessageRoundTrip` reads it back member by member |
| CommentsApi.CanonicalMessageRoundTrip | app/api/comments/route.ts:25-31 | the signed message reads back to exactly the payload it was written from, for any characters in its fields |
| CommentsApi.CanonicalMessageInjective | app/api/comments/route.ts:25-31 | two different payloads never produce the same signed message |
| CommentsApi.VerifySignature | app/api/comments/route.ts:13-47 | the signature is valid exactly when a signer is recovered and equals the author up to ASCII case; a recovery that throws counts as invalid |
| CommentsApi.VerifyIgnoresAuthorCase | app/api/comments/route.ts:36 | because both sides are lower-cased before comparing, an author sent already lower-cased verifies exactly as the author as given |
| CommentsApi.ServerJwt | app/api/comments/route.ts:6 | `PINATA_JWT` is used when it is set and non-empty, otherwise `NEXT_PUBLIC_PINATA_JWT` |
| CommentsApi.Admit | app/api/comments/route.ts:53-126 | each early reply: 500 without a JWT, 500 for an unreadable body, 400 for a missing field, 400 for a non-numeric timestamp, 401 with the signature message when a given signature does not verify against the rebuilt payload; none of them makes a request. A comment is admitted exactly when every check passes. Verification only runs when a signature is given. The CommentPayload rebuilt with the parsed timestamp is the one checked, and the comment stored keeps that timestamp and the signature as given |
| CommentsApi.Post | app/api/comments/route.ts:49-154 | the status is 201, 400, 401 or 500, and 400 and 401 make no request; an admitted comment is uploaded from an empty index cache, its pin is the first request, 201 comes exactly when the upload succeeds and carries the comment's CID, and any store error is a 500 |
| CommentsApi.SignedByAuthorIsAccepted | app/api/comments/route.ts:104-140 | a comment whose recovered signer is its author, in any letter case, is stored and answered with 201 and the CID the pinning service gave it, whatever the index query lists |
| CommentsApi.StoreAccepts | app/lib/commentManager.ts:191-252 | once the comment pin names a CID and the index query and publish are answered, storing from an empty cache succeeds with that CID |
| CommentsApi.SignedByOtherIsRefused | app/api/comments/route.ts:104-117 | a comment signed by anyone other than its author, or whose signer cannot be recovered, gets 401 before any request |
| CommentsApi.UnsignedIsNotVerified | app/api/comments/route.ts:119-126 | without a signature the outcome does not depend on signer recovery at all |
| CommentsApi.NumericStringTimestamp | app/api/comments/route.ts:86-101 | a timestamp sent as a numeric string is treated exactly like the number |
| CommentLog.IndexTagsSelectTheirVideo | app/lib/commentManager.ts:141-154 | a published index is found by its own video's index query and by no other video's; a published comment is never taken for an index |
| CommentLog.ListedPins | app/lib/commentManager.ts:32-63 | `queryPinata`: it fails with the query-failed error exactly when the listing reply is not delivered, and otherwise gives the reply's `rows`, or `[]` when `rows` is absent |
| CommentLog.LatestPinIndex | app/lib/commentManager.ts:88-90 | the chosen pin is at least as new as every listed pin, and no earlier pin is as new (the first of equally new pins wins) |
| CommentLog.LatestPinIsUnique | app/lib/commentManager.ts:88-90 | that selection rule leaves exactly one position to choose |
| CommentLog.NewIndex | app/lib/commentManager.ts:132-138 | the new index is for the given video, stamped with the given time, and lists the old CIDs followed by the new one, or only the new one when there was no index |
| CommentLog.AppendEachKeepsOrder | app/lib/commentManager.ts:132-138 | successive appends lose nothing and keep their order: the index ends as the old CIDs followed by exactly the appended ones |
| CommentLog.FindIndexStep | app/lib/commentManager.ts:65-118 | a cached video is answered from the cache with no request; otherwise the index query comes first, the lookup fails exactly when the listing fails, an empty listing gives no index, a failed document fetch gives no index rather than an error, and a found index is the newest pin's document fetched from the Pinata gateway and then cached |
| CommentLog.RepeatedLookupIsStable | app/lib/commentManager.ts:70-75 | once a lookup found an index, looking the same video up again returns the same entry with no request |
| CommentLog.IndexUpdateStep | app/lib/commentManager.ts:120-189 | the update publishes the appended index after the lookup's requests; on success the cache points at it and it ends with the new CID, on failure the error is the publish error; entries for other videos never change |
| CommentLog.SecondAppendExtendsFirst | app/lib/commentManager.ts:120-189 | after one successful append, the next append for the same video extends exactly the list the first one wrote, and its only request is the publish |
| CommentLog.UploadCommentStep | app/lib/commentManager.ts:191-252 | the first request pins the comment; a failed pin or a reply without `IpfsHash` stops there with the cache unchanged; otherwise the comment's CID is appended to the video's index and returned when that succeeds |
| CommentLog.UploadedCommentIsIndexed | app/lib/commentManager.ts:191-252 | after a successful upload the returned CID is the one the pinning service gave, and it is the last CID of the video's cached index |
| CommentLog.CommentCidsStep | app/lib/commentManager.ts:254-260 | the video's comment CIDs are the found index's list, `[]` when there is no index, and the lookup's error otherwise |
| CommentLog.GatewayUrls | app/lib/commentManager.ts:265-270 | the fetch tries one URL per gateway, in the order the gateways are listed |
| CommentLog.FirstDelivered | app/lib/commentManager.ts:271-290 | the position reached is the first gateway that answered ok with a readable body; every earlier one failed |
| CommentLog.CommentManager.constructor | app/lib/commentManager.ts:21-30 | a new manager keeps its JWT and starts with an empty cache |
| CommentLog.CommentManager.Create | app/lib/commentManager.ts:21-30 | construction fails exactly when the JWT is empty, with the missing-JWT error |
| CommentLog.CommentManager.FindCommentIndex | app/lib/commentManager.ts:65-118 | result, requests and new cache are those of `FindIndexStep` |
| CommentLog.CommentManager.CreateOrUpdateIndex | app/lib/commentManager.ts:120-189 | result, requests and new cache are those of `IndexUpdateStep` |
| CommentLog.CommentManager.UploadCommentToIPFS | app/lib/commentManager.ts:191-252 | result, requests and new cache are those of `UploadCommentStep` |
| CommentLog.CommentManager.GetCommentCIDsForVideo | app/lib/commentManager.ts:254-260 | result, requests and new cache are those of `CommentCidsStep` |
| CommentLog.CommentManager.FetchCommentFromIPFS | app/lib/commentManager.ts:262-292 | the gateways are tried in order up to the first that answers; that answer's comment is returned with `id` set to the requested CID; when all fail, every gateway was tried and the error names the CID |
| CommentLog.LookupTwice | app/lib/commentManager.ts:70-75 | on one manager, a second lookup after a successful first returns the same result and makes no request |
| CommentsHook.Shown | app/hooks/useComments.ts:41 | the shown message is never empty; an error's own message is shown when it has one, and "An unknown error occurred" when it has none |
| CommentsHook.FetchError | app/hooks/useComments.ts:29-42 | the error is cleared exactly when the list arrived; a failed response shows its `error` member or "Failed to fetch comments"; a thrown error shows its message |
| CommentsHook.AddCommentError | app/hooks/useComments.ts:156-169 | a wallet rejection (code 4001) asks the user to sign; a missing-signature message is shown as it is; anything else is prefixed with "Failed to add comment: " |
| CommentsHook.ServerChecksWhatClientSigned | app/hooks/useComments.ts:77-128 | the server rebuilds the exact message the wallet signed, so it accepts the posted comment exactly when the recovered signer is the connected address |
| CommentsHook.EmptyTextIsRefused | app/hooks/useComments.ts:136-167 | an empty comment is refused by the server with 400, and the hook shows "Failed to add comment: Missing required comment fields" |
| CommentsHook.MissingFieldsIsNotSignatureError | app/hooks/useComments.ts:161-165 | the server's missing-fields reason is never mistaken for a lost signature |
| CommentsHook.CommentsState.constructor | app/hooks/useComments.ts:13-16 | a section starts with no comments, not loading and with no error |
| CommentsHook.CommentsState.FetchComments | app/hooks/useComments.ts:25-45 | without a video id nothing changes and nothing is requested; otherwise one listing request, the list replaced only on success, the error as `FetchError` says, and loading ends |
| CommentsHook.CommentsState.AddComment | app/hooks/useComments.ts:51-174 | without a signer, or without a connection, address or video id, only the error changes and nothing is requested. Otherwise the canonical message of the payload is signed first, then: a rejected or empty signature stops with its message; a non-empty one is posted; success re-fetches the list; a failed post shows `AddCommentError` of its reason. The list changes only through the re-fetch, and loading always ends |
| CommentsHook.CommentsState.Submit | app/hooks/useComments.ts:74-173 | the sign-then-post flow once the guards passed: the exact requests, list and error for a rejected, empty or obtained signature, and success exactly when the post was accepted |
| CommentsHook.CommentsState.PostSigned | app/hooks/useComments.ts:120-155 | one post; success exactly when the server answered ok, then one listing request; on failure the list is unchanged and the error is the prefixed reason |
| PinataProxy.HandleGet | app/api/pinata/route.ts:26-117 | `action=list` with a group fetches that group's pin listing; otherwise a missing CID is a 400 with no request, and a CID is fetched from the configured gateway. A delivered answer is a 200 with the upstream body, anything else a 500 with that branch's message. Only a 200 carries a cache header |
| PinataProxy.ListBranchIgnoresCid | app/api/pinata/route.ts:33 | a list request is answered the same whatever `cid` says |
| PinataProxy.MergedMetadata | app/api/pinata/route.ts:177-188 | without a group tag, the forwarded pin metadata is the upload's `metadata` (or `{}`); with one, it keeps every other member of that metadata and sets `keyvalues` to the group alone |
| PinataProxy.HandlePost | app/api/pinata/route.ts:133-222 | a multipart body forwards its non-empty `file` as a file pin, and without one answers 400 with no request; any other body forwards its `{data, options}` as a JSON pin with the JSON content type, and an unreadable or null body answers 500 with no request. The upstream body comes back exactly when the upstream answer is delivered; otherwise the answer is 500 |
| PinataHook.FetchMetadata | app/hooks/usePinata.ts:75-120 | a document is read exactly when the request is delivered and the document has the required shape; its falsy title, description, timestamp, author and hash take their defaults, and `isPublic` is false only when stored as false |
| PinataHook.SliceEnd | app/hooks/usePinata.ts:161 | `slice(0, end)` stops at `end` clamped to the length, counting a negative `end` from the back |
| PinataHook.GetFiles | app/hooks/usePinata.ts:123-183 | a failed listing or one without rows gives `[]`; otherwise the first `pageLimit` rows are converted one for one, and a null among them gives `[]` |
| PinataHook.SortByNewest | app/hooks/usePinata.ts:330-336 | the sorted list is newest first and a permutation of the listed items |
| PinataHook.SortIsStable | app/hooks/usePinata.ts:330-336 | items pinned at the same instant keep their listed order |
| PinataHook.NewestComesFirst | app/hooks/usePinata.ts:330-336 | the first sorted item is at least as new as every listed item |
| PinataHook.LatestCids | app/hooks/usePinata.ts:338-340 | the chosen CIDs are those of the first `pageLimit` sorted items, in that order |
| PinataHook.Present | app/hooks/usePinata.ts:348-350 | exactly the documents that were read are kept, never more than were requested |
| PinataHook.PresentAppend | app/hooks/usePinata.ts:348-350 | filtering a concatenation is the concatenation of the filtered parts, so the kept documents stay in the order they were read |
| PinataHook.PresentSingle | app/hooks/usePinata.ts:348-350 | a single read document is kept and a failed read is dropped |
| PinataHook.LatestVideos | app/hooks/usePinata.ts:324-356 | an empty listing and an empty pick each fail with their own message. Otherwise the result is every chosen CID's document that reads, newest first, and it fails with the no-metadata message when none reads. A success is a non-empty list of at most ten documents, at most `pageLimit`, each a chosen CID's document as `fetchMetadata` reads it |
| PinataHook.LoadsIffSomeDocumentReads | app/hooks/usePinata.ts:324-356 | the list loads exactly when the document of at least one chosen CID reads |
| PinataHook.CoverProgress | app/hooks/usePinata.ts:396-399 | the cover's upload moves the bar within 0..20 |
| PinataHook.VideoProgress | app/hooks/usePinata.ts:408-413 | the video's upload moves the bar within 20..95 |
| PinataHook.ProgressIsMonotone | app/hooks/usePinata.ts:396-413 | each file's share of the bar never moves back as its progress grows; the cover ends where the video starts, at 20, and the video ends at 95 |
| PinataHook.BuildMetadata | app/hooks/usePinata.ts:421-430 | the published document is an object whose members are drawn from the eight known ones (seven for a public video), and it carries `dataToEncryptHash` exactly when the video is private |
| PinataHook.StoredMetadata | app/hooks/usePinata.ts:421-430 | once stored as JSON, each member of the document holds the value uploaded, and the hash is absent for a public video or when none was given |
| PinataHook.MetadataReadsBack | app/hooks/usePinata.ts:99-115 | a published document reads back through `fetchMetadata` with the uploaded values; an empty title, description or timestamp takes its default, and `isPublic` is preserved |
| PinataHook.ProxyTagsUploadWithGroup | app/hooks/usePinata.ts:260-284 | through the proxy, a grouped JSON upload is pinned under the fixed name with the group as its only key value, an ungrouped one under the name alone, and the document itself is forwarded unchanged |
| PinataHook.UploadedCid | app/hooks/usePinata.ts:225-246 | an upload yields a CID exactly when its response is delivered and names a non-empty `IpfsHash` |
| PinataHook.ProgressTraceIsMonotone | app/hooks/usePinata.ts:387-442 | over a whole upload the bar starts at 0, never moves back, and stays between 0 and 100 |
| PinataHook.ProgressIsFullIffComplete | app/hooks/usePinata.ts:442-443 | the bar ends at 100 exactly when all three uploads succeeded and the stage is `complete` |
| PinataHook.PinataState.constructor | app/hooks/usePinata.ts:48-57 | the hook starts with no videos, loading, no error, not uploading, no hash, progress 0 and stage `idle` |
| PinataHook.PinataState.GetLatestCIDs | app/hooks/usePinata.ts:317-365 | the video list is replaced exactly when `LatestVideos` succeeds; any failure shows the one load-failure message; loading ends and the upload state is untouched |
| PinataHook.PinataState.UploadFile | app/hooks/usePinata.ts:368-472 | without the SDK or a wallet only the error changes. Otherwise the bar takes exactly the values of `ProgressTrace` and the stage is where the first failure happened. The metadata request is issued exactly when cover and video both succeeded, holding their CIDs. Success stores the metadata CID, refreshes the list and ends loading; failure shows the upload-failure message and keeps the list |
| PinataHook.PinataState.RunUpload | app/hooks/usePinata.ts:387-471 | the upload after its guards: the same progress, stage, request and outcome as `UploadFile` states, loading ending on success |
| PinataHook.PinataState.PinVideoAndMetadata | app/hooks/usePinata.ts:401-471 | after the cover: the bar gains 20, the video's values, then 95 and 100 as far as the uploads succeed; the stage is the first that failed; the metadata request, holding the cover and video CIDs, is made exactly when the video succeeded; success stores the CID, refreshes the list and ends loading, failure shows the upload-failure message |
| PinataHook.PinataState.PinFile | app/hooks/usePinata.ts:186-251 | one tracked file upload adds its start value, and its end value once the reply is read, to the bar; it yields the CID exactly when the upload succeeded, and a failure shows the upload-failure message and ends the upload |
| PinataHook.PinataState.PinMetadata | app/hooks/usePinata.ts:415-471 | the metadata stage adds 95 to the bar, and 100 only on success; success stores the CID, refreshes the list and ends loading, failure shows the upload-failure message |

## Left out

- Logging (`console.*`) and the CORS headers of the proxy route are not modelled: they do not affect results.
- `debounce` (app/lib/utils.ts:11-20) is not modelled because it depends on timers.
- The proxy's `OPTIONS` handler is not modelled because it only returns CORS headers.
- The quote-stripping of the environment variables in the proxy route is not modelled: the JWT and gateway are taken as given.
- `isServer`, the SDK initialisation and the `useEffect` mount load are reduced to the `sdkReady` flag or left out, because they depend on the React runtime.
- Timers are not modelled:
  - the second list refresh 3 s after an upload (app/hooks/usePinata.ts:458-465);
  - the 10 s loading timeout (app/hooks/usePinata.ts:475-487);
  - the simulated progress ticks that `uploadFileToPinata` reports between 5 and 90 (app/hooks/usePinata.ts:200-211).
- Concurrency is not modelled: each operation runs to completion. Two managers or two requests interleaving their read-append-publish can lose an append, and that case is not represented.
- `ethers.verifyMessage` (EIP-191 signer recovery) is an oracle parameter. A recovery that throws is `None`.
- Dates are not parsed:
  - `created_at` and `date_pinned` are abstracted to integer milliseconds, with `2023-01-01T00:00:00.000Z` as 1672531200000;
  - `Date.now()` and `toISOString()` are parameters.
- Numbers are integers: floating point, `NaN`, and `String(n)`'s exponent notation at or above 10^21 are not represented. The progress rounding `Math.round` is written as an integer formula.
- A sort comparator that returns `NaN` for an invalid date is not represented.
- `toLowerCase` is modelled on ASCII letters only. Wallet addresses are hexadecimal.
- Only string body fields are modelled. `videoId`, `author`, `text` and `signature` are strings or absent, and only `timestamp` is an arbitrary JSON value. The POST body is given as its destructured fields, so the wire JSON is not parsed.
- Object spread is modelled on objects only; a spread string or array is treated like `{}`.
- The shape of a fetched comment index is not validated, as in the source: the gateway's parsed body is taken as a `CommentIndex`.
- Likewise a fetched comment is taken as a typed `Comment`. The source only spreads whatever JSON parsed (`{ ...comment, id: cid }`, app/lib/commentManager.ts:284-286), so a body with extra or missing members, and a `null` body (which gives `{ id: cid }`), are not represented.
- Pins whose `timestamp` field is missing are not represented: every listed pin carries one. The source compares `undefined` timestamps as always false, which keeps the first pin.
- `details` of a 500 is the error value, not its message text, and the `stack` member is not modelled.
- The listing route for comments is not part of this model, and neither are the page components: they only call these modules.
- Video encryption (`dataToEncryptHash` is produced elsewhere) is not part of this model. The hash is carried as an opaque string.
- Strings are sequences of Unicode scalar values, not the UTF-16 code units of JavaScript. So `formatDisplayAddress` counts and slices a character outside the Basic Multilingual Plane as one unit where the source counts two, and a lone surrogate cannot occur in the signed message.
- `findCommentIndex` builds its pin query by raw string interpolation of `videoId` (app/lib/commentManager.ts:78). A `videoId` holding a `"` therefore yields a different query from the structured filter modelled here. `CommentLog.IndexTagsSelectTheirVideo` is about that modelled filter and the tag layout only.
