# GroupMe API client — request building, envelope checking and transport outcomes

This project models the logic of a Swift client for the GroupMe v3 REST API: how each
facade call of `GroupMeAPI` builds its request (HTTP method, URL components, query list
with the authentication token appended last, JSON body), how the completion handler of
`promiseRequest` turns the session's `(error, response, data)` triple into a fulfilled
or rejected promise, and how each call site treats the decoded `{meta, response}`
envelope — with or without `groupmeResponseErrorCheck` — before force-unwrapping
`response` and projecting a sub-field.

Modules:

- `Common` — `Option`, `Result`, and `Bytes` for Foundation `Data`.
- `Transport` — `HTTPError` and the completion classifier `Complete`.
- `Requests` — the `Url`/`Request` records, `ApiUrl` (what `genURI` produces), the
  query lookup `FirstValue`, and `JsonPostRequest`.
- `Bodies` — the shapes of the request payloads handed to the JSON encoder.
- `Envelope` — `GMJSONResponse`/`GMResponseMeta`, `GroupMeAPIError`, the error check,
  and the unwrap-and-project step.
- `GroupMe` — class `GroupMeAPI` holding the token: `GenUri` and one request-building
  method per facade call.
- `Calls` — what each facade call makes of the transport outcome and the decoded
  envelope, per operation (which sites check errors, which return raw data).
- `Findings` — four request builders that do not do what their parameters call for,
  with the corrected builders.

Inputs that the source draws from outside the code are parameters: the JSON encoder
(`encode: RequestBody -> Bytes`), the JSON decoder (`decode: Bytes -> Option<Envelope<T>>`),
the random `source_guid` (`sourceGuid`), and the session's `(error, response, data)`
triple. The `project` parameter of `Envelope` and `Calls` stands for the field access each
call site performs after the unwrap (`.group`, `.messages`, `.messsage`, `.blocks`,
`.between`, `.block`, or none); the model does not tie it to the operation (see
"## Left out").

The error check throws for any `errors` list that is present, an empty one included
(GroupMeAPI.swift:316 tests only for presence). Only six call sites run the check; the
others return `response` whenever it is present, even next to reported errors, and the
model keeps that difference.

## Model

| member | source | states |
|---|---|---|
| `Transport.Complete` | Sources/GroupMeAPI/RequestHelper.swift:20-34 | a reported error rejects with that error whatever else came; otherwise a missing or non-HTTP response rejects with `invalidResponse` even when data is present; otherwise missing data rejects with `noData`; the promise is fulfilled exactly when all three checks pass, with the received bytes unchanged; `invalidStatusCode` is never produced |
| `Transport.StatusCodeIgnored` | Sources/GroupMeAPI/RequestHelper.swift:25-33 | the outcome does not depend on the HTTP status code |
| `Requests.JsonPostRequest` | Sources/GroupMeAPI/GroupMeAPI.swift:323-330 | the request is a POST to the given URL whose body is exactly the given bytes, with `Content-Type: application/json`, and so differs from the default GET `URLRequest(url:)` |
| `Requests.TokenAttached` | Sources/GroupMeAPI/GroupMeAPI.swift:303-306 | when the caller's items do not use the name `token`, reading `token` from the built query yields the client's token |
| `Requests.CallerTokenShadows` | Sources/GroupMeAPI/GroupMeAPI.swift:303-306 | a caller item named `token` comes before the appended one, so it is the one read first |
| `Requests.SplitApiUrlRoundTrip` | Sources/GroupMeAPI/GroupMeAPI.swift:302-311 | token, endpoint and caller items are all recoverable from the URL `genURI` builds |
| `Requests.ApiUrlFromSplit` | Sources/GroupMeAPI/GroupMeAPI.swift:302-311 | every https URL on `api.groupme.com` under `/v3` whose last query item is `token` is one `genURI` builds |
| `Requests.ApiUrlInjective` | Sources/GroupMeAPI/GroupMeAPI.swift:302-311 | different token, endpoint or items never give the same URL |
| `Envelope.ErrorCheck` | Sources/GroupMeAPI/GroupMeAPI.swift:314-321 | throws exactly when `meta.errors` is present, even empty, carrying exactly that list; otherwise returns the envelope unchanged |
| `Envelope.ForceUnwrap` | Sources/GroupMeAPI/GroupMeAPI.swift:25-26 | `response!` never throws an API error; it yields the projected payload exactly when `response` is present and traps otherwise |
| `Envelope.Unwrap` | Sources/GroupMeAPI/GroupMeAPI.swift:114-116 | a checked site throws the reported list whenever one is present; a payload is delivered exactly when present and, at a checked site, unaccompanied by errors; the only thing ever thrown is the envelope's own list |
| `Envelope.CheckMattersOnlyWithErrors` | Sources/GroupMeAPI/GroupMeAPI.swift:124-126 | checked and unchecked handling of the same envelope agree exactly when it reports no errors |
| `Envelope.UncheckedIgnoresMeta` | Sources/GroupMeAPI/GroupMeAPI.swift:25-26 | an unchecked site's outcome does not depend on `meta` |
| `Calls.ChecksErrors` | Sources/GroupMeAPI/GroupMeAPI.swift:115 | the sites that chain `groupmeResponseErrorCheck`: updateNickname (115), getMessages (125), createMessage (139), createDirectMessage (180), getCurrentUser (228), updateCurrentUser (239); every one of them decodes an envelope rather than returning raw data |
| `Calls.ReturnsRawData` | Sources/GroupMeAPI/GroupMeAPI.swift:60 | the `Promise<Data>` calls that return the transport's bytes undecoded: destroyGroup (60), removeMember (102), likeMessage (185), unlikeMessage (191), enableSMS (244), disableSMS (251), removeBlock (289) |
| `Calls.SettleRaw` | Sources/GroupMeAPI/GroupMeAPI.swift:60-65 | raw-data calls fulfil with exactly the transport's bytes and reject with exactly its failure |
| `Calls.Settle` | Sources/GroupMeAPI/GroupMeAPI.swift:108-117 | transport failures and undecodable bodies reject; a checked site never yields a payload alongside errors; a payload is yielded exactly when decoded, present and (at checked sites) error-free, and is the projection of `response`; the trap is reached exactly when nothing stopped the chain and `response` is absent |
| `Calls.CheckedAndUncheckedAgreeWithoutErrors` | Sources/GroupMeAPI/GroupMeAPI.swift:223-229 | on the same bytes, `getCurrentUser` (checked) and `getGroups` (unchecked) end alike exactly when the envelope reports no errors |
| `GroupMe.GroupMeAPI.constructor` | Sources/GroupMeAPI/GroupMeAPI.swift:14-18 | the client keeps the token it is given |
| `GroupMe.GroupMeAPI.GenUri` | Sources/GroupMeAPI/GroupMeAPI.swift:302-311 | scheme `https`, host `api.groupme.com`, path `/v3` + endpoint; the query is the caller's items in order followed by exactly one `token` item, last |
| `GroupMe.GroupMeAPI.GetGroups` | Sources/GroupMeAPI/GroupMeAPI.swift:21-27 | GET `/groups`, query only the token, no body |
| `GroupMe.GroupMeAPI.GetFormerGroups` | Sources/GroupMeAPI/GroupMeAPI.swift:28-34 | GET `/groups/former`, query only the token |
| `GroupMe.GroupMeAPI.GetGroup` | Sources/GroupMeAPI/GroupMeAPI.swift:35-41 | GET `/groups/{group}`, identifier inserted verbatim |
| `GroupMe.GroupMeAPI.CreateGroup` | Sources/GroupMeAPI/GroupMeAPI.swift:42-50 | JSON POST to `/groups` of the encoded name, share (always present) and optional image URL |
| `GroupMe.GroupMeAPI.UpdateGroup` | Sources/GroupMeAPI/GroupMeAPI.swift:51-59 | JSON POST to `/groups/{group}/update` of the encoded optional fields |
| `GroupMe.GroupMeAPI.DestroyGroup` | Sources/GroupMeAPI/GroupMeAPI.swift:60-65 | POST `/groups/{group}/destroy`, no body, no Content-Type |
| `GroupMe.GroupMeAPI.JoinGroup` | Sources/GroupMeAPI/GroupMeAPI.swift:66-73 | POST `/groups/{group}/join/{shareToken}`, no body |
| `GroupMe.GroupMeAPI.RejoinGroup` | Sources/GroupMeAPI/GroupMeAPI.swift:74-82 | JSON POST to `/groups/join` of the encoded group id |
| `GroupMe.GroupMeAPI.AddMembers` | Sources/GroupMeAPI/GroupMeAPI.swift:87-95 | JSON POST to `/groups/join` of the encoded members; the group does not appear |
| `GroupMe.GroupMeAPI.RemoveMember` | Sources/GroupMeAPI/GroupMeAPI.swift:102-107 | POST `/groups/{group}/members/{membership}/remove`, no body |
| `GroupMe.GroupMeAPI.UpdateNickname` | Sources/GroupMeAPI/GroupMeAPI.swift:108-117 | JSON POST to `/groups/{group}/memberships/update` of the encoded nickname |
| `GroupMe.GroupMeAPI.GetMessages` | Sources/GroupMeAPI/GroupMeAPI.swift:120-127 | GET `/groups/{group}/messages` whose query is the token alone, whatever paging arguments are passed |
| `GroupMe.GroupMeAPI.CreateMessage` | Sources/GroupMeAPI/GroupMeAPI.swift:128-142 | JSON POST to `/groups/{group}/messages` of the encoded message with the given `source_guid`, text and attachments |
| `GroupMe.GroupMeAPI.GetChats` | Sources/GroupMeAPI/GroupMeAPI.swift:145-151 | GET `/chats`, query only the token |
| `GroupMe.GroupMeAPI.GetDirectMessages` | Sources/GroupMeAPI/GroupMeAPI.swift:154-168 | GET `/direct_messages` with query `other_user_id`, then `before_id` only if supplied, then `since_id` only if supplied, then the token; each reads back as supplied |
| `GroupMe.GroupMeAPI.CreateDirectMessage` | Sources/GroupMeAPI/GroupMeAPI.swift:169-182 | JSON POST to `/direct_messages` of the encoded message; the recipient does not appear |
| `GroupMe.GroupMeAPI.LikeMessage` | Sources/GroupMeAPI/GroupMeAPI.swift:185-190 | POST `/messages/{conversation}/{message}/like`, no body |
| `GroupMe.GroupMeAPI.UnlikeMessage` | Sources/GroupMeAPI/GroupMeAPI.swift:191-196 | POST `/messages/{conversation}/{message}/like`, the same endpoint as liking |
| `GroupMe.GroupMeAPI.TopLikedMessages` | Sources/GroupMeAPI/GroupMeAPI.swift:199-206 | GET `/groups/{group}/likes` with `period` one of `day`, `week`, `month`, then the token |
| `GroupMe.GroupMeAPI.CurrentUserLikes` | Sources/GroupMeAPI/GroupMeAPI.swift:207-213 | GET `/groups/{group}/likes/mine` |
| `GroupMe.GroupMeAPI.CurrentUserHits` | Sources/GroupMeAPI/GroupMeAPI.swift:214-220 | GET `/groups/{group}/likes/for_me` |
| `GroupMe.GroupMeAPI.GetCurrentUser` | Sources/GroupMeAPI/GroupMeAPI.swift:223-231 | GET `/users/me` |
| `GroupMe.GroupMeAPI.UpdateCurrentUser` | Sources/GroupMeAPI/GroupMeAPI.swift:232-241 | JSON POST to `/users/update` of the encoded optional profile fields |
| `GroupMe.GroupMeAPI.EnableSms` | Sources/GroupMeAPI/GroupMeAPI.swift:244-250 | JSON POST to `/users/sms_mode` of the encoded duration and registration id |
| `GroupMe.GroupMeAPI.DisableSms` | Sources/GroupMeAPI/GroupMeAPI.swift:251-256 | POST `/users/sms_mode/delete`, no body |
| `GroupMe.GroupMeAPI.GetBlockedUsers` | Sources/GroupMeAPI/GroupMeAPI.swift:259-266 | GET `/blocks` with query `user`, then the token |
| `GroupMe.GroupMeAPI.BlockBetween` | Sources/GroupMeAPI/GroupMeAPI.swift:267-277 | GET `/blocks` with query exactly `[user, otherUser, token]` |
| `GroupMe.GroupMeAPI.CreateBlock` | Sources/GroupMeAPI/GroupMeAPI.swift:278-288 | POST `/blocks` with query exactly `[user, otherUser, token]`, no body |
| `GroupMe.GroupMeAPI.RemoveBlock` | Sources/GroupMeAPI/GroupMeAPI.swift:289-297 | POST `/blocks/delete` with query exactly `[user, otherUser, token]`, no body |
| `Findings.UnlikeRepeatsLike` | Sources/GroupMeAPI/GroupMeAPI.swift:185-196 | as written, un-liking a message sends exactly the request liking sends |
| `Findings.UnlikeMessage` | Sources/GroupMeAPI/GroupMeAPI.swift:191-196 | corrected: POST `/messages/{conversation}/{message}/unlike` |
| `Findings.UnlikeDiffersFromLike` | Sources/GroupMeAPI/GroupMeAPI.swift:185-196 | with the correction, the un-like request is the like request with only its URL path replaced, and the two paths differ |
| `Findings.AddMembersIgnoresGroup` | Sources/GroupMeAPI/GroupMeAPI.swift:87-95 | as written, adding members to any two groups sends the same request, to `/v3/groups/join` |
| `Findings.AddMembers` | Sources/GroupMeAPI/GroupMeAPI.swift:87-95 | corrected: JSON POST of the members to `/groups/{group}/members/add` |
| `Findings.AddMembersReachesGroup` | Sources/GroupMeAPI/GroupMeAPI.swift:87-95 | with the correction, two requests target the same URL exactly when they name the same group |
| `Findings.CreateDirectMessageDropsRecipient` | Sources/GroupMeAPI/GroupMeAPI.swift:169-182 | as written, direct messages to any two users send the same request |
| `Findings.CreateDirectMessage` | Sources/GroupMeAPI/GMRequests.swift:70-79 | corrected: the encoded body is the addressed direct message carrying the recipient id |
| `Findings.GetMessagesIgnoresPaging` | Sources/GroupMeAPI/GroupMeAPI.swift:120-127 | as written, every choice of paging arguments yields the same request |
| `Findings.GetMessages` | Sources/GroupMeAPI/GroupMeAPI.swift:120-127 | corrected: the query holds each supplied cursor, then `limit`, then the token, and each reads back as supplied |
| `Findings.PagingValue` | Sources/GroupMeAPI/GroupMeAPI.swift:120-121 | in the corrected paging query each parameter reads back as supplied and no other name is present |

## Findings

| source | as written | input that shows it | evidently intended | confidence | as-written member | corrected member |
|---|---|---|---|---|---|---|
| Sources/GroupMeAPI/GroupMeAPI.swift:191-196 | `unlikeMessage` posts to `/messages/{conv}/{msg}/like` | any message: un-liking sends the like request again | POST `/messages/{conv}/{msg}/unlike` | high, not executed | `Findings.UnlikeRepeatsLike` | `Findings.UnlikeMessage` |
| Sources/GroupMeAPI/GroupMeAPI.swift:87-95 | `addMembers` posts to `/groups/join` and never uses `group` | groups `"1"` and `"2"`: identical requests | POST `/groups/{group}/members/add` | high, not executed | `Findings.AddMembersIgnoresGroup` | `Findings.AddMembers` |
| Sources/GroupMeAPI/GroupMeAPI.swift:169-182 | `createDirectMessage` sends `direct_message` wrapping the inner message record shared with group messages (`source_guid`, `text`, `attachments`), which has no `recipient_id`; `user` is never used | users `"1"` and `"2"`: identical requests | body `direct_message` with `recipient_id` (the unused `GMRequestCreateDirectMessage_directmessage`) | high, not executed | `Findings.CreateDirectMessageDropsRecipient` | `Findings.CreateDirectMessage` |
| Sources/GroupMeAPI/GroupMeAPI.swift:120-127 | `getMessages` ignores `beforeMessage`, `sinceMessage`, `afterMessage` and `limit` | `limit` 5 and `limit` 50: identical requests | query `before_id`/`since_id`/`after_id` when supplied, then `limit` | medium (the order of the items is not given anywhere), not executed | `Findings.GetMessagesIgnoresPaging` | `Findings.GetMessages` |

The facade class `GroupMe.GroupMeAPI` keeps the as-written builders, since they are what
the client sends; the corrected builders live beside them in `Findings`, built from the
same `GenUri` and `JsonPostRequest`.

## Left out

- Network I/O: `URLSession.dataTask`, `resume()` and the Promises chaining; the session's `(error, response, data)` triple is an input of `Transport.Complete`.
- JSON encoding and decoding: `encode` and `decode` are parameters, so optional-field omission in request bodies and decoding failures' causes are not modelled; a throwing encoder is not modelled (the encoder is total).
- URL rendering: percent-encoding, the force-unwraps `URLComponents(string:)!` and `url!`, and what `URLComponents` parses out of an endpoint containing `?` or `#`; the URL is kept as its components.
- `UUID().uuidString`: `sourceGuid` is a parameter, so freshness of `source_guid` per call is not modelled.
- `URLRequest` settings other than method, URL, body and Content-Type (timeouts, cache policy, other headers).
- getMembershipResults: it decodes into a placeholder type that its own comment marks as not working.
- `GroupMeAPIError.noResponseData` and `HTTPError.invalidStatusCode`: declared, never raised; they are constructors of the model's datatypes and no path produces them.
- Response payload DTOs (`GMGroup`, `GMGroupMessage`, …) and the wire-name tables: payloads are type parameters, and the fixed field access of each call site (`.group` at GroupMeAPI.swift:72, `.messages` at 126/205/212/219, `.messsage` at 140/181, `.blocks` at 265, `.between` at 276, `.block` at 287) is the `project` parameter of `Calls.Settle`, not tied to the operation.
- `GMProtocol.swift` (signatures and documentation only; the limits it documents are enforced nowhere) and `Package.swift`.
