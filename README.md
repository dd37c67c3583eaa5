# Agenda plugin: meeting settings endpoint

This project models the HTTP settings endpoint of the Mattermost agenda plugin. Each channel has one meeting-settings record: a channel id, a weekday and a hashtag format. As in Go, the weekday is a 64-bit integer, the days being 0 (Sunday) through 6 (Saturday). Any other integer a body decodes to is stored as it is. The plugin serves the path `/api/v1/settings`. A `POST` decodes a meeting from the body and saves it under the meeting's own channel id. A `GET` reads the meeting named by the first `channelId` query value and answers with its encoding. Every request to `/api/v1/settings` needs the `Mattermost-User-Id` header.

The model has these modules:

- `Http` holds the request and the response writer. A writer keeps the first status written and ignores later ones. Its body grows with every write, and a handler that writes nothing answers 200. `Error` and `NotFound` model `http.Error` and `http.NotFound`.
- `Meetings` holds the meeting record, the opaque JSON codec and the store. The codec is a pair of functions that may fail. The store is a map from channel id to meeting; `Lookup` and `Save` are the map read and the map write behind `GetMeeting` and `SaveMeeting`.
- `Api` gives, as a pure value, what each Go handler answers: the first status it writes, the body parts and the store afterwards. `Respond` is the whole endpoint.
- `Server.Plugin` is a class that holds the store. Its handlers write to a `ResponseWriter` step by step, as the Go code does. Each handler is proved to produce exactly the matching `Api` outcome.
- `Properties` and `Sessions` prove properties from one request up to whole sequences of requests. `Scenarios` replays the plugin's HTTP test and adds a few further requests.

Points where the model takes a position:

- `Header.Get` canonicalises header names, so `Mattermost-User-Id` (plugin.go:64) and `Mattermost-User-ID` (plugin.go:81, 108) are one header. The model has a single `userId` field, where `""` means absent or empty.
- A missing identity makes `httpMeetingSettings` write 401 without returning (plugin.go:65-67). The method switch then runs anyway. For `POST` and `GET` the sub-handler writes 401 again. For any other method a 405 follows. The first status stands, so the client always sees 401, and the body holds two error lines. `Api.MeetingSettings` models this.
- Path routing comes before the identity check (plugin.go:35-40), so an unknown path answers 404 even without an identity.
- The query is of type `Values`: every key that `URL.Query()` returns has at least one value. That is why `channelId[0]` (plugin.go:116) cannot go out of range.
- The outcomes of the host's key-value calls are an input of each request, `Host(kvGetFails, kvSetFails)`. The network and the storage engine are not modelled. Any failure inside the `SaveMeeting` and `GetMeeting` bodies, which are not shown, counts as one of these two.
- An error's own text (`err.Error()`) is not modelled. The body records only which collaborator failed (`ErrorText(Failure)`). Literal texts, such as "Not Authorized" and "Missing channelId parameter", are kept as they are.
- A codec round trip, `Decode(Encode(x)) == x`, is a hypothesis (`Meetings.RoundTrips`). In this model it is needed only where a posted body should come back byte for byte, because the store holds meetings rather than bytes.

## Model

| member | source | states |
|---|---|---|
| `Http.ResponseWriter.constructor` | server/plugin_test.go:38 | a new writer has no status and an empty body |
| `Http.ResponseWriter.WriteHeader` | server/plugin.go:66 | the first status written stands; later ones leave status and body unchanged |
| `Http.ResponseWriter.Write` | server/plugin.go:104 | appends to the body; a write before any status fixes the status at 200 |
| `Http.Error` | server/plugin.go:66 | writes the status (ignored if one was already written), then one error line |
| `Http.NotFound` | server/plugin.go:39 | writes 404 and the text "404 page not found" |
| `Http.Ascii` | server/plugin.go:104 | the byte string of an ASCII literal: same length, each byte the character's code |
| `Meetings.Lookup` | server/plugin.go:121-125 | succeeds exactly when the host read works and the channel has a record, and then returns that record; otherwise not-found or a key-value error |
| `Meetings.Save` | server/plugin.go:99-102 | succeeds exactly when the host write works; then the meeting sits under its own channel id, every other entry is unchanged, and the store stays keyed by channel |
| `Api.ChannelIdParam` | server/plugin.go:114-119 | a channel is named exactly when the `channelId` key is present and its first value is not empty, and then it is that first value |
| `Api.SaveSettings` | server/plugin.go:79-105 | no identity gives 401, an unreadable body 400, an undecodable body 500, a failed save 500; 200 exactly when all succeed, with body `{"status": "OK"}` and the decoded meeting stored under its own channel id; on every failure the store is unchanged |
| `Api.GetSettings` | server/plugin.go:107-134 | never changes the store; no identity gives 401, a missing channel id or a failed lookup 400; 200 exactly when the record exists and encodes, with its encoding as the body; an encode failure gives 500 |
| `Api.MeetingSettings` | server/plugin.go:62-77 | without an identity, 401 for every method with the store unchanged, and the gate's text first; with one, a POST is answered as `SaveSettings`, a GET as `GetSettings`, and any other method gives 405 with the store unchanged |
| `Api.Respond` | server/plugin.go:31-41 | any other path gives 404 and leaves the store alone; the status is one of 200/400/401/404/405/500; the store changes only on a successful authenticated POST, and then only at the posted meeting's channel; the store stays keyed by channel |
| `Server.Plugin.constructor` | server/plugin.go:16-28 | a new plugin has an empty store and the given codec |
| `Server.Plugin.SaveMeeting` | server/plugin.go:99 | updates the store as `Meetings.Save` says, or reports its error and leaves the store unchanged |
| `Server.Plugin.GetMeeting` | server/plugin.go:121 | returns what `Meetings.Lookup` gives on the current store |
| `Server.Plugin.ServeHTTP` | server/plugin.go:31-41 | on a fresh writer, the status sent, the body written and the new store are those of `Api.Respond` |
| `Server.Plugin.HttpMeetingSettings` | server/plugin.go:62-77 | on a fresh writer, status, body and store are those of `Api.MeetingSettings`, including the case without an identity |
| `Server.Plugin.HttpMeetingSaveSettings` | server/plugin.go:79-105 | appends the body of `Api.SaveSettings` and sets the store to its store; the status is the earlier one if a status was already written, otherwise its status |
| `Server.Plugin.HttpMeetingGetSettings` | server/plugin.go:107-134 | appends the body of `Api.GetSettings` without touching the store; the status is the earlier one if a status was already written, otherwise its status |
| `Properties.UnknownPathReadsNothing` | server/plugin.go:35-40 | another path gives 404 and the same body whatever the store, codec and host are, and the store is unchanged |
| `Properties.MissingIdentityReadsNothing` | server/plugin.go:64-76 | without an identity every method gives 401 and a fixed two-line body, independent of store, codec and host; the store is unchanged |
| `Properties.MissingChannelIdReadsNothing` | server/plugin.go:114-119 | a GET whose `channelId` is absent or has an empty first value gives 400 and "Missing channelId parameter", independent of store and host |
| `Properties.GetUsesFirstValueOnly` | server/plugin.go:114-121 | two GETs that agree on the first `channelId` value get the same outcome |
| `Properties.PostIgnoresQuery` | server/plugin.go:93-99 | the outcome of a POST does not depend on its query |
| `Properties.PostTouchesOneChannel` | server/plugin.go:99-104 | a successful POST stores the decoded meeting under its own channel id and leaves every other channel's entry, or its absence, unchanged |
| `Properties.ReadAfterWrite` | server/plugin.go:99-133 | after a successful POST, a GET for the meeting's channel gives 200 with the meeting's encoding, or 500 when it cannot be encoded, and leaves the store unchanged |
| `Properties.PostedBytesComeBack` | server/plugin_test.go:57-70 | with a round-tripping codec, POSTing a meeting's encoding gives 200 with `{"status": "OK"}`, and a later GET returns exactly the posted bytes |
| `Sessions.RunAppend` | server/plugin_test.go:18-72 | serving two sequences of requests one after the other is the same as serving their concatenation |
| `Sessions.RunKeepsKeyedByChannel` | server/plugin.go:99 | after any sequence of requests, every stored meeting still sits under its own channel id |
| `Sessions.RunLeavesOtherChannels` | server/plugin.go:99-104 | a channel that no request saves for keeps its entry, or its absence, through any sequence |
| `Sessions.LastWriteWins` | server/plugin.go:99 | after a sequence, the store holds the meeting of the latest successful POST for a channel |
| `Sessions.GetBeforeAnySaveIsBadRequest` | server/plugin.go:121-125 | starting from an empty store, a GET for a channel that no earlier request saved gives 400 |
| `Sessions.GetReturnsLatestSave` | server/plugin.go:121-133 | a GET after any sequence returns the encoding of the latest meeting saved for its channel |
| `Scenarios.Serve` | server/plugin_test.go:38-41 | serving one request on a fresh writer gives the status, body and store of `Api.Respond` |
| `Scenarios.GetStored` | server/plugin_test.go:33-46 | a GET for a stored channel whose meeting encodes answers 200 with that encoding and leaves the store as it was |
| `Scenarios.PostEncoded` | server/plugin_test.go:57-70 | with a round-tripping codec, POSTing a meeting's encoding answers 200 with `{"status": "OK"}` and stores the meeting under its channel |
| `Scenarios.ServeTestRequests` | server/plugin_test.go:15-72 | on one plugin: a GET of the stored default meeting gives 200 with its encoding, a POST of another meeting gives 200 and `{"status": "OK"}`, and a further GET gives 200 with the posted meeting's encoding |
| `Scenarios.FailingRequests` | server/plugin.go:35-125 | a GET without a query gives 400 (lines 114-119), a GET for an unknown channel 400 (lines 121-125), another path 404 (lines 35-40), and a PUT 405 (lines 69-76) |

## Left out

- `OnActivate`, bot provisioning and command registration (server/plugin.go:44-60): these are host runtime calls with no logic of their own.
- The `configurationLock` read-write lock and the `configuration` field (server/plugin.go:19-24): this is concurrency, and the settings handlers do not use it. Concurrent requests are not modelled; requests are served one at a time.
- JSON syntax: `json.Marshal` and `json.Unmarshal` are an opaque codec given from outside. Their round trip is a hypothesis, not a proof, and no wire format is fixed.
- The bodies of `SaveMeeting` and `GetMeeting`: they are not part of this model. The model assumes that `SaveMeeting` writes the meeting under its own channel id, and that `GetMeeting` reads the meeting stored for a channel and reports an error when the channel has no record. The host key-value mocks (plugin_test.go:33, plugin_test.go:60) point that way. Either call may fail. `Meetings.Lookup`'s not-found case, `Sessions.GetBeforeAnySaveIsBadRequest` and the unknown-channel case of `Scenarios.FailingRequests` hold only under this assumption. Because a meeting is stored as a value, a stored record that fails to decode shows up only as a failed host read.
- The store as bytes: the host store holds JSON bytes (plugin_test.go:33, plugin_test.go:60), so the program answers a GET with the re-encoding of the decoded stored bytes. The model stores meetings, so a GET answers the encoding of the stored meeting. `Properties.ReadAfterWrite`, `Sessions.GetReturnsLatestSave` and `Sessions.LastWriteWins` therefore take for granted that the store's own encode and decode round trip.
- `Api.SaveSettings`: a body of literal `null` decodes to a nil `*Meeting` in Go, and what `SaveMeeting` does with nil is not shown. The codec here either yields a meeting or fails.
- Response headers (the JSON Content-Type at server/plugin.go:33 and the headers `http.Error` sets) and the text of `err.Error()`: these are transport details. An error line records only which collaborator failed.
- The `*plugin.Context` argument of `ServeHTTP` and the unused `mmUserId` parameter of the sub-handlers: the code never reads them.
- The test's mocks (server/plugin_test.go) appear only as `Scenarios`, which states the test's requests and outcomes and adds a few further requests. The webapp (webapp/src/index.js) registers UI pieces and forwards to actions that are not part of this model.
