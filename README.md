# Live translation broker and speech client, modelled in Dafny

The system relays live speech transcripts to viewers. Each viewer receives them in the language
it chose. There are two sides.

**The broker (Python).** Its parts:

- a connection registry: an in-memory dict, optionally a cache over a DynamoDB table;
- a message handler shared by two front ends. It does API-key checks, language updates, the
  per-viewer translation fan-out of a new transcript, and on-demand translation;
- a connect-time authorizer that returns an IAM policy;
- an API Gateway WebSocket router. It prunes the connections the gateway reports gone;
- an STS token generator for the speech client's transcription credentials;
- an older Flask/Socket.IO server with the same handlers over a global dict.

**The speech client (Go).** Its deterministic core:

- the server-URL scheme rewrite;
- the little-endian PCM encoding;
- the final-transcript filter and the `new_text` payload;
- the token request, with its two one-place reply channels;
- the reader's dispatch of `token_response` and `error` messages;
- the choice of AWS credentials;
- the single-fire shutdown latch.

One Dafny module stands for each source file:

| file | module |
|---|---|
| `client_map.dfy` | `ClientMap` |
| `message_handler.dfy` | `MessageHandling` |
| `lambda_authorizer.dfy` | `LambdaAuthorizer` |
| `lambda_handler.dfy` | `LambdaHandling` |
| `token_generator.dfy` | `TokenGeneration` |
| `server.dfy` | `FlaskServer` |
| `speech_client.dfy` | `SpeechClient` |

`protocol.dfy` (`Protocol`) holds the broker's outgoing messages and their `{"type", "data"}` wire form. `common.dfy` (`Common`) holds JSON values, Python truthiness, decimal rendering and sequence helpers.

Code that mutates state is modelled as classes, with `modifies` clauses:

- the registry, with the dict's insertion order kept as a sequence beside the map;
- the Lambda app, which records every post it makes;
- the Flask server, which records every emit;
- the Go client.

Pure code is modelled as functions. Loops stay loops. Each loop is proved against a recursive specification function, and the lemmas are proved about those functions.

Calls into services are parameters of the operations that make them:

- Amazon Translate: `Translator`;
- API Gateway `post_to_connection`: `Gateway`;
- STS `assume_role`: `AssumeRole`.

The outcome of a DynamoDB call is a fault flag: `tableFault`, or a per-id `TableFaults`. The WebSocket dial and write outcomes are parameters of the Go methods. What the Go reader receives while a token request waits is a sequence of frames. When both reply channels hold a value, the select's choice is a boolean.

## Model

| member | source | states |
|---|---|---|
| Common.Items | client_map.py:65-72 | the dict's items: one pair per key, in key order, each carrying that key's entry |
| ClientMap.TranslationClientMap.Entries | client_map.py:65-72 | the items in iteration order, one per key |
| ClientMap.TranslationClientMap.constructor | client_map.py:21-23 | the registry starts empty |
| ClientMap.TranslationClientMap.AddClient | client_map.py:25-40 | stores {lang, ws, is_authorized_sender} (defaults "en", None, False), overwriting any entry for the id; a new id iterates last, a re-added id keeps its place; at most one entry per id |
| ClientMap.TranslationClientMap.DeleteClient | client_map.py:42-51 | removes exactly that id; every other entry and their order are unchanged; a missing id is a no-op |
| ClientMap.TranslationClientMap.GetClient | client_map.py:53-63 | the stored entry, or None exactly when the id is absent |
| ClientMap.TranslationClientMap.GetAllClients | client_map.py:65-72 | a copy listing every current key exactly once, with its entry, in insertion order |
| ClientMap.TranslationClientMap.UpdateLanguage | client_map.py:74-89 | True iff the id is present; then only its lang changes; otherwise nothing changes |
| ClientMap.TranslationClientMap.Count | client_map.py:91-98 | the number of stored ids |
| ClientMap.TranslationClientMap.Exists | client_map.py:100-110 | true iff the id is a key |
| ClientMap.TranslationClientMap.OrderCoversKeys | client_map.py:21-40 | the iteration order lists exactly the keys, so its length is the number of entries |
| ClientMap.FromTable | client_map.py:188-214 | an item found only in the table reads with ws None, lang defaulting to "en" and the sender flag to False |
| ClientMap.DynamoClientMap.constructor | client_map.py:119-137 | an empty local cache over the existing table |
| ClientMap.DynamoClientMap.AddClient | client_map.py:139-168 | writes the table item, then the cache; a table error is re-raised with neither changed |
| ClientMap.DynamoClientMap.DeleteClient | client_map.py:170-186 | deletes the table item unless the table errors, and removes the id from the cache in every case |
| ClientMap.DynamoClientMap.GetClient | client_map.py:188-214 | the cached entry first; on a miss the table item with defaults; None iff not cached and the table errors or lacks the id |
| ClientMap.DynamoClientMap.UpdateLanguage | client_map.py:216-243 | sets lang in the table, creating an item if needed, then in the cache if cached; True after any successful table write; False on a table error with nothing changed |
| ClientMap.DynamoClientMap.Count | client_map.py:245-253 | counts the cached (locally connected) clients only |
| ClientMap.DynamoClientMap.Exists | client_map.py:100-110 | membership in the cache |
| ClientMap.DynamoClientMap.GetAllClients | client_map.py:65-72 | every cached key exactly once, with its entry, in insertion order |
| MessageHandling.TranslateText | message_handler.py:40-73 | the input unchanged when the service is unavailable, the target is "en" or the backend fails; otherwise the backend's translation; a changed result always came from the backend |
| MessageHandling.TranslateIgnoresBackendWhenNotConsulted | message_handler.py:54-59 | when unavailable or the target is "en", no backend behaviour changes the result |
| MessageHandling.ValidateApiKey | message_handler.py:116-129 | any key passes when none is configured (None or ""); otherwise exactly the configured key |
| MessageHandling.HandleSetLanguage | message_handler.py:131-156 | language_set carrying the language after a successful update; the "Failed to update language preference" error otherwise, with the registry unchanged |
| MessageHandling.EntryFor | message_handler.py:188-210 | one translations entry: the client's id, the original text, the timestamp, the target language, and the text itself for "en" |
| MessageHandling.FanOutShape | message_handler.py:188-216 | exactly one entry per registered client, in registry order, each with that client's id and language |
| MessageHandling.AsWrittenNeverTranslates | message_handler.py:190-198 | as written, every accepted transcript reaches every client untranslated and labelled "en" |
| MessageHandling.AsWrittenCounterexample | message_handler.py:191 | a client registered with "es" and a working backend gets English as written and Spanish as intended |
| MessageHandling.NewTextTranslatesStoredLanguage | message_handler.py:190-210 | a client whose stored language is not English gets the service's translation into it, labelled with it |
| MessageHandling.ServiceRequests | message_handler.py:193-198 | the translation service is asked only for non-English targets, at most once per client |
| MessageHandling.NewTextShape | message_handler.py:177-216 | a rejected key gives the "Unauthorized: Invalid API key" error and no translations; an accepted one gives one entry per client with original, timestamp and language |
| MessageHandling.HandleNewText | message_handler.py:158-216 | (corrected; see Findings) the loop builds exactly the specified result; the service is not called at all for a rejected key and only for non-English clients otherwise |
| MessageHandling.BuildTranslations | message_handler.py:189-210 | (corrected; see Findings) the loop appends exactly the fan-out entries of the registry items it walks, and asks the service once per non-English item |
| MessageHandling.HandleRequestTranslation | message_handler.py:218-240 | translation_result carrying the original, the requested language and exactly the text translate_text gives for them (so the input itself whenever the service is off, the target is "en" or the backend fails) |
| MessageHandling.CreateConnectionStatusMessage | message_handler.py:242-255 | type connection_status with status "connected" and the service's availability |
| MessageHandling.CreateErrorMessage | message_handler.py:257-270 | type error with data.message equal to the given text |
| Protocol.WireRoundTrip | message_handler.py:233-270 | every message the broker builds reads back from its wire form unchanged |
| Protocol.WireInjective | message_handler.py:242-270 | distinct messages have distinct wire forms |
| LambdaAuthorizer.GeneratePolicy | lambda_authorizer.py:64-91 | principal "user", version "2012-10-17", exactly one execute-api:Invoke statement with the given effect and resource, the context passed through |
| LambdaAuthorizer.ProvidedKey | lambda_authorizer.py:34-35 | the X-API-Key header unless it is absent or empty, else x-api-key |
| LambdaAuthorizer.Authorize | lambda_authorizer.py:18-61 | Deny with an empty context iff a key is provided and it is not the configured key (or none is configured); Allow otherwise, marking the connection a sender iff a key was provided |
| LambdaAuthorizer.NoKeyHeaderAllowsViewer | lambda_authorizer.py:54-61 | no key header, or only empty ones: Allow as a non-sender |
| LambdaAuthorizer.LowerCaseHeaderSuffices | lambda_authorizer.py:35-49 | the configured key under x-api-key alone admits a sender |
| LambdaAuthorizer.UpperCaseHeaderTakesPrecedence | lambda_authorizer.py:35-53 | a wrong X-API-Key is denied even beside a correct x-api-key |
| TokenGeneration.NewTokenGenerator | token_generator.py:23-55 | the role comes from the argument, else the environment; the duration is min(requested, 3600); STS is available iff a role is set and the client was created |
| TokenGeneration.AvailableIffConfigured | token_generator.py:125-132 | is_available holds iff a non-empty role is configured and STS was reachable |
| TokenGeneration.SessionName | token_generator.py:80-83 | the given name, or "live-translate-" followed by decimal digits |
| TokenGeneration.SessionNameRecordsTime | token_generator.py:80-83 | a generated session name's digits read back as the whole seconds it was made at |
| TokenGeneration.GenerateToken | token_generator.py:57-123 | the not-configured error when unavailable; otherwise success iff the role was issued, with the four credentials and region = region_name; ClientError gives "Failed to generate credentials: " + message, other errors "Unexpected error: " + text |
| TokenGeneration.UnavailableAlwaysErrors | token_generator.py:71-76 | an unavailable generator answers the configuration error whatever STS would do |
| LambdaHandling.GoneIdsMembers | lambda_handler.py:92-96 | a connection is pruned iff some post to it ended with GoneException |
| LambdaHandling.GoneIdsAppend | lambda_handler.py:118-123 | the gone connections of two runs of posts are those of each run together |
| LambdaHandling.PruneTwice | lambda_handler.py:126-127 | deleting one set of ids and then another equals deleting both, in the cache, its order and the table |
| LambdaHandling.BroadcastReachesAllButExcluded | lambda_handler.py:116-123 | the message goes once to every registered client except the excluded one and to nobody else; failed_connections holds exactly the clients whose post was not delivered |
| LambdaHandling.PostsReachAllButExcluded | lambda_handler.py:116-121 | each registered client but the excluded one is posted the message; every post carries it and skips the excluded id |
| LambdaHandling.FailuresAreUndelivered | lambda_handler.py:118-123 | a client is recorded as failed iff it is registered, not excluded and its post was not delivered |
| LambdaHandling.GoneWithinFailed | lambda_handler.py:118-123 | a client removed for being gone is always among the failed ones |
| LambdaHandling.TranslatedPosts | lambda_handler.py:225-235 | one translated_text per translations entry, to that entry's client, in order |
| LambdaHandling.ParseRequest | lambda_handler.py:193-250 | invalid JSON iff the body does not parse; each known type with its fields (defaults "en" and ""); an unknown type together with its rendered text (containers abbreviated); a non-string field value is Malformed |
| LambdaHandling.MissingFieldsTakeDefaults | lambda_handler.py:193-240 | missing data or fields take the handler's defaults; a missing type is the unknown type "None" |
| LambdaHandling.NewTextPostsPerClient | lambda_handler.py:208-235 | (corrected; see Findings) a rejected key answers 401 and only tells the sender; an accepted one answers 200 and posts one translated_text to each registered client in its stored language |
| LambdaHandling.RepliesGoToSender | lambda_handler.py:200-257 | apart from an accepted new_text, every post goes to the sender; only new_text can answer 401 |
| LambdaHandling.LambdaApp.constructor | lambda_handler.py:28-39 | the handler and registry the module starts with; no posts yet |
| LambdaHandling.LambdaApp.SendMessageToConnection | lambda_handler.py:73-102 | records the post; true iff delivered; GoneException removes that connection; any other error leaves the registry unchanged |
| LambdaHandling.LambdaApp.PostTracked | lambda_handler.py:122-123 | one post of the broadcast loop extends the pruning by that post's gone target |
| LambdaHandling.LambdaApp.DeleteTracked | lambda_handler.py:126-127 | one deletion of the clean-up loop extends the pruning by that id |
| LambdaHandling.LambdaApp.PostUnlessExcluded | lambda_handler.py:117-123 | one pass of the broadcast loop: no post for the excluded id; otherwise one post, a failure iff undelivered, and its gone target pruned |
| LambdaHandling.LambdaApp.PostEntry | lambda_handler.py:116-123 | one pass of the broadcast loop takes the posts, failures and pruning from prefix i to prefix i + 1 |
| LambdaHandling.LambdaApp.DeleteEntry | lambda_handler.py:126-127 | one pass of the clean-up loop extends the pruning to the next failed id |
| LambdaHandling.LambdaApp.PostToEntries | lambda_handler.py:116-123 | the first loop posts exactly BroadcastPosts and collects exactly FailedConnections |
| LambdaHandling.LambdaApp.DeleteFailed | lambda_handler.py:126-127 | the second loop removes every failed connection |
| LambdaHandling.LambdaApp.BroadcastMessage | lambda_handler.py:105-127 | posts to every client but the excluded one, then the registry has lost exactly the failed clients |
| LambdaHandling.LambdaApp.HandleConnect | lambda_handler.py:130-151 | registers the connection as an English non-sender and answers 200 "Connected"; 500 "Failed to connect" with nothing changed when the table write fails |
| LambdaHandling.LambdaApp.HandleDisconnect | lambda_handler.py:154-174 | forgets the connection (in the table unless that errors) and answers 200 "Disconnected" |
| LambdaHandling.LambdaApp.ProcessSetLanguage | lambda_handler.py:200-256 | updates the language, sends the handler's reply and then connection_status to the sender, answers 200 |
| LambdaHandling.LambdaApp.ApplyLanguage | lambda_handler.py:202-205 | the registry half of set_language: the language is recorded in cache and table when the table call succeeds, and the reply says which happened |
| LambdaHandling.LambdaApp.SendTwo | lambda_handler.py:206-254 | the reply and then the status are posted to the sender, each gone outcome pruning that connection |
| LambdaHandling.LambdaApp.PostTranslations | lambda_handler.py:225-235 | the loop posts one translated_text per entry, to its client |
| LambdaHandling.LambdaApp.PostTranslation | lambda_handler.py:225-235 | one pass of the translation loop posts that entry's translated_text to its client |
| LambdaHandling.LambdaApp.ProcessNewText | lambda_handler.py:208-235 | (corrected; see Findings) a rejected key sends the error to the sender and answers 401 "Unauthorized"; otherwise one post per translation and 200 |
| LambdaHandling.LambdaApp.ReplyToSender | lambda_handler.py:237-250 | request_translation and an unknown type answer the sender with one message and 200 |
| LambdaHandling.LambdaApp.HandleMessage | lambda_handler.py:177-264 | (corrected; see Findings) posts and status code as the request demands: invalid JSON 400, a malformed body 500, an unknown type "Unknown message type: <t>" with 200; every gone target is pruned |
| LambdaHandling.LambdaApp.LambdaHandler | lambda_handler.py:267-291 | each of $connect, $disconnect and $default has exactly the effect and response of its handler (the registry, table and posts as HandleConnect, HandleDisconnect and HandleMessage state them); any other route answers 400 "Unknown route: <key>" with no effect |
| FlaskServer.Get | server.py:132 | data.get(key, default) on an event payload |
| FlaskServer.BroadcastShape | server.py:164-177 | one translated_text per connected client, to its room, with its language, the original and the timestamp; "en" clients get the original text |
| FlaskServer.BroadcastAgreesWithHandler | server.py:164-177 | the Flask broadcast carries exactly what the shared handler builds for each client |
| FlaskServer.NewTextReachesEachClientOnce | server.py:164-177 | every connected client and nobody else receives an accepted transcript, exactly once |
| FlaskServer.BroadcastRooms | server.py:164-177 | the broadcast's rooms are exactly the connected sids, in dict order |
| FlaskServer.Server.constructor | server.py:24-52 | no clients and no emits at start |
| FlaskServer.Server.Translate | server.py:55-86 | the input when AWS is unavailable, the target is "en" or the call fails; otherwise the backend's translation |
| FlaskServer.Server.HandleConnect | server.py:105-111 | (re)registers the sid as "en" and emits connection_status to it |
| FlaskServer.Server.HandleDisconnect | server.py:114-120 | removes the sid if present; no-op otherwise; emits nothing |
| FlaskServer.Server.HandleSetLanguage | server.py:123-137 | a known sid gets the language (default "en") and one language_set; an unknown sid changes nothing and hears nothing |
| FlaskServer.Server.Accepts | server.py:150-156 | any key when API_KEY is unset or empty, else exactly API_KEY; agrees with the shared handler's check |
| FlaskServer.Server.HandleNewText | server.py:140-177 | a rejected key gives exactly one "Unauthorized: Invalid API key" error emit and nothing else; an accepted one emits the broadcast |
| FlaskServer.Server.EmitTranslations | server.py:164-177 | the loop emits exactly the broadcast over the entries it walks, changing no client |
| FlaskServer.Server.HandleRequestTranslation | server.py:180-197 | emits translation_result (default target "en") to the sender, the same reply the shared handler builds |
| SpeechClient.RewriteScheme | speech_to_text.go:209-216 | the result is ws or wss, wss exactly for https and wss |
| SpeechClient.RewriteSchemeIdempotent | speech_to_text.go:209-216 | rewriting twice equals rewriting once |
| SpeechClient.WsUrl | speech_to_text.go:218-220 | the dialled URL keeps everything after "://" and is a wss URL exactly when the server URL is https or wss, a ws URL otherwise |
| SpeechClient.Unsigned | speech_to_text.go:540-544 | a sample's 16-bit two's-complement bit pattern |
| SpeechClient.EncodeSample | speech_to_text.go:540-544 | two bytes that read low-first as the sample's bit pattern |
| SpeechClient.Int16ToBytes | speech_to_text.go:540-544 | 2n bytes for n samples |
| SpeechClient.BytesToInt16 | speech_to_text.go:540-544 | the reading of an even-length byte string: one sample per byte pair |
| SpeechClient.Int16ToBytesLayout | speech_to_text.go:540-544 | sample i is bytes 2i (low) and 2i+1 (high) |
| SpeechClient.Int16RoundTrip | speech_to_text.go:540-544 | decoding the bytes recovers every sample |
| SpeechClient.TrimLeft | speech_to_text.go:644 | drops exactly the leading white space |
| SpeechClient.TrimRight | speech_to_text.go:644 | drops exactly the trailing white space |
| SpeechClient.TrimSpaceEmptyIff | speech_to_text.go:644 | a transcript trims to "" iff every character is Unicode white space |
| SpeechClient.ForwardedTranscript | speech_to_text.go:639-644 | forwarded iff the result is final, its first alternative exists and is non-nil, and the text has a non-space character |
| SpeechClient.TwoDigits | speech_to_text.go:645 | a zero-padded two-digit field |
| SpeechClient.FormatClock | speech_to_text.go:645 | HH:MM:SS: eight characters, colons at 2 and 5, digits elsewhere |
| SpeechClient.ClockRoundTrip | speech_to_text.go:645 | the timestamp reads back as the time of day it was made from |
| SpeechClient.NewTextPayload | speech_to_text.go:650-656 | always text and timestamp; api_key iff the client has a non-empty key; no other field |
| SpeechClient.NewTextMessage | speech_to_text.go:639-660 | a new_text message exactly for forwarded results, with the transcript, a readable timestamp of that moment, and api_key iff configured |
| SpeechClient.Offer | speech_to_text.go:423-427 | a non-blocking send: an empty channel takes the value; a full or nil one drops it |
| SpeechClient.TokenFrom | speech_to_text.go:408-420 | a token exactly when the four credential fields and the region are strings, carrying each of the five; otherwise the type assertions panic |
| SpeechClient.ErrorfPlainPrefix | speech_to_text.go:434 | text without '%' passes through fmt.Errorf unchanged |
| SpeechClient.FormatPlainPrefix | speech_to_text.go:434 | with any markers, a format string's %-free prefix is copied through unchanged |
| SpeechClient.FormatPlainChar | speech_to_text.go:434 | a character other than '%' is copied through |
| SpeechClient.ErrorfCounterexample | speech_to_text.go:446 | the server error "100%" reaches the request as "100%!(NOVERB)" as written, and as "100%" when passed on as is |
| SpeechClient.ServerErrorDispatch | speech_to_text.go:440-449 | an error message with a string message offers it, formatted or not, to the error channel |
| SpeechClient.ServerErrorReachesRequestIntact | speech_to_text.go:440-449 | with the corrected dispatch, a waiting request receives exactly the server's error text |
| SpeechClient.DispatchOnlyFillsEmptySlots | speech_to_text.go:405-449 | one message fills at most one channel, and only an empty one; a full or nil channel is never overwritten |
| SpeechClient.TokenResponseRouting | speech_to_text.go:405-439 | a success response with credentials fills an empty token channel with that token; a non-success one with an error string fills an empty error channel; a panic only comes from a success response with bad fields |
| SpeechClient.ReadAllStopsAtError | speech_to_text.go:380-397 | the reader stops at the first read error; later frames are never handled |
| SpeechClient.SpeechToText.constructor | speech_to_text.go:107-121 | not running, not connected, no token, nil channels, latch open |
| SpeechClient.SpeechToText.ConnectToServer | speech_to_text.go:200-260 | dials the rewritten URL; a successful dial installs an open connection; a failed one changes nothing else |
| SpeechClient.SpeechToText.SendMessage | speech_to_text.go:456-467 | "WebSocket connection not established" with nothing sent when there is no connection; otherwise the write's outcome; the connection, the channels, the token and the shutdown latch are unchanged |
| SpeechClient.SpeechToText.BeginTokenRequest | speech_to_text.go:263-290 | fails before sending or touching anything without an API key or a connection; otherwise fresh empty channels, then generate_token is written or the write error is wrapped |
| SpeechClient.SpeechToText.DispatchMessage | speech_to_text.go:405-449 | (corrected; see Findings) handling one message changes the channels exactly as the dispatch specification says; a panic changes nothing |
| SpeechClient.SpeechToText.ReadMessages | speech_to_text.go:372-452 | the reader loop ends as ReadAll says, and closes the connection when it stops |
| SpeechClient.Await | speech_to_text.go:293-310 | success exactly when a token is ready and no error is both ready and chosen, and then the current token is that token; a chosen error is reported as "token generation failed: ..." and consumed; neither ready is "token request timed out" with nothing changed |
| SpeechClient.SpeechToText.AwaitToken | speech_to_text.go:293-310 | (corrected; see Findings) the channels, the returned error and currentToken are what Await gives for the channels it finds; the connection, the sent frames and the shutdown latch are unchanged |
| SpeechClient.SpeechToText.RequestToken | speech_to_text.go:263-311 | (corrected; see Findings) success exactly when there is an API key and a connection, the generate_token write succeeds and the reader's frames leave a token ready that the select takes; then currentToken is that token; every failure leaves currentToken as it was; sent frames, connection state and channels as each path leaves them |
| SpeechClient.SpeechToText.GetAWSConfig | speech_to_text.go:338-369 | local mode uses the configured region; otherwise "no AWS token available" without a token, else the stored keys and region |
| SpeechClient.SpeechToText.GracefulStop | speech_to_text.go:806-819 | the latch is closed exactly once however often it is called, the client is not running, and an open connection is closed |
| SpeechClient.StopTwice | speech_to_text.go:806-812 | two stops close the latch once |

## Left out

- Logging, printing and the timing of `secrets.compare_digest`: key comparison is plain string equality.
- The construction of the boto3 clients, the API Gateway management client, the Flask app and Socket.IO: they are only flags, such as whether Translate or STS is available.
- lambda_handler.py's fallback to an in-memory registry when the DynamoDB map cannot be built: the app always runs over the DynamoDB-backed registry.
- DynamoDB errors other than `ClientError`: a table call either succeeds or raises a `ClientError`.
- LambdaHandling.LambdaApp.HandleDisconnect: the 500 "Failed to disconnect" branch is not modelled, because it needs an exception other than a table `ClientError`.
- The `ws` objects themselves: they are opaque values.
- The JSON text of the API Gateway body: a body is either invalid JSON or a parsed value.
- `json.dumps` of outgoing messages: a message is its typed value, with its wire form in `Protocol`.
- Concurrent Lambda instances sharing one table: each invocation is modelled on its own.
- Wall-clock time: `time.time()`, `time.Now()` and `isoformat()` are parameters or already-formatted strings.
- The Flask `index`, `health` and `main`, the command lines and environment parsing.
- speech_to_text.py: not part of this model.
- Goroutines, `select` waits, the 10-second timeout, the token refresher, the audio capture and the transcription streaming loop with its reconnects. Their possible outcomes are parameters: frames received, the select's choice, and timeout when no channel holds a value.
- PortAudio device handling and microphone calibration.
- SpeechClient.SpeechToText.ConnectToServer: URL parsing, `url.String()` re-serialisation and the dial diagnostics are not modelled. The URL is given already split into scheme and rest.
- SpeechClient.ErrorfNoArgs: flags, width, precision and argument indexes after '%' are not modelled. Only "%%", a trailing '%' and a '%' before a verb character are.
- SpeechClient.SpeechToText.GracefulStop: the close frame written before closing is not recorded among the sent messages.
- SpeechClient.SpeechToText.ReadMessages: a panic in the reader goroutine ends the whole Go process. The model only records that the reader crashed and the connection was closed by its deferred close.
- The connection_status branch of the Go reader only prints, so it is not modelled beyond changing nothing.
- Mutex locking around `currentToken` and `wsConn`: all operations are sequential.
- LambdaHandling.ParseRequest: a known field holding a non-string value (`language` 5 or null, a numeric `text`, `timestamp`, `target_language` or `api_key` with no key configured) is modelled as a malformed body answered 500, whereas lambda_handler.py passes such values on and answers 200; every field value is modelled as a string.
- FlaskServer.Server: the Socket.IO payload is a map from strings to strings, so non-string values that server.py:132 and server.py:151 would pass on are not modelled.
- `secrets.compare_digest` raises `TypeError` on a non-ASCII `str` (message_handler.py:129, lambda_authorizer.py:47, server.py:153), which in the source ends as a 500 or an authorizer error; the model compares such keys as plain strings and answers 401 or Deny.
- LambdaHandling.TableFaults: whether a table call raises `ClientError` is one outcome per connection id for the whole invocation, so the update and the later prune of the sender in set_language, and the two deletes of a gone id in a broadcast (lambda_handler.py:96 and lambda_handler.py:127), always fail or succeed together; PrunedFrom's "the table loses an id exactly when it has no fault" rests on this.
- LambdaHandling.TypeText: a list or object `type` is rendered as "[...]" or "{...}", not as Python's `str()` would render it (`["a"]` gives "['a']"); JSON numbers are integers only, so floats are not modelled.

## Findings

| source | as written | input that shows it | evidently intended | confidence | as-written member | corrected member |
|---|---|---|---|---|---|---|
| message_handler.py:191 | `handle_new_text` reads the target language under key "language", but the registry stores it under "lang" (client_map.py:35-39), so every viewer gets the untranslated text labelled "en" | a client registered with lang "es", an available service whose backend translates | read the registry's "lang" key, so each viewer gets its own language | not executed; high | MessageHandling.AsWrittenCounterexample | MessageHandling.NewTextTranslatesStoredLanguage |
| speech_to_text.go:434 | the server's error text is passed to `fmt.Errorf` as the format string (also at line 446), so a '%' in it is read as a directive | an `error` message whose message is "100%" reaches the waiting token request as "100%!(NOVERB)" | pass the text on as is (`errors.New`, or `fmt.Errorf("%s", ...)`) | not executed; medium | SpeechClient.ErrorfCounterexample | SpeechClient.ServerErrorReachesRequestIntact |

The broker and the Go reader are modelled with the corrected behaviour:

- `MessageHandling.NewText` reads "lang";
- `SpeechClient.Dispatch` offers the server's text unchanged.

The as-written definitions are kept beside them: `MessageHandling.NewTextAsWritten` and `SpeechClient.DispatchAsWritten`.
