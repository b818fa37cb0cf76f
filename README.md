# Discord bot controller: session model

A Dafny model of the desktop controller for a Discord bot backend. It covers two layers.

- **Browser side**: the `DiscordBotController` class (`src/app.js`). It handles the connection
  lifecycle, the single expanded server, and the one selected send target (a channel or a user).
  It also runs the debounced user search, and validates and builds simple and embed messages.
- **Command layer**: the Rust command layer (`src-tauri/src/lib.rs`). It stores the API
  configuration and refuses every command when none is stored. It also picks the endpoint and
  payload of each message command, forms the request URLs and dispatches on the HTTP method.

Files:

- `common.dfy`: Option and Result.
- `text.dfy`: JavaScript's `trim`, the client's "drop one trailing slash", Rust's
  `trim_end_matches('/')`, and the decimal text of a status code.
- `backend.dfy`: lib.rs.
  - Each command is a function of the stored configuration and of the HTTP reply. It returns
    the request it sent (if any) and its result.
  - `AppState` is the configuration slot that `set_api_config` overwrites.
- `client_logic.dfy`: the decisions app.js makes, as functions, plus lemmas that follow a
  client payload into the backend's routing.
- `controller.dfy`: `DiscordBotController` as a class.
  - Every `async` handler is split at its `await`. The event method returns the backend call it
    issues, and a second method applies that call's settlement.
  - Ghost fields record which settlements are pending.
  - `Valid()` is the session invariant: `isConnected` agrees with the status whenever no connect
    is in flight, at most one server is expanded, every pending channel fetch of the current
    rendering names one of its containers, and at most one target is selected.
- `scenario.dfy`: sessions driven through the class's contracts, including a channel reply
  that arrives after a reconnect.

Where the intended design and the code differ, the model follows the code:

- A search reply replaces the result list whenever it arrives. There is no token that discards
  the reply to an older query.
- Opening a server always requests its channels again. There is no per-server channel cache.
- `loadChannels` looks up its channel container before it awaits the reply. A successful
  reconnect in the meantime re-renders the server list and replaces every container, so a
  reply to a fetch issued before the reconnect is never shown, and the new container keeps
  showing that its channels are loading. The controller counts renderings of the list, and
  each pending fetch records the rendering and container it was issued for.
- The client strips one trailing `/` from the URL, and the backend strips all of them.
  `ClientLogic.ConnectStoresNormalisedUrl` shows that the stored URL is the same either way.
- Ctrl+Enter in the message box calls `sendSimpleMessage` even while its button is disabled, so
  several simple sends can be in flight. The embed and connect buttons have no such shortcut.
- `toggleServer` does not check the connection. An id with no rendered server element makes it
  throw before it changes anything.
- The colour comes from whichever colour option is marked selected. When none is, reading it
  throws after validation, and nothing is sent.
- `x?.id || null` also turns an empty id into null.

## Model

| member | source | states |
|---|---|---|
| Text.TrimStartSpec | src/app.js:91-92 | leading trim keeps a suffix, drops only whitespace, and the kept part does not start with whitespace |
| Text.TrimEndSpec | src/app.js:91-92 | trailing trim keeps a prefix, drops only whitespace, and the kept part does not end with whitespace |
| Text.TrimSpec | src/app.js:91-92 | `trim` is empty exactly for whitespace-only input; otherwise it is the middle slice of the input with only whitespace around it, and neither starts nor ends with whitespace |
| Text.StripOneSlash | src/app.js:107 | removes exactly one trailing `/` when there is one, otherwise returns the input |
| Text.TrimEndSlashes | src-tauri/src/lib.rs:116 | the result is a prefix of the input, everything removed is `/`, and it does not end in `/` |
| Text.TrimEndSlashesUnique | src-tauri/src/lib.rs:116 | those three properties determine `trim_end_matches('/')` uniquely |
| Text.TrimEndSlashesAfterStrip | src-tauri/src/lib.rs:115-118 | the backend's normalisation of a URL the client already stripped equals its normalisation of the unstripped URL |
| Text.TrimEndSlashesIdempotent | src-tauri/src/lib.rs:116 | normalising a stored URL again changes nothing |
| Text.Decimal | src-tauri/src/lib.rs:97 | a status code's text is non-empty decimal digits without a leading zero |
| Text.DecimalRoundTrip | src-tauri/src/lib.rs:97 | reading the digits back gives the status code |
| Backend.ParseMethod | src-tauri/src/lib.rs:70-76 | exactly GET, POST, PUT and DELETE are accepted, and each maps to the method with that name |
| Backend.ParseMethodName | src-tauri/src/lib.rs:70-75 | every method's name is accepted and parses back to that method |
| Backend.Interpret | src-tauri/src/lib.rs:86-105 | success exactly for a 2xx status with parseable JSON, carrying that JSON; a transport error becomes "Request failed: …"; a non-2xx status becomes "HTTP <status>: <body or Unknown error>"; a 2xx body that is not JSON becomes "Failed to parse JSON: …" |
| Backend.HttpErrorCarriesStatus | src-tauri/src/lib.rs:91-97 | a non-success error starts with "HTTP " and the status code's digits, which read back as the code |
| Backend.MakeApiRequest | src-tauri/src/lib.rs:62-106 | a request is sent exactly for the four methods, with the URL, the headers `Content-Type: application/json` and `x-api-secret: <secret>` in that order, and the body; any other method fails with "Unsupported HTTP method" and sends nothing |
| Backend.AppState.constructor | src-tauri/src/lib.rs:53-59 | the configuration slot starts empty |
| Backend.AppState.SetApiConfig | src-tauri/src/lib.rs:110-128 | replaces any stored configuration with the URL minus all trailing `/` and the secret unchanged, and acknowledges |
| Backend.StoredUrlJoinsCleanly | src-tauri/src/lib.rs:138 | a stored URL followed by an `/api/...` path never has a doubled slash at the join |
| Backend.GetServers | src-tauri/src/lib.rs:131-141 | with no configuration: error and no request; otherwise GET `<url>/api/servers` with the secret, and the reply decides the result |
| Backend.GetChannels | src-tauri/src/lib.rs:144-154 | with no configuration: error and no request; otherwise GET `<url>/api/channels/<server id>` |
| Backend.SearchUsers | src-tauri/src/lib.rs:157-168 | with no configuration: error and no request; otherwise GET `<url>/api/users/search/<encoded query>` |
| Backend.SendSimpleMessage | src-tauri/src/lib.rs:171-210 | the configuration is checked first, then the recipient; a channel id posts `{channelId, message}` to `/api/send-message` even when a user id is also given; a user id alone posts `{userId, message}` to `/api/send-dm`; neither id gives "Either channel_id or user_id must be provided" with no request; a success is wrapped as "Message sent successfully" |
| Backend.SendEmbedMessage | src-tauri/src/lib.rs:213-245 | sends exactly when configured, always a POST to `/api/send-embed` with the JSON content type and the stored API secret, passing both ids and the embed through; `type` is "channel" if and only if a channel id is given, otherwise "dm" |
| Backend.TestConnection | src-tauri/src/lib.rs:248-265 | with no configuration: error and no request; otherwise GET `<url>/api/servers`, and a failure gets the prefix "Connection failed: " |
| ClientLogic.ConnectRequest | src/app.js:91-109 | no backend call exactly when a trimmed field is empty; otherwise the trimmed secret, and the trimmed URL with exactly one trailing `/` removed when it ends in one and unchanged otherwise |
| ClientLogic.ConnectRefusesBlankFields | src/app.js:91-97 | `connect` returns early exactly when a field is whitespace only |
| ClientLogic.ConnectStoresNormalisedUrl | src/app.js:105-109 | after the backend normalises it, the stored config is the trimmed URL without any trailing `/`, plus the trimmed secret |
| ClientLogic.ServersOutcome | src/app.js:114-126 | connect succeeds exactly when the reply holds a non-null guild list; otherwise the error is the rejection or "Error: Invalid server response" |
| ClientLogic.FirstServerIndex | src/app.js:191 | the first server with the clicked id in document order, or none when no server has that id |
| ClientLogic.Toggled | src/app.js:194-201 | after a click, at most one server is expanded: the clicked one, and only if it was closed |
| ClientLogic.ToggleTwiceClosesAll | src/app.js:192-202 | opening a closed server and clicking it again leaves nothing expanded |
| ClientLogic.ChannelPanelFor | src/app.js:208-224 | the container shows the list for a reply with channels, "none found" for a reply without them, and a rejection's own error text for a rejection |
| ClientLogic.PendingSearch | src/app.js:44-54 | a search is scheduled exactly when the trimmed query has two or more characters, and it carries that query |
| ClientLogic.BurstKeepsLastQuery | src/app.js:44-54 | after any burst of input events, the only pending search is the one the last event scheduled |
| ClientLogic.DmsPanelFor | src/app.js:254-277 | a non-empty user array is listed; null, a non-array or an empty array shows "no users"; a rejection shows its own error text |
| ClientLogic.CheckSend | src/app.js:346-359 | the send is ready exactly when there is content, a target and a connection; otherwise the first missing one is named, in that order |
| ClientLogic.CheckNotice | src/app.js:343-397 | each failed check shows its own error text; the embed flow names the title or description |
| ClientLogic.OrNull | src/app.js:365-366 | an empty string becomes null, anything else is kept |
| ClientLogic.SimpleCallFor | src/app.js:364-368 | the ids come from whichever target is set and are never both present; an empty id becomes null; the message is passed on |
| ClientLogic.Keyed | src/app.js:407-409 | an empty value gives null, otherwise a one-key object |
| ClientLogic.EmbedFor | src/app.js:399-411 | trimmed fields, with each empty title, description, thumbnail, image or footer turned into null; the selected colour and the timestamp; no author and no fields |
| ClientLogic.EmbedContentIsTitleOrDescription | src/app.js:381-405 | the embed content check passes exactly when the payload carries a title or a description |
| ClientLogic.EmbedHasNoEmptyText | src/app.js:399-409 | no text field of the embed payload is an empty string |
| ClientLogic.SimpleSendToChannelRoutes | src-tauri/src/lib.rs:183-188 | a simple send to a selected channel reaches `/api/send-message` with that channel id |
| ClientLogic.SimpleSendToUserRoutes | src-tauri/src/lib.rs:189-194 | a simple send to a selected user reaches `/api/send-dm` with that user id |
| ClientLogic.EmbedSendType | src-tauri/src/lib.rs:225-231 | an embed sent from the client has type "channel" exactly when a channel with a non-empty id is selected |
| Controller.DiscordBotController.constructor | src/app.js:5-13 | disconnected, no servers, no target, nothing pending, empty inputs, and the given colour selected |
| Controller.DiscordBotController.Connect | src/app.js:90-109 | a disabled button does nothing; a blank field shows an error and changes no status; otherwise the status becomes connecting, the button is disabled and set_api_config is called with the normalised arguments |
| Controller.DiscordBotController.FailConnect | src/app.js:127-134 | every failure leaves the session disconnected with `isConnected` false, never connecting, and the button enabled |
| Controller.DiscordBotController.OnConfigSettled | src/app.js:106-114 | a rejection fails the connect; otherwise get_servers is called next |
| Controller.DiscordBotController.OnServersReply | src/app.js:114-134 | a guild list connects and re-renders the servers, all collapsed and loading, as a new rendering; anything else disconnects and keeps the list and its rendering; the button is re-enabled either way |
| Controller.DiscordBotController.RenderServers | src/app.js:157-188 | the list is rebuilt from the guilds, collapsed, with a loading container per server, and counted as a new rendering, so every fetch still pending refers to a replaced container |
| Controller.DiscordBotController.CollapseAll | src/app.js:195-197 | every server loses its expanded mark and the list keeps its length |
| Controller.DiscordBotController.ToggleServer | src/app.js:190-203 | all servers collapse, the clicked one re-opens only if it was closed, and its channels are fetched exactly then, for the clicked server's container in the current rendering, which becomes a pending fetch; at most one server stays expanded |
| Controller.DiscordBotController.OnChannelsReply | src/app.js:205-225 | only a pending fetch can settle, and it stops being pending; if the list has not been re-rendered since it was issued, its own container shows the channels, "none found" or the error, and otherwise no container changes |
| Controller.DiscordBotController.SelectChannel | src/app.js:227-243 | the channel becomes the target and the user is cleared |
| Controller.DiscordBotController.SelectUser | src/app.js:292-307 | the user becomes the target and the channel is cleared |
| Controller.DiscordBotController.OnSearchInput | src/app.js:44-54 | the pending search is cancelled; a short query clears the list and schedules nothing; a longer one is scheduled |
| Controller.DiscordBotController.SearchUsers | src/app.js:245-253 | no backend call while disconnected, shows "not connected"; otherwise shows loading and calls search_users with the query |
| Controller.DiscordBotController.OnSearchTimerFired | src/app.js:53 | the scheduled query is searched once and the timer is gone |
| Controller.DiscordBotController.OnSearchReply | src/app.js:254-269 | any reply replaces the result list, whichever query it answers |
| Controller.DiscordBotController.EditSimpleMessage | src/app.js:344 | the message box holds what the operator typed |
| Controller.DiscordBotController.EditEmbedForm | src/app.js:381-401 | the five embed inputs hold what the operator typed |
| Controller.DiscordBotController.SelectColor | src/app.js:323-329 | the clicked colour becomes the selected one |
| Controller.DiscordBotController.SendSimpleMessage | src/app.js:343-368 | checks content, then target, then connection; a failure shows its error and sends nothing; on success the button is disabled and the payload comes from the single target; the message box is untouched |
| Controller.DiscordBotController.OnSimpleSendSettled | src/app.js:369-377 | success clears the message box, failure keeps it and shows the error; the button is re-enabled |
| Controller.DiscordBotController.SendEmbedMessage | src/app.js:380-420 | the same three checks with title-or-description as the content; no call without a selected colour; otherwise the button is disabled and the embed payload is sent to the single target |
| Controller.DiscordBotController.OnEmbedSendSettled | src/app.js:421-436 | success clears all five embed inputs, failure keeps them and shows the error; the button is re-enabled |
| Scenario.ExampleCredentials | src/app.js:91-109 | a URL with a trailing slash and a secret with surrounding spaces are submitted without either |
| Scenario.StartConnect | src/app.js:90-114 | the example credentials start a connect, and once set_api_config accepts them the client waits for get_servers |
| Scenario.ConnectToExampleBot | src/app.js:90-135 | a successful connect with two guilds, from any idle session, leaves it connected with both listed, collapsed and loading, as a new rendering; pending fetches and the send target are kept |
| Scenario.OpenSession | src/app.js:90-135 | a fresh controller connected this way has no pending fetch and no target |
| Scenario.OpenAndCloseServer | src/app.js:190-203 | opening then closing a server fetches its channels once, and nothing stays expanded |
| Scenario.SendToUserAfterChannel | src/app.js:227-378 | choosing a channel then a user sends "hello" to the user only and clears the box |
| Scenario.ChannelReplyAfterReconnect | src/app.js:205-225 | a channel reply that arrives after a successful reconnect leaves every container loading |
| Scenario.ChannelReplyAfterReopen | src/app.js:205-225 | after a reconnect, re-opening the server issues a fetch whose reply fills its container |
| Scenario.EmbedWithOnlyFooter | src/app.js:380-397 | an embed with only a footer is refused with the title-or-description error and nothing is sent |

## Left out

- DOM rendering and templating is not modelled: `renderServers`, `renderDMUsers`,
  `updateEmbedPreview`, `switchTab`, the status text, the selection highlight and the header texts
  that `selectChannel` and `selectUser` write. Only the state they show is kept.
- `escapeHtml` is not modelled, because it relies on the browser's HTML serialisation.
- Notifications: the model keeps only the notification on screen. Each new one replaces the old
  one. The 5-second auto-dismissal and its animation are left out, because they are timers.
- The search debounce is a pending-query slot. The 300 ms delay itself is wall-clock time and is
  left out.
- `loadSettings` and `saveSettings` are not modelled, because they are external `localStorage`
  persistence.
- Console logging is left out.
- The timestamp is an input (`now`), because `new Date()` is a clock.
- Decoding a backend response into servers, channels or users is left out, because it is serde
  and JSON work. The client's replies carry the decoded value, or None for a null or malformed
  response.
- DOM calls can throw inside the `try` blocks, for example when rendering malformed data. Those
  exceptions are not modelled.
- `reqwest`, the `tokio` mutex, the Tauri builder and `greet` are not modelled, because they are
  foreign I/O and plumbing. Commands take the configuration slot's value and the HTTP reply as
  inputs.
- Backend.SearchUsers: `urlencoding::encode` is a function parameter, because that library is not
  part of this model.
- Backend.SendSimpleMessage: the "Failed to serialize payload" error is not modelled. Request bodies
  are payload values, not serialised strings, and serialising a `json!` literal cannot fail.
- Backend.SendEmbedMessage: the same holds for its "Failed to serialize payload" error.
- Backend.Interpret: a status code's canonical reason is an input, because that table belongs to
  the `http` crate. Status codes are limited to 100-999, the range an HTTP `StatusCode` accepts.
- Controller.DiscordBotController.OnSearchInput: the two-character check counts Unicode scalar
  values. JavaScript counts UTF-16 code units, so the two differ for characters outside the Basic
  Multilingual Plane.
- Controller.DiscordBotController.constructor: the initially selected colour comes from the page's
  markup, which is not part of this model, so it is a parameter. None means no option is marked
  selected.
