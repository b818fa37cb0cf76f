/**
 * The decisions the browser-side controller (src/app.js) takes on its inputs, as
 * functions: what `connect` submits, which server element a click refers to, how the
 * expanded flags change, what the search box schedules, which send precondition fails
 * first, and what the send payloads carry. Controller.DiscordBotController applies them
 * to its fields; the lemmas here also follow a payload into the backend's routing.
 */
module ClientLogic {
  import opened Common
  import opened Text
  import Backend

  datatype ConnStatus = Disconnected | Connecting | Connected

  datatype Server = Server(id: string, name: string, icon: Option<string>)
  datatype Channel = Channel(id: string, name: string)
  datatype User = User(id: string, username: string, displayName: Option<string>, avatar: Option<string>)

  datatype ChannelTarget = ChannelTarget(serverId: string, channelId: string, channelName: string)
  datatype UserTarget = UserTarget(userId: string, username: string, displayName: string)

  /** How an awaited backend call that returns nothing useful settles. */
  datatype Settled = Fulfilled | Rejected(error: string)

  /** How an awaited backend call that returns data settles: rejected, or resolved with the
      expected collection, or with `None` when the response is null or lacks it. */
  datatype Reply<T> = Failed(error: string) | Resolved(value: Option<T>)

  datatype NoticeKind = SuccessNotice | ErrorNotice
  datatype Notification = Notification(kind: NoticeKind, text: string)

  /** The content of a server's channel container. */
  datatype ChannelPanel = LoadingChannels | ChannelList(channels: seq<Channel>) | NoChannels | ChannelLoadError(error: string)

  /** The content of the direct-message search result list. */
  datatype DmsPanel = EmptyList | NotConnectedNotice | SearchingNotice | NoUsersFound | UserList(users: seq<User>) | SearchFailed(error: string)

  /** The outcome of the checks both send flows run before calling the backend. */
  datatype SendCheck = MissingContent | MissingTarget | NotConnected | Ready

  /** The raw values of the five embed inputs. */
  datatype EmbedForm = EmbedForm(title: string, description: string, thumbnail: string, image: string, footer: string)

  /** The arguments passed to the send_simple_message and send_embed_message commands. */
  datatype SimpleCall = SimpleCall(channelId: Option<string>, userId: Option<string>, message: string)
  datatype EmbedCall = EmbedCall(channelId: Option<string>, userId: Option<string>, embedData: Backend.EmbedData)

  const MissingCredentialsText := "Bitte geben Sie Server URL und API Secret ein"
  const ConnectedText := "Erfolgreich verbunden!"
  const ConnectErrorPrefix := "Verbindungsfehler: "
  const InvalidServerResponse := "Error: Invalid server response"
  const EmptyMessageText := "Bitte geben Sie eine Nachricht ein"
  const EmptyEmbedText := "Bitte geben Sie mindestens einen Titel oder eine Beschreibung ein"
  const NoTargetText := "Bitte w\U{00E4}hlen Sie einen Kanal oder Benutzer aus"
  const NotConnectedText := "Nicht mit dem Bot-Server verbunden"
  const SimpleSentText := "Nachricht erfolgreich gesendet!"
  const EmbedSentText := "Embed-Nachricht erfolgreich gesendet!"
  const SendErrorPrefix := "Fehler beim Senden: "

  // ---------------------------------------------------------------- connection

  /** The arguments `connect` passes to set_api_config, or None when it returns early
      because a trimmed field is empty. */
  function ConnectRequest(serverUrlField: string, apiSecretField: string): (c: Option<Backend.ApiConfig>)
    ensures c.None? <==> Trim(serverUrlField) == [] || Trim(apiSecretField) == []
    ensures c.Some? ==> c.value.apiSecret == Trim(apiSecretField)
    ensures c.Some? && EndsWithSlash(Trim(serverUrlField)) ==> c.value.serverUrl + "/" == Trim(serverUrlField)
    ensures c.Some? && !EndsWithSlash(Trim(serverUrlField)) ==> c.value.serverUrl == Trim(serverUrlField)
  {
    var url := Trim(serverUrlField);
    var secret := Trim(apiSecretField);
    if url == [] || secret == [] then None
    else Some(Backend.ApiConfig(StripOneSlash(url), secret))
  }

  /** `connect` returns early exactly when one of the two fields holds nothing but whitespace. */
  lemma ConnectRefusesBlankFields(serverUrlField: string, apiSecretField: string)
    ensures ConnectRequest(serverUrlField, apiSecretField).None? <==>
              (forall i :: 0 <= i < |serverUrlField| ==> IsJsSpace(serverUrlField[i]))
              || (forall i :: 0 <= i < |apiSecretField| ==> IsJsSpace(apiSecretField[i]))
  {
    TrimSpec(serverUrlField);
    TrimSpec(apiSecretField);
  }

  /** Whatever the client strips, the backend ends up storing the trimmed URL without any
      trailing slash and the trimmed secret. */
  lemma ConnectStoresNormalisedUrl(serverUrlField: string, apiSecretField: string)
    requires ConnectRequest(serverUrlField, apiSecretField).Some?
    ensures var c := ConnectRequest(serverUrlField, apiSecretField).value;
            Backend.ApiConfig(TrimEndSlashes(c.serverUrl), c.apiSecret)
              == Backend.ApiConfig(TrimEndSlashes(Trim(serverUrlField)), Trim(apiSecretField))
  {
    TrimEndSlashesAfterStrip(Trim(serverUrlField));
  }

  /** What the get_servers reply means for `connect`: the guild list when present,
      otherwise the text that follows "Verbindungsfehler: ". */
  function ServersOutcome(reply: Reply<seq<Server>>): (r: Result<seq<Server>, string>)
    ensures r.Success? <==> reply.Resolved? && reply.value.Some?
    ensures r.Success? ==> r.value == reply.value.value
    ensures reply.Failed? ==> r == Failure(reply.error)
    ensures reply.Resolved? && reply.value.None? ==> r == Failure(InvalidServerResponse)
  {
    match reply
    case Failed(e) => Failure(e)
    case Resolved(None) => Failure(InvalidServerResponse)
    case Resolved(Some(guilds)) => Success(guilds)
  }

  // ---------------------------------------------------------------- navigation

  /** The index of the first server element with this id (document order), if any. */
  function FirstServerIndex(servers: seq<Server>, id: string): (k: Option<nat>)
    ensures k.None? <==> forall j :: 0 <= j < |servers| ==> servers[j].id != id
    ensures k.Some? ==> k.value < |servers| && servers[k.value].id == id
                        && forall j :: 0 <= j < k.value ==> servers[j].id != id
  {
    if servers == [] then None
    else if servers[0].id == id then Some(0)
    else match FirstServerIndex(servers[1..], id)
      case None => None
      case Some(k) => Some(k + 1)
  }

  /** No two server elements are expanded at once. */
  ghost predicate AtMostOneExpanded(expanded: seq<bool>) {
    forall i, j :: 0 <= i < |expanded| && 0 <= j < |expanded| && expanded[i] && expanded[j] ==> i == j
  }

  /** The expanded flags after a click on element `k`: everything collapses, and `k`
      re-opens only if it was closed. */
  function Toggled(expanded: seq<bool>, k: nat): (r: seq<bool>)
    requires k < |expanded|
    ensures |r| == |expanded| && AtMostOneExpanded(r)
    ensures r[k] == !expanded[k]
    ensures forall j :: 0 <= j < |r| && j != k ==> !r[j]
  {
    seq(|expanded|, j => j == k && !expanded[k])
  }

  /** Opening a closed server and clicking it again leaves nothing expanded. */
  lemma ToggleTwiceClosesAll(expanded: seq<bool>, k: nat)
    requires k < |expanded| && !expanded[k]
    ensures forall j :: 0 <= j < |expanded| ==> !Toggled(Toggled(expanded, k), k)[j]
  {
  }

  /** The channel container's content for a get_channels reply. */
  function ChannelPanelFor(reply: Reply<seq<Channel>>): (p: ChannelPanel)
    ensures p.ChannelList? <==> reply.Resolved? && reply.value.Some?
    ensures p.ChannelList? ==> p.channels == reply.value.value
    ensures p == NoChannels <==> reply == Resolved(None)
    ensures p.ChannelLoadError? <==> reply.Failed?
    ensures reply.Failed? ==> p == ChannelLoadError(reply.error)
  {
    match reply
    case Failed(e) => ChannelLoadError(e)
    case Resolved(None) => NoChannels
    case Resolved(Some(channels)) => ChannelList(channels)
  }

  // ---------------------------------------------------------------- user search

  /** The search scheduled after an input event: the previous timer is always cancelled;
      a new one holds the trimmed query when it has at least two characters. */
  function PendingSearch(field: string): (pending: Option<string>)
    ensures pending.Some? <==> |Trim(field)| >= 2
    ensures pending.Some? ==> pending.value == Trim(field)
  {
    var query := Trim(field);
    if |query| < 2 then None else Some(query)
  }

  /** The pending search after a burst of input events, starting from `pending`. */
  function PendingAfter(pending: Option<string>, fields: seq<string>): Option<string>
    decreases |fields|
  {
    if fields == [] then pending else PendingAfter(PendingSearch(fields[0]), fields[1..])
  }

  /** After a burst of input events at most one search is pending, and it is the one the
      last event scheduled: the earlier timers were all cancelled. */
  lemma {:induction false} BurstKeepsLastQuery(pending: Option<string>, fields: seq<string>)
    requires fields != []
    ensures PendingAfter(pending, fields) == PendingSearch(fields[|fields| - 1])
    decreases |fields|
  {
    if |fields| > 1 {
      BurstKeepsLastQuery(PendingSearch(fields[0]), fields[1..]);
    }
  }

  /** The result list's content for a search_users reply; the list is replaced by whichever
      reply arrives, with no check that it answers the latest query. */
  function DmsPanelFor(reply: Reply<seq<User>>): (p: DmsPanel)
    ensures p.UserList? <==> reply.Resolved? && reply.value.Some? && reply.value.value != []
    ensures p.UserList? ==> p.users == reply.value.value
    ensures p == NoUsersFound <==> reply == Resolved(None) || reply == Resolved(Some([]))
    ensures p.SearchFailed? <==> reply.Failed?
    ensures reply.Failed? ==> p == SearchFailed(reply.error)
  {
    match reply
    case Failed(e) => SearchFailed(e)
    case Resolved(None) => NoUsersFound
    case Resolved(Some(users)) => if users == [] then NoUsersFound else UserList(users)
  }

  // ---------------------------------------------------------------- composer

  /** The send preconditions in the source's order: content, then a target, then the
      connection; the first that fails is reported. */
  function CheckSend(hasContent: bool, channel: Option<ChannelTarget>, user: Option<UserTarget>,
                     connected: bool): (c: SendCheck)
    ensures c == Ready <==> hasContent && (channel.Some? || user.Some?) && connected
    ensures c == MissingContent <==> !hasContent
    ensures c == MissingTarget <==> hasContent && channel.None? && user.None?
    ensures c == NotConnected <==> hasContent && (channel.Some? || user.Some?) && !connected
  {
    if !hasContent then MissingContent
    else if channel.None? && user.None? then MissingTarget
    else if !connected then NotConnected
    else Ready
  }

  /** The error notification for a failed check; `embed` selects the embed flow's wording. */
  function CheckNotice(c: SendCheck, embed: bool): (n: Notification)
    requires c != Ready
    ensures n.kind == ErrorNotice
    ensures n.text == EmptyMessageText <==> c == MissingContent && !embed
    ensures n.text == EmptyEmbedText <==> c == MissingContent && embed
    ensures n.text == NoTargetText <==> c == MissingTarget
    ensures n.text == NotConnectedText <==> c == NotConnected
  {
    match c
    case MissingContent => Notification(ErrorNotice, if embed then EmptyEmbedText else EmptyMessageText)
    case MissingTarget => Notification(ErrorNotice, NoTargetText)
    case NotConnected => Notification(ErrorNotice, NotConnectedText)
  }

  /** JavaScript's `s || null` on a string: the empty string becomes null. */
  function OrNull(s: string): (r: Option<string>)
    ensures r.None? <==> s == []
    ensures r.Some? ==> r.value == s
  {
    if s == [] then None else Some(s)
  }

  /** `selectedChannel?.channelId || null`. */
  function ChannelIdOf(channel: Option<ChannelTarget>): Option<string> {
    if channel.Some? then OrNull(channel.value.channelId) else None
  }

  /** `selectedUser?.userId || null`. */
  function UserIdOf(user: Option<UserTarget>): Option<string> {
    if user.Some? then OrNull(user.value.userId) else None
  }

  /** The arguments of send_simple_message for the current target and trimmed message. */
  function SimpleCallFor(channel: Option<ChannelTarget>, user: Option<UserTarget>, message: string): (call: SimpleCall)
    requires !(channel.Some? && user.Some?)
    ensures !(call.channelId.Some? && call.userId.Some?)
    ensures call.channelId.Some? <==> channel.Some? && channel.value.channelId != []
    ensures call.userId.Some? <==> user.Some? && user.value.userId != []
    ensures call.channelId.Some? ==> call.channelId.value == channel.value.channelId
    ensures call.userId.Some? ==> call.userId.value == user.value.userId
    ensures call.message == message
  {
    SimpleCall(ChannelIdOf(channel), UserIdOf(user), message)
  }

  /** `value ? { key: value } : null`. */
  function Keyed(key: string, value: string): (r: Option<map<string, string>>)
    ensures r.None? <==> value == []
    ensures r.Some? ==> r.value == map[key := value]
  {
    if value == [] then None else Some(map[key := value])
  }

  /** The `embedData` object: trimmed fields, empty ones as null; the selected colour and
      the send-time timestamp; no author and no fields. */
  function EmbedFor(form: EmbedForm, color: string, timestamp: string): (e: Backend.EmbedData)
    ensures e.title == OrNull(Trim(form.title)) && e.description == OrNull(Trim(form.description))
    ensures e.thumbnail.None? <==> Trim(form.thumbnail) == []
    ensures e.thumbnail.Some? ==> e.thumbnail.value == map["url" := Trim(form.thumbnail)]
    ensures e.image.None? <==> Trim(form.image) == []
    ensures e.image.Some? ==> e.image.value == map["url" := Trim(form.image)]
    ensures e.footer.None? <==> Trim(form.footer) == []
    ensures e.footer.Some? ==> e.footer.value == map["text" := Trim(form.footer)]
    ensures e.color == Some(color) && e.timestamp == Some(timestamp)
    ensures e.author.None? && e.fields.None?
  {
    Backend.EmbedData(
      OrNull(Trim(form.title)), OrNull(Trim(form.description)), Some(color),
      Keyed("url", Trim(form.thumbnail)), Keyed("url", Trim(form.image)), Keyed("text", Trim(form.footer)),
      None, None, Some(timestamp))
  }

  /** The embed check's "content" is exactly what makes the payload carry a title or a description. */
  lemma EmbedContentIsTitleOrDescription(form: EmbedForm, color: string, timestamp: string)
    ensures var e := EmbedFor(form, color, timestamp);
            (Trim(form.title) != [] || Trim(form.description) != []) <==> (e.title.Some? || e.description.Some?)
  {
  }

  /** No text field of the embed payload is an empty string: empty inputs become null. */
  lemma EmbedHasNoEmptyText(form: EmbedForm, color: string, timestamp: string)
    ensures var e := EmbedFor(form, color, timestamp);
            (e.title.Some? ==> e.title.value != [])
            && (e.description.Some? ==> e.description.value != [])
            && (e.thumbnail.Some? ==> e.thumbnail.value["url"] != [])
            && (e.image.Some? ==> e.image.value["url"] != [])
            && (e.footer.Some? ==> e.footer.value["text"] != [])
  {
  }

  // ---------------------------------------------------------------- client and backend together

  /** A simple send to a selected channel reaches /api/send-message with that channel id. */
  lemma SimpleSendToChannelRoutes(config: Backend.ApiConfig, channel: ChannelTarget, message: string,
                                  reply: Backend.HttpReply)
    requires channel.channelId != []
    ensures var call := SimpleCallFor(Some(channel), None, message);
            var x := Backend.SendSimpleMessage(Some(config), call.channelId, call.userId, call.message, reply);
            x.sent == Some(Backend.Request(Backend.Post, config.serverUrl + "/api/send-message",
                                           Backend.Headers(config.apiSecret),
                                           Some(Backend.ChannelMessage(channel.channelId, message))))
  {
  }

  /** A simple send to a selected user reaches /api/send-dm with that user id. */
  lemma SimpleSendToUserRoutes(config: Backend.ApiConfig, user: UserTarget, message: string,
                               reply: Backend.HttpReply)
    requires user.userId != []
    ensures var call := SimpleCallFor(None, Some(user), message);
            var x := Backend.SendSimpleMessage(Some(config), call.channelId, call.userId, call.message, reply);
            x.sent == Some(Backend.Request(Backend.Post, config.serverUrl + "/api/send-dm",
                                           Backend.Headers(config.apiSecret),
                                           Some(Backend.DirectMessage(user.userId, message))))
  {
  }

  /** An embed sent from the client is typed "dm" exactly when the target is a user (or a
      channel whose id is empty, which `|| null` turns into null). */
  lemma EmbedSendType(config: Backend.ApiConfig, channel: Option<ChannelTarget>, user: Option<UserTarget>,
                      embed: Backend.EmbedData, reply: Backend.HttpReply)
    requires !(channel.Some? && user.Some?)
    ensures var x := Backend.SendEmbedMessage(Some(config), ChannelIdOf(channel), UserIdOf(user), embed, reply);
            x.sent.Some? && x.sent.value.body.Some?
            && (x.sent.value.body.value.messageType == "channel" <==> channel.Some? && channel.value.channelId != [])
  {
  }
}
