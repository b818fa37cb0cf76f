/**
 * The browser-side session controller (`DiscordBotController`, src/app.js) as a class.
 *
 * Each event handler is a method. An `async` handler is split at its `await`s: the
 * method for the event returns the backend call it issues (None when it issues none),
 * and a separate method applies the call's settlement when it arrives. Ghost fields
 * record which continuations are pending, so a settlement is only applied to a call
 * that was issued. DOM content the handlers write is kept as plain state: the status
 * indicator, the expanded flags and channel container of each server (with a count of
 * how often the server list was rendered, since a re-rendering replaces the containers), the search result
 * list, the input fields, the disabled buttons and the notification on screen.
 */
module Controller {
  import opened Common
  import opened Text
  import Backend
  import opened ClientLogic

  /** Where an in-flight `connect` is suspended. */
  datatype ConnectStep = Idle | AwaitingConfig | AwaitingServers

  /** What fired `sendSimpleMessage`: the button (ignored while it is disabled) or Ctrl+Enter. */
  datatype Trigger = ButtonClick | CtrlEnter

  /** A get_channels call `loadChannels` issued, with the channel container it looked up
      before awaiting: the `container`-th one of the server list rendered as `epoch`. */
  datatype ChannelFetch = ChannelFetch(serverId: string, container: nat, epoch: nat)

  class DiscordBotController {
    var isConnected: bool
    var status: ConnStatus
    var connectButtonDisabled: bool
    ghost var connectStep: ConnectStep

    var servers: seq<Server>
    var expanded: seq<bool>
    var channelPanels: seq<ChannelPanel>
    /** Counts the renderings of the server list; each one replaces every channel container. */
    var renderEpoch: nat
    ghost var channelFetches: multiset<ChannelFetch>

    var selectedChannel: Option<ChannelTarget>
    var selectedUser: Option<UserTarget>

    var searchTimer: Option<string>
    var dmsPanel: DmsPanel
    ghost var searchesInFlight: nat

    var simpleMessage: string
    var sendSimpleDisabled: bool
    ghost var simpleSendsInFlight: nat

    var embedForm: EmbedForm
    var selectedColor: Option<string>
    var sendEmbedDisabled: bool
    ghost var embedSendsInFlight: nat

    var notification: Option<Notification>

    /** The status agrees with `isConnected` whenever no connect is in flight, and the
        connect button is disabled exactly while one is. */
    ghost predicate ConnectionConsistent()
      reads this`connectStep, this`status, this`isConnected, this`connectButtonDisabled
    {
      && (connectStep == Idle ==> status != Connecting && (isConnected <==> status == Connected))
      && (connectStep != Idle ==> status == Connecting)
      && (connectButtonDisabled <==> connectStep != Idle)
    }

    /** Every rendered server has an expanded flag and a channel container, at most one is
        expanded, and a pending fetch of the current rendering names one of its containers. */
    ghost predicate ServerListConsistent()
      reads this`servers, this`expanded, this`channelPanels, this`renderEpoch, this`channelFetches
    {
      && |expanded| == |servers| && |channelPanels| == |servers|
      && AtMostOneExpanded(expanded)
      && (forall f :: f in channelFetches ==>
            f.epoch <= renderEpoch && (f.epoch == renderEpoch ==> f.container < |servers|))
    }

    /** At most one send target is set, and a disabled send button has a send in flight. */
    ghost predicate ComposerConsistent()
      reads this`selectedChannel, this`selectedUser, this`sendSimpleDisabled, this`simpleSendsInFlight,
            this`sendEmbedDisabled, this`embedSendsInFlight
    {
      && !(selectedChannel.Some? && selectedUser.Some?)
      && (sendSimpleDisabled ==> simpleSendsInFlight > 0)
      && (sendEmbedDisabled <==> embedSendsInFlight > 0)
      && embedSendsInFlight <= 1
    }

    /** The session invariant. */
    ghost predicate Valid()
      reads this
    {
      ConnectionConsistent() && ServerListConsistent() && ComposerConsistent()
    }

    /** The state after page load; `color` is the colour option marked selected, if any. */
    constructor (color: Option<string>)
      ensures Valid()
      ensures !isConnected && status == Disconnected && connectStep == Idle && !connectButtonDisabled
      ensures servers == [] && expanded == [] && channelPanels == []
      ensures renderEpoch == 0 && channelFetches == multiset{}
      ensures selectedChannel.None? && selectedUser.None?
      ensures searchTimer.None? && dmsPanel == EmptyList && searchesInFlight == 0
      ensures simpleMessage == [] && !sendSimpleDisabled && simpleSendsInFlight == 0
      ensures embedForm == EmbedForm([], [], [], [], []) && selectedColor == color
      ensures !sendEmbedDisabled && embedSendsInFlight == 0
      ensures notification.None?
    {
      isConnected := false;
      status := Disconnected;
      connectButtonDisabled := false;
      connectStep := Idle;
      servers, expanded, channelPanels := [], [], [];
      renderEpoch, channelFetches := 0, multiset{};
      selectedChannel, selectedUser := None, None;
      searchTimer, dmsPanel, searchesInFlight := None, EmptyList, 0;
      simpleMessage, sendSimpleDisabled, simpleSendsInFlight := [], false, 0;
      embedForm := EmbedForm([], [], [], [], []);
      selectedColor := color;
      sendEmbedDisabled, embedSendsInFlight := false, 0;
      notification := None;
    }

    // ------------------------------------------------------------ connection

    /** A click on the connect button. Returns the set_api_config arguments when the
        connection attempt starts; with an empty trimmed field it only shows an error. */
    method Connect(serverUrlField: string, apiSecretField: string) returns (call: Option<Backend.ApiConfig>)
      requires Valid()
      modifies this`status, this`connectButtonDisabled, this`connectStep, this`notification
      ensures Valid()
      ensures old(connectButtonDisabled) ==> call.None? && status == old(status) && connectStep == old(connectStep) && notification == old(notification) && connectButtonDisabled
      ensures !old(connectButtonDisabled) ==> call == ConnectRequest(serverUrlField, apiSecretField)
      ensures !old(connectButtonDisabled) && call.None? ==>
                notification == Some(Notification(ErrorNotice, MissingCredentialsText))
                && status == old(status) && connectStep == Idle && !connectButtonDisabled
      ensures call.Some? ==>
                status == Connecting && connectStep == AwaitingConfig && connectButtonDisabled
                && notification == old(notification)
    {
      if connectButtonDisabled {
        // A disabled button dispatches no click.
        return None;
      }
      call := ConnectRequest(serverUrlField, apiSecretField);
      if call.None? {
        notification := Some(Notification(ErrorNotice, MissingCredentialsText));
        return;
      }
      status := Connecting;
      connectButtonDisabled := true;
      connectStep := AwaitingConfig;
    }

    /** The catch and finally blocks of `connect`. */
    method FailConnect(error: string)
      requires Valid() && connectStep != Idle
      modifies this`isConnected, this`status, this`connectButtonDisabled, this`connectStep, this`notification
      ensures Valid()
      ensures !isConnected && status == Disconnected && !connectButtonDisabled && connectStep == Idle
      ensures notification == Some(Notification(ErrorNotice, ConnectErrorPrefix + error))
    {
      isConnected := false;
      status := Disconnected;
      notification := Some(Notification(ErrorNotice, ConnectErrorPrefix + error));
      connectButtonDisabled := false;
      connectStep := Idle;
    }

    /** set_api_config settles. Returns whether get_servers is called next. */
    method OnConfigSettled(outcome: Settled) returns (requestServers: bool)
      requires Valid() && connectStep == AwaitingConfig
      modifies this`isConnected, this`status, this`connectButtonDisabled, this`connectStep, this`notification
      ensures Valid()
      ensures requestServers <==> outcome.Fulfilled?
      ensures outcome.Fulfilled? ==>
                connectStep == AwaitingServers && status == old(status) && isConnected == old(isConnected)
                && connectButtonDisabled && notification == old(notification)
      ensures outcome.Rejected? ==>
                !isConnected && status == Disconnected && !connectButtonDisabled && connectStep == Idle
                && notification == Some(Notification(ErrorNotice, ConnectErrorPrefix + outcome.error))
    {
      if outcome.Rejected? {
        FailConnect(outcome.error);
        return false;
      }
      connectStep := AwaitingServers;
      return true;
    }

    /** get_servers settles: a reply with a guild list connects the session and re-renders
        the server list (all collapsed, every channel container loading); anything else
        disconnects it and leaves the list as it was. A re-rendering detaches every channel
        container, so a get_channels reply still pending for the old list is never shown. */
    method OnServersReply(reply: Reply<seq<Server>>)
      requires Valid() && connectStep == AwaitingServers
      modifies this`isConnected, this`status, this`connectButtonDisabled, this`connectStep, this`notification,
               this`servers, this`expanded, this`channelPanels, this`renderEpoch
      ensures Valid()
      ensures connectStep == Idle && !connectButtonDisabled
      ensures renderEpoch == old(renderEpoch) + (if ServersOutcome(reply).Success? then 1 else 0)
      ensures isConnected <==> ServersOutcome(reply).Success?
      ensures ServersOutcome(reply).Success? ==>
                status == Connected && servers == ServersOutcome(reply).value
                && (forall j :: 0 <= j < |expanded| ==> !expanded[j])
                && (forall j :: 0 <= j < |channelPanels| ==> channelPanels[j] == LoadingChannels)
                && notification == Some(Notification(SuccessNotice, ConnectedText))
      ensures ServersOutcome(reply).Failure? ==>
                status == Disconnected && servers == old(servers) && expanded == old(expanded)
                && channelPanels == old(channelPanels)
                && notification == Some(Notification(ErrorNotice, ConnectErrorPrefix + ServersOutcome(reply).error))
    {
      match ServersOutcome(reply)
      case Failure(e) =>
        FailConnect(e);
      case Success(guilds) =>
        RenderServers(guilds);
        isConnected := true;
        status := Connected;
        notification := Some(Notification(SuccessNotice, ConnectedText));
        connectButtonDisabled := false;
        connectStep := Idle;
    }

    /** `renderServers`: the list is rebuilt from `guilds`, all collapsed, with a fresh
        channel container per server; every pending fetch now refers to a detached one. */
    method RenderServers(guilds: seq<Server>)
      requires Valid()
      modifies this`servers, this`expanded, this`channelPanels, this`renderEpoch
      ensures Valid()
      ensures servers == guilds && renderEpoch == old(renderEpoch) + 1
      ensures |expanded| == |guilds| && forall j :: 0 <= j < |expanded| ==> !expanded[j]
      ensures |channelPanels| == |guilds| && forall j :: 0 <= j < |channelPanels| ==> channelPanels[j] == LoadingChannels
    {
      servers := guilds;
      expanded := seq(|guilds|, _ => false);
      channelPanels := seq(|guilds|, _ => LoadingChannels);
      renderEpoch := renderEpoch + 1;
    }

    // ------------------------------------------------------------ navigation

    /** Removes the expanded mark from every server that carries it. */
    method CollapseAll()
      requires Valid()
      modifies this`expanded
      ensures Valid()
      ensures |expanded| == |old(expanded)| && forall j :: 0 <= j < |expanded| ==> !expanded[j]
    {
      var i := 0;
      while i < |expanded|
        invariant 0 <= i <= |expanded| && |expanded| == |old(expanded)|
        invariant forall j :: 0 <= j < i ==> !expanded[j]
        invariant forall j :: i <= j < |expanded| ==> expanded[j] == old(expanded)[j]
      {
        if expanded[i] {
          expanded := expanded[i := false];
        }
        i := i + 1;
      }
    }

    /** A click on a server header. Every expanded server collapses; the clicked one opens
        again only if it was closed, and then its channels are requested: the returned fetch
        names the server and the container `loadChannels` captured for the reply.
        An id with no rendered element makes the handler throw before it changes anything. */
    method ToggleServer(serverId: string) returns (fetch: Option<ChannelFetch>)
      requires Valid()
      modifies this`expanded, this`channelFetches
      ensures Valid()
      ensures FirstServerIndex(servers, serverId).None? ==> expanded == old(expanded) && fetch.None?
      ensures FirstServerIndex(servers, serverId).Some? ==>
                var k := FirstServerIndex(servers, serverId).value;
                expanded == Toggled(old(expanded), k)
                && (fetch.Some? <==> !old(expanded)[k])
                && (fetch.Some? ==> fetch.value == ChannelFetch(serverId, k, renderEpoch))
      ensures fetch.None? ==> channelFetches == old(channelFetches)
      ensures fetch.Some? ==> channelFetches == old(channelFetches) + multiset{fetch.value}
    {
      var found := FirstServerIndex(servers, serverId);
      if found.None? {
        return None;
      }
      var k := found.value;
      var wasExpanded := expanded[k];
      CollapseAll();
      if !wasExpanded {
        expanded := expanded[k := true];
        fetch := Some(ChannelFetch(serverId, k, renderEpoch));
        channelFetches := channelFetches + multiset{fetch.value};
      } else {
        fetch := None;
      }
    }

    /** A pending get_channels call settles: the container captured when it was issued shows
        the channels, "none found" or the error. Replies are applied as they arrive; when the
        server list has been re-rendered since, that container is detached and nothing shows. */
    method OnChannelsReply(fetch: ChannelFetch, reply: Reply<seq<Channel>>)
      requires Valid() && fetch in channelFetches
      modifies this`channelPanels, this`channelFetches
      ensures Valid()
      ensures channelFetches == old(channelFetches) - multiset{fetch}
      ensures fetch.epoch == renderEpoch ==>
                fetch.container < |channelPanels|
                && channelPanels == old(channelPanels)[fetch.container := ChannelPanelFor(reply)]
      ensures fetch.epoch != renderEpoch ==> channelPanels == old(channelPanels)
    {
      channelFetches := channelFetches - multiset{fetch};
      if fetch.epoch == renderEpoch {
        channelPanels := channelPanels[fetch.container := ChannelPanelFor(reply)];
      }
    }

    // ------------------------------------------------------------ send target

    /** A click on a channel: it becomes the target and any selected user is dropped. */
    method SelectChannel(serverId: string, channelId: string, channelName: string)
      requires Valid()
      modifies this`selectedChannel, this`selectedUser
      ensures Valid()
      ensures selectedChannel == Some(ChannelTarget(serverId, channelId, channelName)) && selectedUser.None?
    {
      selectedChannel := Some(ChannelTarget(serverId, channelId, channelName));
      selectedUser := None;
    }

    /** A click on a search result: the user becomes the target and any selected channel is dropped. */
    method SelectUser(userId: string, username: string, displayName: string)
      requires Valid()
      modifies this`selectedChannel, this`selectedUser
      ensures Valid()
      ensures selectedUser == Some(UserTarget(userId, username, displayName)) && selectedChannel.None?
    {
      selectedUser := Some(UserTarget(userId, username, displayName));
      selectedChannel := None;
    }

    // ------------------------------------------------------------ user search

    /** An input event on the search box: the pending timer is cancelled; a trimmed query of
        fewer than two characters clears the result list, a longer one is scheduled. */
    method OnSearchInput(field: string)
      requires Valid()
      modifies this`searchTimer, this`dmsPanel
      ensures Valid()
      ensures searchTimer == PendingSearch(field)
      ensures searchTimer.None? ==> dmsPanel == EmptyList
      ensures searchTimer.Some? ==> dmsPanel == old(dmsPanel)
    {
      searchTimer := None;
      var query := Trim(field);
      if |query| < 2 {
        dmsPanel := EmptyList;
        return;
      }
      searchTimer := Some(query);
    }

    /** `searchUsers`: refuses to call the backend while disconnected; otherwise shows the
        loading state and returns the query for search_users. */
    method SearchUsers(query: string) returns (call: Option<string>)
      requires Valid()
      modifies this`dmsPanel, this`searchesInFlight
      ensures Valid()
      ensures call.Some? <==> isConnected
      ensures call.Some? ==> call.value == query && dmsPanel == SearchingNotice
                             && searchesInFlight == old(searchesInFlight) + 1
      ensures call.None? ==> dmsPanel == NotConnectedNotice && searchesInFlight == old(searchesInFlight)
    {
      if !isConnected {
        dmsPanel := NotConnectedNotice;
        return None;
      }
      dmsPanel := SearchingNotice;
      searchesInFlight := searchesInFlight + 1;
      call := Some(query);
    }

    /** The debounce timer fires and runs the search it holds. */
    method OnSearchTimerFired() returns (call: Option<string>)
      requires Valid() && searchTimer.Some?
      modifies this`searchTimer, this`dmsPanel, this`searchesInFlight
      ensures Valid()
      ensures searchTimer.None?
      ensures call.Some? <==> isConnected
      ensures call.Some? ==> call.value == old(searchTimer).value && dmsPanel == SearchingNotice
      ensures call.None? ==> dmsPanel == NotConnectedNotice
      ensures searchesInFlight == old(searchesInFlight) + (if call.Some? then 1 else 0)
    {
      var query := searchTimer.value;
      searchTimer := None;
      call := SearchUsers(query);
    }

    /** search_users settles: its result replaces the list, whichever query it answers. */
    method OnSearchReply(reply: Reply<seq<User>>)
      requires Valid() && searchesInFlight > 0
      modifies this`dmsPanel, this`searchesInFlight
      ensures Valid()
      ensures dmsPanel == DmsPanelFor(reply) && searchesInFlight == old(searchesInFlight) - 1
    {
      dmsPanel := DmsPanelFor(reply);
      searchesInFlight := searchesInFlight - 1;
    }

    // ------------------------------------------------------------ composer

    /** The operator edits the message box. */
    method EditSimpleMessage(text: string)
      requires Valid()
      modifies this`simpleMessage
      ensures Valid() && simpleMessage == text
    {
      simpleMessage := text;
    }

    /** The operator edits the embed inputs. */
    method EditEmbedForm(form: EmbedForm)
      requires Valid()
      modifies this`embedForm
      ensures Valid() && embedForm == form
    {
      embedForm := form;
    }

    /** A click on a colour option marks it as the selected one. */
    method SelectColor(color: string)
      requires Valid()
      modifies this`selectedColor
      ensures Valid() && selectedColor == Some(color)
    {
      selectedColor := Some(color);
    }

    /** `sendSimpleMessage`: checks content, target and connection in that order; the first
        failure shows its error and nothing is sent. Otherwise the button is disabled and
        the send_simple_message arguments are returned. The message box is not touched. */
    method SendSimpleMessage(trigger: Trigger) returns (call: Option<SimpleCall>)
      requires Valid()
      modifies this`notification, this`sendSimpleDisabled, this`simpleSendsInFlight
      ensures Valid()
      ensures trigger == ButtonClick && old(sendSimpleDisabled) ==> call.None? && unchanged(this)
      ensures !(trigger == ButtonClick && old(sendSimpleDisabled)) ==>
                var check := CheckSend(Trim(simpleMessage) != [], selectedChannel, selectedUser, isConnected);
                (call.Some? <==> check == Ready)
                && (check != Ready ==>
                      notification == Some(CheckNotice(check, false))
                      && sendSimpleDisabled == old(sendSimpleDisabled) && simpleSendsInFlight == old(simpleSendsInFlight))
                && (check == Ready ==>
                      call.value == SimpleCallFor(selectedChannel, selectedUser, Trim(simpleMessage))
                      && sendSimpleDisabled && simpleSendsInFlight == old(simpleSendsInFlight) + 1
                      && notification == old(notification))
    {
      if trigger == ButtonClick && sendSimpleDisabled {
        return None;
      }
      var message := Trim(simpleMessage);
      var check := CheckSend(message != [], selectedChannel, selectedUser, isConnected);
      if check != Ready {
        notification := Some(CheckNotice(check, false));
        return None;
      }
      sendSimpleDisabled := true;
      simpleSendsInFlight := simpleSendsInFlight + 1;
      call := Some(SimpleCallFor(selectedChannel, selectedUser, message));
    }

    /** send_simple_message settles: success clears the message box, failure keeps it; the
        button is re-enabled either way. */
    method OnSimpleSendSettled(outcome: Settled)
      requires Valid() && simpleSendsInFlight > 0
      modifies this`simpleMessage, this`notification, this`sendSimpleDisabled, this`simpleSendsInFlight
      ensures Valid()
      ensures !sendSimpleDisabled && simpleSendsInFlight == old(simpleSendsInFlight) - 1
      ensures outcome.Fulfilled? ==>
                simpleMessage == [] && notification == Some(Notification(SuccessNotice, SimpleSentText))
      ensures outcome.Rejected? ==>
                simpleMessage == old(simpleMessage)
                && notification == Some(Notification(ErrorNotice, SendErrorPrefix + outcome.error))
    {
      if outcome.Fulfilled? {
        simpleMessage := [];
        notification := Some(Notification(SuccessNotice, SimpleSentText));
      } else {
        notification := Some(Notification(ErrorNotice, SendErrorPrefix + outcome.error));
      }
      sendSimpleDisabled := false;
      simpleSendsInFlight := simpleSendsInFlight - 1;
    }

    /** A click on the embed send button. The same three checks as a simple send, with a
        title or description as the content; then, with no colour option selected, the
        handler throws and nothing is sent; otherwise the button is disabled and the
        send_embed_message arguments, stamped with `now`, are returned. */
    method SendEmbedMessage(now: string) returns (call: Option<EmbedCall>)
      requires Valid()
      modifies this`notification, this`sendEmbedDisabled, this`embedSendsInFlight
      ensures Valid()
      ensures old(sendEmbedDisabled) ==> call.None? && unchanged(this)
      ensures !old(sendEmbedDisabled) ==>
                var check := CheckSend(Trim(embedForm.title) != [] || Trim(embedForm.description) != [],
                                       selectedChannel, selectedUser, isConnected);
                (call.Some? <==> check == Ready && selectedColor.Some?)
                && (check != Ready ==>
                      notification == Some(CheckNotice(check, true)) && !sendEmbedDisabled
                      && embedSendsInFlight == old(embedSendsInFlight))
                && (check == Ready && selectedColor.None? ==> unchanged(this))
                && (call.Some? ==>
                      call.value == EmbedCall(ChannelIdOf(selectedChannel), UserIdOf(selectedUser),
                                              EmbedFor(embedForm, selectedColor.value, now))
                      && sendEmbedDisabled && embedSendsInFlight == 1
                      && notification == old(notification))
    {
      if sendEmbedDisabled {
        return None;
      }
      var hasContent := Trim(embedForm.title) != [] || Trim(embedForm.description) != [];
      var check := CheckSend(hasContent, selectedChannel, selectedUser, isConnected);
      if check != Ready {
        notification := Some(CheckNotice(check, true));
        return None;
      }
      if selectedColor.None? {
        // No `.color-option.selected`: reading its colour throws a TypeError.
        return None;
      }
      sendEmbedDisabled := true;
      embedSendsInFlight := 1;
      call := Some(EmbedCall(ChannelIdOf(selectedChannel), UserIdOf(selectedUser),
                             EmbedFor(embedForm, selectedColor.value, now)));
    }

    /** send_embed_message settles: success clears all five embed inputs, failure keeps
        them; the button is re-enabled either way. */
    method OnEmbedSendSettled(outcome: Settled)
      requires Valid() && embedSendsInFlight > 0
      modifies this`embedForm, this`notification, this`sendEmbedDisabled, this`embedSendsInFlight
      ensures Valid()
      ensures !sendEmbedDisabled && embedSendsInFlight == 0
      ensures outcome.Fulfilled? ==>
                embedForm == EmbedForm([], [], [], [], [])
                && notification == Some(Notification(SuccessNotice, EmbedSentText))
      ensures outcome.Rejected? ==>
                embedForm == old(embedForm)
                && notification == Some(Notification(ErrorNotice, SendErrorPrefix + outcome.error))
    {
      if outcome.Fulfilled? {
        embedForm := EmbedForm([], [], [], [], []);
        notification := Some(Notification(SuccessNotice, EmbedSentText));
      } else {
        notification := Some(Notification(ErrorNotice, SendErrorPrefix + outcome.error));
      }
      sendEmbedDisabled := false;
      embedSendsInFlight := 0;
    }
  }
}
