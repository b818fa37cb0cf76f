/**
 * Sessions driven through the controller's contracts: a connect; a server opened and
 * closed again; a channel then a user picked and a message sent; an embed with only a
 * footer, which is refused; and a channel reply that arrives after a reconnect.
 */
module Scenario {
  import opened Common
  import Backend
  import Text
  import opened ClientLogic
  import opened Controller

  /** The client trims both fields and drops the URL's trailing slash. */
  lemma ExampleCredentials()
    ensures ConnectRequest("https://bot.example/", " secret ") == Some(Backend.ApiConfig("https://bot.example", "secret"))
  {
    assert Text.TrimStart(" secret ") == Text.TrimStart("secret ") == "secret ";
    assert Text.TrimEnd("secret ") == Text.TrimEnd("secret") == "secret";
    assert Text.Trim("https://bot.example/") == "https://bot.example/";
    assert Text.StripOneSlash("https://bot.example/") == "https://bot.example";
  }

  /** The connect button with the example credentials, and set_api_config accepting them:
      the client is now waiting for get_servers. */
  method StartConnect(ui: DiscordBotController) returns (config: Option<Backend.ApiConfig>)
    requires ui.Valid() && ui.connectStep == Idle && !ui.connectButtonDisabled
    modifies ui`status, ui`connectButtonDisabled, ui`connectStep, ui`notification, ui`isConnected
    ensures ui.Valid() && ui.connectStep == AwaitingServers
    ensures config == Some(Backend.ApiConfig("https://bot.example", "secret"))
  {
    ExampleCredentials();
    config := ui.Connect("https://bot.example/", " secret ");
    var more := ui.OnConfigSettled(Fulfilled);
  }

  /** Connect with a trailing slash in the URL and spaces around the secret: the backend
      is configured with neither, and the two guilds it returns are listed, all collapsed,
      in a new rendering of the server list. Pending fetches and the send target stay. */
  method ConnectToExampleBot(ui: DiscordBotController) returns (config: Option<Backend.ApiConfig>)
    requires ui.Valid() && ui.connectStep == Idle && !ui.connectButtonDisabled
    modifies ui
    ensures ui.Valid() && ui.isConnected && ui.status == Connected
    ensures config == Some(Backend.ApiConfig("https://bot.example", "secret"))
    ensures ui.servers == [Server("a", "Guild A", None), Server("b", "Guild B", None)]
    ensures ui.expanded == [false, false] && ui.channelPanels == [LoadingChannels, LoadingChannels]
    ensures ui.renderEpoch == old(ui.renderEpoch) + 1 && ui.channelFetches == old(ui.channelFetches)
    ensures ui.selectedChannel == old(ui.selectedChannel) && ui.selectedUser == old(ui.selectedUser)
    ensures ui.simpleSendsInFlight == old(ui.simpleSendsInFlight)
  {
    var guilds := [Server("a", "Guild A", None), Server("b", "Guild B", None)];
    config := StartConnect(ui);
    assert ServersOutcome(Resolved(Some(guilds))) == Success(guilds);
    ui.OnServersReply(Resolved(Some(guilds)));
    assert |ui.expanded| == 2 && !ui.expanded[0] && !ui.expanded[1];
    assert |ui.channelPanels| == 2 && ui.channelPanels[0] == ui.channelPanels[1] == LoadingChannels;
  }

  /** A fresh controller connected to the example bot. */
  method OpenSession() returns (ui: DiscordBotController, config: Option<Backend.ApiConfig>)
    ensures fresh(ui) && ui.Valid()
    ensures config == Some(Backend.ApiConfig("https://bot.example", "secret"))
    ensures ui.isConnected && ui.status == Connected
    ensures ui.servers == [Server("a", "Guild A", None), Server("b", "Guild B", None)]
    ensures ui.expanded == [false, false] && ui.channelPanels == [LoadingChannels, LoadingChannels]
    ensures ui.renderEpoch == 1 && ui.channelFetches == multiset{}
    ensures ui.selectedChannel.None? && ui.selectedUser.None? && ui.simpleSendsInFlight == 0
  {
    ui := new DiscordBotController(Some("#5865F2"));
    config := ConnectToExampleBot(ui);
  }

  /** Open and close the first server: its channels are fetched once, for the container
      of the current rendering, and nothing is left expanded. */
  method OpenAndCloseServer() returns (fetches: seq<Option<ChannelFetch>>, expanded: seq<bool>)
    ensures fetches == [Some(ChannelFetch("a", 0, 1)), None]
    ensures expanded == [false, false]
  {
    var ui, _ := OpenSession();
    assert FirstServerIndex(ui.servers, "a") == Some(0);
    var first := ui.ToggleServer("a");
    assert ui.expanded == [true, false];
    var second := ui.ToggleServer("a");
    fetches, expanded := [first, second], ui.expanded;
  }

  /** Pick a channel then a user and send "hello": the message goes to the user alone and
      the box is cleared. */
  method SendToUserAfterChannel() returns (call: Option<SimpleCall>, cleared: bool)
    ensures call == Some(SimpleCall(None, Some("u1"), "hello"))
    ensures cleared
  {
    var ui, _ := OpenSession();
    ui.SelectChannel("a", "c1", "general");
    ui.SelectUser("u1", "alice", "Alice");
    ui.EditSimpleMessage("hello");
    assert Text.Trim("hello") == "hello";
    assert CheckSend(true, None, Some(UserTarget("u1", "alice", "Alice")), true) == Ready;
    assert SimpleCallFor(None, Some(UserTarget("u1", "alice", "Alice")), "hello") == SimpleCall(None, Some("u1"), "hello");
    call := ui.SendSimpleMessage(ButtonClick);
    ui.OnSimpleSendSettled(Fulfilled);
    cleared := ui.simpleMessage == [];
  }

  /** An embed with only a footer fails the content check: nothing is sent, the form is
      kept, and the error names the missing title or description. */
  method EmbedWithOnlyFooter() returns (call: Option<EmbedCall>, shown: Option<Notification>)
    ensures call.None?
    ensures shown == Some(Notification(ErrorNotice, EmptyEmbedText))
  {
    var ui := new DiscordBotController(Some("#5865F2"));
    ui.SelectChannel("a", "c1", "general");
    var form := EmbedForm("", " ", "", "", "footer");
    ui.EditEmbedForm(form);
    call := ui.SendEmbedMessage("2024-01-01T00:00:00.000Z");
    assert ui.embedForm == form;
    shown := ui.notification;
  }

  /** Open the first server, then reconnect before its channels arrive: the reply lands in
      a container the new rendering replaced, so the list still shows both loading. */
  method ChannelReplyAfterReconnect() returns (panels: seq<ChannelPanel>)
    ensures panels == [LoadingChannels, LoadingChannels]
  {
    var ui, _ := OpenSession();
    assert FirstServerIndex(ui.servers, "a") == Some(0);
    var stale := ui.ToggleServer("a");
    var _ := ConnectToExampleBot(ui);
    ui.OnChannelsReply(stale.value, Resolved(Some([Channel("c1", "general")])));
    panels := ui.channelPanels;
  }

  /** After a reconnect, opening the server again issues a fetch whose reply is shown. */
  method ChannelReplyAfterReopen() returns (panels: seq<ChannelPanel>)
    ensures panels == [ChannelList([Channel("c1", "general")]), LoadingChannels]
  {
    var ui, _ := OpenSession();
    var _ := ConnectToExampleBot(ui);
    assert FirstServerIndex(ui.servers, "a") == Some(0);
    var fetch := ui.ToggleServer("a");
    ui.OnChannelsReply(fetch.value, Resolved(Some([Channel("c1", "general")])));
    panels := ui.channelPanels;
  }
}
