/** The user-facing bot: classification of incoming messages into commands, the published
    command menu, one step of the bot's event loop, and the reply texts. */
module Bot {
  import opened Base
  import opened TdLib
  import Models

  // ---------------------------------------------------------------------------------------
  // Commands and the menu derived from them.

  datatype BotCommand = Start | Stop | Add(addName: string) | List | Remove(removeName: string) | Invalid

  /** The commands in declaration order, as the enum's iterator yields them (string payloads
      take their default, the empty string). */
  const AllCommands: seq<BotCommand> := [Start, Stop, Add(""), List, Remove(""), Invalid]

  /** The command text attached to each command; `Invalid` has none. */
  function CommandMessage(cmd: BotCommand): Option<string>
  {
    match cmd
    case Start => Some("/start")
    case Stop => Some("/stop")
    case Add(_) => Some("/add")
    case List => Some("/list")
    case Remove(_) => Some("/remove")
    case Invalid => None
  }

  /** The human-readable description attached to each command; `Invalid` has none. */
  function CommandDescription(cmd: BotCommand): Option<string>
  {
    match cmd
    case Start => Some("starts bot interaction")
    case Stop => Some("stops bot interaction")
    case Add(_) => Some("adds a channel")
    case List => Some("list of channels")
    case Remove(_) => Some("removes a channel")
    case Invalid => None
  }

  datatype MenuEntry = MenuEntry(command: string, description: string)

  /** One menu entry for each command that has both a message and a description, in order. */
  function MenuOf(cmds: seq<BotCommand>): seq<MenuEntry>
  {
    if cmds == [] then []
    else
      (match (CommandMessage(cmds[0]), CommandDescription(cmds[0]))
       case (Some(m), Some(d)) => [MenuEntry(m, d)]
       case _ => [])
      + MenuOf(cmds[1..])
  }

  /** The menu published with `set_commands`. */
  function Menu(): seq<MenuEntry>
  {
    MenuOf(AllCommands)
  }

  /** The published menu is the five commands in declaration order; `Invalid` is left out. */
  lemma MenuIsFiveCommands()
    ensures Menu() == [MenuEntry("/start", "starts bot interaction"),
                       MenuEntry("/stop", "stops bot interaction"),
                       MenuEntry("/add", "adds a channel"),
                       MenuEntry("/list", "list of channels"),
                       MenuEntry("/remove", "removes a channel")]
  {
    assert AllCommands[1..][1..][1..][1..][1..][1..] == [];
  }

  /** Bot start-up: publishes the menu, then asks for the bot's own user id; the first
      failure ends start-up with that error. */
  function Startup(setCommands: seq<MenuEntry> -> Outcome, getMe: Result<UserId>): (r: Result<UserId>)
    ensures r.Ok? <==> setCommands(Menu()).Pass? && getMe.Ok?
    ensures r.Ok? ==> r.value == getMe.value
    ensures setCommands(Menu()).Fail? ==> r == Err(setCommands(Menu()).error)
  {
    match setCommands(Menu())
    case Fail(e) => Err(e)
    case Pass => getMe
  }

  // ---------------------------------------------------------------------------------------
  // Classification of an incoming message.

  predicate StartsWith(s: string, prefix: string)
  {
    |prefix| <= |s| && s[..|prefix|] == prefix
  }

  /** No text starts with two of the command prefixes. */
  lemma PrefixesExclusive(text: string)
    ensures StartsWith(text, "/add") ==> !StartsWith(text, "/remove") && !StartsWith(text, "/list")
                                         && !StartsWith(text, "/start") && !StartsWith(text, "/stop")
    ensures StartsWith(text, "/remove") ==> !StartsWith(text, "/list") && !StartsWith(text, "/start")
                                            && !StartsWith(text, "/stop")
    ensures StartsWith(text, "/list") ==> !StartsWith(text, "/start") && !StartsWith(text, "/stop")
    ensures StartsWith(text, "/start") ==> !StartsWith(text, "/stop")
  {
    if StartsWith(text, "/add") { assert text[1] == "/add"[1] == 'a'; }
    if StartsWith(text, "/remove") { assert text[1] == "/remove"[1] == 'r'; }
    if StartsWith(text, "/list") { assert text[1] == "/list"[1] == 'l'; }
    if StartsWith(text, "/start") { assert text[1] == 's' && text[3] == "/start"[3] == 'a'; }
    if StartsWith(text, "/stop") { assert text[1] == 's' && text[3] == "/stop"[3] == 'o'; }
  }

  /** The chain of prefix tests: `/add`, `/remove`, `/list`, `/start`, `/stop`, in that order,
      on a message marked as a bot command; the argument of `/add` and `/remove` is every
      character after the prefix, untrimmed. */
  function Classify(text: string, isBotCommand: bool): (cmd: BotCommand)
    ensures !isBotCommand ==> cmd == Invalid
    ensures cmd.Add? <==> isBotCommand && StartsWith(text, "/add")
    ensures cmd.Add? ==> cmd.addName == text[4..]
    ensures cmd.Remove? <==> isBotCommand && StartsWith(text, "/remove")
    ensures cmd.Remove? ==> cmd.removeName == text[7..]
    ensures cmd == List <==> isBotCommand && StartsWith(text, "/list")
    ensures cmd == Start <==> isBotCommand && StartsWith(text, "/start")
    ensures cmd == Stop <==> isBotCommand && StartsWith(text, "/stop")
  {
    PrefixesExclusive(text);
    if !isBotCommand then Invalid
    else if StartsWith(text, "/add") then Add(text[4..])
    else if StartsWith(text, "/remove") then Remove(text[7..])
    else if StartsWith(text, "/list") then List
    else if StartsWith(text, "/start") then Start
    else if StartsWith(text, "/stop") then Stop
    else Invalid
  }

  /** Prefix matching accepts trailing characters: "/stopword" is `/stop`, "/listx" is
      `/list`, and the `/add` argument keeps its leading space. */
  lemma ClassifyExamples()
    ensures Classify("/stopword", true) == Stop
    ensures Classify("/listx", true) == List
    ensures Classify("/add news", true) == Add(" news")
    ensures Classify("/help", true) == Invalid
    ensures Classify("/start", false) == Invalid
  {
    assert "/listx"[..5] == "/list";
    assert "/stopword"[..5] == "/stop";
    assert "/add news"[..4] == "/add";
  }

  datatype BotUpdate = BotUpdate(chatId: ChatId, userId: UserId, message: BotCommand)

  /** What the bot-side update reader makes of one message. A sender that is not a user is
      not supported: the source panics there. */
  datatype Normalized = NoBotUpdate | NewBotUpdate(update: BotUpdate) | UnsupportedSender

  /** Whether some entity of the text marks a bot command. */
  predicate HasBotCommand(entities: seq<TextEntity>)
  {
    exists k :: 0 <= k < |entities| && entities[k].kind == BotCommand
  }

  /** `handle_message_to_bot`: only text messages are considered; a user sender yields an
      update for the message's chat, carrying the classified command. */
  function HandleMessageToBot(msg: Message): (r: Normalized)
    ensures !msg.content.MessageText? ==> r == NoBotUpdate
    ensures msg.content.MessageText? && !msg.senderId.SenderUser? ==> r == UnsupportedSender
    ensures msg.content.MessageText? && msg.senderId.SenderUser? ==>
              r.NewBotUpdate? && r.update.chatId == msg.chatId && r.update.userId == msg.senderId.userId
              && r.update.message == Classify(msg.content.text.text, HasBotCommand(msg.content.text.entities))
  {
    match msg.content
    case MessageText(text) =>
      (match msg.senderId
       case SenderDefault => UnsupportedSender
       case SenderChat(_) => UnsupportedSender
       case SenderUser(user) =>
         NewBotUpdate(BotUpdate(msg.chatId, user, Classify(text.text, HasBotCommand(text.entities)))))
    case _ => NoBotUpdate
  }

  /** A text message without a bot-command entity classifies as `Invalid`, whatever its text. */
  lemma NoCommandEntityIsInvalid(msg: Message)
    requires msg.content.MessageText? && msg.senderId.SenderUser?
    requires forall k :: 0 <= k < |msg.content.text.entities| ==> msg.content.text.entities[k].kind != BotCommand
    ensures HandleMessageToBot(msg) == NewBotUpdate(BotUpdate(msg.chatId, msg.senderId.userId, Invalid))
  {
  }

  /** The filter of `init_bot_updates_reader`: only new-message updates are handled. */
  function NormalizeUpdate(u: Update): (r: Normalized)
    ensures !u.UpdateNewMessage? ==> r == NoBotUpdate
    ensures u.UpdateNewMessage? ==> r == HandleMessageToBot(u.message)
  {
    match u
    case UpdateNewMessage(m) => HandleMessageToBot(m)
    case _ => NoBotUpdate
  }

  // ---------------------------------------------------------------------------------------
  // Requests, responses and replies.

  datatype UserChat = UserChat(userId: UserId, chatId: ChatId)

  datatype AddUserChannel = AddUserChannel(userId: UserId, channelId: ChatId, channelName: string, title: string)

  datatype RemoveUserChannelRequest = RemoveUserChannelRequest(userId: UserId, channelName: string)

  datatype BotRequest =
    | AddUser(addUser: UserChat)
    | RemoveUser(removeUser: UserChat)
    | AddUserChannelRequest(addChannel: AddUserChannel)
    | RemoveUserChannel(removeChannel: RemoveUserChannelRequest)
    | ListChannels(listUser: UserId)

  /** The user on whose behalf a request is made. */
  function RequestUser(req: BotRequest): UserId
  {
    match req
    case AddUser(uc) => uc.userId
    case RemoveUser(uc) => uc.userId
    case AddUserChannelRequest(a) => a.userId
    case RemoveUserChannel(r) => r.userId
    case ListChannels(u) => u
  }

  datatype BotResponseListChannels = BotResponseListChannels(chatId: ChatId, channels: seq<Models.Channel>)

  datatype BotResponse = ListChannelsResponse(list: BotResponseListChannels)

  /** A text message to send to a chat. */
  datatype SendMessage = SendMessage(chatId: ChatId, text: string)

  function ChannelNotFoundResp(chatId: ChatId, name: string): (m: SendMessage)
    ensures m.chatId == chatId && |m.text| == 8 + |name| + 10
    ensures m.text[..8] == "channel " && m.text[8..8 + |name|] == name && m.text[8 + |name|..] == " not found"
  {
    SendMessage(chatId, "channel " + name + " not found")
  }

  function ChannelAddedResp(chatId: ChatId, name: string): (m: SendMessage)
    ensures m.chatId == chatId && |m.text| == 8 + |name| + 6
    ensures m.text[..8] == "channel " && m.text[8..8 + |name|] == name && m.text[8 + |name|..] == " added"
  {
    SendMessage(chatId, "channel " + name + " added")
  }

  function ChannelRemovedResp(chatId: ChatId, name: string): (m: SendMessage)
    ensures m.chatId == chatId && |m.text| == 8 + |name| + 8
    ensures m.text[..8] == "channel " && m.text[8..8 + |name|] == name && m.text[8 + |name|..] == " removed"
  {
    SendMessage(chatId, "channel " + name + " removed")
  }

  function InvalidRequestResp(chatId: ChatId): (m: SendMessage)
    ensures m.chatId == chatId && m.text == "invalid request"
  {
    SendMessage(chatId, "invalid request")
  }

  function StartResp(chatId: ChatId): (m: SendMessage)
    ensures m.chatId == chatId && m.text == "started"
  {
    SendMessage(chatId, "started")
  }

  function StopResp(chatId: ChatId): (m: SendMessage)
    ensures m.chatId == chatId && m.text == "stopped"
  {
    SendMessage(chatId, "stopped")
  }

  /** One line of the channel list. */
  function ChannelLine(ch: Models.Channel): string
  {
    ch.username + ": " + ch.title + "\n"
  }

  /** The channel list: the lines of the channels, concatenated in order. */
  function ListText(channels: seq<Models.Channel>): string
  {
    if channels == [] then "" else ChannelLine(channels[0]) + ListText(channels[1..])
  }

  lemma {:induction false} ListTextSnoc(channels: seq<Models.Channel>, ch: Models.Channel)
    ensures ListText(channels + [ch]) == ListText(channels) + ChannelLine(ch)
    decreases |channels|
  {
    if channels == [] {
      assert [] + [ch] == [ch];
    } else {
      assert (channels + [ch])[1..] == channels[1..] + [ch];
      ListTextSnoc(channels[1..], ch);
    }
  }

  /** `make_list_channels`: appends one "username: title" line per channel, in order, and
      addresses the text to `chatId`. */
  method MakeListChannels(chatId: ChatId, channels: seq<Models.Channel>) returns (msg: SendMessage)
    ensures msg == SendMessage(chatId, ListText(channels))
  {
    var s := "";
    for k := 0 to |channels|
      invariant s == ListText(channels[..k])
    {
      ListTextSnoc(channels[..k], channels[k]);
      assert channels[..k + 1] == channels[..k] + [channels[k]];
      s := s + channels[k].username + ": " + channels[k].title + "\n";
    }
    assert channels[..|channels|] == channels;
    msg := SendMessage(chatId, s);
  }

  /** What one incoming update makes the bot do: at most one request to the service and at
      most one reply message. */
  datatype Effects = Effects(request: Option<BotRequest>, reply: Option<SendMessage>)

  /** The `/remove` arm: the request names the trimmed channel, the reply the name as typed. */
  function RemoveEffects(userId: UserId, chatId: ChatId, name: string): (e: Effects)
    ensures e.reply == Some(SendMessage(chatId, "channel " + name + " removed"))
    ensures e.request.Some? && e.request.value.RemoveUserChannel? && e.request.value.removeChannel.userId == userId
  {
    Effects(Some(RemoveUserChannel(RemoveUserChannelRequest(userId, Trim(name)))),
            Some(ChannelRemovedResp(chatId, name)))
  }

  /** The `/add` arm, given the outcome of the channel search. */
  function AddEffects(userId: UserId, chatId: ChatId, name: string, found: Result<Chat>): (e: Effects)
    ensures e.reply.Some? && e.reply.value.chatId == chatId
    ensures e.request.Some? ==> RequestUser(e.request.value) == userId
  {
    match found
    case Err(_) => Effects(None, Some(ChannelNotFoundResp(chatId, name)))
    case Ok(ch) =>
      Effects(Some(AddUserChannelRequest(AddUserChannel(userId, ch.id, Trim(name), Trim(ch.title)))),
              Some(ChannelAddedResp(chatId, name)))
  }

  /** One iteration of the bot loop for an incoming update. `me` is the bot's own user id and
      `searchPublicChat` the connection's answer to a public-chat search by name. */
  function UpdateStep(me: UserId, upd: BotUpdate, searchPublicChat: string -> Result<Chat>): (e: Effects)
    ensures e.reply.Some? ==> e.reply.value.chatId == upd.chatId
    ensures e.request.Some? ==> RequestUser(e.request.value) == upd.userId
  {
    if upd.userId == me then Effects(None, None)
    else
      match upd.message
      case Invalid => Effects(None, Some(InvalidRequestResp(upd.chatId)))
      case List => Effects(Some(ListChannels(upd.userId)), None)
      case Remove(name) => RemoveEffects(upd.userId, upd.chatId, name)
      case Add(name) => AddEffects(upd.userId, upd.chatId, name, searchPublicChat(name))
      case Stop => Effects(Some(RemoveUser(UserChat(upd.userId, upd.chatId))), Some(StopResp(upd.chatId)))
      case Start => Effects(Some(AddUser(UserChat(upd.userId, upd.chatId))), Some(StartResp(upd.chatId)))
  }

  /** The bot ignores its own messages: no request, no reply. */
  lemma SelfMessagesIgnored(me: UserId, upd: BotUpdate, search: string -> Result<Chat>)
    requires upd.userId == me
    ensures UpdateStep(me, upd, search) == Effects(None, None)
  {
  }

  /** Every command from another user is answered in its chat, except `/list`, whose answer
      comes back later as a service response. */
  lemma EveryCommandAnswered(me: UserId, upd: BotUpdate, search: string -> Result<Chat>)
    requires upd.userId != me
    ensures UpdateStep(me, upd, search).reply.Some? <==> upd.message != List
    ensures UpdateStep(me, upd, search).reply.None? ==> UpdateStep(me, upd, search).request == Some(ListChannels(upd.userId))
  {
  }

  /** The per-command table of the dispatch step for an update from another user. */
  lemma UpdateStepTable(me: UserId, upd: BotUpdate, search: string -> Result<Chat>)
    requires upd.userId != me
    ensures var e := UpdateStep(me, upd, search);
            && (upd.message == Invalid ==> e == Effects(None, Some(SendMessage(upd.chatId, "invalid request"))))
            && (upd.message == List ==> e == Effects(Some(ListChannels(upd.userId)), None))
            && (upd.message == Start ==>
                  e == Effects(Some(AddUser(UserChat(upd.userId, upd.chatId))), Some(SendMessage(upd.chatId, "started"))))
            && (upd.message == Stop ==>
                  e == Effects(Some(RemoveUser(UserChat(upd.userId, upd.chatId))), Some(SendMessage(upd.chatId, "stopped"))))
            && (upd.message.Remove? ==>
                  e == Effects(Some(RemoveUserChannel(RemoveUserChannelRequest(upd.userId, Trim(upd.message.removeName)))),
                               Some(SendMessage(upd.chatId, "channel " + upd.message.removeName + " removed"))))
  {
  }

  /** Adding a channel: a failed search replies "not found" and requests nothing; a found chat
      gives exactly one subscription request with its id and trimmed title. The search and the
      reply use the name as typed, the request the trimmed name. */
  lemma AddStep(me: UserId, upd: BotUpdate, search: string -> Result<Chat>)
    requires upd.userId != me && upd.message.Add?
    ensures var e := UpdateStep(me, upd, search);
            var name := upd.message.addName;
            && (search(name).Err? ==>
                  e == Effects(None, Some(SendMessage(upd.chatId, "channel " + name + " not found"))))
            && (search(name).Ok? ==>
                  e == Effects(Some(AddUserChannelRequest(AddUserChannel(upd.userId, search(name).value.id,
                                                                        Trim(name), Trim(search(name).value.title)))),
                               Some(SendMessage(upd.chatId, "channel " + name + " added"))))
  {
  }

  /** "/add news" from another user, with the search finding a chat: the classified argument
      is " news"; the reply repeats it as typed, leading space included, while the request
      carries "news". */
  lemma AddWithLeadingSpace(me: UserId, chatId: ChatId, user: UserId, search: string -> Result<Chat>)
    requires user != me && search(" news").Ok?
    ensures Classify("/add news", true) == Add(" news")
    ensures var e := UpdateStep(me, BotUpdate(chatId, user, Add(" news")), search);
            && e.reply == Some(SendMessage(chatId, "channel  news added"))
            && e.request.Some? && e.request.value.addChannel.channelName == "news"
  {
    assert "/add news"[..4] == "/add";
    TrimLeadingSpace();
    assert "channel " + " news" + " added" == "channel  news added";
  }

  lemma TrimLeadingSpace()
    ensures Trim(" news") == "news"
  {
    assert IsWhitespace(' ') && !IsWhitespace('n') && !IsWhitespace('s');
    assert " news"[1..] == "news";
    assert TrimStart("news") == "news";
    assert TrimStart(" news") == "news";
    assert TrimEnd("news") == "news";
  }

  /** The bot actor's view of what it has done: the requests it sent to the service and the
      messages it sent through its connection, in order. */
  class BotActor {
    const me: UserId
    var requests: seq<BotRequest>
    var sent: seq<SendMessage>

    constructor(me: UserId)
      ensures this.me == me && requests == [] && sent == []
    {
      this.me := me;
      requests := [];
      sent := [];
    }

    /** The update arm of the loop in `BotClient::start`. */
    method OnUpdate(upd: BotUpdate, searchPublicChat: string -> Result<Chat>)
      modifies this
      ensures var e := UpdateStep(me, upd, searchPublicChat);
              && requests == old(requests) + (if e.request.Some? then [e.request.value] else [])
              && sent == old(sent) + (if e.reply.Some? then [e.reply.value] else [])
    {
      if upd.userId == me {
        return;
      }
      var msg: Option<SendMessage>;
      match upd.message {
        case Invalid =>
          msg := Some(InvalidRequestResp(upd.chatId));
        case List =>
          requests := requests + [ListChannels(upd.userId)];
          msg := None;
        case Remove(name) =>
          var resp := ChannelRemovedResp(upd.chatId, name);
          requests := requests + [RemoveUserChannel(RemoveUserChannelRequest(upd.userId, Trim(name)))];
          msg := Some(resp);
        case Add(name) =>
          match searchPublicChat(name) {
            case Err(_) =>
              msg := Some(ChannelNotFoundResp(upd.chatId, name));
            case Ok(ch) =>
              var resp := ChannelAddedResp(upd.chatId, name);
              requests := requests + [AddUserChannelRequest(AddUserChannel(upd.userId, ch.id, Trim(name), Trim(ch.title)))];
              msg := Some(resp);
          }
        case Stop =>
          requests := requests + [RemoveUser(UserChat(upd.userId, upd.chatId))];
          msg := Some(StopResp(upd.chatId));
        case Start =>
          requests := requests + [AddUser(UserChat(upd.userId, upd.chatId))];
          msg := Some(StartResp(upd.chatId));
      }
      if msg.Some? {
        sent := sent + [msg.value];
      }
    }

    /** The response arm of the loop: a channel list goes to the chat the response names. */
    method OnResponse(resp: BotResponse)
      modifies this
      ensures requests == old(requests)
      ensures sent == old(sent) + [SendMessage(resp.list.chatId, ListText(resp.list.channels))]
    {
      match resp {
        case ListChannelsResponse(list) =>
          var msg := MakeListChannels(list.chatId, list.channels);
          sent := sent + [msg];
      }
    }
  }
}
