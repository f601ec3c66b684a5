/** The reading account: recognising channels, turning chat history into posts, listing the
    subscribed channels and filtering the update stream. Every TDLib call is a parameter
    holding the answer the library gives. */
module User {
  import opened Base
  import opened TdLib
  import opened Models
  import opened Parsers

  /** `is_channel`: a supergroup whose channel flag is set. */
  function IsChannel(chat: Chat): (b: bool)
    ensures b <==> chat.kind.ChatTypeSupergroup? && chat.kind.isChannel
  {
    match chat.kind
    case ChatTypeDefault => false
    case ChatTypeBasicGroup(_) => false
    case ChatTypePrivate(_) => false
    case ChatTypeSecret(_) => false
    case ChatTypeSupergroup(_, isChannel) => isChannel
  }

  /** `new_channel`: the chat's title and id under the given username. */
  function NewChannelOf(chat: Chat, channelName: string): (c: NewChannel)
    ensures c.title == chat.title && c.telegramId == chat.id && c.username == channelName
  {
    NewChannel(chat.title, chat.id, channelName)
  }

  /** `search_channel`: a failed search is an error, a chat that is not a channel is no
      result, and a channel is recorded under the name as it was queried. */
  function SearchChannel(searchPublicChat: string -> Result<Chat>, channelName: string): (r: Result<Option<NewChannel>>)
    ensures searchPublicChat(channelName).Err? ==> r == Err(searchPublicChat(channelName).error)
    ensures searchPublicChat(channelName).Ok? ==>
              var chat := searchPublicChat(channelName).value;
              && r.Ok?
              && (r.value.Some? <==> IsChannel(chat))
              && (r.value.Some? ==> r.value.value == NewChannel(chat.title, chat.id, channelName))
  {
    match searchPublicChat(channelName)
    case Err(e) => Err(e)
    case Ok(chat) => if !IsChannel(chat) then Ok(None) else Ok(Some(NewChannelOf(chat, channelName)))
  }

  // ---------------------------------------------------------------------------------------
  // Channel history.

  /** The history request for a chat: the chat id, the limit, offset -50 and starting
      message 0. */
  datatype GetChatHistory = GetChatHistory(chatId: ChatId, limit: int, offset: int, fromMessageId: int)

  function HistoryRequest(chatId: ChatId, limit: int): GetChatHistory
  {
    GetChatHistory(chatId, limit, -50, 0)
  }

  /** The post built from a message of chat `chatId` whose content rendered as `content`. */
  function PostOf(chatId: ChatId, msg: Message, content: string): Post
  {
    Post(None, "", msg.id, msg.date, content, chatId)
  }

  /** The posts of a history: one per present message with text, in order. */
  ghost function HistoryPosts(chatId: ChatId, msgs: seq<Option<Message>>): seq<Post>
  {
    if msgs == [] then []
    else
      var last := msgs[|msgs| - 1];
      HistoryPosts(chatId, msgs[..|msgs| - 1])
      + (if last.Some? && ContentText(last.value.content).Some?
         then [PostOf(chatId, last.value, ContentText(last.value.content).value)]
         else [])
  }

  /** One more message adds its post, if it has one, at the end. */
  lemma HistoryPostsSnoc(chatId: ChatId, msgs: seq<Option<Message>>, k: nat)
    requires k < |msgs|
    ensures HistoryPosts(chatId, msgs[..k + 1])
            == HistoryPosts(chatId, msgs[..k])
               + (if msgs[k].Some? && ContentText(msgs[k].value.content).Some?
                  then [PostOf(chatId, msgs[k].value, ContentText(msgs[k].value.content).value)]
                  else [])
  {
    assert msgs[..k + 1][..k] == msgs[..k];
  }

  /** `get_channel_history`: a failed fetch is the error; otherwise the posts of the
      fetched messages. */
  method GetChannelHistory(getChatHistory: GetChatHistory -> Result<seq<Option<Message>>>, chatId: ChatId, limit: int)
    returns (r: Result<seq<Post>>)
    ensures getChatHistory(HistoryRequest(chatId, limit)).Err? ==> r == Err(getChatHistory(HistoryRequest(chatId, limit)).error)
    ensures getChatHistory(HistoryRequest(chatId, limit)).Ok? ==>
              r == Ok(HistoryPosts(chatId, getChatHistory(HistoryRequest(chatId, limit)).value))
  {
    var history := getChatHistory(HistoryRequest(chatId, limit));
    if history.Err? {
      return Err(history.error);
    }
    var msgs := history.value;
    var result: seq<Post> := [];
    for k := 0 to |msgs|
      invariant result == HistoryPosts(chatId, msgs[..k])
    {
      HistoryPostsSnoc(chatId, msgs, k);
      var msg := msgs[k];
      if msg.Some? {
        var content := ParseMessageContent(msg.value.content);
        if content.None? {
          continue;
        }
        result := result + [PostOf(chatId, msg.value, content.value)];
      }
    }
    assert msgs[..|msgs|] == msgs;
    return Ok(result);
  }

  /** The posts of two stretches of history, one after the other, are the posts of the whole. */
  lemma {:induction false} HistoryPostsAppend(chatId: ChatId, a: seq<Option<Message>>, b: seq<Option<Message>>)
    ensures HistoryPosts(chatId, a + b) == HistoryPosts(chatId, a) + HistoryPosts(chatId, b)
    decreases |b|
  {
    if b == [] {
      assert a + b == a;
    } else {
      assert (a + b)[..|a + b| - 1] == a + b[..|b| - 1];
      assert (a + b)[|a + b| - 1] == b[|b| - 1];
      HistoryPostsAppend(chatId, a, b[..|b| - 1]);
    }
  }

  /** There are never more posts than messages, and every post carries no title, an empty
      link and the requested chat id. */
  lemma {:induction false} HistoryPostsShape(chatId: ChatId, msgs: seq<Option<Message>>)
    ensures |HistoryPosts(chatId, msgs)| <= |msgs|
    ensures forall i :: 0 <= i < |HistoryPosts(chatId, msgs)| ==>
              var p := HistoryPosts(chatId, msgs)[i];
              p.title == None && p.link == "" && p.chatId == chatId
    decreases |msgs|
  {
    if msgs != [] {
      HistoryPostsShape(chatId, msgs[..|msgs| - 1]);
    }
  }

  /** A single present message gives the post with its id, date and rendered content exactly
      when its content has text, and otherwise nothing. */
  lemma HistoryPostsOne(chatId: ChatId, msg: Message)
    ensures ContentText(msg.content).Some? ==>
              HistoryPosts(chatId, [Some(msg)]) == [Post(None, "", msg.id, msg.date, ContentText(msg.content).value, chatId)]
    ensures ContentText(msg.content).None? ==> HistoryPosts(chatId, [Some(msg)]) == []
  {
    assert [Some(msg)][..0] == [];
  }

  /** When every message is present and has text, each one gives a post. */
  lemma {:induction false} HistoryPostsComplete(chatId: ChatId, msgs: seq<Option<Message>>)
    requires forall i :: 0 <= i < |msgs| ==> msgs[i].Some? && ContentText(msgs[i].value.content).Some?
    ensures |HistoryPosts(chatId, msgs)| == |msgs|
    decreases |msgs|
  {
    if msgs != [] {
      HistoryPostsComplete(chatId, msgs[..|msgs| - 1]);
    }
  }

  // ---------------------------------------------------------------------------------------
  // Channels of the account.

  /** The number of chats requested from the chat list. */
  const ChatListLimit := 9999

  /** What one chat of the chat list contributes: an error from a failed lookup, nothing for a
      chat that is not a channel, or the channel under its supergroup's username. */
  function ChannelEntry(getChat: ChatId -> Result<Chat>, getSupergroup: int -> Result<Supergroup>, id: ChatId)
    : Result<Option<NewChannel>>
  {
    match getChat(id)
    case Err(e) => Err(e)
    case Ok(chat) =>
      if chat.kind.ChatTypeSupergroup? && chat.kind.isChannel then
        match getSupergroup(chat.kind.supergroupId)
        case Err(e) => Err(e)
        case Ok(sg) => Ok(Some(NewChannelOf(chat, sg.username)))
      else Ok(None)
  }

  /** The channels among `ids`, in order; the first failed lookup is the result instead. */
  function AllChannels(getChat: ChatId -> Result<Chat>, getSupergroup: int -> Result<Supergroup>, ids: seq<ChatId>)
    : Result<seq<NewChannel>>
  {
    if ids == [] then Ok([])
    else
      match AllChannels(getChat, getSupergroup, ids[..|ids| - 1])
      case Err(e) => Err(e)
      case Ok(cs) =>
        match ChannelEntry(getChat, getSupergroup, ids[|ids| - 1])
        case Err(e) => Err(e)
        case Ok(c) => Ok(cs + (if c.Some? then [c.value] else []))
  }

  /** A failure in a prefix of the chat list is the failure of the whole list. */
  lemma {:induction false} AllChannelsErrExtends(getChat: ChatId -> Result<Chat>, getSupergroup: int -> Result<Supergroup>,
                                                 ids: seq<ChatId>, k: nat)
    requires k <= |ids| && AllChannels(getChat, getSupergroup, ids[..k]).Err?
    ensures AllChannels(getChat, getSupergroup, ids) == AllChannels(getChat, getSupergroup, ids[..k])
    decreases |ids| - k
  {
    if k < |ids| {
      assert ids[..k + 1][..k] == ids[..k];
      AllChannelsErrExtends(getChat, getSupergroup, ids, k + 1);
    } else {
      assert ids[..k] == ids;
    }
  }

  /** `get_all_channels`: lists the chats, then looks up each; any failed call aborts. */
  method GetAllChannels(getChats: int -> Result<seq<ChatId>>, getChat: ChatId -> Result<Chat>,
                        getSupergroup: int -> Result<Supergroup>)
    returns (r: Result<seq<NewChannel>>)
    ensures getChats(ChatListLimit).Err? ==> r == Err(getChats(ChatListLimit).error)
    ensures getChats(ChatListLimit).Ok? ==> r == AllChannels(getChat, getSupergroup, getChats(ChatListLimit).value)
  {
    var chats := getChats(ChatListLimit);
    if chats.Err? {
      return Err(chats.error);
    }
    var ids := chats.value;
    var result: seq<NewChannel> := [];
    for k := 0 to |ids|
      invariant AllChannels(getChat, getSupergroup, ids[..k]) == Ok(result)
    {
      assert ids[..k + 1][..k] == ids[..k] && ids[..k + 1][k] == ids[k];
      var chat := getChat(ids[k]);
      if chat.Err? {
        AllChannelsErrExtends(getChat, getSupergroup, ids, k + 1);
        return Err(chat.error);
      }
      if chat.value.kind.ChatTypeSupergroup? && chat.value.kind.isChannel {
        var sg := getSupergroup(chat.value.kind.supergroupId);
        if sg.Err? {
          AllChannelsErrExtends(getChat, getSupergroup, ids, k + 1);
          return Err(sg.error);
        }
        assert ChannelEntry(getChat, getSupergroup, ids[k]) == Ok(Some(NewChannelOf(chat.value, sg.value.username)));
        result := result + [NewChannelOf(chat.value, sg.value.username)];
      } else {
        assert ChannelEntry(getChat, getSupergroup, ids[k]) == Ok(None);
        assert result + [] == result;
      }
    }
    assert ids[..|ids|] == ids;
    return Ok(result);
  }

  /** Any failed chat lookup makes the whole listing fail. */
  lemma FailedLookupAborts(getChat: ChatId -> Result<Chat>, getSupergroup: int -> Result<Supergroup>,
                           ids: seq<ChatId>, k: nat)
    requires k < |ids| && getChat(ids[k]).Err?
    ensures AllChannels(getChat, getSupergroup, ids).Err?
  {
    assert ids[..k + 1][..k] == ids[..k];
    assert ids[..k + 1][k] == ids[k];
    AllChannelsErrExtends(getChat, getSupergroup, ids, k + 1);
  }

  /** Any failed supergroup lookup of a channel chat makes the whole listing fail. */
  lemma FailedSupergroupAborts(getChat: ChatId -> Result<Chat>, getSupergroup: int -> Result<Supergroup>,
                               ids: seq<ChatId>, k: nat)
    requires k < |ids| && getChat(ids[k]).Ok? && IsChannel(getChat(ids[k]).value)
    requires getSupergroup(getChat(ids[k]).value.kind.supergroupId).Err?
    ensures AllChannels(getChat, getSupergroup, ids).Err?
  {
    assert ids[..k + 1][..k] == ids[..k];
    assert ids[..k + 1][k] == ids[k];
    AllChannelsErrExtends(getChat, getSupergroup, ids, k + 1);
  }

  /** The number of chats among `ids` whose lookup gives a channel. */
  function ChannelChats(getChat: ChatId -> Result<Chat>, ids: seq<ChatId>): nat
  {
    if ids == [] then 0
    else
      var last := getChat(ids[|ids| - 1]);
      ChannelChats(getChat, ids[..|ids| - 1]) + (if last.Ok? && IsChannel(last.value) then 1 else 0)
  }

  /** A successful listing means every chat lookup and every channel's supergroup lookup
      succeeded, and it holds exactly one entry per channel chat. */
  lemma {:induction false} AllChannelsShape(getChat: ChatId -> Result<Chat>, getSupergroup: int -> Result<Supergroup>,
                                            ids: seq<ChatId>)
    requires AllChannels(getChat, getSupergroup, ids).Ok?
    ensures |AllChannels(getChat, getSupergroup, ids).value| == ChannelChats(getChat, ids) <= |ids|
    ensures forall i :: 0 <= i < |ids| ==>
              && getChat(ids[i]).Ok?
              && (IsChannel(getChat(ids[i]).value) ==> getSupergroup(getChat(ids[i]).value.kind.supergroupId).Ok?)
    decreases |ids|
  {
    if ids != [] {
      var n := |ids| - 1;
      AllChannelsShape(getChat, getSupergroup, ids[..n]);
      assert ChannelEntry(getChat, getSupergroup, ids[n]).Ok?;
      forall i | 0 <= i < |ids|
        ensures getChat(ids[i]).Ok?
        ensures IsChannel(getChat(ids[i]).value) ==> getSupergroup(getChat(ids[i]).value.kind.supergroupId).Ok?
      {
        if i < n {
          assert ids[..n][i] == ids[i];
        }
      }
    }
  }

  // ---------------------------------------------------------------------------------------
  // The account's update stream.

  /** The filter of `init_client_updates_reader`: the rendered text of a new message with
      text; every other update is dropped. */
  method FilterClientUpdate(u: Update) returns (r: Option<string>)
    ensures u.UpdateNewMessage? ==> r == ContentText(u.message.content)
    ensures !u.UpdateNewMessage? ==> r == None
  {
    match u {
      case UpdateMessageContent(_, _, _) =>
        r := None;
      case UpdateNewMessage(m) =>
        r := ParseMessageContent(m.content);
      case UpdateOther =>
        r := None;
    }
  }

  /** The texts forwarded for a stream of updates, in order. */
  ghost function ForwardedTexts(us: seq<Update>): seq<string>
  {
    if us == [] then []
    else
      var u := us[|us| - 1];
      ForwardedTexts(us[..|us| - 1])
      + (if u.UpdateNewMessage? && ContentText(u.message.content).Some? then [ContentText(u.message.content).value] else [])
  }

  /** The reader loop: each update in arrival order, forwarding what the filter keeps. */
  method ReadClientUpdates(us: seq<Update>) returns (forwarded: seq<string>)
    ensures forwarded == ForwardedTexts(us)
  {
    forwarded := [];
    for k := 0 to |us|
      invariant forwarded == ForwardedTexts(us[..k])
    {
      assert us[..k + 1][..k] == us[..k];
      var text := FilterClientUpdate(us[k]);
      if text.Some? {
        forwarded := forwarded + [text.value];
      }
    }
    assert us[..|us|] == us;
  }

  /** Only new messages are ever forwarded: a stream without them forwards nothing. */
  lemma {:induction false} ForwardedOnlyNewMessages(us: seq<Update>)
    requires forall i :: 0 <= i < |us| ==> !us[i].UpdateNewMessage?
    ensures ForwardedTexts(us) == []
    decreases |us|
  {
    if us != [] {
      ForwardedOnlyNewMessages(us[..|us| - 1]);
    }
  }
}
