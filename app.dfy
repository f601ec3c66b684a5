/** The application: turns each request from the Telegram service into store operations,
    and answers the channel-list request. The store is an interface whose every call either
    succeeds or fails. */
module App {
  import opened Base
  import opened TdLib
  import opened Models
  import Bot
  import Service

  /** One call into the store. */
  datatype StoreCall =
    | SaveUser(user: NewUser)
    | SaveChannel(channel: NewChannel)
    | SaveUserChannel(link: NewUserChannel)
    | GetUserChannels(userId: UserId)
    | RemoveUserChannelCall(removal: RemoveUserChannel)

  /** The store's answers at the moment a request is handled: the outcome of each write and
      the chat id and channel list of a user. */
  datatype Store = Store(write: StoreCall -> Outcome, userChannels: UserId -> Result<(ChatId, seq<Channel>)>)

  /** The calls made for one request, the response sent (if any) and the request's verdict. */
  datatype Handled = Handled(calls: seq<StoreCall>, response: Option<Service.ServiceResponses>, result: Outcome)

  /** The handling of one request: the per-request `match` of the application loop. */
  function Handle(req: Service.ServiceRequests, store: Store): (h: Handled)
    ensures 1 <= |h.calls| <= 2
    ensures (|h.calls| == 2) <==>
              (req.botRequest.AddUserChannelRequest? && h.calls[0].SaveChannel? && store.write(h.calls[0]).Pass?)
    ensures h.response.Some? <==> req.botRequest.ListChannels? && store.userChannels(req.botRequest.listUser).Ok?
    ensures h.response.Some? ==> h.result.Pass?
  {
    match req.botRequest
    case AddUser(u) =>
      var call := SaveUser(NewUser(u.userId, u.chatId, true));
      Handled([call], None, store.write(call))
    case RemoveUser(u) =>
      var call := SaveUser(NewUser(u.userId, u.chatId, false));
      Handled([call], None, store.write(call))
    case AddUserChannelRequest(a) =>
      var save := SaveChannel(NewChannel(a.title, a.channelId, a.channelName));
      if store.write(save).Fail? then Handled([save], None, store.write(save))
      else
        var link := SaveUserChannel(NewUserChannel(a.userId, a.channelId));
        Handled([save, link], None, store.write(link))
    case ListChannels(user) =>
      (match store.userChannels(user)
       case Err(e) => Handled([GetUserChannels(user)], None, Fail(e))
       case Ok((chatId, channels)) =>
         Handled([GetUserChannels(user)],
                 Some(Service.BotResponse(Bot.ListChannelsResponse(Bot.BotResponseListChannels(chatId, channels)))),
                 Pass))
    case RemoveUserChannel(r) =>
      var call := RemoveUserChannelCall(RemoveUserChannel(r.userId, r.channelName));
      Handled([call], None, store.write(call))
  }

  /** Starting and stopping a user are both an upsert of the same user and chat; only the
      enabled flag differs, so stopping never deletes the user. */
  lemma UserUpsert(u: Bot.UserChat, store: Store)
    ensures Handle(Service.BotRequest(Bot.AddUser(u)), store).calls == [SaveUser(NewUser(u.userId, u.chatId, true))]
    ensures Handle(Service.BotRequest(Bot.RemoveUser(u)), store).calls == [SaveUser(NewUser(u.userId, u.chatId, false))]
    ensures Handle(Service.BotRequest(Bot.AddUser(u)), store).result == store.write(SaveUser(NewUser(u.userId, u.chatId, true)))
  {
  }

  /** Subscribing saves the channel first and links it to the user only if that succeeded;
      the verdict is that of the last call made. */
  lemma AddChannelShortCircuits(a: Bot.AddUserChannel, store: Store)
    ensures var h := Handle(Service.BotRequest(Bot.AddUserChannelRequest(a)), store);
            var save := SaveChannel(NewChannel(a.title, a.channelId, a.channelName));
            var link := SaveUserChannel(NewUserChannel(a.userId, a.channelId));
            && h.calls[0] == save
            && (store.write(save).Fail? ==> h.calls == [save] && h.result == store.write(save))
            && (store.write(save).Pass? ==> h.calls == [save, link] && h.result == store.write(link))
            && h.response == None
  {
  }

  /** Listing asks the store once and, when it answers, sends exactly its chat id and its
      channels, in order. */
  lemma ListChannelsResponds(user: UserId, store: Store)
    ensures var h := Handle(Service.BotRequest(Bot.ListChannels(user)), store);
            && h.calls == [GetUserChannels(user)]
            && (store.userChannels(user).Ok? ==>
                  h.response == Some(Service.BotResponse(Bot.ListChannelsResponse(
                    Bot.BotResponseListChannels(store.userChannels(user).value.0, store.userChannels(user).value.1))))
                  && h.result.Pass?)
            && (store.userChannels(user).Err? ==> h.response == None && h.result == Fail(store.userChannels(user).error))
  {
  }

  /** Unsubscribing passes the user id and the channel name through unchanged. */
  lemma RemoveChannelPassesThrough(r: Bot.RemoveUserChannelRequest, store: Store)
    ensures Handle(Service.BotRequest(Bot.RemoveUserChannel(r)), store).calls
              == [RemoveUserChannelCall(RemoveUserChannel(r.userId, r.channelName))]
  {
  }

  /** What the application loop has done after some requests: every store call, every
      response and the positions of the requests logged as failed. */
  datatype Served = Served(calls: seq<StoreCall>, responses: seq<Service.ServiceResponses>, failed: seq<nat>)

  /** The effect of handling `reqs` in arrival order, the `k`-th against the store's answers
      `stores(k)`. */
  function ServeAll(reqs: seq<Service.ServiceRequests>, stores: nat -> Store): Served
  {
    if reqs == [] then Served([], [], [])
    else
      var n := |reqs| - 1;
      var prev := ServeAll(reqs[..n], stores);
      var h := Handle(reqs[n], stores(n));
      Served(prev.calls + h.calls,
             prev.responses + (if h.response.Some? then [h.response.value] else []),
             prev.failed + (if h.result.Fail? then [n] else []))
  }

  /** The application loop: consumes the requests one by one in arrival order; a failed
      request is only logged and the loop goes on. */
  method ServeRequests(reqs: seq<Service.ServiceRequests>, stores: nat -> Store)
    returns (calls: seq<StoreCall>, responses: seq<Service.ServiceResponses>, failed: seq<nat>)
    ensures Served(calls, responses, failed) == ServeAll(reqs, stores)
  {
    calls, responses, failed := [], [], [];
    var k := 0;
    while k < |reqs|
      invariant k <= |reqs|
      invariant Served(calls, responses, failed) == ServeAll(reqs[..k], stores)
    {
      assert reqs[..k + 1][..k] == reqs[..k];
      var h := Handle(reqs[k], stores(k));
      calls := calls + h.calls;
      if h.response.Some? {
        responses := responses + [h.response.value];
      }
      if h.result.Fail? {
        failed := failed + [k];
      }
      k := k + 1;
    }
    assert reqs[..|reqs|] == reqs;
  }

  /** The number of channel-list requests among `reqs`. */
  function ListRequests(reqs: seq<Service.ServiceRequests>): nat
  {
    if reqs == [] then 0
    else ListRequests(reqs[..|reqs| - 1]) + (if reqs[|reqs| - 1].botRequest.ListChannels? then 1 else 0)
  }

  /** Only channel-list requests produce responses, at most one each; every failure is logged
      at its own position, in order, and no request is dropped from the call log. */
  lemma {:induction false} ServeAllShape(reqs: seq<Service.ServiceRequests>, stores: nat -> Store)
    ensures |ServeAll(reqs, stores).responses| <= ListRequests(reqs)
    ensures |reqs| <= |ServeAll(reqs, stores).calls| <= 2 * |reqs|
    ensures forall i :: 0 <= i < |ServeAll(reqs, stores).failed| ==> ServeAll(reqs, stores).failed[i] < |reqs|
    decreases |reqs|
  {
    if reqs != [] {
      ServeAllShape(reqs[..|reqs| - 1], stores);
    }
  }
}
