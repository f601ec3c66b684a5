# Telegram subscription bot — verified model of its decision core

This project models the core of a Telegram subscription bot. Users talk to a bot account
(`/start`, `/stop`, `/add <channel>`, `/list`, `/remove <channel>`). A second, ordinary
user account reads channel histories and updates. The application stores users,
channels and subscriptions. Every TDLib call and every database call is given to the model
as a parameter holding the answer it returns; each modelled step is then deterministic.

Modules, one per source file:

- `Base`: `Option`, `Result`, `Outcome`, and Rust's `str::trim` over the Unicode
  White_Space characters.
- `TdLib`: the TDLib value types the core reads. Kinds the core does not distinguish are folded into one constructor.
- `Models`: the persisted records (`Post`, `NewChannel`, `Channel`, `NewUser`, `NewUserChannel`, `RemoveUserChannel`).
- `Parsers`: the entity-to-markup renderer and the choice of message kinds that carry text.
- `Bot`: the command menu, message classification, one step of the bot loop, and the reply texts.
- `User`: channel recognition, history-to-posts, the channel listing and the update filter.
- `Service`: client parameters, the authorisation wait, the start/stop guard and the router.
- `App`: the mapping from each request to store calls, and the request loop.

The renderer is specified by `Parsers.Render`, a definition without a loop:

- **Pop order.** Each markup entity pushes an opening fragment at its offset and a closing
  fragment at offset + length. The pushed list is sorted stably by offset.
- **Emitted fragments.** These are the longest prefix of the pop order whose offsets rise
  strictly and stay below the text length.
- **Placement.** Each emitted fragment is written immediately before the character at its
  offset.

`Parsers.ParseFormattedText`, whose loop pops a stack as the source does, is proved equal
to `Render`.

## Model

| member | source | states |
|---|---|---|
| Base.Trim | src/telegram/bot.rs:143 | the trimmed name is a slice of the input. Everything before and after the slice is whitespace, and a non-empty result begins and ends with a non-whitespace character |
| Parsers.EntityFragmentsTable | src/telegram/parsers.rs:101-132 | Bold, Hashtag, TextUrl, Url, PhoneNumber and PreCode open at the offset and close at offset + length with their tags (Hashtag: `#` and nothing; TextUrl: `<a href="url">`). BotCommand, Mention and Cashtag give no fragments |
| Parsers.PushedLength | src/telegram/parsers.rs:129-132 | exactly two fragments are pushed per entity whose kind carries markup |
| Parsers.PushedNoMarkup | src/telegram/parsers.rs:120-132 | entities of plain kinds push nothing |
| Parsers.PushedAppend | src/telegram/parsers.rs:99-133 | fragments are pushed entity by entity, in entity order |
| Parsers.SortByOffsetSpec | src/telegram/parsers.rs:134 | the stable sort by offset is ascending, a permutation, and keeps the fragments of each offset in push order |
| Parsers.SortByOffsetStable | src/telegram/parsers.rs:134 | for every offset, the fragments at that offset come out in the order they went in |
| Parsers.SortByOffsetPermutes | src/telegram/parsers.rs:134 | the sort neither loses nor adds a fragment |
| Parsers.MakeEntitiesStack | src/telegram/parsers.rs:98-137 | the stack is the reverse of the stable ascending sort of the pushed fragments |
| Parsers.StackShape | src/telegram/parsers.rs:134-135 | the stack's offsets do not increase, it holds exactly the pushed fragments, and equal offsets pop in push order |
| Parsers.ParseFormattedText | src/telegram/parsers.rs:65-96 | the result is `Render` of the text and entities. Without markup entities it is the text unchanged |
| Parsers.WalkText | src/telegram/parsers.rs:72-95 | the character loop gives: each character, preceded by the markup of the emitted fragment at its index; emission stops at the first fragment whose offset does not rise or is at least the text length; the tail after the last fragment is copied verbatim |
| Parsers.EmittedCount | src/telegram/parsers.rs:73-90 | the emitted fragments form a prefix of the pop order with strictly rising offsets below the text length. The next fragment, if any, repeats or falls below its predecessor's offset, or lies at or past the end |
| Parsers.MarkupBeforeAt | src/telegram/parsers.rs:73-74 | an emitted fragment's markup is placed before the character at its own offset |
| Parsers.RenderNoMarkup | src/telegram/parsers.rs:66-71 | a text with no markup entities renders as itself |
| Parsers.LayoutErasesToText | src/telegram/parsers.rs:72-94 | deleting the inserted markup leaves every source character exactly once, in order |
| Parsers.LayoutTail | src/telegram/parsers.rs:76-87 | after the last fragment, the rest of the text follows verbatim |
| Parsers.RenderBoldWholeText | src/telegram/parsers.rs:72-95 | bold over all of "abc" renders as "<b>abc": a close at the text length is lost |
| Parsers.RenderInnerSpan | src/telegram/parsers.rs:72-95 | bold over "bc" in "abcd" renders "a<b>bc</b>d" |
| Parsers.RenderSharedOffsetStops | src/telegram/parsers.rs:73-90 | when a bold span ends where an italic span starts, the render is "<b>ab</b>cd": emission stops for good at the shared offset |
| Parsers.ParseMessageContent | src/telegram/parsers.rs:3-62 | the result is `Some` exactly for text, animation and photo messages. Text renders its body; animation and photo render their caption |
| Bot.MenuIsFiveCommands | src/telegram/bot.rs:69-82 | the published menu is /start, /stop, /add, /list, /remove with their descriptions, in declaration order, without Invalid |
| Bot.Startup | src/telegram/bot.rs:99-122 | start-up succeeds exactly when publishing the menu and get_me both succeed, and yields the bot's id. A failed publish is the error |
| Bot.Classify | src/telegram/bot.rs:237-251 | a non-command message is Invalid. Otherwise each command holds exactly when its prefix starts the text, and the add/remove argument is everything after the prefix, untrimmed |
| Bot.PrefixesExclusive | src/telegram/bot.rs:240-251 | no text starts with two of the command prefixes, so the order of the tests never decides |
| Bot.ClassifyExamples | src/telegram/bot.rs:240-251 | "/stopword" is Stop, "/listx" is List, "/add news" is Add(" news"), "/help" is Invalid, and a non-command "/start" is Invalid |
| Bot.HandleMessageToBot | src/telegram/bot.rs:218-263 | only text messages are considered. A non-user sender is unsupported. A user's message yields an update with its chat, its user and the classified command |
| Bot.NoCommandEntityIsInvalid | src/telegram/bot.rs:223-238 | a message without a BotCommand entity classifies as Invalid, whatever its text |
| Bot.NormalizeUpdate | src/telegram/bot.rs:203-206 | only new-message updates reach classification |
| Bot.MakeListChannels | src/telegram/bot.rs:311-324 | the list is the concatenation of "username: title\n" over the channels in order, addressed to the given chat |
| Bot.ListTextSnoc | src/telegram/bot.rs:313-315 | each further channel appends exactly its own line |
| Bot.UpdateStep | src/telegram/bot.rs:127-182 | every reply goes to the update's chat, and every request names the update's user |
| Bot.SelfMessagesIgnored | src/telegram/bot.rs:128-130 | an update from the bot itself gives no request and no reply |
| Bot.EveryCommandAnswered | src/telegram/bot.rs:131-179 | every command from another user gets a reply except /list, which instead requests the channel list |
| Bot.UpdateStepTable | src/telegram/bot.rs:131-182 | Invalid gives "invalid request" only. List gives ListChannels(user) only. Start and Stop give AddUser and RemoveUser of (user, chat) with "started" and "stopped". Remove gives the trimmed-name request with "channel {name} removed" |
| Bot.ChannelNotFoundResp | src/telegram/bot.rs:265-278 | the reply goes to the given chat and reads "channel {name} not found", with the name embedded verbatim |
| Bot.ChannelAddedResp | src/telegram/bot.rs:280-282 | the reply goes to the given chat and reads "channel {name} added", with the name embedded verbatim |
| Bot.ChannelRemovedResp | src/telegram/bot.rs:284-286 | the reply goes to the given chat and reads "channel {name} removed", with the name embedded verbatim |
| Bot.InvalidRequestResp | src/telegram/bot.rs:288-290 | the reply goes to the given chat and reads "invalid request" |
| Bot.StartResp | src/telegram/bot.rs:292-294 | the reply goes to the given chat and reads "started" |
| Bot.StopResp | src/telegram/bot.rs:296-298 | the reply goes to the given chat and reads "stopped" |
| Bot.AddStep | src/telegram/bot.rs:147-161 | a failed search gives "channel {name} not found" and no request. A found chat gives one AddUserChannel with its id, the trimmed name and the trimmed title, and "channel {name} added" |
| Bot.AddWithLeadingSpace | src/telegram/bot.rs:140-157 | "/add news" replies "channel  news added" (two spaces) while the request carries "news" |
| Bot.BotActor.OnUpdate | src/telegram/bot.rs:127-183 | the requests sent and messages sent grow by exactly the step's request and reply |
| Bot.BotActor.OnResponse | src/telegram/bot.rs:185-191 | a channel-list response sends the list text to the response's chat and requests nothing |
| User.IsChannel | src/telegram/user.rs:163-171 | true exactly for a supergroup whose channel flag is set |
| User.NewChannelOf | src/telegram/user.rs:155-161 | the record carries the chat's title, the chat's id and the given name as its username |
| User.SearchChannel | src/telegram/user.rs:116-126 | a failed search is the error. A chat that is not a channel gives no result. A channel gives its title and id under the name as queried |
| User.GetChannelHistory | src/telegram/user.rs:52-84 | a failed fetch is the error. Otherwise the result is one post per present message with text, in order, requested with offset -50 from message 0 |
| User.HistoryPostsShape | src/telegram/user.rs:65-80 | there are never more posts than messages. Every post has no title, an empty link and the requested chat id |
| User.HistoryPostsOne | src/telegram/user.rs:67-80 | a message gives the post with its id, date and rendered content when it has text, and nothing otherwise |
| User.HistoryPostsAppend | src/telegram/user.rs:66-82 | posts follow message order |
| User.HistoryPostsComplete | src/telegram/user.rs:66-82 | when every message is present with text, each yields a post |
| User.GetAllChannels | src/telegram/user.rs:86-114 | a failed chat list is the error. Otherwise the result is the channels of the listed chats in order, named by their supergroup's username; the first failed lookup is the result instead |
| User.FailedLookupAborts | src/telegram/user.rs:93-96 | any failed chat lookup fails the whole listing rather than skipping that chat |
| User.FailedSupergroupAborts | src/telegram/user.rs:98-107 | a failed supergroup lookup for any channel chat fails the whole listing |
| User.AllChannelsShape | src/telegram/user.rs:90-112 | a successful listing means every chat lookup succeeded and every channel chat's supergroup lookup succeeded. It holds exactly as many entries as there are channel chats, and so never more than the chats listed |
| User.FilterClientUpdate | src/telegram/user.rs:134-140 | a new message yields its content's text, and every other update yields nothing |
| User.ReadClientUpdates | src/telegram/user.rs:133-149 | the forwarded texts are those of the new messages with text, in arrival order |
| User.ForwardedOnlyNewMessages | src/telegram/user.rs:134-140 | a stream without new messages forwards nothing |
| Service.DbDir | src/telegram/service.rs:146-149 | the directory is "bot" exactly for the bot token and "user" exactly for the phone number |
| Service.ClientParameters | src/telegram/service.rs:150-163 | clients use the production data centre, storage optimisation, the given app id and hash, and their identity's directory |
| Service.ClientsUseSeparateDirectories | src/telegram/service.rs:146-153 | the two clients are never built with the same parameters |
| Service.WaitAuth | src/telegram/service.rs:173-191 | the loop ends with the verdict of the first observation that is not Authorizing |
| Service.AuthSucceedsIff | src/telegram/service.rs:173-191 | authorisation succeeds exactly when that observation is Opened. Closed ("client closed, need to reauthorize it") or an error fails |
| Service.AuthWaitsWhileAuthorizing | src/telegram/service.rs:183-185 | while only Authorizing is observed, the wait goes on |
| Service.BuildClient | src/telegram/service.rs:136-194 | the client is ready exactly when building, binding and authorisation all succeed, and it is built with `ClientParameters` |
| Service.StartSucceedsIff | src/telegram/service.rs:64-100 | start-up succeeds exactly when the verbosity parses (default "1"), the worker builds, both clients authorise, and the bot publishes its menu and learns its id |
| Service.TelegramService.constructor | src/telegram/service.rs:49-57 | a new service keeps the given app hash, app id, phone number and bot token, is not started, and has stopped no worker |
| Service.TelegramService.Start | src/telegram/service.rs:59-134 | a started service fails with "service already started" and is unchanged. Otherwise `inner` becomes set only when every step succeeded, and stays unset on any failure |
| Service.TelegramService.Stop | src/telegram/service.rs:196-201 | the service ends stopped. The worker is stopped once if the service was running, and not at all otherwise |
| Service.StopIsIdempotent | src/telegram/service.rs:196-201 | stopping twice has the effect of stopping once |
| Service.RouteRoundTrip | src/telegram/service.rs:105-114 | a response reaches the bot unchanged, and a request reaches the app wrapped but unchanged |
| Service.RunRouter | src/telegram/service.rs:102-114 | each event is forwarded exactly once, to the bot or to the app, in arrival order |
| App.Handle | src/app.rs:42-97 | every request makes one or two store calls, two only when a subscription's channel save succeeded. Only a successful list request produces a response |
| App.UserUpsert | src/app.rs:44-59 | start and stop both save the same user and chat, enabled and disabled respectively |
| App.AddChannelShortCircuits | src/app.rs:60-77 | save_channel(title, channel id, name) comes first. The user is linked only if that succeeded, and the verdict is the last call's |
| App.ListChannelsResponds | src/app.rs:78-88 | one store read. On success exactly one response with the returned chat id and channels; on failure none |
| App.RemoveChannelPassesThrough | src/app.rs:89-95 | the user id and channel name go to the store unchanged |
| App.ServeRequests | src/app.rs:40-101 | requests are handled one by one in arrival order, each against its own store answers. A failure is only logged and the loop goes on |
| App.ServeAllShape | src/app.rs:40-100 | there are no more responses than list requests, one or two store calls per request, and every logged failure names a handled request |

## Left out

- The database layer `src/db.rs` is not part of this model. Its behaviour lives in SQL, and the store methods called from `src/app.rs` are not defined in the files modelled. The store is the `App.Store` interface; each call succeeds or fails.
- TDLib itself is not modelled. Its answers are parameters: searches, history, chat list, chat and supergroup lookups, set_commands, get_me, client build and bind, and authorisation states.
- Sending messages through TDLib and through the tokio channels is recorded as an append to an outbox sequence. Send failures and the 15-second send timeout are not modelled.
- Concurrency is not modelled: `tokio::select!`, spawned tasks and channel interleaving. Each loop consumes one event per step in a given order.
- The router's exit-logging arms only log.
- `Service.TelegramService.Start` runs as one atomic step, so the race between the "already started" check and the final insert is not represented.
- `UserClient::start` is not modelled. Its loop only logs, and it cannot fail, so start-up needs no answer for it.
- A non-user sender makes the source panic (`todo!()`). `Bot.HandleMessageToBot` returns the explicit `UnsupportedSender` outcome instead.
- Logging throughout is not modelled. Neither is the global effect of `set_log_verbosity_level`: only a parse failure of the verbosity variable is modelled.
- Offsets are character indices, as the loop counts them, not TDLib's UTF-16 code units. They are unbounded naturals, so the i32 overflow of offset + length is not modelled.
- A client whose authorisation observations run out while still `Authorizing` leaves the model `Waiting`, where the source would keep waiting.
- `src/main.rs`, `src/settings.rs` and `src/telegram/mod.rs` are not part of this model. They are bootstrap, configuration and type aliases.

## Where the code and its description differ

The model follows the code in each of these cases.

- **Ties between spans.** Fragments at the same offset pop in insertion order, not closes before opens. The second of two fragments at one offset is never emitted, and emission stops for good there.
- **Close at the end of the text.** A close exactly at the text length is lost: bold over all of "abc" gives "<b>abc". Fragments past the end are dropped silently.
- **Prefix tests.** Commands are recognised by plain prefix tests, so "/stopword" is `/stop`.
- **Add replies.** The reply to `/add` repeats the untrimmed argument, so "/add news" answers "channel  news added" with two spaces. The channel search is also made with the untrimmed name.
- **The tail copy.** It takes at most "byte length − i" characters after position i. That bound never cuts the tail short, so the tail is copied whole.
