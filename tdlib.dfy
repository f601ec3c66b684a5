/** The TDLib value types the core reads. Only the constructors and fields the core
    distinguishes are kept; TDLib's many remaining message kinds are one constructor. */
module TdLib {

  type ChatId = int
  type UserId = int

  datatype TextEntityType =
    | Bold | Code | Hashtag | Italic | PhoneNumber | Pre | PreCode | Strikethrough
    | TextUrl(url: string) | Underline | Url
    | DefaultEntityType | BotCommand | Cashtag | EmailAddress | Mention
    | MentionName(mentionedUser: UserId) | BankCardNumber | MediaTimestamp(seconds: int)

  /** A style annotation over `length` characters starting at character `offset`. */
  datatype TextEntity = TextEntity(offset: nat, length: nat, kind: TextEntityType)

  datatype FormattedText = FormattedText(text: string, entities: seq<TextEntity>)

  /** Message contents. Audio, document and video carry a caption in TDLib too. */
  datatype MessageContent =
    | MessageText(text: FormattedText)
    | MessageAnimation(caption: FormattedText)
    | MessageAudio(caption: FormattedText)
    | MessageDocument(caption: FormattedText)
    | MessagePhoto(caption: FormattedText)
    | MessageVideo(caption: FormattedText)
    | MessageOther(kindName: string)

  datatype MessageSender = SenderDefault | SenderChat(senderChat: ChatId) | SenderUser(userId: UserId)

  datatype Message = Message(id: int, date: int, chatId: ChatId, senderId: MessageSender,
                             content: MessageContent)

  /** Updates pushed by TDLib; every kind other than these two is `UpdateOther`. */
  datatype Update =
    | UpdateNewMessage(message: Message)
    | UpdateMessageContent(chatId: ChatId, messageId: int, newContent: MessageContent)
    | UpdateOther

  datatype ChatType =
    | ChatTypeDefault
    | ChatTypeBasicGroup(basicGroupId: int)
    | ChatTypePrivate(privateUser: UserId)
    | ChatTypeSecret(secretChatId: int)
    | ChatTypeSupergroup(supergroupId: int, isChannel: bool)

  datatype Chat = Chat(id: ChatId, title: string, kind: ChatType)

  datatype Supergroup = Supergroup(id: int, username: string)
}
