/** The records that cross into the persistence layer. */
module Models {
  import opened Base
  import opened TdLib

  datatype Post = Post(title: Option<string>, link: string, telegramId: int, pubDate: int,
                       content: string, chatId: ChatId)

  datatype NewChannel = NewChannel(title: string, telegramId: ChatId, username: string)

  datatype Channel = Channel(id: int, title: string, username: string, telegramId: ChatId)

  datatype NewUser = NewUser(userId: UserId, chatId: ChatId, enabled: bool)

  datatype NewUserChannel = NewUserChannel(userId: UserId, channelId: ChatId)

  datatype RemoveUserChannel = RemoveUserChannel(userId: UserId, channelName: string)
}
