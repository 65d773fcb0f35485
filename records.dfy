/**
 * The inbound records the relay reads: a Telegram channel message and a
 * Mastodon status, reduced to the fields the relay consults. Optional
 * fields are `Option`s; Python truthiness of strings is `Strings.Truthy`.
 */
module Records {
  import opened Wrappers

  /** The user a message was forwarded from. */
  datatype User = User(name: string, fullName: string)

  /** The chat a message was forwarded from; `link` is absent for chats without a public address. */
  datatype Chat = Chat(title: Option<string>, link: Option<string>)

  datatype PhotoSize = PhotoSize(fileUniqueId: string)

  datatype Video = Video(fileName: Option<string>)

  /** A Telegram message; `photo` lists the sizes of the photo, largest last. */
  datatype Message = Message(
    chatId: int,
    messageId: int,
    mediaGroupId: Option<string>,
    photo: seq<PhotoSize>,
    video: Option<Video>,
    caption: Option<string>,
    text: Option<string>,
    forwardFrom: Option<User>,
    forwardFromChat: Option<Chat>,
    forwardSenderName: Option<string>,
    forwardFromMessageId: Option<int>,
    link: Option<string>)

  datatype Account = Account(username: string)

  datatype Application = Application(name: string)

  /** A media attachment; `kind` is Mastodon's type string ("image", "video", "gifv", "audio", ...). */
  datatype Attachment = Attachment(kind: string, url: string)

  /** A Mastodon status; a reblog carries the reblogged status. */
  datatype Status = Status(
    account: Account,
    application: Option<Application>,
    inReplyToId: Option<int>,
    visibility: string,
    reblog: Option<Status>,
    content: string,
    url: string,
    mediaAttachments: seq<Attachment>)
}
