/** What the core sees of the Telegram client: the messages and chats it
    returns, the answers its calls can give, and the calls made to it.
    The client's answers are inputs of the model; the client records each
    call so that the model can say which calls an operation makes. */
module Remote {
  import opened Common
  import opened Files
  import Base

  /** A pyrogram message: its id, the chat it lives in, its text, the value
      of its media kind (`photo`, `document`, ...) when it has media, and
      whether it is a service message. */
  datatype TgMessage = TgMessage(id: int, chatId: int, text: Option<string>, media: Option<string>,
                                 service: bool)

  /** A pyrogram chat: its id, its content-protection flag and its names
      (the empty string for a missing name). */
  datatype ChatInfo = ChatInfo(id: int, hasProtectedContent: bool, firstName: string,
                               lastName: string, title: string, username: string)

  /** What `get_chat` returns: a chat the user is a member of, or a preview. */
  datatype ChatLookup = Member(chat: ChatInfo) | Preview

  /** What `get_messages` returns: one message or a list. */
  datatype Fetched = OneMessage(message: TgMessage) | MessageList(messages: seq<TgMessage>)

  /** What `copy_message` returns: the one message sent, or a list of them. */
  datatype CopyResult = CopiedOne(sentId: int) | CopiedMany(sentIds: seq<int>)

  /** What `download_media` returns: the path of the saved file (by its
      name inside the destination directory), or something that is not a path. */
  datatype DownloadResult = SavedAs(fileName: string) | NotAPath

  /** What a `send_*` call does: return a message (its id) or None, or raise ValueError. */
  datatype SendResult = Returned(sent: Option<int>) | RaisedValueError

  /** The client's answers to one run of the media path: download, then send. */
  datatype MediaAttempt = MediaAttempt(download: DownloadResult, send: SendResult)

  datatype Call =
    | GetChat(chatId: int)
    | GetMessages(chatId: int, messageId: int)
    | GetChatHistory(chatId: int, offsetId: int)
    | CopyMessage(toChat: int, fromChat: int, messageId: int)
    | DownloadMedia(messageId: int, dest: FsPath)
    | SendMedia(sendFunction: string, toChat: int, file: FsPath, caption: Option<string>,
                fileName: Option<string>)
    | SendText(toChat: int, text: Option<string>)

  function NameFieldsOf(c: ChatInfo): Base.NameFields
  {
    Base.NameFields(c.firstName, c.lastName, c.title, c.username, Some(c.id))
  }

  /** The client, as far as the core sees it: the calls made to it, in order. */
  class Client {
    var calls: seq<Call>

    constructor ()
      ensures calls == []
    {
      calls := [];
    }

    method Record(c: Call)
      modifies this
      ensures calls == old(calls) + [c]
    {
      calls := calls + [c];
    }
  }
}
