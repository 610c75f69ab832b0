/**
 * The records the bot stores (the four collections Schedule, Material, User
 * and Announcement), the inbound Telegram events it reacts to, and the
 * outbound sends it issues.
 */
module Records {
  import opened Wrappers

  /** A Telegram chat or user identity. */
  type ChatId = int

  /** A Schedule document. Fields come from positional parsing, so any of them may be absent. */
  datatype ScheduleEntry = ScheduleEntry(
    group: Option<string>,
    day: Option<string>,
    time: Option<string>,
    subject: Option<string>,
    location: Option<string>)

  /**
   * A Material document as the schema keeps it. The material's kind is not
   * in the schema, so it is not part of the stored record.
   */
  datatype Material = Material(
    group: Option<string>,
    title: Option<string>,
    description: string,
    fileId: Option<string>)

  /** A User document: which group a Telegram user has chosen. */
  datatype UserBinding = UserBinding(userId: ChatId, group: string)

  /** An Announcement document; `date` is an abstract, ordered timestamp. */
  datatype Announcement = Announcement(text: string, date: int)

  datatype FileKind = DocumentFile | PhotoFile | VideoFile

  /**
   * What one outbound call carries: a text message, a text message with an
   * inline keyboard (the callback data of its buttons, top to bottom), a file
   * send with an optional caption, or the announcement digest. The digest's
   * date rendering is not modelled, so it carries the announcements themselves.
   */
  datatype Payload =
    | Say(text: string)
    | Choice(text: string, buttons: seq<string>)
    | File(kind: FileKind, fileId: string, caption: Option<string>)
    | Digest(items: seq<Announcement>)

  /** One entry of the outbox: a payload addressed to a chat. */
  datatype Send = Send(to: ChatId, payload: Payload)

  datatype DocumentInfo = DocumentInfo(fileId: string, fileName: Option<string>)

  /**
   * An inbound message: the chat it came from, the sender, and whichever of
   * text, document, photo sizes (file ids, smallest first) and video it has.
   */
  datatype Message = Message(
    chatId: ChatId,
    fromId: ChatId,
    text: Option<string>,
    document: Option<DocumentInfo>,
    photo: Option<seq<string>>,
    video: Option<string>)

  /** A press of an inline button: who pressed it, in which chat, and its callback data. */
  datatype Callback = Callback(fromId: ChatId, chatId: ChatId, data: string)
}
