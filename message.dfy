/** A message between two users: ids, subject and content fixed at construction, the send
    timestamp, and the read flag, plus its saved comma-separated line. */
module MessageModel {
  import opened Options
  import Text
  import Codec

  /** The seven saved fields of a message. */
  datatype MessageRow = MessageRow(
    messageId: string, senderId: string, receiverId: string, subject: string, content: string,
    sentAt: int, isRead: bool)

  function MessageFields(row: MessageRow): seq<string>
  {
    [row.messageId, row.senderId, row.receiverId, row.subject, row.content,
     Codec.IntText(row.sentAt), Codec.BoolText(row.isRead)]
  }

  /** Message.toString. */
  function EncodeMessage(row: MessageRow): string
  {
    Text.Join(MessageFields(row), ',')
  }

  /** Message.fromString: fewer than seven pieces or an unparsable timestamp is the
      exception case. */
  function DecodeMessage(line: string): Option<MessageRow>
  {
    var parts := Text.JavaSplit(line, ',');
    if |parts| < 7 then None
    else
      match Codec.ParseInt(parts[5])
      case Some(sentAt) =>
        Some(MessageRow(parts[0], parts[1], parts[2], parts[3], parts[4], sentAt,
                        Codec.ParseBool(parts[6])))
      case None => None
  }

  /** The text fields of a message hold no comma. */
  predicate Serialisable(row: MessageRow)
  {
    && ',' !in row.messageId && ',' !in row.senderId && ',' !in row.receiverId
    && ',' !in row.subject && ',' !in row.content
  }

  /** fromString(toString(m)) restores all seven fields, sentAt and isRead included. */
  lemma DecodeEncodeMessage(row: MessageRow)
    requires Serialisable(row)
    ensures DecodeMessage(EncodeMessage(row)) == Some(row)
  {
    Codec.IntTextHasNoSeparator(row.sentAt);
    Codec.ParseBoolText(row.isRead);
    Text.JavaSplitJoin(MessageFields(row), ',');
    Codec.ParseIntText(row.sentAt);
  }

  class Message {
    const messageId: string
    const senderId: string
    const receiverId: string
    const subject: string
    const content: string
    var sentAt: int
    var isRead: bool

    /** The saved fields of this message. */
    function Row(): MessageRow
      reads this
    {
      MessageRow(messageId, senderId, receiverId, subject, content, sentAt, isRead)
    }

    /** A new message is unread; `now` stands for LocalDateTime.now(). */
    constructor (messageId: string, senderId: string, receiverId: string, subject: string,
                 content: string, now: int)
      ensures Row() == MessageRow(messageId, senderId, receiverId, subject, content, now, false)
    {
      this.messageId := messageId;
      this.senderId := senderId;
      this.receiverId := receiverId;
      this.subject := subject;
      this.content := content;
      this.sentAt := now;
      this.isRead := false;
    }

    /** markAsRead: sets the flag, whatever it was, so a second call changes nothing. */
    method MarkAsRead()
      modifies this`isRead
      ensures Row() == old(Row()).(isRead := true)
      ensures old(isRead) ==> Row() == old(Row())
    {
      isRead := true;
    }

    /** toString. */
    function ToLine(): string
      reads this
    {
      EncodeMessage(Row())
    }

    /** fromString: the constructor, then the parsed timestamp and flag written over the
        fresh object's fields. */
    static method FromLine(line: string) returns (r: Option<Message>)
      ensures r.None? <==> DecodeMessage(line).None?
      ensures r.Some? ==> fresh(r.value) && r.value.Row() == DecodeMessage(line).value
    {
      var parts := Text.JavaSplit(line, ',');
      if |parts| < 7 {
        return None;
      }
      var message := new Message(parts[0], parts[1], parts[2], parts[3], parts[4], 0);
      var sentAt := Codec.ParseInt(parts[5]);
      if sentAt.None? {
        return None;
      }
      message.sentAt := sentAt.value;
      message.isRead := Codec.ParseBool(parts[6]);
      r := Some(message);
    }
  }
}
