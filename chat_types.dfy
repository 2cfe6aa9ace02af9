/** The declarations of the edge device's chat-history table model: the
    column, source and status enumerations, one chat entry with its default
    member values, and the initial length of the history.
 */
module ChatTypes {
  import opened Common

  /** Columns of the history table; `ColumnCount` is the number of real
      columns and `ColumnInvalid` marks no column. */
  datatype ChatColumn =
    | ColumnInvalid
    | ColumnSource
    | ColumnMessage
    | ColumnTimestamp
    | ColumnStatus
    | ColumnCount
  {
    /** The enumerator's integer value. */
    function Index(): (i: int)
      ensures -1 <= i <= 4
      ensures (i == -1) <==> this == ColumnInvalid
      ensures (i == 4) <==> this == ColumnCount
    {
      match this
      case ColumnInvalid => -1
      case ColumnSource => 0
      case ColumnMessage => 1
      case ColumnTimestamp => 2
      case ColumnStatus => 3
      case ColumnCount => 4
    }
  }

  /** The column whose index is `i`, if any. */
  function ColumnAt(i: int): (c: ChatColumn)
    ensures c.Index() == i || (c == ColumnInvalid && !(-1 <= i <= 4))
  {
    if i == 0 then ColumnSource
    else if i == 1 then ColumnMessage
    else if i == 2 then ColumnTimestamp
    else if i == 3 then ColumnStatus
    else if i == 4 then ColumnCount
    else ColumnInvalid
  }

  /** Who wrote a chat entry. */
  datatype ChatSource = SourceUnknown | SourceHuman | SourceEdgeAi
  {
    function Ordinal(): (n: nat)
      ensures n < 3
    {
      match this
      case SourceUnknown => 0
      case SourceHuman => 1
      case SourceEdgeAi => 2
    }
  }

  /** The state of a chat entry. */
  datatype MessageStatus =
    | StatusInvalid
    | StatusPending
    | StatusReplied
    | StatusCanceled
    | StatusError
    | StatusIgnore
  {
    function Ordinal(): (n: nat)
      ensures n < 6
    {
      match this
      case StatusInvalid => 0
      case StatusPending => 1
      case StatusReplied => 2
      case StatusCanceled => 3
      case StatusError => 4
      case StatusIgnore => 5
    }
  }

  /** One row of the chat history. `time` is the clock value at which the
      entry was made; `chatId` is the sequence id of the request it belongs
      to. */
  datatype ChatEntry = ChatEntry(
    source: ChatSource,
    message: string,
    time: uint64,
    status: MessageStatus,
    chatId: uint32)

  /** A default-constructed entry: every member at its initialiser. */
  const DEFAULT_ENTRY: ChatEntry :=
    ChatEntry(SourceUnknown, "", 0, StatusInvalid, 0xFFFF_FFFF)

  /** Number of entries a new history is constructed with. */
  const INIT_LENGTH: nat := 1000

  /** The history is an ordered, growable sequence of entries. */
  type History = seq<ChatEntry>
}
