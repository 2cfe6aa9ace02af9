/** The edge device's chat history: a table model over a growable vector of
    chat entries and a `uint32` request counter.

    The write side (`AddRequest`, `AddResponse`, `AddFailure`, `FindEntry`)
    changes the history in place and lives in the class `AgentChatHistory`;
    each of its methods is proved against a specification function on the
    history value defined in this module. The read side (`RowCount`,
    `HeaderData`, `Data`, ...) is a set of functions of the history value.
    The clock is a parameter `now`; icons are tags.
 */
module ChatHistory {
  import opened Common
  import opened ChatTypes

  // ---------------------------------------------------------------------
  // Specification of the write side, on history values
  // ---------------------------------------------------------------------

  /** The history of a newly constructed table model: `INIT_LENGTH` entries,
      each at its default values (the vector is sized, not reserved). */
  function FreshHistory(): (h: History)
    ensures |h| == INIT_LENGTH
    ensures forall i :: 0 <= i < |h| ==> h[i] == DEFAULT_ENTRY
  {
    seq(INIT_LENGTH, _ => DEFAULT_ENTRY)
  }

  /** The entry `addRequest` records for a question asked at `now`. */
  function RequestEntry(question: string, now: uint64, id: uint32): ChatEntry
  {
    ChatEntry(SourceHuman, question, now, StatusPending, id)
  }

  /** The entry `addResponse` builds for a reply received at `now`, before
      its status is decided. */
  function ReplyEntry(reply: string, now: uint64, seqId: uint32): ChatEntry
  {
    ChatEntry(SourceEdgeAi, reply, now, StatusReplied, seqId)
  }

  /** The history after `addRequest`: one pending human entry appended,
      carrying the current sequence id; nothing before it changes. */
  function WithRequest(h: History, question: string, now: uint64, id: uint32): (r: History)
    ensures |r| == |h| + 1 && r[..|h|] == h
    ensures r[|h|].source == SourceHuman && r[|h|].status == StatusPending
    ensures r[|h|].message == question && r[|h|].time == now && r[|h|].chatId == id
  {
    h + [RequestEntry(question, now, id)]
  }

  /** The history after `addFailure`: one edge-AI error entry appended,
      carrying the current sequence id; nothing before it changes. */
  function WithFailure(h: History, text: string, now: uint64, id: uint32): (r: History)
    ensures |r| == |h| + 1 && r[..|h|] == h
    ensures r[|h|].source == SourceEdgeAi && r[|h|].status == StatusError
    ensures r[|h|].message == text && r[|h|].time == now && r[|h|].chatId == id
  {
    h + [ChatEntry(SourceEdgeAi, text, now, StatusError, id)]
  }

  /** The start index of `findEntry` after clamping: a start at or past the
      (32-bit) size becomes the last index. The result is always below the
      real size, so every index the scan visits exists. */
  function ClampStart(size: nat, startAt: int): (s: int)
    ensures s < size
    ensures startAt < Int32(size) as int ==> s == startAt
    ensures startAt >= Int32(size) as int ==> s == Int32(size) as int - 1
  {
    if startAt >= Int32(size) as int then Int32(size) as int - 1 else startAt
  }

  /** The largest index `i` with `floor <= i <= hi` whose entry carries
      `id`, or -1 when there is none. `findEntry` scans with `floor` 1: it
      stops before index 0. */
  function LastMatch(h: History, id: uint32, hi: int, floor: nat): (i: int)
    requires hi < |h|
    ensures i == -1 || (floor <= i <= hi && h[i].chatId == id)
    ensures i == -1 ==> forall j :: floor <= j <= hi ==> h[j].chatId != id
    ensures i != -1 ==> forall j :: i < j <= hi ==> h[j].chatId != id
    decreases hi - floor
  {
    if hi < floor then -1
    else if h[hi].chatId == id then hi
    else LastMatch(h, id, hi - 1, floor)
  }

  /** The index `addResponse` pairs a reply for `seqId` with, or -1. The
      search starts at `seqId*2` computed in `uint32` and read as `int32`;
      a start at or past the size finds nothing. */
  function FoundIndex(h: History, seqId: uint32, floor: nat): (i: int)
    ensures i == -1 || (floor <= i < |h| && h[i].chatId == seqId)
    ensures i != -1 ==> i <= Int32(seqId as int * 2) as int
    ensures var start := Int32(seqId as int * 2) as int;
      i == -1 <==> start >= Int32(|h|) as int
                   || forall j :: floor <= j <= start && j < |h| ==> h[j].chatId != seqId
    ensures i != -1 ==>
      forall j :: i < j <= Int32(seqId as int * 2) as int && j < |h| ==> h[j].chatId != seqId
  {
    var start := Int32(seqId as int * 2) as int;
    if start >= Int32(|h|) as int then -1
    else LastMatch(h, seqId, ClampStart(|h|, start), floor)
  }

  /** The new history and the returned flag of `addResponse`. */
  datatype ReplyResult = ReplyResult(history: History, replied: bool)

  /** `addResponse` on a history value. When the request is found at `i` it
      is marked replied and the reply is placed after it (appended when
      `i + 1` equals the 32-bit size, inserted at `i + 1` otherwise); when it
      is not found the reply is appended as an error. */
  function ReplyOutcome(h: History, reply: string, seqId: uint32, now: uint64, floor: nat): (r: ReplyResult)
    ensures |r.history| == |h| + 1
    ensures r.replied <==> FoundIndex(h, seqId, floor) >= 0
    ensures !r.replied ==>
      r.history == h + [ChatEntry(SourceEdgeAi, reply, now, StatusError, seqId)]
    ensures r.replied ==>
      var i := FoundIndex(h, seqId, floor);
      r.history[..i] == h[..i] && r.history[i] == h[i].(status := StatusReplied)
  {
    var entry := ReplyEntry(reply, now, seqId);
    var i := FoundIndex(h, seqId, floor);
    if i < 0 then
      ReplyResult(h + [entry.(status := StatusError)], false)
    else
      var marked := h[i := h[i].(status := StatusReplied)];
      if i + 1 == Int32(|h|) as int then
        ReplyResult(marked + [entry], true)
      else
        ReplyResult(marked[..i + 1] + [entry] + marked[i + 1..], true)
  }

  /** Below 2^31 entries, a paired reply sits right after its request, which
      is now marked replied, and every later entry moves up by one. */
  lemma {:induction false} ReplyInsertsAfterRequest(h: History, reply: string, seqId: uint32, now: uint64, floor: nat)
    requires |h| <= INT32_MAX
    requires FoundIndex(h, seqId, floor) >= 0
    ensures var i := FoundIndex(h, seqId, floor);
      ReplyOutcome(h, reply, seqId, now, floor).history
        == h[..i] + [h[i].(status := StatusReplied), ReplyEntry(reply, now, seqId)] + h[i + 1..]
  {
    var i := FoundIndex(h, seqId, floor);
    var marked := h[i := h[i].(status := StatusReplied)];
    var entry := ReplyEntry(reply, now, seqId);
    assert marked[..i + 1] == h[..i] + [h[i].(status := StatusReplied)];
    assert marked[i + 1..] == h[i + 1..];
    if i + 1 == |h| {
      assert marked == marked[..i + 1];
      assert h[i + 1..] == [];
    }
  }

  // ---------------------------------------------------------------------
  // The table model's state and its write operations
  // ---------------------------------------------------------------------

  class AgentChatHistory {
    var history: History
    var sequence: uint32

    /** A new model holds `INIT_LENGTH` default entries and counter 0. */
    constructor ()
      ensures history == FreshHistory() && sequence == 0
    {
      history := FreshHistory();
      sequence := 0;
    }

    /** Records a question at `now` and hands out the current sequence id. */
    method AddRequest(question: string, now: uint64) returns (id: uint32)
      modifies this
      ensures id == old(sequence)
      ensures sequence == Next(old(sequence))
      ensures history == WithRequest(old(history), question, now, old(sequence))
    {
      history := history + [RequestEntry(question, now, sequence)];
      id := sequence;
      sequence := Next(sequence);
    }

    /** Records a reply for request `seqId`; true when it was paired with
      its request. */
    method AddResponse(reply: string, seqId: uint32, now: uint64) returns (replied: bool)
      modifies this
      ensures sequence == old(sequence)
      ensures ReplyResult(history, replied) == ReplyOutcome(old(history), reply, seqId, now, 1)
    {
      var h := history;
      var entry := ReplyEntry(reply, now, seqId);
      var idx := Int32(seqId as int * 2);
      var size := Int32(|h|);
      if idx >= size {
        entry := entry.(status := StatusError);
        history := h + [entry];
      } else {
        var found := FindEntry(seqId, idx);
        assert found == FoundIndex(h, seqId, 1);
        if found >= 0 {
          var marked := h[found := h[found].(status := StatusReplied)];
          if found + 1 == size as int {
            history := marked + [entry];
          } else {
            history := marked[..found + 1] + [entry] + marked[found + 1..];
          }
        } else {
          entry := entry.(status := StatusError);
          history := h + [entry];
        }
      }
      replied := entry.status == StatusReplied;
    }

    /** Records a failure message at `now` under the current sequence id. */
    method AddFailure(text: string, now: uint64)
      modifies this
      ensures sequence == old(sequence)
      ensures history == WithFailure(old(history), text, now, old(sequence))
    {
      history := history + [ChatEntry(SourceEdgeAi, text, now, StatusError, sequence)];
    }

    /** Scans backwards from the clamped `startAt` for an entry with
      `seqId`, never looking at index 0. */
    method FindEntry(seqId: uint32, startAt: int32) returns (idx: int)
      ensures idx == LastMatch(history, seqId, ClampStart(|history|, startAt as int), 1)
      ensures idx == -1 || (1 <= idx < |history| && history[idx].chatId == seqId)
    {
      var start := ClampStart(|history|, startAt as int);
      var i := start;
      while i > 0
        invariant i <= start
        invariant LastMatch(history, seqId, start, 1) == LastMatch(history, seqId, i, 1)
      {
        if history[i].chatId == seqId {
          return i;
        }
        i := i - 1;
      }
      return -1;
    }
  }

  // ---------------------------------------------------------------------
  // The read side: Qt item roles, header and cell data
  // ---------------------------------------------------------------------

  const DISPLAY_ROLE: int := 0
  const DECORATION_ROLE: int := 1
  const SIZE_HINT_ROLE: int := 13
  const USER_ROLE: int := 0x0100

  datatype Orientation = Horizontal | Vertical

  /** The icons the table shows. */
  datatype IconKind = IconHuman | IconRobot | IconError | IconCancel

  /** A cell or header value. `Time` stands for the formatted timestamp
      text of an entry made at `time` whose reply came at `next`. */
  datatype Variant =
    | Empty
    | Text(text: string)
    | Number(n: int)
    | Icon(icon: IconKind)
    | Time(time: uint64, next: uint64)

  /** A table index as the view hands it over. */
  datatype ModelIndex = ModelIndex(valid: bool, row: int, column: int)

  const COLUMN_NAMES: seq<string> := ["Source", "Message", "Timestamp", "Status"]
  const COLUMN_WIDTHS: seq<nat> := [50, 250, 100, 50]
  const SOURCE_LABELS: seq<string> := ["Unknown:", "Me:", "AI:"]
  const STATUS_LABELS: seq<string> := ["Invalid", "Pending", "Replied", "Canceled", "Error", "Ignore"]

  /** Number of rows: the size of the history read as an `int`. */
  function RowCount(h: History): (n: int32)
    ensures |h| <= INT32_MAX ==> n as int == |h|
    ensures (n as int - |h|) % UINT32_LIMIT == 0
  {
    Int32(|h|)
  }

  /** `columnCount`: the value of the `ColumnCount` enumerator, which is
      one per column name and width and above every real column. */
  function Columns(): (n: int)
    ensures n == 4 == |COLUMN_NAMES| == |COLUMN_WIDTHS|
    ensures forall c: ChatColumn :: c != ColumnCount ==> c.Index() < n
  {
    ColumnCount.Index()
  }

  /** Header data: nothing for vertical headers or a section outside the
      columns; otherwise the column name, the section, or the width. */
  function HeaderData(section: int, orientation: Orientation, role: int): (v: Variant)
    ensures v != Empty <==>
      (orientation == Horizontal && 0 <= section < Columns()
       && (role == DISPLAY_ROLE || role == USER_ROLE || role == SIZE_HINT_ROLE))
    ensures v.Text? ==> 0 <= section < Columns() && role == DISPLAY_ROLE
                         && v.text == COLUMN_NAMES[section]
    ensures role == DISPLAY_ROLE && v != Empty ==> v == Text(COLUMN_NAMES[section])
    ensures role == USER_ROLE && v != Empty ==> v == Number(section)
    ensures role == SIZE_HINT_ROLE && v != Empty ==>
      0 <= section < Columns() && v == Number(COLUMN_WIDTHS[section])
    ensures !v.Icon? && !v.Time?
  {
    if orientation.Vertical? || section < 0 || section >= Columns() then Empty
    else if role == DISPLAY_ROLE then Text(COLUMN_NAMES[section])
    else if role == USER_ROLE then Number(section)
    else if role == SIZE_HINT_ROLE then Number(COLUMN_WIDTHS[section])
    else Empty
  }

  /** The decoration icon of an entry: its status decides, and only for a
      pending or replied entry does its source. */
  function Decoration(e: ChatEntry): (icon: IconKind)
    ensures icon == IconError <==> e.status in {StatusInvalid, StatusError}
    ensures icon == IconCancel <==> e.status in {StatusCanceled, StatusIgnore}
    ensures icon == IconRobot <==>
      e.status in {StatusPending, StatusReplied} && e.source == SourceEdgeAi
    ensures icon == IconHuman <==>
      e.status in {StatusPending, StatusReplied} && e.source != SourceEdgeAi
  {
    match e.status
    case StatusInvalid | StatusError => IconError
    case StatusCanceled | StatusIgnore => IconCancel
    case _ => if e.source == SourceEdgeAi then IconRobot else IconHuman
  }

  /** The displayed text of column `column` of an entry; `next` is the time
      of the reply shown beside a timestamp. Labels are looked up by ordinal,
      which always lies inside the label tables. */
  function DisplayName(e: ChatEntry, next: uint64, column: int): (v: Variant)
    ensures v.Text? || v.Time?
    ensures column == 0 ==> v == Text(SOURCE_LABELS[e.source.Ordinal()])
    ensures column == 1 ==> v == Text(e.message)
    ensures column == 2 ==> v == Time(e.time, next)
    ensures column == 3 ==> v == Text(STATUS_LABELS[e.status.Ordinal()])
    ensures !(0 <= column < Columns()) ==> v == Text("")
  {
    match ColumnAt(column)
    case ColumnSource => Text(SOURCE_LABELS[e.source.Ordinal()])
    case ColumnMessage => Text(e.message)
    case ColumnTimestamp => Time(e.time, next)
    case ColumnStatus => Text(STATUS_LABELS[e.status.Ordinal()])
    case _ => Text("")
  }

  /** True when `data` gets past its index guards. */
  predicate InTable(h: History, index: ModelIndex)
  {
    index.valid && |h| > 0 && 0 <= index.row < Int32(|h|) as int
    && 0 <= index.column < Columns()
  }

  /** The display role of the timestamp column as written: it always reads
      the entry after `row`, which is only safe when there is one. The
      guard in front of it (`row < size`) is already implied by the index
      guards, so the last row violates this precondition. */
  function DisplayAsWritten(h: History, row: int, column: int): (v: Variant)
    requires 0 <= row < |h| && 0 <= column < Columns()
    requires column == ColumnTimestamp.Index() ==> row + 1 < |h|
    ensures v.Text? || v.Time?
  {
    if column == ColumnTimestamp.Index() && row < |h| then
      var next := h[row + 1];
      DisplayName(h[row], if next.source == SourceEdgeAi then next.time else 0, column)
    else
      DisplayName(h[row], 0, column)
  }

  /** Every row that passes the guards of `data`, including the last one,
      shows its timestamp; the as-written read of the next entry is out of
      bounds on the last row, where the guarded `Data` shows no reply time. */
  lemma LastRowTimestampReadsPastEnd(h: History)
    requires 0 < |h| <= INT32_MAX
    ensures InTable(h, ModelIndex(true, |h| - 1, ColumnTimestamp.Index()))
    ensures !(|h| - 1 + 1 < |h|)
    ensures Data(h, ModelIndex(true, |h| - 1, ColumnTimestamp.Index()), DISPLAY_ROLE)
            == Time(h[|h| - 1].time, 0)
  {
  }

  /** The time shown beside the timestamp of `row`: the time of the next
      entry when that is an edge-AI reply, otherwise 0; the last row has no
      next entry. */
  function NextReplyTime(h: History, row: int): (t: uint64)
    requires 0 <= row < |h|
    ensures row + 1 < |h| && h[row + 1].source == SourceEdgeAi ==> t == h[row + 1].time
    ensures row + 1 == |h| || h[row + 1].source != SourceEdgeAi ==> t == 0
  {
    if row + 1 < |h| && h[row + 1].source == SourceEdgeAi then h[row + 1].time else 0
  }

  /** Cell data with the timestamp read guarded by `row + 1 < size`. */
  function Data(h: History, index: ModelIndex, role: int): (v: Variant)
    ensures !InTable(h, index) ==> v == Empty
    ensures InTable(h, index) && role == DISPLAY_ROLE ==>
      v == DisplayName(h[index.row],
                       if index.column == ColumnTimestamp.Index() then NextReplyTime(h, index.row) else 0,
                       index.column)
    ensures InTable(h, index) && role == DECORATION_ROLE ==> v == Icon(Decoration(h[index.row]))
    ensures InTable(h, index) && role == USER_ROLE ==> v == Number(h[index.row].source.Ordinal())
    ensures v != Empty <==>
      InTable(h, index) && (role == DISPLAY_ROLE || role == DECORATION_ROLE || role == USER_ROLE)
  {
    if !index.valid || |h| == 0 then Empty
    else if index.row < 0 || index.row >= Int32(|h|) as int then Empty
    else if index.column < 0 || index.column >= Columns() then Empty
    else
      var e := h[index.row];
      if role == DISPLAY_ROLE then
        if index.column == ColumnTimestamp.Index() && index.row + 1 < |h| then
          var next := h[index.row + 1];
          DisplayName(e, if next.source == SourceEdgeAi then next.time else 0, index.column)
        else
          DisplayName(e, 0, index.column)
      else if role == DECORATION_ROLE then Icon(Decoration(e))
      else if role == USER_ROLE then Number(e.source.Ordinal())
      else Empty
  }

  /** Where both are defined, the guarded cell data agrees with the
      as-written display of the timestamp. */
  lemma DataAgreesWithAsWritten(h: History, row: int, column: int)
    requires InTable(h, ModelIndex(true, row, column))
    requires column == ColumnTimestamp.Index() ==> row + 1 < |h|
    ensures Data(h, ModelIndex(true, row, column), DISPLAY_ROLE) == DisplayAsWritten(h, row, column)
  {
  }

  /** The view cannot insert or remove rows or columns. */
  function InsertRows(row: int, count: int): (done: bool)
    ensures !done
  {
    false
  }

  function InsertColumns(column: int, count: int): (done: bool)
    ensures !done
  {
    false
  }

  function RemoveRows(row: int, count: int): (done: bool)
    ensures !done
  {
    false
  }

  function RemoveColumns(column: int, count: int): (done: bool)
    ensures !done
  {
    false
  }
}
