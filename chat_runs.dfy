/** Conversations on the chat history: a run of exchanges, each an
    `addRequest` followed by the `addResponse` for the id it handed out,
    starting from a history with the counter at 0.

    On the history the constructor builds (`INIT_LENGTH` default rows, scan
    stopping before index 0) no reply is ever paired with its request. With
    an empty initial history and a scan that reaches index 0 every reply is.
 */
module ChatRuns {
  import opened Common
  import opened ChatTypes
  import opened ChatHistory

  /** One question and its answer with the clock values they arrived at. */
  datatype Exchange = Exchange(question: string, asked: uint64, reply: string, answered: uint64)

  /** The two rows an exchange leaves when the request keeps status
      `asked` and the reply gets status `answered`; both carry id `k`. */
  function Rows(x: Exchange, k: uint32, asked: MessageStatus, answered: MessageStatus): seq<ChatEntry>
  {
    [ChatEntry(SourceHuman, x.question, x.asked, asked, k),
     ChatEntry(SourceEdgeAi, x.reply, x.answered, answered, k)]
  }

  /** The rows of all exchanges in order; the k-th pair carries id k, so
      every id in it is below the number of exchanges. */
  function Transcript(xs: seq<Exchange>, asked: MessageStatus, answered: MessageStatus): (t: History)
    ensures |t| == 2 * |xs|
    ensures |xs| <= UINT32_LIMIT ==> forall j :: 0 <= j < |t| ==> t[j].chatId as int < |xs|
  {
    if xs == [] then []
    else
      var n := |xs| - 1;
      Transcript(xs[..n], asked, answered) + Rows(xs[n], Uint32(n), asked, answered)
  }

  /** The history after `addRequest` and `addResponse` for one exchange with
      id `k`, `floor` being the lowest index the reply search inspects. */
  function Exchanged(h: History, x: Exchange, k: uint32, floor: nat): History
  {
    ReplyOutcome(WithRequest(h, x.question, x.asked, k), x.reply, k, x.answered, floor).history
  }

  /** The history after the exchanges `xs`, from `start`. */
  function Run(start: History, xs: seq<Exchange>, floor: nat): History
  {
    if xs == [] then start
    else
      var n := |xs| - 1;
      Exchanged(Run(start, xs[..n], floor), xs[n], Uint32(n), floor)
  }

  /** As written: from the constructor's history, the request with id n
      sits at index `INIT_LENGTH + 2n`, beyond the search window `[1, 2n]`,
      which holds only default rows and rows of earlier ids. */
  lemma {:induction false} AsWrittenRunShape(xs: seq<Exchange>)
    requires INIT_LENGTH + 2 * |xs| <= INT32_MAX
    ensures Run(FreshHistory(), xs, 1) == FreshHistory() + Transcript(xs, StatusPending, StatusError)
  {
    if xs != [] {
      var n := |xs| - 1;
      AsWrittenRunShape(xs[..n]);
      var t := Transcript(xs[..n], StatusPending, StatusError);
      FreshTranscriptIds(xs[..n]);
      UnpairedExchange(FreshHistory() + t, xs[n], n);
      assert FreshHistory() + t + Rows(xs[n], Uint32(n), StatusPending, StatusError)
          == FreshHistory() + Transcript(xs, StatusPending, StatusError);
    }
  }

  /** Every row of the constructor's history followed by the rows of `xs`
      carries the default id or an id below `|xs|`. */
  lemma {:induction false} FreshTranscriptIds(xs: seq<Exchange>)
    requires |xs| <= UINT32_LIMIT
    ensures var h := FreshHistory() + Transcript(xs, StatusPending, StatusError);
      forall j :: 0 <= j < |h| ==> h[j].chatId as int < |xs| || h[j].chatId as int == UINT32_MAX
  {
    var t := Transcript(xs, StatusPending, StatusError);
    var h := FreshHistory() + t;
    forall j | 0 <= j < |h|
      ensures h[j].chatId as int < |xs| || h[j].chatId as int == UINT32_MAX
    {
      if j >= INIT_LENGTH {
        assert h[j] == t[j - INIT_LENGTH];
      }
    }
  }

  /** One as-written exchange on rows whose ids are below `n` or the
      default id: the search window `[1, 2n]` holds no row with id `n`, so
      the request stays pending and the reply is appended as an error. */
  lemma {:induction false} UnpairedExchange(h: History, x: Exchange, n: nat)
    requires |h| == INIT_LENGTH + 2 * n && INIT_LENGTH + 2 * n + 2 <= INT32_MAX
    requires forall j :: 0 <= j < |h| ==> h[j].chatId as int < n || h[j].chatId as int == UINT32_MAX
    ensures var k := Uint32(n);
      !ReplyOutcome(WithRequest(h, x.question, x.asked, k), x.reply, k, x.answered, 1).replied
    ensures Exchanged(h, x, Uint32(n), 1) == h + Rows(x, Uint32(n), StatusPending, StatusError)
  {
    var k := Uint32(n);
    var h1 := WithRequest(h, x.question, x.asked, k);
    assert Int32(k as int * 2) as int == 2 * n;
    assert Int32(|h1|) as int == |h1|;
  }

  /** As written: the reply to the newest request of any run from the
      constructor's history is recorded as an error. */
  lemma {:induction false} AsWrittenReplyUnpaired(xs: seq<Exchange>, x: Exchange)
    requires INIT_LENGTH + 2 * |xs| + 2 <= INT32_MAX
    ensures var k := Uint32(|xs|);
      !ReplyOutcome(WithRequest(Run(FreshHistory(), xs, 1), x.question, x.asked, k), x.reply, k, x.answered, 1).replied
  {
    AsWrittenRunShape(xs);
    FreshTranscriptIds(xs);
    UnpairedExchange(FreshHistory() + Transcript(xs, StatusPending, StatusError), x, |xs|);
  }

  /** With an empty initial history but the scan still stopping before
      index 0, the very first reply is not paired either. */
  lemma EmptyStartFirstReplyUnpaired(x: Exchange)
    ensures !ReplyOutcome(WithRequest([], x.question, x.asked, 0), x.reply, 0, x.answered, 1).replied
  {
  }

  /** Corrected: from an empty history, with the scan reaching index 0,
      every request is marked replied and followed by its reply. */
  lemma {:induction false} IntendedRunShape(xs: seq<Exchange>)
    requires 2 * |xs| <= INT32_MAX
    ensures Run([], xs, 0) == Transcript(xs, StatusReplied, StatusReplied)
  {
    if xs != [] {
      var n := |xs| - 1;
      IntendedRunShape(xs[..n]);
      PairedExchange(Run([], xs[..n], 0), xs[n], n);
    }
  }

  /** One corrected exchange on rows whose ids are all below `n`: the new
      request is the only row with id `n`, found at index `2n`, so the reply
      lands right after it and both end up replied. */
  lemma {:induction false} PairedExchange(h: History, x: Exchange, n: nat)
    requires |h| == 2 * n && 2 * n + 2 <= INT32_MAX
    requires forall j :: 0 <= j < |h| ==> h[j].chatId as int < n
    ensures var k := Uint32(n);
      FoundIndex(WithRequest(h, x.question, x.asked, k), k, 0) == 2 * n
    ensures Exchanged(h, x, Uint32(n), 0) == h + Rows(x, Uint32(n), StatusReplied, StatusReplied)
  {
    var k := Uint32(n);
    var h1 := WithRequest(h, x.question, x.asked, k);
    assert Int32(k as int * 2) as int == 2 * n;
    assert Int32(|h1|) as int == |h1| == 2 * n + 1;
    assert h1[2 * n].chatId == k;
    assert FoundIndex(h1, k, 0) == 2 * n;
    ReplyInsertsAfterRequest(h1, x.reply, k, x.answered, 0);
    assert h1[..2 * n] == h;
    assert h1[2 * n + 1..] == [];
  }

  /** Corrected: the reply to the newest request of a run from an empty
      history is paired with it, at index `2n`. */
  lemma {:induction false} IntendedReplyPairs(xs: seq<Exchange>, x: Exchange)
    requires 2 * |xs| + 2 <= INT32_MAX
    ensures var k := Uint32(|xs|);
      ReplyOutcome(WithRequest(Run([], xs, 0), x.question, x.asked, k), x.reply, k, x.answered, 0).replied
    ensures var k := Uint32(|xs|);
      FoundIndex(WithRequest(Run([], xs, 0), x.question, x.asked, k), k, 0) == 2 * |xs|
  {
    IntendedRunShape(xs);
    PairedExchange(Run([], xs, 0), x, |xs|);
  }
}
