/**
 * The non-DOM logic of feishu-frontend.js: the single-flight guard of
 * `genTask`, its reader of server-sent events (frames split on "\n\n"),
 * the success decision, the sequential batch loop with its counters, and
 * the pending/done split of the loaded records.
 *
 * Requests become the replies they would get; `JSON.parse` of a frame and
 * the dispatch on `data.type` become a function `parse` handed in; the
 * `confirm` dialog becomes a boolean. Page updates are left out.
 */
module Frontend {
  import opened Base
  import opened Framing

  // ---------------------------------------------------------------- records

  /** The three task fields the page logic reads (the rest only feeds the markup). */
  datatype TaskRow = TaskRow(recordId: string, prompt: string, isGenerated: bool)

  /** `all.filter(r => !r.isGenerated && r.prompt)` (feishu-frontend.js:88). */
  function PendingTasks(rs: seq<TaskRow>): (p: seq<TaskRow>)
    ensures forall r :: r in p <==> r in rs && !r.isGenerated && r.prompt != ""
    ensures |p| <= |rs|
  {
    if rs == [] then []
    else (if !rs[0].isGenerated && rs[0].prompt != "" then [rs[0]] else []) + PendingTasks(rs[1..])
  }

  /** `all.filter(r => r.isGenerated)` (feishu-frontend.js:89). */
  function DoneTasks(rs: seq<TaskRow>): (d: seq<TaskRow>)
    ensures forall r :: r in d <==> r in rs && r.isGenerated
    ensures |d| <= |rs|
  {
    if rs == [] then []
    else (if rs[0].isGenerated then [rs[0]] else []) + DoneTasks(rs[1..])
  }

  /** `feishuTasks.filter(t => t.prompt)` (feishu-frontend.js:309). */
  function WithPrompt(rs: seq<TaskRow>): (w: seq<TaskRow>)
    ensures forall r :: r in w <==> r in rs && r.prompt != ""
    ensures |w| <= |rs|
  {
    if rs == [] then []
    else (if rs[0].prompt != "" then [rs[0]] else []) + WithPrompt(rs[1..])
  }

  /** The records neither list shows: not generated and without a prompt. */
  function BlankTasks(rs: seq<TaskRow>): seq<TaskRow> {
    if rs == [] then []
    else (if !rs[0].isGenerated && rs[0].prompt == "" then [rs[0]] else []) + BlankTasks(rs[1..])
  }

  /** No record is both pending and done. */
  lemma PendingDoneDisjoint(rs: seq<TaskRow>)
    ensures forall r :: !(r in PendingTasks(rs) && r in DoneTasks(rs))
  {
  }

  /** Pending, done and blank records split the loaded list: the counts add up. */
  lemma {:induction false} PendingDoneCount(rs: seq<TaskRow>)
    ensures |PendingTasks(rs)| + |DoneTasks(rs)| + |BlankTasks(rs)| == |rs|
  {
    if rs != [] {
      PendingDoneCount(rs[1..]);
    }
  }

  /** The batch filter keeps every pending task, in order: the batch runs exactly the pending list. */
  lemma {:induction false} BatchRunsAllPending(rs: seq<TaskRow>)
    ensures WithPrompt(PendingTasks(rs)) == PendingTasks(rs)
  {
    if rs != [] {
      BatchRunsAllPending(rs[1..]);
      var head := if !rs[0].isGenerated && rs[0].prompt != "" then [rs[0]] else [];
      WithPromptAppend(head, PendingTasks(rs[1..]));
    }
  }

  lemma {:induction false} WithPromptAppend(a: seq<TaskRow>, b: seq<TaskRow>)
    ensures WithPrompt(a + b) == WithPrompt(a) + WithPrompt(b)
  {
    if a != [] {
      assert (a + b)[1..] == a[1..] + b;
      WithPromptAppend(a[1..], b);
    } else {
      assert a + b == b;
    }
  }

  /** `filter` keeps order and multiplicity: it distributes over append. */
  lemma {:induction false} PendingTasksAppend(a: seq<TaskRow>, b: seq<TaskRow>)
    ensures PendingTasks(a + b) == PendingTasks(a) + PendingTasks(b)
  {
    if a != [] {
      assert (a + b)[1..] == a[1..] + b;
      PendingTasksAppend(a[1..], b);
    } else {
      assert a + b == b;
    }
  }

  lemma {:induction false} DoneTasksAppend(a: seq<TaskRow>, b: seq<TaskRow>)
    ensures DoneTasks(a + b) == DoneTasks(a) + DoneTasks(b)
  {
    if a != [] {
      assert (a + b)[1..] == a[1..] + b;
      DoneTasksAppend(a[1..], b);
    } else {
      assert a + b == b;
    }
  }

  /** One record on its own: kept exactly when the filter's test holds of it. */
  lemma FilterOne(r: TaskRow)
    ensures PendingTasks([r]) == if !r.isGenerated && r.prompt != "" then [r] else []
    ensures DoneTasks([r]) == if r.isGenerated then [r] else []
    ensures WithPrompt([r]) == if r.prompt != "" then [r] else []
  {
    assert [r][1..] == [];
  }

  /** `loadFeishuTasks`'s reply: the records, `None` when `data.records` is missing, or a failure. */
  datatype LoadReply = Loaded(records: Option<seq<TaskRow>>) | LoadFailed(message: string)

  /** The task list after a load: the pending records, or the old list when the load fails. */
  function AfterLoad(tasks: seq<TaskRow>, reply: LoadReply): seq<TaskRow> {
    match reply
    case Loaded(records) => PendingTasks(records.GetOr([]))
    case LoadFailed(_) => tasks
  }

  // ---------------------------------------------------------------- event frames

  /** The fields of a `result` frame that the decision reads, by truthiness. */
  datatype ResultInfo = ResultInfo(success: bool, skipped: bool)

  /**
   * A parsed `data: ` frame, by `data.type`. `Unparsable` is a frame whose
   * `JSON.parse` (or whose `.type` on `null`) throws.
   */
  datatype Frame = Unparsable | LogFrame | StreamFrame | ResultFrame(info: ResultInfo) | ErrorFrame | OtherFrame

  const FrameBreak := "\n\n"
  const DataPrefix := "data: "

  /** The frame `genTask` sees in a piece of the stream; `None` for a piece that is not a `data: ` line. */
  function FrameOf(piece: string, parse: string -> Frame): Option<Frame> {
    if StartsWith(piece, DataPrefix) then Some(parse(piece[6..])) else None
  }

  /** `success` and `resultData` of feishu-frontend.js:238-239. */
  datatype FrameState = FrameState(success: bool, result: Option<ResultInfo>)

  /**
   * One iteration of the frame loop (feishu-frontend.js:260-282). Only a
   * `result` frame changes the state; a log or stream frame only updates
   * the page, and the throw of an `error` frame is caught like a parse
   * error, so the loop goes on.
   */
  function StepFrame(piece: string, parse: string -> Frame, st: FrameState): FrameState {
    match FrameOf(piece, parse)
    case Some(ResultFrame(info)) => FrameState(info.success, Some(info))
    case _ => st
  }

  /** The state after the given complete frames. */
  function FoldFrames(pieces: seq<string>, parse: string -> Frame): FrameState {
    if pieces == [] then FrameState(false, None)
    else StepFrame(pieces[|pieces| - 1], parse, FoldFrames(pieces[..|pieces| - 1], parse))
  }

  /** A result frame at `i` with no result frame after it. */
  predicate LastResultAt(pieces: seq<string>, parse: string -> Frame, i: int) {
    0 <= i < |pieces| && FrameOf(pieces[i], parse).Some? && FrameOf(pieces[i], parse).value.ResultFrame? &&
    forall j :: i < j < |pieces| ==> !(FrameOf(pieces[j], parse).Some? && FrameOf(pieces[j], parse).value.ResultFrame?)
  }

  /**
   * `success` and `resultData` come from the most recent `result` frame and
   * stay at `false`/`null` when there is none; `success` is always the
   * recorded result's own flag.
   */
  lemma {:induction false} MostRecentResultDecides(pieces: seq<string>, parse: string -> Frame)
    ensures var st := FoldFrames(pieces, parse);
      st.success == (st.result.Some? && st.result.value.success) &&
      (st.result.None? <==> forall i :: 0 <= i < |pieces| ==> !LastResultAt(pieces, parse, i)) &&
      (forall i :: LastResultAt(pieces, parse, i) ==> st.result == Some(FrameOf(pieces[i], parse).value.info))
    decreases |pieces|
  {
    if pieces != [] {
      var n := |pieces| - 1;
      var init := pieces[..n];
      MostRecentResultDecides(init, parse);
      var f := FrameOf(pieces[n], parse);
      if f.Some? && f.value.ResultFrame? {
        assert LastResultAt(pieces, parse, n);
        forall i | 0 <= i < n ensures !LastResultAt(pieces, parse, i) { }
      } else {
        forall i | 0 <= i < n ensures LastResultAt(pieces, parse, i) <==> LastResultAt(init, parse, i) {
          assert forall j :: 0 <= j < n ==> init[j] == pieces[j];
        }
        assert !LastResultAt(pieces, parse, n);
      }
    }
  }

  /** A frame that is not a result, including an `error` frame or garbage, changes nothing. */
  lemma NonResultFrameHarmless(pieces: seq<string>, piece: string, parse: string -> Frame)
    requires !(FrameOf(piece, parse).Some? && FrameOf(piece, parse).value.ResultFrame?)
    ensures FoldFrames(pieces + [piece], parse) == FoldFrames(pieces, parse)
  {
    assert (pieces + [piece])[..|pieces|] == pieces;
  }

  lemma FoldFramesSnoc(pieces: seq<string>, piece: string, parse: string -> Frame)
    ensures FoldFrames(pieces + [piece], parse) == StepFrame(piece, parse, FoldFrames(pieces, parse))
  {
    assert (pieces + [piece])[..|pieces|] == pieces;
  }

  // ---------------------------------------------------------------- one run

  /**
   * The reply to `POST /api/feishu/generate/<id>`: a thrown request or
   * read, a response that is not OK (with its body and status text), or an
   * OK response whose event stream arrives in the given chunks.
   */
  datatype Reply = Thrown(message: string) | NotOk(body: string, statusText: string) | Streamed(chunks: seq<string>)

  /** The `success` and `resultData` the read loop ends with. */
  function StreamState(chunks: seq<string>, parse: string -> Frame): FrameState {
    FoldFrames(Complete(Concat(chunks), FrameBreak), parse)
  }

  /** What `genTask` returns once it has started (feishu-frontend.js:229-233, 287-302). */
  function RunSucceeds(reply: Reply, parse: string -> Frame): bool {
    reply.Streamed? && StreamState(reply.chunks, parse).success
  }

  /** The status line a call leaves. */
  datatype Notice = Busy | SkippedNotice | SyncedNotice | FailedNotice(message: string)

  function RunNotice(reply: Reply, parse: string -> Frame): Notice {
    match reply
    case Thrown(message) => FailedNotice("❌ 失败: " + message)
    case NotOk(body, statusText) => FailedNotice("❌ 失败: " + (if body != "" then body else statusText))
    case Streamed(chunks) =>
      var st := StreamState(chunks, parse);
      if st.success then (if st.result.Some? && st.result.value.skipped then SkippedNotice else SyncedNotice)
      else FailedNotice("❌ 失败: 生成未完成或失败")
  }

  /** `genTask` returns true exactly when the reply was OK and the last result frame had a truthy `success`. */
  lemma RunSucceedsIffLastResultSucceeded(reply: Reply, parse: string -> Frame)
    ensures RunSucceeds(reply, parse) <==>
      reply.Streamed? &&
      exists i :: LastResultAt(Complete(Concat(reply.chunks), FrameBreak), parse, i) &&
        FrameOf(Complete(Concat(reply.chunks), FrameBreak)[i], parse).value.info.success
  {
    if reply.Streamed? {
      var pieces := Complete(Concat(reply.chunks), FrameBreak);
      MostRecentResultDecides(pieces, parse);
      var st := FoldFrames(pieces, parse);
      if st.result.Some? {
        var i :| 0 <= i < |pieces| && LastResultAt(pieces, parse, i);
      }
    }
  }

  /** A result marked `skipped` is still a success; the run only reports it differently. */
  lemma SkippedStillSucceeds(reply: Reply, parse: string -> Frame)
    requires reply.Streamed? && StreamState(reply.chunks, parse).result == Some(ResultInfo(true, true))
    ensures RunSucceeds(reply, parse) && RunNotice(reply, parse) == SkippedNotice
  {
    MostRecentResultDecides(Complete(Concat(reply.chunks), FrameBreak), parse);
  }

  /** The frames of one chunk, continuing from the frames `done` before it. */
  method HandleFrames(pieces: seq<string>, parse: string -> Frame, ghost done: seq<string>, prior: FrameState)
    returns (st: FrameState)
    requires prior == FoldFrames(done, parse)
    ensures st == FoldFrames(done + pieces, parse)
  {
    st := prior;
    var j := 0;
    assert done + pieces[..0] == done;
    while j < |pieces|
      invariant 0 <= j <= |pieces|
      invariant st == FoldFrames(done + pieces[..j], parse)
      decreases |pieces| - j
    {
      var piece := pieces[j];
      FoldFramesSnoc(done + pieces[..j], piece, parse);
      assert done + pieces[..j + 1] == (done + pieces[..j]) + [piece];
      if StartsWith(piece, DataPrefix) {
        match parse(piece[6..])
        case ResultFrame(info) =>
          st := FrameState(info.success, Some(info));
        case _ =>
          // log and stream frames update the page; an error frame's throw and a
          // parse error are caught by the frame's own catch
      }
      j := j + 1;
    }
    assert pieces[..j] == pieces;
  }

  /**
   * The read loop of feishu-frontend.js:248-285: frames are split on
   * "\n\n" and the trailing partial frame waits in `buffer`, whatever the
   * chunking.
   */
  method ReadFrames(chunks: seq<string>, parse: string -> Frame) returns (st: FrameState, buffer: string)
    ensures st == StreamState(chunks, parse)
    ensures buffer == Pending(Concat(chunks), FrameBreak)
  {
    buffer, st := "", FrameState(false, None);
    ghost var done: seq<string> := [];
    var n := 0;
    while n < |chunks|
      invariant 0 <= n <= |chunks|
      invariant Cut(Concat(chunks[..n]), done, buffer, FrameBreak)
      invariant st == FoldFrames(done, parse)
      decreases |chunks| - n
    {
      assert chunks[..n + 1][..n] == chunks[..n];
      CutStep(Concat(chunks[..n]), done, buffer, chunks[n], FrameBreak);
      buffer := buffer + chunks[n];
      var pieces := Split(buffer, FrameBreak);
      buffer := pieces[|pieces| - 1];
      pieces := pieces[..|pieces| - 1];
      st := HandleFrames(pieces, parse, done, st);
      done := done + pieces;
      n := n + 1;
    }
    assert chunks[..n] == chunks;
    CutIsSplit(Concat(chunks), done, buffer, FrameBreak);
  }

  // ---------------------------------------------------------------- batch trace

  /** What the batch loop does, in order: run a task, or wait two seconds. */
  datatype Step = Run(recordId: string) | Pause

  /** The runs of the given tasks with a pause between each two. */
  function Interleaved(ids: seq<string>): seq<Step> {
    if |ids| <= 1 then (if ids == [] then [] else [Run(ids[0])])
    else [Run(ids[0]), Pause] + Interleaved(ids[1..])
  }

  lemma {:induction false} InterleavedSnoc(ids: seq<string>, id: string)
    ensures Interleaved(ids + [id]) == Interleaved(ids) + (if ids != [] then [Pause] else []) + [Run(id)]
    decreases |ids|
  {
    if |ids| >= 2 {
      assert (ids + [id])[1..] == ids[1..] + [id];
      InterleavedSnoc(ids[1..], id);
    } else if |ids| == 1 {
      assert (ids + [id])[1..] == [id];
    }
  }

  /**
   * Every task runs, in list order, with a pause between each two and none
   * after the last.
   */
  lemma {:induction false} InterleavedShape(ids: seq<string>)
    requires ids != []
    ensures |Interleaved(ids)| == 2 * |ids| - 1
    ensures forall k :: 0 <= k < |ids| ==> Interleaved(ids)[2 * k] == Run(ids[k])
    ensures forall k :: 0 <= k < |ids| - 1 ==> Interleaved(ids)[2 * k + 1] == Pause
    ensures Interleaved(ids)[|Interleaved(ids)| - 1] == Run(ids[|ids| - 1])
    decreases |ids|
  {
    if |ids| >= 2 {
      InterleavedShape(ids[1..]);
      var rest := Interleaved(ids[1..]);
      assert Interleaved(ids) == [Run(ids[0]), Pause] + rest;
      forall k | 1 <= k < |ids| ensures Interleaved(ids)[2 * k] == Run(ids[k]) {
        assert Interleaved(ids)[2 * k] == rest[2 * (k - 1)];
        assert ids[1..][k - 1] == ids[k];
      }
      forall k | 1 <= k < |ids| - 1 ensures Interleaved(ids)[2 * k + 1] == Pause {
        assert Interleaved(ids)[2 * k + 1] == rest[2 * (k - 1) + 1];
      }
    }
  }

  /** The trace of the batch loop after one more run, and the pause behind it unless it was the last. */
  lemma TraceStep(ids: seq<string>, i: nat)
    requires i < |ids|
    ensures Interleaved(ids[..i]) + (if 0 < i < |ids| then [Pause] else []) + [Run(ids[i])]
      + (if i < |ids| - 1 then [Pause] else [])
      == Interleaved(ids[..i + 1]) + (if 0 < i + 1 < |ids| then [Pause] else [])
  {
    InterleavedSnoc(ids[..i], ids[i]);
    assert ids[..i + 1] == ids[..i] + [ids[i]];
  }

  function Ids(rs: seq<TaskRow>): (ids: seq<string>)
    ensures |ids| == |rs| && forall i :: 0 <= i < |rs| ==> ids[i] == rs[i].recordId
  {
    seq(|rs|, i requires 0 <= i < |rs| => rs[i].recordId)
  }

  /** How many of the first `n` replies make a run succeed. */
  function Successes(replies: nat -> Reply, parse: string -> Frame, n: nat): (c: nat)
    ensures c <= n
  {
    if n == 0 then 0 else Successes(replies, parse, n - 1) + (if RunSucceeds(replies(n - 1), parse) then 1 else 0)
  }

  // ---------------------------------------------------------------- page state

  /** The module-level state of the page script: the lock and the loaded pending tasks. */
  class TaskRunner {
    var isProcessing: bool
    var tasks: seq<TaskRow>

    constructor ()
      ensures !isProcessing && tasks == []
    {
      isProcessing := false;
      tasks := [];
    }

    /**
     * `loadFeishuTasks` (feishu-frontend.js:74-93): keep the pending records
     * and report how many records, pending and done there are.
     */
    method LoadTasks(reply: LoadReply) returns (counts: Option<(nat, nat, nat)>)
      modifies this`tasks
      ensures tasks == AfterLoad(old(tasks), reply)
      ensures reply.LoadFailed? ==> counts == None
      ensures reply.Loaded? ==> var all := reply.records.GetOr([]);
        counts == Some((|all|, |PendingTasks(all)|, |DoneTasks(all)|))
    {
      match reply
      case LoadFailed(_) =>
        counts := None;
      case Loaded(records) =>
        var all := records.GetOr([]);
        var pending := PendingTasks(all);
        var done := DoneTasks(all);
        tasks := pending;
        counts := Some((|all|, |pending|, |done|));
    }

    /**
     * The part of `genTask` before its first `await` (feishu-frontend.js:195-201):
     * refuse while another run holds the lock, else take it.
     */
    method Begin() returns (started: bool)
      modifies this`isProcessing
      ensures started == !old(isProcessing)
      ensures isProcessing
    {
      if isProcessing {
        return false;
      }
      isProcessing := true;
      started := true;
    }

    /**
     * The `try` of `genTask` (feishu-frontend.js:220-305); its `finally` frees
     * the lock on every path through it. The page code between taking the
     * lock and the `try` (feishu-frontend.js:202-218) is not modelled; a
     * throw there would leave the lock held.
     */
    method Finish(reply: Reply, parse: string -> Frame) returns (ok: bool, notice: Notice)
      modifies this`isProcessing
      ensures !isProcessing
      ensures ok == RunSucceeds(reply, parse) && notice == RunNotice(reply, parse)
    {
      match reply {
        case Thrown(message) =>
          ok, notice := false, FailedNotice("❌ 失败: " + message);
        case NotOk(body, statusText) =>
          ok, notice := false, FailedNotice("❌ 失败: " + (if body != "" then body else statusText));
        case Streamed(chunks) =>
          var st, _ := ReadFrames(chunks, parse);
          if st.success {
            notice := if st.result.Some? && st.result.value.skipped then SkippedNotice else SyncedNotice;
            ok := true;
          } else {
            ok, notice := false, FailedNotice("❌ 失败: 生成未完成或失败");
          }
      }
      isProcessing := false;
    }

    /**
     * `genTask(id)`: while another run holds the lock it returns false and
     * changes nothing; otherwise it runs and always releases the lock.
     */
    method GenTask(id: string, reply: Reply, parse: string -> Frame) returns (ok: bool, notice: Notice)
      modifies this`isProcessing
      ensures old(isProcessing) ==> !ok && notice == Busy && isProcessing
      ensures !old(isProcessing) ==> !isProcessing && ok == RunSucceeds(reply, parse) && notice == RunNotice(reply, parse)
    {
      var started := Begin();
      if !started {
        return false, Busy;
      }
      ok, notice := Finish(reply, parse);
    }

    /**
     * The loop of feishu-frontend.js:316-323: each task in turn, a failure
     * counted and passed over, a pause after every run but the last.
     */
    method RunAll(runnable: seq<TaskRow>, replies: nat -> Reply, parse: string -> Frame)
      returns (ok: nat, fail: nat, trace: seq<Step>)
      modifies this`isProcessing
      ensures ok + fail == |runnable| && trace == Interleaved(Ids(runnable))
      ensures ok == (if old(isProcessing) then 0 else Successes(replies, parse, |runnable|))
      ensures isProcessing == old(isProcessing)
    {
      ghost var busy := isProcessing;
      ghost var ids := Ids(runnable);
      ok, fail, trace := 0, 0, [];
      var i := 0;
      while i < |runnable|
        invariant 0 <= i <= |runnable|
        invariant ok + fail == i
        invariant ok == (if busy then 0 else Successes(replies, parse, i))
        invariant trace == Interleaved(ids[..i]) + (if 0 < i < |runnable| then [Pause] else [])
        invariant isProcessing == busy
        decreases |runnable| - i
      {
        TraceStep(ids, i);
        trace := trace + [Run(runnable[i].recordId)];
        var success, _ := GenTask(runnable[i].recordId, replies(i), parse);
        if success {
          ok := ok + 1;
        } else {
          fail := fail + 1;
        }
        if i < |runnable| - 1 {
          trace := trace + [Pause];
        }
        i := i + 1;
      }
      assert ids[..i] == ids;
    }

    /**
     * `batchGenerateVideos` (feishu-frontend.js:308-328): run every task
     * with a prompt, one after the other, then start a reload. Nothing
     * happens when there is none or the user declines. `replies(i)` answers
     * the i-th run. The reload at feishu-frontend.js:327 is not awaited:
     * when the batch returns, the task list is still the old one, and the
     * reload lands later as a separate `LoadTasks`.
     */
    method BatchGenerate(confirmed: bool, replies: nat -> Reply, parse: string -> Frame)
      returns (ok: nat, fail: nat, trace: seq<Step>, reloadStarted: bool)
      modifies this`isProcessing
      ensures tasks == old(tasks) && isProcessing == old(isProcessing)
      ensures var runnable := WithPrompt(old(tasks));
        if runnable == [] || !confirmed then
          ok == 0 && fail == 0 && trace == [] && !reloadStarted
        else
          ok + fail == |runnable| && trace == Interleaved(Ids(runnable)) &&
          ok == (if old(isProcessing) then 0 else Successes(replies, parse, |runnable|)) &&
          reloadStarted
    {
      var runnable := WithPrompt(tasks);
      if runnable == [] || !confirmed {
        return 0, 0, [], false;
      }
      ok, fail, trace := RunAll(runnable, replies, parse);
      reloadStarted := true;
    }
  }
}
