/** server/workflow_runner.py: `run_workflow` consumes the workflow stream and
    emits one message per line: a `progress` message per update whose stage is
    in `progress_map`, then (when the final state has key points) one streaming
    `progress` message and the content of every point, chunk by chunk with one
    terminator per point, and finally exactly one `complete` message. */
module Runner {
  import opened Common
  import opened Lesson
  import opened Workflow
  import opened ImageProcessing

  /** The `data` of a `progress` message: the state's fields with the defaults
      of `current_state.get(...)`, or `{}` for the streaming message. */
  datatype ProgressData =
    | StateData(lessonPlan: Option<LessonPlan>, keyPoints: seq<KeyPoint>, imagesData: Dict<ImageInfo>,
                analyzedDescriptions: map<string, string>, quiz: Option<string>, currentProcessing: Option<string>)
    | NoData

  /** A line `run_workflow` prints, before JSON encoding. */
  datatype Message =
    | Progress(stage: string, progress: int, message: string, data: ProgressData)
    | ContentChunk(pointTitle: string, chunk: string, complete: bool)
    | Complete(finalState: FinalState)

  /** The arguments of `stream_content_for_point`. */
  datatype ContentRequest = ContentRequest(point: KeyPoint, topic: string, ageGroup: string,
                                           knowledgeLevel: string, analyzedDescription: string)

  const StreamingProgress := 80
  const StreamingMessage := "\U{2728} Streaming Content..."

  /** The message that announces content streaming. */
  function StreamingAnnouncement(): Message {
    Progress(ContentNode.Name(), StreamingProgress, StreamingMessage, NoData)
  }

  /** `data` of a loop `progress` message, built from `current_state`. */
  function DataOf(current: FinalState): ProgressData {
    match current
    case Final(s) => StateData(s.lessonPlan, s.keyPoints, s.imagesData, s.analyzedDescriptions, s.quiz, Some(s.currentProcessing))
    case _ => StateData(None, [], [], map[], None, None)
  }

  /** The message one stream item produces in the workflow loop. */
  function ItemMessages(item: StreamItem): seq<Message> {
    match ItemEntry(item)
    case Some((progress, message)) => [Progress(StageOf(item), progress, message, DataOf(Snapshot(item)))]
    case None => []
  }

  /** The messages of the workflow loop over the first `n` items. */
  function LoopMessages(items: seq<StreamItem>, n: nat): seq<Message>
    requires n <= |items|
    decreases n
  {
    if n == 0 then [] else LoopMessages(items, n - 1) + ItemMessages(items[n - 1])
  }

  /** `final_state` after the loop. */
  function LastSnapshot(items: seq<StreamItem>): FinalState {
    if |items| == 0 then Unset else Snapshot(items[|items| - 1])
  }

  /** `final_state.get("analyzed_descriptions", {}).get(point_title, "")`. */
  function AnalyzedDescription(s: LessonState, title: string): string {
    if title in s.analyzedDescriptions then s.analyzedDescriptions[title] else ""
  }

  /** The request streamed for the i-th key point of the final state. */
  function ContentRequestFor(s: LessonState, i: nat): ContentRequest
    requires i < |s.keyPoints|
  {
    ContentRequest(s.keyPoints[i], s.topic, s.ageGroup, s.knowledgeLevel, AnalyzedDescription(s, s.keyPoints[i].pointTitle))
  }

  /** One `content_chunk` with `complete=False` per chunk. */
  function ChunkMessages(title: string, chunks: seq<string>): (ms: seq<Message>)
    ensures |ms| == |chunks|
  {
    seq(|chunks|, j requires 0 <= j < |chunks| => ContentChunk(title, chunks[j], false))
  }

  /** The terminator of a point's content. */
  function Terminator(title: string): Message {
    ContentChunk(title, "", true)
  }

  /** The messages for the i-th point: its chunks, then its terminator. */
  function PointMessages(s: LessonState, generate: (nat, ContentRequest) -> seq<string>, i: nat): seq<Message>
    requires i < |s.keyPoints|
  {
    var title := s.keyPoints[i].pointTitle;
    ChunkMessages(title, generate(i, ContentRequestFor(s, i))) + [Terminator(title)]
  }

  /** The content messages of the points from index `i` on. */
  function StreamFrom(s: LessonState, generate: (nat, ContentRequest) -> seq<string>, i: nat): seq<Message>
    requires i <= |s.keyPoints|
    decreases |s.keyPoints| - i
  {
    if i == |s.keyPoints| then [] else PointMessages(s, generate, i) + StreamFrom(s, generate, i + 1)
  }

  /** Content is streamed when `final_state` is a state with key points. */
  predicate StreamsContent(final: FinalState) {
    final.Final? && |final.state.keyPoints| > 0
  }

  /** The announcement and the content of every point, when content is
      streamed at all. */
  function ContentMessages(final: FinalState, generate: (nat, ContentRequest) -> seq<string>): seq<Message> {
    if StreamsContent(final) then [StreamingAnnouncement()] + StreamFrom(final.state, generate, 0) else []
  }

  /** Everything `run_workflow` prints for a stream and a content streamer. */
  function Emitted(items: seq<StreamItem>, generate: (nat, ContentRequest) -> seq<string>): seq<Message> {
    var final := LastSnapshot(items);
    LoopMessages(items, |items|) + ContentMessages(final, generate) + [Complete(final)]
  }

  /** The loop over the workflow stream: its `progress` messages and the
      `final_state` it leaves. */
  method EmitProgress(items: seq<StreamItem>) returns (out: seq<Message>, final: FinalState)
    ensures out == LoopMessages(items, |items|)
    ensures final == LastSnapshot(items)
  {
    out, final := [], Unset;
    for i := 0 to |items|
      invariant out == LoopMessages(items, i)
      invariant final == LastSnapshot(items[..i])
    {
      var currentStage := StageOf(items[i]);
      var currentState := Snapshot(items[i]);
      var entry := ProgressEntry(currentStage);
      ItemEntryLookup(items[i]);
      if entry.Some? {
        out := out + [Progress(currentStage, entry.value.0, entry.value.1, DataOf(currentState))];
      }
      final := currentState;
    }
    assert items[..|items|] == items;
  }

  /** The chunks of one point, then its terminator. */
  method EmitPoint(s: LessonState, generate: (nat, ContentRequest) -> seq<string>, i: nat) returns (out: seq<Message>)
    requires i < |s.keyPoints|
    ensures out == PointMessages(s, generate, i)
  {
    var pointTitle := s.keyPoints[i].pointTitle;
    var analyzedDesc := AnalyzedDescription(s, pointTitle);
    var chunks := generate(i, ContentRequest(s.keyPoints[i], s.topic, s.ageGroup, s.knowledgeLevel, analyzedDesc));
    out := [];
    for j := 0 to |chunks|
      invariant out == ChunkMessages(pointTitle, chunks)[..j]
    {
      assert ChunkMessages(pointTitle, chunks)[..j + 1] == ChunkMessages(pointTitle, chunks)[..j] + [ContentChunk(pointTitle, chunks[j], false)];
      out := out + [ContentChunk(pointTitle, chunks[j], false)];
    }
    assert ChunkMessages(pointTitle, chunks)[..|chunks|] == ChunkMessages(pointTitle, chunks);
    out := out + [Terminator(pointTitle)];
  }

  /** The loop over `final_state["key_points"]`. */
  method EmitContent(s: LessonState, generate: (nat, ContentRequest) -> seq<string>) returns (out: seq<Message>)
    ensures out == StreamFrom(s, generate, 0)
  {
    out := [];
    var i := 0;
    while i < |s.keyPoints|
      invariant 0 <= i <= |s.keyPoints|
      invariant out + StreamFrom(s, generate, i) == StreamFrom(s, generate, 0)
    {
      var point := EmitPoint(s, generate, i);
      out := out + point;
      i := i + 1;
    }
  }

  /** `run_workflow`, message by message; `generate(i, request)` is what
      `stream_content_for_point` yields for the i-th point. */
  method RunWorkflow(items: seq<StreamItem>, generate: (nat, ContentRequest) -> seq<string>) returns (out: seq<Message>)
    ensures out == Emitted(items, generate)
  {
    var final;
    out, final := EmitProgress(items);
    if final.Final? && |final.state.keyPoints| > 0 {
      var content := EmitContent(final.state, generate);
      out := out + [StreamingAnnouncement()] + content;
    }
    out := out + [Complete(final)];
  }

  // ---------------------------------------------------------------------------
  // Properties of the emitted messages
  // ---------------------------------------------------------------------------

  /** One item's messages: none when its stage has no `progress_map` entry,
      else one `progress` message carrying that entry and the item's state. */
  lemma ItemMessagesSound(item: StreamItem)
    ensures |ItemMessages(item)| == if item.Update? then 1 else 0
    ensures forall m :: m in ItemMessages(item) ==>
      m.Progress? && ProgressEntry(m.stage) == Some((m.progress, m.message)) && m.data.StateData?
  {
    ItemEntryLookup(item);
  }

  /** Every loop message is a `progress` message with its stage's fixed
      progress value and text; an item whose stage has no entry emits nothing,
      one whose stage has an entry emits exactly one message. */
  lemma {:induction false} LoopMessagesSound(items: seq<StreamItem>, n: nat)
    requires n <= |items|
    ensures forall m :: m in LoopMessages(items, n) ==>
      m.Progress? && ProgressEntry(m.stage) == Some((m.progress, m.message)) && m.data.StateData?
    ensures (forall i :: 0 <= i < n ==> items[i].Update?) ==> |LoopMessages(items, n)| == n
    ensures (forall i :: 0 <= i < n ==> items[i].EmptyItem?) ==> LoopMessages(items, n) == []
    decreases n
  {
    if n > 0 {
      LoopMessagesSound(items, n - 1);
      ItemMessagesSound(items[n - 1]);
      var prev, last := LoopMessages(items, n - 1), ItemMessages(items[n - 1]);
      assert LoopMessages(items, n) == prev + last;
      assert forall m :: m in prev + last ==> m in prev || m in last;
    }
  }

  /** Every streamed content message is a `content_chunk`. */
  lemma {:induction false} StreamFromChunks(s: LessonState, generate: (nat, ContentRequest) -> seq<string>, i: nat)
    requires i <= |s.keyPoints|
    ensures forall m :: m in StreamFrom(s, generate, i) ==> m.ContentChunk?
    decreases |s.keyPoints| - i
  {
    if i < |s.keyPoints| {
      StreamFromChunks(s, generate, i + 1);
    }
  }

  /** Exactly one `complete` message is emitted, it is the last one, and it
      carries `final_state`. */
  lemma CompleteOnceAndLast(items: seq<StreamItem>, generate: (nat, ContentRequest) -> seq<string>)
    ensures var out := Emitted(items, generate);
      && |out| > 0
      && out[|out| - 1] == Complete(LastSnapshot(items))
      && forall k :: 0 <= k < |out| - 1 ==> !out[k].Complete?
  {
    var out := Emitted(items, generate);
    var final := LastSnapshot(items);
    LoopMessagesSound(items, |items|);
    if StreamsContent(final) {
      StreamFromChunks(final.state, generate, 0);
    }
    forall k | 0 <= k < |out| - 1 ensures !out[k].Complete? {
      assert out[k] in out[..|out| - 1];
    }
  }

  /** The stream consists of node updates only. */
  predicate NodeUpdates(items: seq<StreamItem>) {
    forall i :: 0 <= i < |items| ==> items[i].Update?
  }

  /** The `progress` message of a node update. */
  function NodeProgress(item: StreamItem): Message
    requires item.Update?
  {
    var entry := Entry(item.node);
    Progress(item.node.Name(), entry.0, entry.1, DataOf(Final(item.state)))
  }

  /** A node update emits its `progress` message. */
  lemma ItemMessagesOfNode(item: StreamItem)
    requires item.Update?
    ensures ItemMessages(item) == [NodeProgress(item)]
  {
  }

  /** On a stream of node updates the loop emits exactly one message per
      item, in order. */
  lemma {:induction false} LoopOfNodeUpdates(items: seq<StreamItem>, n: nat)
    requires NodeUpdates(items) && n <= |items|
    ensures |LoopMessages(items, n)| == n
    ensures forall i :: 0 <= i < n ==> LoopMessages(items, n)[i] == NodeProgress(items[i])
    decreases n
  {
    if n > 0 {
      LoopOfNodeUpdates(items, n - 1);
      ItemMessagesOfNode(items[n - 1]);
      var prev := LoopMessages(items, n - 1);
      var all := LoopMessages(items, n);
      assert all == prev + [NodeProgress(items[n - 1])];
      forall i | 0 <= i < n ensures all[i] == NodeProgress(items[i]) {
        if i < n - 1 {
          assert all[i] == prev[i];
        }
      }
    }
  }

  /** The messages for one update per node in graph order: five `progress`
      messages in that order with each node's stage values and state, the
      streaming part exactly when the last state has key points, then the
      last state. */
  lemma GraphOrderMessages(items: seq<StreamItem>, generate: (nat, ContentRequest) -> seq<string>)
    requires InGraphOrder(items)
    ensures var final := items[|NodeOrder| - 1].state;
      var out := Emitted(items, generate);
      && |out| > |NodeOrder|
      && (forall i :: 0 <= i < |NodeOrder| ==>
            out[i] == Progress(NodeOrder[i].Name(), Entry(NodeOrder[i]).0, Entry(NodeOrder[i]).1,
                               DataOf(Final(items[i].state))))
      && out[|out| - 1] == Complete(Final(final))
      && (|final.keyPoints| == 0 ==> |out| == |NodeOrder| + 1)
      && (|final.keyPoints| > 0 ==> out[|NodeOrder|] == StreamingAnnouncement())
  {
    assert NodeUpdates(items);
    LoopOfNodeUpdates(items, |items|);
    var loop := LoopMessages(items, |items|);
    var final := LastSnapshot(items);
    var out := Emitted(items, generate);
    assert out == loop + ContentMessages(final, generate) + [Complete(final)];
    forall i | 0 <= i < |NodeOrder|
      ensures out[i] == Progress(NodeOrder[i].Name(), Entry(NodeOrder[i]).0, Entry(NodeOrder[i]).1, DataOf(Final(items[i].state)))
    {
      assert out[i] == loop[i];
    }
  }

  /** The messages for the workflow's own stream: five `progress` messages
      in graph order with the stage values and data of each node's state, the
      streaming part exactly when the final state has key points, then the
      final state. */
  lemma WorkflowMessages(initial: LessonState, o: Oracles, generate: (nat, ContentRequest) -> seq<string>)
    ensures var items := WorkflowStream(Server, initial, o);
      var final := FinalLessonState(Server, initial, o);
      var out := Emitted(items, generate);
      && |out| > |NodeOrder|
      && (forall i :: 0 <= i < |NodeOrder| ==>
            out[i] == Progress(NodeOrder[i].Name(), Entry(NodeOrder[i]).0, Entry(NodeOrder[i]).1,
                               DataOf(Final(items[i].state))))
      && out[|out| - 1] == Complete(Final(final))
      && (|final.keyPoints| == 0 ==> |out| == |NodeOrder| + 1)
      && (|final.keyPoints| > 0 ==> out[|NodeOrder|] == StreamingAnnouncement())
  {
    GraphOrderMessages(WorkflowStream(Server, initial, o), generate);
  }

  /** The progress values in emission order. */
  function ReportedProgress(out: seq<Message>): seq<int>
    decreases |out|
  {
    if |out| == 0 then []
    else (if out[0].Progress? then [out[0].progress] else []) + ReportedProgress(out[1..])
  }

  lemma {:induction false} ReportedProgressAppend(a: seq<Message>, b: seq<Message>)
    ensures ReportedProgress(a + b) == ReportedProgress(a) + ReportedProgress(b)
    decreases |a|
  {
    if |a| > 0 {
      assert (a + b)[1..] == a[1..] + b;
      ReportedProgressAppend(a[1..], b);
    } else {
      assert a + b == b;
    }
  }

  lemma {:induction false} ReportedProgressOfChunks(ms: seq<Message>)
    requires forall m :: m in ms ==> !m.Progress?
    ensures ReportedProgress(ms) == []
    decreases |ms|
  {
    if |ms| > 0 {
      assert forall m :: m in ms[1..] ==> m in ms;
      ReportedProgressOfChunks(ms[1..]);
    }
  }

  /** The progress values the runner reports for the workflow are 15, 30,
      60, 75, 95 and, when content is streamed, 80 after them: not
      monotonic. */
  lemma RunnerProgressNotMonotonic(initial: LessonState, o: Oracles, generate: (nat, ContentRequest) -> seq<string>)
    ensures var final := FinalLessonState(Server, initial, o);
      var values := ReportedProgress(Emitted(WorkflowStream(Server, initial, o), generate));
      && values == [15, 30, 60, 75, 95] + (if |final.keyPoints| > 0 then [StreamingProgress] else [])
      && (|final.keyPoints| > 0 ==> values[4] > values[5])
  {
    var items := WorkflowStream(Server, initial, o);
    WorkflowProgress(Server, initial, o);
    LoopProgressValues(items, |items|);
    EmittedProgress(items, generate);
  }

  /** The loop reports exactly the values the stream's stages select from
      `progress_map`, in stream order (the same selection as t.py's bar). */
  lemma {:induction false} LoopProgressValues(items: seq<StreamItem>, n: nat)
    requires n <= |items|
    ensures ReportedProgress(LoopMessages(items, n)) == Workflow.ProgressValues(items, n)
    decreases n
  {
    if n > 0 {
      LoopProgressValues(items, n - 1);
      var m := ItemMessages(items[n - 1]);
      ReportedProgressAppend(LoopMessages(items, n - 1), m);
      var entry := ItemEntry(items[n - 1]);
      if entry.Some? {
        assert m == [Progress(StageOf(items[n - 1]), entry.value.0, entry.value.1, DataOf(Snapshot(items[n - 1])))];
        assert m[1..] == [];
        assert ReportedProgress(m) == [entry.value.0];
      } else {
        assert m == [];
      }
    }
  }

  /** The streaming part reports one progress value, 80, and only when
      content is streamed. */
  lemma ContentProgress(final: FinalState, generate: (nat, ContentRequest) -> seq<string>)
    ensures ReportedProgress(ContentMessages(final, generate)) == if StreamsContent(final) then [StreamingProgress] else []
  {
    if StreamsContent(final) {
      var rest := StreamFrom(final.state, generate, 0);
      StreamFromChunks(final.state, generate, 0);
      ReportedProgressOfChunks(rest);
      ReportedProgressAppend([StreamingAnnouncement()], rest);
    }
  }

  /** After the loop's values, only the streaming announcement adds a
      progress value (80), and only when content is streamed. */
  lemma EmittedProgress(items: seq<StreamItem>, generate: (nat, ContentRequest) -> seq<string>)
    ensures ReportedProgress(Emitted(items, generate)) ==
      ReportedProgress(LoopMessages(items, |items|)) + (if StreamsContent(LastSnapshot(items)) then [StreamingProgress] else [])
  {
    var final := LastSnapshot(items);
    var loop := LoopMessages(items, |items|);
    var tail := ContentMessages(final, generate);
    ContentProgress(final, generate);
    ReportedProgressAppend(loop, tail);
    ReportedProgressAppend(loop + tail, [Complete(final)]);
    assert ReportedProgress([Complete(final)]) == [];
  }

  // ---------------------------------------------------------------------------
  // Reassembling the content: no interleaving
  // ---------------------------------------------------------------------------

  function ChunkTexts(pending: seq<Message>): (texts: seq<string>)
    requires forall j :: 0 <= j < |pending| ==> pending[j].ContentChunk?
    ensures |texts| == |pending|
  {
    seq(|pending|, j requires 0 <= j < |pending| => pending[j].chunk)
  }

  /** A reader of the content messages: each terminator closes the block of
      chunks since the previous one.  The read fails when a chunk belongs to a
      different point than the terminator that closes it, when chunks are left
      unterminated, or on a message that is not a `content_chunk`. */
  function Regroup(msgs: seq<Message>, pending: seq<Message>): Option<seq<(string, seq<string>)>>
    requires forall j :: 0 <= j < |pending| ==> pending[j].ContentChunk?
    decreases |msgs|
  {
    if |msgs| == 0 then (if |pending| == 0 then Some([]) else None)
    else
      match msgs[0]
      case ContentChunk(t, _, false) => Regroup(msgs[1..], pending + [msgs[0]])
      case ContentChunk(t, _, true) =>
        if forall j :: 0 <= j < |pending| ==> pending[j].pointTitle == t then
          match Regroup(msgs[1..], [])
          case Some(rest) => Some([(t, ChunkTexts(pending))] + rest)
          case None => None
        else None
      case _ => None
  }

  /** The content of point `i`: its title and the chunks it streamed. */
  function Block(s: LessonState, generate: (nat, ContentRequest) -> seq<string>, i: nat): (string, seq<string>)
    requires i < |s.keyPoints|
  {
    (s.keyPoints[i].pointTitle, generate(i, ContentRequestFor(s, i)))
  }

  lemma {:induction false} RegroupPoint(title: string, chunks: seq<string>, j: nat, rest: seq<Message>)
    requires j <= |chunks|
    ensures Regroup(ChunkMessages(title, chunks)[j..] + [Terminator(title)] + rest, ChunkMessages(title, chunks)[..j]) ==
      match Regroup(rest, []) case Some(blocks) => Some([(title, chunks)] + blocks) case None => None
    decreases |chunks| - j
  {
    var cm := ChunkMessages(title, chunks);
    var msgs := cm[j..] + [Terminator(title)] + rest;
    if j < |chunks| {
      assert msgs[0] == ContentChunk(title, chunks[j], false);
      assert msgs[1..] == cm[j + 1..] + [Terminator(title)] + rest;
      assert cm[..j] + [msgs[0]] == cm[..j + 1];
      RegroupPoint(title, chunks, j + 1, rest);
    } else {
      assert msgs[0] == Terminator(title);
      assert msgs[1..] == rest;
      assert ChunkTexts(cm[..j]) == chunks;
    }
  }

  /** The blocks of the points from index `i` on, in `key_points` order. */
  function Blocks(s: LessonState, generate: (nat, ContentRequest) -> seq<string>, i: nat): (bs: seq<(string, seq<string>)>)
    requires i <= |s.keyPoints|
    ensures |bs| == |s.keyPoints| - i
    ensures forall k :: 0 <= k < |bs| ==> bs[k] == Block(s, generate, i + k)
    decreases |s.keyPoints| - i
  {
    if i == |s.keyPoints| then [] else [Block(s, generate, i)] + Blocks(s, generate, i + 1)
  }

  /** Reading the streamed content back yields every point's chunks, in
      `key_points` order, each block closed by its own terminator: chunks of
      different points never interleave. */
  lemma {:induction false} RegroupStream(s: LessonState, generate: (nat, ContentRequest) -> seq<string>, i: nat)
    requires i <= |s.keyPoints|
    ensures Regroup(StreamFrom(s, generate, i), []) == Some(Blocks(s, generate, i))
    decreases |s.keyPoints| - i
  {
    if i < |s.keyPoints| {
      var title := s.keyPoints[i].pointTitle;
      var chunks := generate(i, ContentRequestFor(s, i));
      RegroupStream(s, generate, i + 1);
      assert ChunkMessages(title, chunks)[0..] == ChunkMessages(title, chunks);
      assert ChunkMessages(title, chunks)[..0] == [];
      RegroupPoint(title, chunks, 0, StreamFrom(s, generate, i + 1));
    } else {
      assert Regroup([], []) == Some([]);
    }
  }

  /** Each point's request carries its analysed description, or `""` when
      the vision step recorded none for that title. */
  lemma DescriptionDefaults(s: LessonState, i: nat)
    requires i < |s.keyPoints|
    ensures var title := s.keyPoints[i].pointTitle;
      && (title !in s.analyzedDescriptions ==> ContentRequestFor(s, i).analyzedDescription == "")
      && (title in s.analyzedDescriptions ==> ContentRequestFor(s, i).analyzedDescription == s.analyzedDescriptions[title])
      && ContentRequestFor(s, i).topic == s.topic && ContentRequestFor(s, i).point == s.keyPoints[i]
  {
  }
}
