/** The compiled LangGraph workflow of `create_workflow` (the five nodes in a
    line: lesson_planning, image_search, image_processing, content_generation,
    quiz_generation), what `workflow.astream(initial_state)` yields, and the
    entry points that consume that stream: `generate_lesson` and
    `run_workflow_async` in server/python_backend.py and the progress bar of
    `run_workflow` in t.py. */
module Workflow {
  import opened Common
  import opened Lesson
  import opened LessonNodes
  import opened ImageProcessing

  /** Everything outside the state that the five nodes consult: the planner's
      reply, whether the search or processing node raises as a whole, the
      search, download and vision tasks, and the quiz chain. */
  datatype Oracles = Oracles(
    plan: Result<LessonPlan>,
    searchFailure: Option<string>,
    search: (nat, string) -> SearchOutcome,
    processingFailure: Option<string>,
    download: (nat, string) -> Option<Picture>,
    vision: (nat, VisionRequest) -> AnalysisReply,
    quiz: QuizRequest -> Result<string>)

  /** The request fields of `LessonRequest` / `LESSON_INPUT`. */
  datatype LessonRequest = LessonRequest(topic: string, ageGroup: string, knowledgeLevel: string)

  /** The graph's nodes. */
  datatype Node = PlanNode | SearchNode | ProcessNode | ContentNode | QuizNode {
    /** The name the node is registered under with `add_node`, which is also
        its key in the items of the stream. */
    function Name(): string {
      match this
      case PlanNode => "lesson_planning"
      case SearchNode => "image_search"
      case ProcessNode => "image_processing"
      case ContentNode => "content_generation"
      case QuizNode => "quiz_generation"
    }
  }

  /** The order the graph's edges impose, from the entry point to `END`. */
  const NodeOrder: seq<Node> := [PlanNode, SearchNode, ProcessNode, ContentNode, QuizNode]

  /** One item of `astream`: `{node_name: state}`, or an empty dict (which
      the consumers handle although the graph never yields one). */
  datatype StreamItem = Update(node: Node, state: LessonState) | EmptyItem

  /** A stream of one update per node, in graph order. */
  predicate InGraphOrder(items: seq<StreamItem>) {
    |items| == |NodeOrder| && forall i :: 0 <= i < |items| ==> items[i].Update? && items[i].node == NodeOrder[i]
  }

  /** The items `workflow.astream(initial)` yields: one update per node, in
      graph order, each holding the state that node returned from the state the
      previous node returned. */
  function WorkflowStream(v: Variant, initial: LessonState, o: Oracles): (items: seq<StreamItem>)
    ensures InGraphOrder(items)
  {
    var planned := LessonPlanningNode(initial, o.plan);
    var searched := ImageSearchResult(planned, o.searchFailure, o.search);
    var processed := ImageProcessingResult(v, searched, o.processingFailure, o.download, o.vision);
    var written := ContentGenerationNode(processed);
    var quizzed := QuizGenerationNode(written, o.quiz);
    [Update(PlanNode, planned), Update(SearchNode, searched), Update(ProcessNode, processed),
     Update(ContentNode, written), Update(QuizNode, quizzed)]
  }

  /** The state the last node returns. */
  function FinalLessonState(v: Variant, initial: LessonState, o: Oracles): LessonState {
    WorkflowStream(v, initial, o)[|NodeOrder| - 1].state
  }

  // ---------------------------------------------------------------------------
  // Tracking the final state
  // ---------------------------------------------------------------------------

  /** `final_state`: `None` before the first item, then `{}` or the state of
      the latest item. */
  datatype FinalState = Unset | EmptyState | Final(state: LessonState)

  /** `list(state.values())[0] if state else {}`. */
  function Snapshot(item: StreamItem): FinalState {
    match item
    case Update(_, s) => Final(s)
    case EmptyItem => EmptyState
  }

  /** `list(state.keys())[0] if state else "unknown"`. */
  function StageOf(item: StreamItem): string {
    match item
    case Update(node, _) => node.Name()
    case EmptyItem => "unknown"
  }

  /** The loop `final_state = ...` over the stream keeps the last item's
      snapshot, and `None` when the stream is empty. */
  method TrackFinalState(items: seq<StreamItem>) returns (final: FinalState)
    ensures |items| == 0 <==> final == Unset
    ensures |items| > 0 ==> final == Snapshot(items[|items| - 1])
  {
    final := Unset;
    for i := 0 to |items|
      invariant i == 0 ==> final == Unset
      invariant i > 0 ==> final == Snapshot(items[i - 1])
    {
      final := Snapshot(items[i]);
    }
  }

  // ---------------------------------------------------------------------------
  // generate_lesson and run_workflow_async
  // ---------------------------------------------------------------------------

  /** The JSON body `generate_lesson` returns: the final state without
      `content_data`, `current_processing` and `completed_points`. */
  datatype LessonResponse = LessonResponse(
    topic: string,
    ageGroup: string,
    knowledgeLevel: string,
    lessonPlan: Option<LessonPlan>,
    keyPoints: seq<KeyPoint>,
    imagesData: Dict<ImageInfo>,
    analyzedDescriptions: map<string, string>,
    quiz: Option<string>,
    errors: seq<string>)

  /** A 200 response with a body, or an `HTTPException`. */
  datatype HttpResult = Response(body: LessonResponse) | HttpError(status: int, detail: string)

  function ResponseOf(s: LessonState): LessonResponse {
    LessonResponse(s.topic, s.ageGroup, s.knowledgeLevel, s.lessonPlan, s.keyPoints, s.imagesData,
                   s.analyzedDescriptions, s.quiz, s.errors)
  }

  /** The inner `HTTPException(500, "Workflow failed to produce results")` is
      caught by the endpoint's own `except` and re-raised with `str(e)`, which
      is `"500: Workflow failed to produce results"`. */
  const NoResultsDetail := "Lesson generation failed: 500: Workflow failed to produce results"

  /** What `generate_lesson` makes of `final_state`: the response for a
      state, a 500 for `None` or `{}`. */
  function Respond(final: FinalState): (out: HttpResult)
    ensures out.Response? <==> final.Final?
    ensures out.HttpError? ==> out.status == 500 && out.detail == NoResultsDetail
    ensures final.Final? ==> out == Response(ResponseOf(final.state))
    ensures final.Final? ==> out.body.errors == final.state.errors && out.body.topic == final.state.topic
  {
    match final
    case Final(s) => Response(ResponseOf(s))
    case _ => HttpError(500, NoResultsDetail)
  }

  /** `generate_lesson`: it always answers 200 with the last node's state,
      which echoes the request; the 500 path is unreachable. */
  method GenerateLesson(request: LessonRequest, o: Oracles) returns (out: HttpResult)
    ensures out == Response(ResponseOf(FinalLessonState(Server, InitialState(request.topic, request.ageGroup, request.knowledgeLevel), o)))
    ensures out.body.topic == request.topic && out.body.ageGroup == request.ageGroup &&
            out.body.knowledgeLevel == request.knowledgeLevel
  {
    var initial := InitialState(request.topic, request.ageGroup, request.knowledgeLevel);
    var items := WorkflowStream(Server, initial, o);
    var final := TrackFinalState(items);
    out := Respond(final);
    RequestPreserved(Server, initial, o);
  }

  /** `run_workflow_async`: the final state the stream leaves. */
  method RunWorkflowAsync(request: LessonRequest, o: Oracles) returns (final: FinalState)
    ensures final == Final(FinalLessonState(Server, InitialState(request.topic, request.ageGroup, request.knowledgeLevel), o))
  {
    var initial := InitialState(request.topic, request.ageGroup, request.knowledgeLevel);
    var items := WorkflowStream(Server, initial, o);
    final := TrackFinalState(items);
  }

  // ---------------------------------------------------------------------------
  // Progress selection: `progress_map` in t.py and server/workflow_runner.py
  // ---------------------------------------------------------------------------

  /** The row of `progress_map` for a node's stage: the progress value and
      the text. */
  function Entry(n: Node): (int, string) {
    match n
    case PlanNode => (15, "\U{1F4CB} Planning Lesson...")
    case SearchNode => (30, "\U{1F50D} Searching Images...")
    case ProcessNode => (60, "\U{1F52C} Analyzing Images with Vision AI...")
    case ContentNode => (75, "\U{270D}\U{FE0F} Generating Content...")
    case QuizNode => (95, "\U{1F4DD} Creating Quiz...")
  }

  /** `progress_map[stage]` when the stage is a key of `progress_map`. */
  function ProgressEntry(stage: string): Option<(int, string)> {
    if stage == PlanNode.Name() then Some(Entry(PlanNode))
    else if stage == SearchNode.Name() then Some(Entry(SearchNode))
    else if stage == ProcessNode.Name() then Some(Entry(ProcessNode))
    else if stage == ContentNode.Name() then Some(Entry(ContentNode))
    else if stage == QuizNode.Name() then Some(Entry(QuizNode))
    else None
  }

  /** The keys of `progress_map` are exactly the node names. */
  lemma ProgressEntryKeys(stage: string)
    ensures ProgressEntry(stage).Some? <==> exists n: Node :: n.Name() == stage
  {
    if ProgressEntry(stage).None? {
      forall n: Node ensures n.Name() != stage {
      }
    }
  }

  /** The entry the stage of a stream item selects: its node's row, and none
      for an empty item (whose stage `"unknown"` is no key). */
  function ItemEntry(item: StreamItem): Option<(int, string)> {
    match item
    case Update(n, _) => Some(Entry(n))
    case EmptyItem => None
  }

  /** `ItemEntry` is the lookup of the item's stage in `progress_map`. */
  lemma ItemEntryLookup(item: StreamItem)
    ensures ItemEntry(item) == ProgressEntry(StageOf(item))
  {
  }

  /** The progress values set while the first `n` items are consumed. */
  function ProgressValues(items: seq<StreamItem>, n: nat): seq<int>
    requires n <= |items|
    decreases n
  {
    if n == 0 then []
    else
      var entry := ItemEntry(items[n - 1]);
      ProgressValues(items, n - 1) + (if entry.Some? then [entry.value.0] else [])
  }

  /** The values the Streamlit progress bar takes in `run_workflow` when no
      rendering step raises: one per item whose stage is in `progress_map`,
      then 100; `final` is the state the rendering uses. */
  method StreamlitRun(items: seq<StreamItem>) returns (bar: seq<int>, final: FinalState)
    ensures bar == ProgressValues(items, |items|) + [100]
    ensures |items| == 0 <==> final == Unset
    ensures |items| > 0 ==> final == Snapshot(items[|items| - 1])
  {
    bar, final := [], Unset;
    for i := 0 to |items|
      invariant bar == ProgressValues(items, i)
      invariant i == 0 ==> final == Unset
      invariant i > 0 ==> final == Snapshot(items[i - 1])
    {
      var entry := ProgressEntry(StageOf(items[i]));
      ItemEntryLookup(items[i]);
      if entry.Some? {
        bar := bar + [entry.value.0];
      }
      final := Snapshot(items[i]);
    }
    bar := bar + [100];
  }

  /** On one update per node in graph order, the progress values are the
      rows of `progress_map` in that order. */
  lemma GraphOrderProgress(items: seq<StreamItem>)
    requires InGraphOrder(items)
    ensures ProgressValues(items, |NodeOrder|) == [15, 30, 60, 75, 95]
  {
    ProgressValuesInGraphOrder(items, |NodeOrder|);
    var values := ProgressValues(items, |NodeOrder|);
    assert values[0] == 15 && values[1] == 30 && values[2] == 60 && values[3] == 75 && values[4] == 95;
  }

  /** The first `n` progress values of a stream in graph order. */
  lemma {:induction false} ProgressValuesInGraphOrder(items: seq<StreamItem>, n: nat)
    requires InGraphOrder(items) && n <= |items|
    ensures |ProgressValues(items, n)| == n
    ensures forall i :: 0 <= i < n ==> ProgressValues(items, n)[i] == Entry(NodeOrder[i]).0
    decreases n
  {
    if n > 0 {
      ProgressValuesInGraphOrder(items, n - 1);
      var prev := ProgressValues(items, n - 1);
      assert ItemEntry(items[n - 1]) == Some(Entry(NodeOrder[n - 1]));
      assert ProgressValues(items, n) == prev + [Entry(NodeOrder[n - 1]).0];
    }
  }

  /** Whatever the oracles, the workflow's progress values are 15, 30, 60, 75
      and 95, so the Streamlit bar rises strictly and ends at 100. */
  lemma WorkflowProgress(v: Variant, initial: LessonState, o: Oracles)
    ensures ProgressValues(WorkflowStream(v, initial, o), |NodeOrder|) == [15, 30, 60, 75, 95]
    ensures var bar := ProgressValues(WorkflowStream(v, initial, o), |NodeOrder|) + [100];
      forall i, j :: 0 <= i < j < |bar| ==> bar[i] < bar[j]
  {
    GraphOrderProgress(WorkflowStream(v, initial, o));
    var bar: seq<int> := [15, 30, 60, 75, 95] + [100];
    assert bar == [15, 30, 60, 75, 95, 100];
  }

  // ---------------------------------------------------------------------------
  // Properties of the whole workflow
  // ---------------------------------------------------------------------------

  /** From `s` to `r` the request is kept and at most `k` errors are
      appended to the errors of `s`. */
  predicate Grows(s: LessonState, r: LessonState, k: nat) {
    && SameRequest(s, r)
    && |s.errors| <= |r.errors| <= |s.errors| + k
    && r.errors[..|s.errors|] == s.errors
  }

  lemma GrowsCompose(a: LessonState, b: LessonState, c: LessonState, j: nat, k: nat)
    requires Grows(a, b, j) && Grows(b, c, k)
    ensures Grows(a, c, j + k)
  {
    assert c.errors[..|a.errors|] == c.errors[..|b.errors|][..|a.errors|];
  }

  lemma PlanningStep(s: LessonState, reply: Result<LessonPlan>)
    ensures Grows(s, LessonPlanningNode(s, reply), 1)
  {
  }

  lemma SearchStep(s: LessonState, failure: Option<string>, search: (nat, string) -> SearchOutcome)
    ensures Grows(s, ImageSearchResult(s, failure, search), 1)
  {
  }

  lemma ProcessingStep(v: Variant, s: LessonState, failure: Option<string>,
                       download: (nat, string) -> Option<Picture>, vision: (nat, VisionRequest) -> AnalysisReply)
    ensures Grows(s, ImageProcessingResult(v, s, failure, download, vision), 1)
  {
    var r := ImageProcessingResult(v, s, failure, download, vision);
    if |s.imagesData| > 0 && failure.None? && !MissingPicture(v, s.keyPoints, ProcessedImages(v, s.imagesData, download)) {
      assert r.errors == s.errors;
    }
  }

  lemma QuizStep(s: LessonState, chain: QuizRequest -> Result<string>)
    ensures Grows(s, QuizGenerationNode(s, chain), 1)
  {
  }

  /** Every node keeps the request and appends at most one error to the
      errors it received. */
  lemma NodesAreSteps(v: Variant, initial: LessonState, o: Oracles)
    ensures var items := WorkflowStream(v, initial, o);
      && Grows(initial, items[0].state, 1)
      && Grows(items[0].state, items[1].state, 1)
      && Grows(items[1].state, items[2].state, 1)
      && Grows(items[2].state, items[3].state, 1)
      && Grows(items[3].state, items[4].state, 1)
  {
    var planned := LessonPlanningNode(initial, o.plan);
    var searched := ImageSearchResult(planned, o.searchFailure, o.search);
    var processed := ImageProcessingResult(v, searched, o.processingFailure, o.download, o.vision);
    var written := ContentGenerationNode(processed);
    PlanningStep(initial, o.plan);
    SearchStep(planned, o.searchFailure, o.search);
    ProcessingStep(v, searched, o.processingFailure, o.download, o.vision);
    QuizStep(written, o.quiz);
  }

  /** The final state carries the request it started from, and its errors
      extend the initial errors by at most one per node. */
  lemma RequestPreserved(v: Variant, initial: LessonState, o: Oracles)
    ensures Grows(initial, FinalLessonState(v, initial, o), |NodeOrder|)
  {
    var items := WorkflowStream(v, initial, o);
    NodesAreSteps(v, initial, o);
    GrowsCompose(initial, items[0].state, items[1].state, 1, 1);
    GrowsCompose(initial, items[1].state, items[2].state, 2, 1);
    GrowsCompose(initial, items[2].state, items[3].state, 3, 1);
    GrowsCompose(initial, items[3].state, items[4].state, 4, 1);
  }

  /** When the planner raises, the plan has no key points, so search,
      processing and quiz return their input: the workflow ends in the
      initial state with the one planning error and the content stage. */
  lemma PlanningFailure(v: Variant, request: LessonRequest, o: Oracles)
    requires o.plan.Err?
    ensures var initial := InitialState(request.topic, request.ageGroup, request.knowledgeLevel);
      var items := WorkflowStream(v, initial, o);
      && items[0].state == items[1].state == items[2].state
      && items[3].state == items[4].state
      && FinalLessonState(v, initial, o) ==
           initial.(errors := ["Lesson planning error: " + o.plan.error], currentProcessing := ContentGenerationComplete)
  {
  }

  lemma DistinctFromKeys<V, W>(a: Dict<V>, b: Dict<W>)
    requires Keys(a) == Keys(b) && DistinctKeys(b)
    ensures DistinctKeys(a)
  {
    forall i, j | 0 <= i < j < |a| ensures a[i].0 != a[j].0 {
      assert Keys(a)[i] == b[i].0 && Keys(a)[j] == b[j].0;
    }
  }

  /** When no node raises, the plan has key points and the first point's
      search returns links, every node completes: the stages follow the graph
      order, no error is recorded, the quiz is the chain's text, and the final
      `images_data` has distinct keys, one per successfully searched point. */
  lemma HappyPath(v: Variant, request: LessonRequest, o: Oracles, ps: seq<KeyPoint>)
    requires o.plan.Ok? && o.plan.value.keyPoints == Some(ps) && |ps| > 0
    requires o.searchFailure.None? && o.search(0, ps[0].searchQuery).Links?
    requires o.processingFailure.None?
    requires o.quiz(QuizRequest(request.topic, KeyPointsText(ps))).Ok?
    ensures var initial := InitialState(request.topic, request.ageGroup, request.knowledgeLevel);
      var items := WorkflowStream(v, initial, o);
      var final := items[4].state;
      && items[0].state.currentProcessing == LessonPlanningComplete
      && items[1].state.currentProcessing == ImageSearchComplete
      && items[2].state.currentProcessing == ImageProcessingComplete
      && items[3].state.currentProcessing == ContentGenerationComplete
      && final.currentProcessing == QuizComplete
      && final.errors == []
      && final.quiz == Some(o.quiz(QuizRequest(request.topic, KeyPointsText(ps))).value)
      && DistinctKeys(final.imagesData)
      && Keys(final.imagesData) == Keys(items[1].state.imagesData)
      && ps[0].pointTitle in Keys(final.imagesData)
  {
    var initial := InitialState(request.topic, request.ageGroup, request.knowledgeLevel);
    var items := WorkflowStream(v, initial, o);
    var planned, searched, processed := items[0].state, items[1].state, items[2].state;
    assert planned.keyPoints == ps;
    ImageSearchSound(planned, None, o.search);
    var results := GatherSearches(ps, o.search);
    assert results[0].Links?;
    assert ps[0].pointTitle in Keys(searched.imagesData);
    assert |searched.imagesData| > 0;
    forall i | 0 <= i < |searched.imagesData| ensures searched.imagesData[i].1.bestImage.None? {
      GetAt(searched.imagesData, i);
    }
    FreshEntriesHavePictures(v, searched, o.download);
    ImageProcessingSound(v, searched, None, o.download, o.vision);
    DistinctFromKeys(processed.imagesData, searched.imagesData);
  }
}
