# StudyZone lesson workflow, modelled in Dafny

StudyZone builds a lesson from a topic, an age group and a knowledge level.
A LangGraph workflow runs five nodes in a line:

1. **lesson planning** asks a language model for a plan with key points;
2. **image search** runs one image search per key point;
3. **image processing** downloads at most two images per point, keeps the
   first successful download as the point's best image and has a vision model
   describe it;
4. **content generation** is a placeholder (the content is streamed later);
5. **quiz generation** asks for a quiz over the point titles.

In the model, each node returns the state it received in one of three ways:
enriched, unchanged, or with exactly one error appended. In the source, the
image processing node can also fail after its downloads have already changed
the entries it shares with its input; see "## Left out".

Three programs consume the workflow's stream of `{node_name: state}` items:

- `generate_lesson` and `run_workflow_async` in server/python_backend.py keep
  the last state;
- `run_workflow` in server/workflow_runner.py prints line-delimited JSON
  messages: progress, the streamed content of every point and one completion
  message (the nodes' plain-text diagnostics on the same output are not
  modelled; see "## Left out");
- the Streamlit app t.py drives a progress bar.

A fourth script, server/roadmap_generator.py, streams a learning roadmap one
line per object: a metadata line, then one line per phase. Each phase request
carries the titles of the phases before it.

The model has seven modules:

- **Common**: options, results, insertion-ordered dictionaries and the string
  operations used (`join`, `str(n)`, splitting a stream into lines).
- **Lesson**: the lesson state and its stage names.
- **LessonNodes**: the planning, search, content and quiz nodes.
- **ImageProcessing**: the image processing node, in its server copy and its
  t.py copy (the `Variant`).
- **Workflow**: the graph, the stream it yields, the final-state selection of
  `generate_lesson` and `run_workflow_async`, and the t.py progress bar.
- **Runner**: `run_workflow` of server/workflow_runner.py.
- **Roadmap**: server/roadmap_generator.py.

Calls to language models, the search API, image downloads and content
streaming are parameters of the model (functions from the request to the
reply or to the exception raised). The model therefore holds for every reply
of the modelled types: the replies are typed records, so a reply with a
missing field or a JSON `null` where a string is expected is not covered.

Where the source loops, the model is a method with the same loop: the task
loops and the loops over their gathered results in every node, the runner's
loops, the roadmap loop and the t.py progress loop. The method is proved equal
to a specification function, and lemmas state what the source promises about
that function. List comprehensions (`search_images`' link filter, the titles
for the quiz) and `asyncio.gather` itself are modelled as functions.

Four results are proved about the workflow as a whole:

- **Request and errors.** The request survives the whole workflow, and every
  node adds at most one error.
- **Planning failure.** A failed planning call leaves the initial state with
  one error.
- **t.py progress.** The t.py progress bar rises strictly: 15, 30, 60, 75, 95,
  100.
- **Runner progress.** The runner's progress values are 15, 30, 60, 75, 95
  and then 80 once content is streamed, so they are not monotonic.

Two results are proved about the streamed output:

- **Content.** The runner's content blocks never interleave, and one
  completion message comes last.
- **Roadmap.** The roadmap reads back line by line, and each phase request
  carries the numbered titles of the phases already emitted.

## Model

| member | source | states |
|---|---|---|
| Common.Get | server/python_backend.py:382 | a dict lookup `d.get(k)` over the insertion-ordered entries (no contract; GetFound and GetAt state it) |
| Common.Put | server/python_backend.py:340 | `d[k] = v`: replaces the value in place for an existing key, appends otherwise (no contract; PutGet, PutKeys and PutDistinct state it) |
| Common.GetFound | server/python_backend.py:382 | a title is found in `images_data` exactly when it is one of its keys |
| Common.GetAt | server/python_backend.py:368 | with distinct keys, iterating the items and looking each key up agree |
| Common.PutGet | server/python_backend.py:340 | after `d[k] = v`, `k` looks up as `v` and every other key as before |
| Common.PutKeys | server/python_backend.py:340 | `d[k] = v` keeps the key order and appends `k` only when it is new |
| Common.PutDistinct | server/python_backend.py:340 | `d[k] = v` keeps the keys distinct |
| Common.JoinLength | server/python_backend.py:460 | `", ".join` adds exactly one separator between neighbouring titles |
| Common.JoinSnoc | server/python_backend.py:460 | joining one more title appends the separator and that title |
| Common.Decimal | server/roadmap_generator.py:82 | the rendered phase number is a non-empty string of decimal digits |
| Common.DecimalRoundTrip | server/roadmap_generator.py:82 | the rendered phase number reads back as the number |
| Common.SplitLinesCons | server/roadmap_generator.py:64 | a newline-free JSON line followed by `"\n"` is read back as that line, then the rest |
| Lesson.InitialState | server/python_backend.py:575-588 | the initial state holds the request fields, empty collections, no plan, no quiz and the stage `initializing` (also t.py:688-701, server/workflow_runner.py:26-39) |
| Lesson.Titles | server/python_backend.py:460 | the list of point titles has one title per key point, in order |
| LessonNodes.LessonPlanningNode | server/python_backend.py:301-321 | on a plan: plan, key points (default `[]`) and stage set, nothing else changed; on a raise: exactly the error `Lesson planning error: e` appended |
| LessonNodes.SearchImages | server/python_backend.py:102-124 | `[]` on an exception or a non-200 status; a 200 reply gives the filtered links of its `items` (`[]` when absent); every returned link is non-empty |
| LessonNodes.ImageLinks | server/python_backend.py:118 | the non-empty `link` of every item, in item order |
| LessonNodes.ImageLinksSound | server/python_backend.py:117-118 | a link is kept exactly when some item carries it and it is non-empty; never more links than items |
| LessonNodes.ImageLinksAppend | server/python_backend.py:118 | the filter keeps item order: the links of `a + b` are those of `a` then those of `b`, and one item gives its link exactly when it is non-empty |
| LessonNodes.GatherSearches | server/python_backend.py:331-335 | one gathered search result per key point, in task order |
| LessonNodes.SearchTasks | server/python_backend.py:331-335 | the loop that appends one search task per key point, then the gather, yields the gathered results |
| LessonNodes.SearchedImages | server/python_backend.py:337-344 | `images_data` after the loop over the first n points: `images_data[title] = {urls, [], None}` for each point whose search did not raise |
| LessonNodes.SearchedDistinct | server/python_backend.py:337-344 | the filled `images_data` has distinct keys |
| LessonNodes.SearchedKeys | server/python_backend.py:337-344 | its keys are exactly the titles of the points whose search did not raise |
| LessonNodes.SearchedValues | server/python_backend.py:337-344 | each entry is `{urls: result, images: [], best_image: None}` of the LAST successfully searched point with that title: a later assignment overwrites an earlier one |
| LessonNodes.SearchedImagesSound | server/python_backend.py:337-344 | distinct keys, exactly the successfully searched titles, each with the links of the last such point's search |
| LessonNodes.ImageSearchResult | server/python_backend.py:324-355 | the search node's result: unchanged without key points, one error on a raise, otherwise the filled `images_data` and the stage |
| LessonNodes.ImageSearchNode | server/python_backend.py:324-355 | the node's loop computes the image search result |
| LessonNodes.ImageSearchSound | server/python_backend.py:324-355 | no key points: state unchanged; raise: one error appended; otherwise only `images_data` and the stage change, its keys are the successfully searched titles and each entry comes from the last point with that title |
| LessonNodes.SearchWithFilteredReplies | server/python_backend.py:102-124 | since `search_images` catches everything, every point's title becomes a key and every stored URL is non-empty |
| LessonNodes.ContentGenerationNode | server/python_backend.py:445-450 | only the stage changes, to `content_generation_complete` |
| LessonNodes.KeyPointsText | server/python_backend.py:460 | the quiz chain's `key_points` input: the titles joined by `", "` |
| LessonNodes.KeyPointsTextShape | server/python_backend.py:460 | the quiz input's length is the titles' total plus two per separator; one more point appends `", "` and its title |
| LessonNodes.QuizGenerationNode | server/python_backend.py:453-476 | no key points: unchanged; a quiz: quiz and stage set, nothing else; a raise: exactly `Quiz generation error: e` appended |
| ImageProcessing.FirstUrls | server/python_backend.py:370 | `urls[:2]` is the prefix of length `min(2, len(urls))` |
| ImageProcessing.PointTasks | server/python_backend.py:369-372 | one task per URL of `urls[:2]`, in order, tagged with the point title |
| ImageProcessing.DownloadTasks | server/python_backend.py:368-372 | at most two tasks per entry of `images_data` |
| ImageProcessing.TaskUrls | server/python_backend.py:371 | one download per task |
| ImageProcessing.TaskIndex | server/python_backend.py:366-372 | `url_to_point` after all tasks: index i maps to the title and URL of task i |
| ImageProcessing.TaskIndexSnoc | server/python_backend.py:372 | registering a task maps the new last index to its title and URL |
| ImageProcessing.TaskUrlsSnoc | server/python_backend.py:371 | appending a task appends its URL to the downloads |
| ImageProcessing.DownloadTasksSnoc | server/python_backend.py:368-372 | one more entry appends exactly that entry's tasks |
| ImageProcessing.PointTasksStep | server/python_backend.py:370-372 | the inner loop's next task is the next URL of `urls[:2]` |
| ImageProcessing.BuildTasks | server/python_backend.py:365-372 | the nested loops build exactly the task URLs and `url_to_point` of all entries |
| ImageProcessing.DownloadTasksPerPoint | server/python_backend.py:368-372 | with distinct keys, the tasks for a title download exactly its first (at most two) URLs, in order; a title that is not a key gets none |
| ImageProcessing.GatherDownloads | server/python_backend.py:374 | one gathered download per task, in task order |
| ImageProcessing.WithDownload | server/python_backend.py:385-398 | one successful download: its record appended to `images`, and the best image set when the entry had none |
| ImageProcessing.AfterDownloads | server/python_backend.py:376-398 | `updated_images_data` after the first n downloads: each success of a title that is a key is recorded in its entry |
| ImageProcessing.ApplyDownloads | server/python_backend.py:376-398 | the downloads loop computes `updated_images_data` |
| ImageProcessing.Record | server/python_backend.py:388-391 | the record appended to `images`: url and score, plus the image object in t.py (t.py:342-346) (no contract; SuccessesShape states the records) |
| ImageProcessing.BestRecord | server/python_backend.py:393-398 | the `best_image` record, with the image object in both copies (t.py:348-353) (no contract; BestImageIsFirstDownload states it) |
| ImageProcessing.Successes | server/python_backend.py:385-398 | the records of a title's successful downloads among the first n, in task order (no contract; AfterDownloadsSound states the entries through it) |
| ImageProcessing.FirstSuccess | server/python_backend.py:394-398 | the best-image record of a title's first successful download, if any (no contract; FirstSuccessIsEarliest states it is the earliest) |
| ImageProcessing.FirstSuccessIsEarliest | server/python_backend.py:393-398 | no best image is set exactly when no download of the title succeeded; otherwise it is the earliest success |
| ImageProcessing.SuccessesShape | t.py:342-346 | every appended record has score 85 and a successful task's URL, and carries the image exactly in t.py |
| ImageProcessing.AfterDownloadsSound | server/python_backend.py:376-398 | keys and their order kept; each entry gains its successes in task order; a missing best image becomes the first success; failed downloads and unknown titles leave no trace |
| ImageProcessing.Analysable | server/python_backend.py:406-408 | a point gets a vision task: it has a best image, which on the server still holds its image object (no contract; ImageProcessingSound states descriptions only for such titles) |
| ImageProcessing.MissingPicture | t.py:361-366 | t.py reads `best_image["image"]` unguarded: some point's best image has no image object (no contract; GatherAnalyses raises exactly then, FreshEntriesHavePictures shows fresh entries never do) |
| ImageProcessing.AnalysisTask | server/python_backend.py:404-417 | the vision call for a point with a best image (with its image object on the server), and the `sleep(0)` placeholder otherwise |
| ImageProcessing.AnalysisResults | server/python_backend.py:404-419 | one analysis result per key point, in order |
| ImageProcessing.GatherAnalyses | t.py:359-373 | the loop raises (t.py's `KeyError('image')`) exactly when a point's best image has no image object, and otherwise yields the analysis results |
| ImageProcessing.Descriptions | server/python_backend.py:421-425 | `analyzed_descriptions` after the first n points: the non-empty string results, keyed by title |
| ImageProcessing.CollectDescriptions | server/python_backend.py:421-425 | the loop computes `analyzed_descriptions` |
| ImageProcessing.DescriptionsSound | server/python_backend.py:421-425 | every description is non-empty and is the text a task of a point with that title returned |
| ImageProcessing.DescriptionsComplete | server/python_backend.py:421-425 | conversely, every non-empty text result is recorded under its point's title, and the value is the text of the last such point with that title (also t.py:375-379) |
| ImageProcessing.Stripped | server/python_backend.py:428-430 | the stripped images data has as many entries as before |
| ImageProcessing.StripInfo | server/python_backend.py:428-430 | `best_image.pop("image", None)` on one entry (no contract; StrippedGet states the result) |
| ImageProcessing.StripPictures | server/python_backend.py:428-430 | the loop that pops `"image"` from every best image computes the stripped images data |
| ImageProcessing.StrippedGet | server/python_backend.py:428-430 | stripping keeps the keys, and a title looks up as its stripped entry |
| ImageProcessing.ProcessedImages | server/python_backend.py:363-398 | `updated_images_data` once the tasks are built, the downloads gathered and every download recorded |
| ImageProcessing.ImageProcessingResult | server/python_backend.py:358-442 | the node's result: unchanged without `images_data`, one error on a raise (or t.py's `KeyError`), otherwise images, descriptions and stage replaced |
| ImageProcessing.ImageProcessingNode | server/python_backend.py:358-442 | the node as written (tasks, gather, downloads loop, analyses, descriptions, stripping) computes the image processing result (t.py:312-391 for the Streamlit variant) |
| ImageProcessing.ImageProcessingSound | server/python_backend.py:358-442 | no `images_data`: unchanged; a raise: one error appended; t.py's missing image object: the `'image'` error appended; a completed run keeps the keys, changes only images, descriptions and stage, every description is non-empty with a best image, every non-empty analysis text is recorded under its title with the last point of that title winning, and the server keeps no image object |
| ImageProcessing.BestImageIsFirstDownload | server/python_backend.py:378-398 | a point without a best image gets all its successful downloads in `images`, and as best image the earliest success (URL, 85, image only in t.py), or none exactly when none succeeded |
| ImageProcessing.FreshEntriesHavePictures | t.py:361-364 | on entries as the search node leaves them, t.py's unguarded `best_image["image"]` never raises |
| ImageProcessing.FirstSuccessHasPicture | t.py:348-353 | a best image set by a download carries the image object |
| Workflow.WorkflowStream | server/python_backend.py:480-497 | the stream is one update per node, in the order of the graph's edges |
| Workflow.Snapshot | server/python_backend.py:592 | `list(state.values())[0] if state else {}` for one stream item |
| Workflow.StageOf | server/workflow_runner.py:54 | `list(state.keys())[0] if state else "unknown"` for one stream item (also t.py:756) |
| Workflow.TrackFinalState | server/python_backend.py:590-592 | `final_state` is `None` exactly for an empty stream, otherwise the last item's snapshot |
| Workflow.ResponseOf | server/python_backend.py:598-608 | the nine fields of `response_data` taken from the final state (no contract; Respond and GenerateLesson state the response through it) |
| Workflow.Respond | server/python_backend.py:594-613 | a 200 exactly when there is a final state, whose body is that state's `response_data` (so it echoes its errors and topic); otherwise 500 with `Lesson generation failed: 500: Workflow failed to produce results` |
| Workflow.GenerateLesson | server/python_backend.py:569-613 | `generate_lesson` always answers 200 with the last node's state, which echoes the request |
| Workflow.RunWorkflowAsync | server/python_backend.py:682-705 | the result is the last node's state |
| Workflow.Entry | server/workflow_runner.py:42-48 | the row of `progress_map` for each node: 15, 30, 60, 75, 95 with their texts (also t.py:760-766) |
| Workflow.ProgressEntry | t.py:768-769 | `progress_map[current_stage]` when the stage is a key, and nothing otherwise |
| Workflow.ProgressEntryKeys | t.py:760-768 | a stage has a `progress_map` row exactly when it is a node's name |
| Workflow.ItemEntryLookup | t.py:756-769 | the row an item selects is `progress_map[current_stage]`; an empty item (`"unknown"`) has none |
| Workflow.StreamlitRun | t.py:749-783 | the progress bar takes the value of every item's row, in order, then 100 (t.py:892); the final state is the last snapshot |
| Workflow.GraphOrderProgress | t.py:760-770 | a stream in graph order sets the progress values 15, 30, 60, 75, 95 |
| Workflow.ProgressValuesInGraphOrder | t.py:760-770 | the i-th progress value of a stream in graph order is the i-th node's row |
| Workflow.WorkflowProgress | t.py:760-770 | whatever the oracles, the Streamlit bar goes 15, 30, 60, 75, 95, 100, strictly rising |
| Workflow.PlanningStep | server/python_backend.py:301-321 | planning keeps the request and appends at most one error |
| Workflow.SearchStep | server/python_backend.py:324-355 | image search keeps the request and appends at most one error |
| Workflow.ProcessingStep | server/python_backend.py:358-442 | image processing keeps the request and appends at most one error |
| Workflow.QuizStep | server/python_backend.py:453-476 | quiz generation keeps the request and appends at most one error |
| Workflow.NodesAreSteps | server/python_backend.py:480-497 | along the stream, every node keeps the request and appends at most one error to the errors it received |
| Workflow.RequestPreserved | server/python_backend.py:480-497 | the final state carries the request, and its errors extend the initial ones by at most five |
| Workflow.PlanningFailure | server/python_backend.py:317-321 | when planning raises, search, processing and quiz return their input unchanged, and the end state is the initial state with one planning error at the content stage |
| Workflow.HappyPath | server/python_backend.py:480-497 | if no node raises, there are key points and the first search succeeds: the stages follow the graph, there are no errors, the quiz is the chain's text, and the images have distinct keys including the first title |
| Runner.DataOf | server/workflow_runner.py:65-72 | a progress message's `data`: the state's six fields with the defaults of `.get` |
| Runner.ItemMessages | server/workflow_runner.py:54-73 | the progress message an item emits when its stage is in `progress_map`, and none otherwise |
| Runner.LoopMessages | server/workflow_runner.py:53-75 | the messages of the loop over the first n items, in order |
| Runner.AnalyzedDescription | server/workflow_runner.py:91 | `analyzed_descriptions.get(point_title, "")` |
| Runner.Emitted | server/workflow_runner.py:50-125 | every JSON message the runner prints: loop messages, the streaming part when the final state has key points, then `complete` |
| Runner.LastSnapshot | server/workflow_runner.py:50-75 | `final_state` after the loop: the snapshot of the last item, unset for an empty stream (no contract; EmitProgress is proved to leave it) |
| Runner.PointMessages | server/workflow_runner.py:89-119 | one point's `content_chunk` messages, then its terminator with `is_complete` (no contract; EmitPoint is proved equal to it, RegroupPoint reads it back) |
| Runner.StreamFrom | server/workflow_runner.py:89-119 | the messages of the points from index i on, in point order (no contract; StreamFromChunks states its shape) |
| Runner.ContentMessages | server/workflow_runner.py:78-119 | the announcement and every point's messages when `final_state` has key points, nothing otherwise (no contract; EmitContent is proved equal to it) |
| Runner.ChunkMessages | server/workflow_runner.py:102-109 | one `content_chunk` per streamed chunk |
| Runner.EmitProgress | server/workflow_runner.py:50-75 | the loop emits the progress messages of the stream and leaves the last snapshot as `final_state` |
| Runner.EmitPoint | server/workflow_runner.py:89-119 | a point's chunks, in order, then its terminator |
| Runner.EmitContent | server/workflow_runner.py:88-119 | every point's messages, in `key_points` order |
| Runner.RunWorkflow | server/workflow_runner.py:16-125 | `run_workflow` emits the loop messages, the streaming part when the final state has key points, then `complete` |
| Runner.ItemMessagesSound | server/workflow_runner.py:58-73 | an item emits one message exactly when it is a node update, carrying its stage's row and state data |
| Runner.LoopMessagesSound | server/workflow_runner.py:53-75 | every loop message is a progress message with its stage's row; node updates emit one each, empty items none |
| Runner.StreamFromChunks | server/workflow_runner.py:89-119 | the streamed content consists of `content_chunk` messages only |
| Runner.CompleteOnceAndLast | server/workflow_runner.py:121-125 | exactly one `complete` message, the last, carrying `final_state` |
| Runner.ItemMessagesOfNode | server/workflow_runner.py:58-73 | a node update emits its progress message |
| Runner.LoopOfNodeUpdates | server/workflow_runner.py:53-75 | on node updates, the loop emits one message per item, in order |
| Runner.GraphOrderMessages | server/workflow_runner.py:53-125 | for a stream in graph order: five progress messages with each node's row and state, the announcement exactly when the last state has key points, then `complete` with that state |
| Runner.WorkflowMessages | server/workflow_runner.py:53-125 | the same for the workflow's own stream and its final state |
| Runner.RunnerProgressNotMonotonic | server/workflow_runner.py:42-85 | the reported progress is 15, 30, 60, 75, 95, then 80 when content is streamed: it falls after the quiz |
| Runner.LoopProgressValues | server/workflow_runner.py:58-63 | the loop reports exactly the values the t.py progress bar takes for the same stream |
| Runner.ContentProgress | server/workflow_runner.py:78-85 | the streaming part reports the single value 80, and only when content is streamed |
| Runner.EmittedProgress | server/workflow_runner.py:78-125 | after the loop, only the announcement reports a progress value |
| Runner.RegroupPoint | server/workflow_runner.py:94-119 | a reader regrouping chunks by terminator gets a point's chunks back as one block |
| Runner.Blocks | server/workflow_runner.py:89 | one block per point from the given index on, in order |
| Runner.RegroupStream | server/workflow_runner.py:89-119 | reading the content back yields every point's chunks, in order, each closed by its own terminator: no interleaving |
| Runner.DescriptionDefaults | server/workflow_runner.py:89-99 | each content request carries the point's description, or `""` when none was recorded, and the final state's topic |
| Roadmap.ContextLine | server/roadmap_generator.py:82 | the line `Phase k: title` plus a newline, with `""` for a missing title |
| Roadmap.TotalPhases | server/roadmap_generator.py:68 | `metadata.get("totalPhases", 5)` |
| Roadmap.PhaseObjects | server/roadmap_generator.py:66-88 | the objects of the phase loop once some phases are done: the next phase is requested with its number and the context so far, up to `totalPhases`, and the first raise ends the stream with one error object |
| Roadmap.RoadmapObjects | server/roadmap_generator.py:59-88 | the metadata object, then the phase objects; only the error object when the metadata call raises |
| Roadmap.ContextOf | server/roadmap_generator.py:69-82 | `previous_context` after the phases done so far: one `Phase k: title` line each, numbered from 1 (no contract; ContextOfSnoc states its step, StreamRoadmapPhases keeps it as the loop invariant) |
| Roadmap.ContextOfSnoc | server/roadmap_generator.py:82 | each phase appends `Phase n: title\n` to `previous_context` |
| Roadmap.Frame | server/roadmap_generator.py:64 | one printed chunk per object |
| Roadmap.FrameLines | server/roadmap_generator.py:79 | every chunk ends with a newline |
| Roadmap.StreamRoadmapPhases | server/roadmap_generator.py:59-88 | the generator yields exactly the framed roadmap objects, every chunk newline-terminated |
| Roadmap.EmittedPhasesPrefix | server/roadmap_generator.py:79 | the emitted phases are the leading phase lines, and what follows them is not a phase line |
| Roadmap.PhaseObjectsHead | server/roadmap_generator.py:71-79 | the next object is the reply to the next phase request: a phase followed by the rest, or the error that ends the stream |
| Roadmap.PhaseObjectsShape | server/roadmap_generator.py:71-88 | phase lines, possibly closed by one error line; without an error the phases run up to `totalPhases` |
| Roadmap.PhaseSuffix | server/roadmap_generator.py:71-82 | after its first j phases, the stream continues as the loop does from there |
| Roadmap.PhaseRequestAt | server/roadmap_generator.py:72-77 | phase j was requested with number j + 1 and the context lines of the phases before it |
| Roadmap.PhaseErrorAt | server/roadmap_generator.py:87-88 | a closing error is what the request for the next phase raised |
| Roadmap.RoadmapShape | server/roadmap_generator.py:59-88 | metadata first (or only the metadata error), then `max(0, totalPhases)` phases unless one raises, in which case a single error line ends the stream |
| Roadmap.RoadmapRequests | server/roadmap_generator.py:68-82 | every emitted phase answered the request numbered after it with the preceding context, and a closing error came from the next request |
| Roadmap.ConcatFrame | server/roadmap_generator.py:97-99 | printing the chunks and reading lines back gives the encodings, when they contain no newline |
| Roadmap.FramingRoundTrip | server/roadmap_generator.py:97-99 | a line reader of the printed stream gets back each object's JSON, one per line |
| Roadmap.PhaseNumberRendering | server/roadmap_generator.py:82 | a context line starts `Phase `, its number reads back as the phase number, and it ends with a newline |
| Roadmap.RunRoadmapScript | server/roadmap_generator.py:90-101 | without a topic: one error object and exit 1 (and only then); otherwise the stream printed unchanged and exit 0 |

## Left out

- The language-model chains, the Custom Search request, image downloads, vision analysis and `stream_content_for_point` are parameters. Their prompts, parsing and internal error handling are not modelled; their replies may be any value of the modelled record types.
- Runner.Emitted: the nodes `run_workflow` imports also print plain-text lines to the same output while the stream runs: `Search API error: {status}` (server/python_backend.py:120), `Image search error: {e}` (line 123) and `Download error for {url}: {e}` (line 137). They are not modelled, because they are not messages. All of them are printed inside the loop, before `complete`, so CompleteOnceAndLast still holds for the JSON lines.
- ImageProcessing.ImageProcessingSound: only the modelled failures are covered, and its "one error appended" holds only for them. In the source, a key point without `visual_description` raises `KeyError` at server/python_backend.py:413 (t.py:366). That happens after the downloads loop has changed the inner entry dicts, which the shallow copy at line 376 shares with the input state. The returned error state then still holds the downloaded images and their image objects, and `json.dumps` in server/workflow_runner.py:60 would then raise, so no `complete` message is sent. t.py's `KeyError('image')` (t.py:364, the `'image'` error of the model) has the same effect: it is raised after t.py's downloads loop (t.py:332-353) has written into the shared inner dicts. The source's error state therefore also carries those writes, whereas the model's `ErrorAppended` keeps the input's `images_data`. Key points are typed records with all five fields, and dicts have value semantics, so the model captures neither the missing field nor this partial update.
- Key points with a missing field raise `KeyError` in the source at several places (server/python_backend.py:333, 340, 405, 460; server/workflow_runner.py:90). They are not representable, because a key point always has its five fields.
- Runner.RunWorkflow: exceptions raised inside the runner's loops (server/workflow_runner.py:53-125) are not modelled, whether from `json.dumps` on a value it cannot encode or from the content streamer. The model always reaches the `complete` message.
- Roadmap.ContextLine: a phase whose `title` is JSON `null` renders as `Phase k: None` in the source. The model's `Option` title cannot tell `null` from an absent title, and renders both as `Phase k: `.
- Concurrency: `asyncio.gather` is modelled as its result list in task order. `asyncio.sleep` delays are dropped.
- Image decoding, thumbnailing and base64 encoding: a picture is an opaque handle.
- The shallow `images_data.copy()` in the image processing node shares the inner entry dicts with the incoming state. The model has value semantics, so that aliasing is not captured.
- JSON encoding and `flush=True`: `json.dumps` is the `encode` parameter of the roadmap, and the runner's messages stay unencoded values.
- Roadmap.RoadmapShape: a `totalPhases` that is not an integer, and a metadata or phase reply that is not a dict, both make the source raise inside its `try`. These are not modelled, because the replies are typed records here.
- LessonNodes.LessonPlanningNode: a planner reply that is not a dict raises in `lesson_plan.get` and is not modelled, for the same reason.
- Stream items: a stream item is an update of one of the graph's five nodes or an empty item. Updates under other keys are not representable; the compiled graph yields none.
- Workflow.StreamlitRun: the rendering between progress updates (overview, containers, download button, session state) and the exceptions it may raise are outside the model. Only the bar's values and the final state are stated.
- `run_workflow` in server/workflow_runner.py reads `LESSON_INPUT` from the environment; that variable and its missing-field errors are not modelled. The runner takes the stream as input, and Runner.WorkflowMessages relates it to the workflow from any initial state.
- The runner's `content` accumulator is never read and is not modelled.
- The FastAPI routes other than `generate_lesson`, the `__main__` server start-up and environment loading are not part of this model. The routes left out are the root route `/`, `/stream-content`, the roadmap route, `/health` and `test_workflow`.
- server/topic_content_generator.py and the TypeScript server that spawns these scripts and relays their output are not part of this model.
