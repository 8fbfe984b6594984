/** The lesson state that the LangGraph workflow threads through its five
    nodes (`LessonState` in server/python_backend.py and in t.py), the values it
    holds, and the stage names the nodes record in `current_processing`. */
module Lesson {
  import opened Common

  /** One entry of the lesson plan's `key_points` list. */
  datatype KeyPoint = KeyPoint(
    pointTitle: string,
    explanation: string,
    visualType: string,
    visualDescription: string,
    searchQuery: string)

  /** The lesson planner's JSON reply; `key_points` may be absent. */
  datatype LessonPlan = LessonPlan(overview: string, keyPoints: Option<seq<KeyPoint>>)

  /** A downloaded and thumbnailed image.  Only its identity matters here:
      decoding and resizing are not modelled. */
  datatype Picture = Picture(handle: nat)

  /** An entry of `images` or a `best_image`: `{url, score}` and, while the
      image object is attached, `image`. */
  datatype ImageRecord = ImageRecord(url: string, score: int, picture: Option<Picture>)

  /** `images_data[title]`: `{urls, images, best_image}`. */
  datatype ImageInfo = ImageInfo(urls: seq<string>, images: seq<ImageRecord>, bestImage: Option<ImageRecord>)

  datatype LessonState = LessonState(
    topic: string,
    ageGroup: string,
    knowledgeLevel: string,
    lessonPlan: Option<LessonPlan>,
    keyPoints: seq<KeyPoint>,
    imagesData: Dict<ImageInfo>,
    analyzedDescriptions: map<string, string>,
    contentData: map<string, string>,
    quiz: Option<string>,
    currentProcessing: string,
    completedPoints: seq<string>,
    errors: seq<string>)

  // Values of `current_processing`.
  const Initializing := "initializing"
  const LessonPlanningComplete := "lesson_planning_complete"
  const ImageSearchComplete := "image_search_complete"
  const ImageProcessingComplete := "image_processing_complete"
  const ContentGenerationComplete := "content_generation_complete"
  const QuizComplete := "quiz_complete"

  /** The `initial_state` literal every entry point starts the workflow from:
      the request's three fields, empty collections, no plan, no quiz. */
  function InitialState(topic: string, ageGroup: string, knowledgeLevel: string): (s: LessonState)
    ensures s.topic == topic && s.ageGroup == ageGroup && s.knowledgeLevel == knowledgeLevel
    ensures s.keyPoints == [] && s.imagesData == [] && s.completedPoints == [] && s.errors == []
    ensures s.analyzedDescriptions == map[] && s.contentData == map[]
    ensures s.lessonPlan.None? && s.quiz.None?
    ensures s.currentProcessing == Initializing
  {
    LessonState(topic, ageGroup, knowledgeLevel, None, [], [], map[], map[], None, Initializing, [], [])
  }

  /** The titles of some key points, in order. */
  function Titles(points: seq<KeyPoint>): (ts: seq<string>)
    ensures |ts| == |points|
    ensures forall i :: 0 <= i < |points| ==> ts[i] == points[i].pointTitle
  {
    seq(|points|, i requires 0 <= i < |points| => points[i].pointTitle)
  }

  /** `{**s, "errors": s["errors"] + [message]}`: one error appended, nothing
      else touched. */
  predicate ErrorAppended(s: LessonState, r: LessonState, message: string) {
    r == s.(errors := s.errors + [message])
  }

  /** The request that started the workflow is carried unchanged. */
  predicate SameRequest(s: LessonState, r: LessonState) {
    r.topic == s.topic && r.ageGroup == s.ageGroup && r.knowledgeLevel == s.knowledgeLevel
  }
}
