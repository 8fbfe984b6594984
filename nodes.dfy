/** The workflow nodes other than image processing: lesson planning, image
    search (with the search API's result filtering), the content placeholder and
    quiz generation.  server/python_backend.py and t.py define them identically.
    Each node returns the state enriched, returns it unchanged, or returns it
    with exactly one error appended. */
module LessonNodes {
  import opened Common
  import opened Lesson

  // ---------------------------------------------------------------------------
  // Node 1: lesson planning
  // ---------------------------------------------------------------------------

  /** Everything except the three fields lesson planning sets agrees. */
  predicate AgreesOutsidePlan(s: LessonState, r: LessonState) {
    r.(lessonPlan := s.lessonPlan, keyPoints := s.keyPoints, currentProcessing := s.currentProcessing) == s
  }

  /** `lesson_planning_node`; `reply` is what the planner chain returned or
      the exception it raised. */
  function LessonPlanningNode(s: LessonState, reply: Result<LessonPlan>): (r: LessonState)
    ensures reply.Ok? ==>
      && r.lessonPlan == Some(reply.value)
      && r.keyPoints == reply.value.keyPoints.GetOr([])
      && r.currentProcessing == LessonPlanningComplete
      && AgreesOutsidePlan(s, r)
    ensures reply.Err? ==> ErrorAppended(s, r, "Lesson planning error: " + reply.error)
  {
    match reply
    case Ok(plan) =>
      s.(lessonPlan := Some(plan), keyPoints := plan.keyPoints.GetOr([]), currentProcessing := LessonPlanningComplete)
    case Err(e) =>
      s.(errors := s.errors + ["Lesson planning error: " + e])
  }

  // ---------------------------------------------------------------------------
  // AsyncImageProcessor.search_images: filtering the search API's reply
  // ---------------------------------------------------------------------------

  /** One element of the reply's `items`; `link` may be missing. */
  datatype SearchItem = SearchItem(link: Option<string>)

  /** What the Custom Search request produced: an HTTP status with the JSON
      body's `items` (possibly absent), or an exception (network error, a body
      that is not JSON). */
  datatype SearchReply = HttpReply(status: int, items: Option<seq<SearchItem>>) | RequestFailed(error: string)

  /** `[item.get("link", "") for item in items if item.get("link")]`. */
  function ImageLinks(items: seq<SearchItem>): seq<string>
    decreases |items|
  {
    if |items| == 0 then []
    else
      var head := if items[0].link.Some? && items[0].link.value != "" then [items[0].link.value] else [];
      head + ImageLinks(items[1..])
  }

  /** `search_images`: the non-empty links of a status-200 reply, and `[]` on
      any other status or on an exception. */
  function SearchImages(reply: SearchReply): (links: seq<string>)
    ensures reply.RequestFailed? ==> links == []
    ensures reply.HttpReply? && reply.status != 200 ==> links == []
    ensures reply.HttpReply? && reply.status == 200 ==> links == ImageLinks(reply.items.GetOr([]))
    ensures forall i :: 0 <= i < |links| ==> links[i] != ""
  {
    match reply
    case RequestFailed(_) => []
    case HttpReply(status, items) =>
      if status == 200 then
        var links := ImageLinks(items.GetOr([]));
        ImageLinksSound(items.GetOr([]));
        assert forall i :: 0 <= i < |links| ==> links[i] in links;
        links
      else []
  }

  /** A link is kept exactly when some item carries it and it is not empty,
      and never more links than items. */
  lemma {:induction false} ImageLinksSound(items: seq<SearchItem>)
    ensures |ImageLinks(items)| <= |items|
    ensures forall l :: l in ImageLinks(items) <==>
      l != "" && exists i :: 0 <= i < |items| && items[i].link == Some(l)
    decreases |items|
  {
    if |items| > 0 {
      ImageLinksSound(items[1..]);
      forall l | l != "" && (exists i :: 0 <= i < |items| && items[i].link == Some(l))
        ensures l in ImageLinks(items)
      {
        var i :| 0 <= i < |items| && items[i].link == Some(l);
        if i > 0 {
          assert items[1..][i - 1].link == Some(l);
        }
      }
      forall l | l in ImageLinks(items)
        ensures exists i :: 0 <= i < |items| && items[i].link == Some(l)
      {
        if l !in ImageLinks(items[1..]) {
          assert items[0].link == Some(l);
        } else {
          var i :| 0 <= i < |items[1..]| && items[1..][i].link == Some(l);
          assert items[i + 1].link == Some(l);
        }
      }
    }
  }

  /** The filter keeps the items' order: the links of two consecutive runs of
      items are the links of the first run followed by those of the second,
      and a single item contributes its link exactly when it is non-empty.
      So the links are the kept items' links in item order, which decides
      the two URLs the processing node downloads. */
  lemma {:induction false} ImageLinksAppend(a: seq<SearchItem>, b: seq<SearchItem>)
    ensures ImageLinks(a + b) == ImageLinks(a) + ImageLinks(b)
    ensures ImageLinks([SearchItem(None)]) == [] && ImageLinks([SearchItem(Some(""))]) == []
    ensures forall l :: l != "" ==> ImageLinks([SearchItem(Some(l))]) == [l]
    decreases |a|
  {
    if |a| > 0 {
      assert (a + b)[1..] == a[1..] + b;
      ImageLinksAppend(a[1..], b);
    } else {
      assert a + b == b;
    }
    forall l | l != "" ensures ImageLinks([SearchItem(Some(l))]) == [l] {
      assert [SearchItem(Some(l))][1..] == [];
    }
    assert [SearchItem(None)][1..] == [];
    assert [SearchItem(Some(""))][1..] == [];
  }

  // ---------------------------------------------------------------------------
  // Node 2: image search
  // ---------------------------------------------------------------------------

  /** An element of the list `asyncio.gather(..., return_exceptions=True)`
      returns for the searches: the links, or the exception the task raised. */
  datatype SearchOutcome = Links(urls: seq<string>) | SearchRaised(error: string)

  /** The fresh `images_data` entry for a point whose search succeeded. */
  function SearchEntry(urls: seq<string>): ImageInfo {
    ImageInfo(urls, [], None)
  }

  /** The gathered searches, in task order: one per key point, for its
      `search_query`; `search(i, q)` is the outcome of the i-th task. */
  function GatherSearches(points: seq<KeyPoint>, search: (nat, string) -> SearchOutcome): (results: seq<SearchOutcome>)
    ensures |results| == |points|
  {
    seq(|points|, i requires 0 <= i < |points| => search(i, points[i].searchQuery))
  }

  /** The loop that appends one search task per key point, followed by the
      gather: the outcomes in task order. */
  method SearchTasks(points: seq<KeyPoint>, search: (nat, string) -> SearchOutcome) returns (results: seq<SearchOutcome>)
    ensures results == GatherSearches(points, search)
  {
    results := [];
    for i := 0 to |points|
      invariant results == GatherSearches(points, search)[..i]
    {
      assert GatherSearches(points, search)[..i + 1] == GatherSearches(points, search)[..i] + [search(i, points[i].searchQuery)];
      results := results + [search(i, points[i].searchQuery)];
    }
    assert GatherSearches(points, search)[..|points|] == GatherSearches(points, search);
  }

  /** `images_data` after the loop over the first `n` key points. */
  function SearchedImages(points: seq<KeyPoint>, results: seq<SearchOutcome>, n: nat): Dict<ImageInfo>
    requires n <= |points|
    decreases n
  {
    if n == 0 then []
    else
      var d := SearchedImages(points, results, n - 1);
      var i := n - 1;
      if i < |results| && results[i].Links? then Put(d, points[i].pointTitle, SearchEntry(results[i].urls)) else d
  }

  /** Point `i` is one whose search returned links. */
  predicate Searched(points: seq<KeyPoint>, results: seq<SearchOutcome>, i: int) {
    0 <= i < |points| && i < |results| && results[i].Links?
  }

  /** The loop keeps the keys of `images_data` distinct. */
  lemma {:induction false} SearchedDistinct(points: seq<KeyPoint>, results: seq<SearchOutcome>, n: nat)
    requires n <= |points|
    ensures DistinctKeys(SearchedImages(points, results, n))
    decreases n
  {
    if n > 0 {
      SearchedDistinct(points, results, n - 1);
      if Searched(points, results, n - 1) {
        PutDistinct(SearchedImages(points, results, n - 1), points[n - 1].pointTitle, SearchEntry(results[n - 1].urls));
      }
    }
  }

  /** The keys are exactly the titles of the points whose search did not
      raise. */
  lemma {:induction false} SearchedKeys(points: seq<KeyPoint>, results: seq<SearchOutcome>, n: nat)
    requires n <= |points|
    ensures forall k :: k in Keys(SearchedImages(points, results, n)) <==>
      exists i :: 0 <= i < n && Searched(points, results, i) && points[i].pointTitle == k
    decreases n
  {
    if n > 0 {
      var i := n - 1;
      var d := SearchedImages(points, results, i);
      SearchedKeys(points, results, i);
      if Searched(points, results, i) {
        var t := points[i].pointTitle;
        PutKeys(d, t, SearchEntry(results[i].urls));
        forall k ensures k in Keys(SearchedImages(points, results, n)) <==>
          exists j :: 0 <= j < n && Searched(points, results, j) && points[j].pointTitle == k
        {
          if k == t {
            assert Searched(points, results, i) && points[i].pointTitle == k;
          }
        }
      }
    }
  }

  /** The last searched point with title `k` among the first `n` is `i`. */
  predicate LastSearched(points: seq<KeyPoint>, results: seq<SearchOutcome>, n: nat, i: int, k: string) {
    && 0 <= i < n && Searched(points, results, i) && points[i].pointTitle == k
    && forall j :: i < j < n && Searched(points, results, j) ==> points[j].pointTitle != k
  }

  /** Each entry holds the links of the search of the LAST searched point
      with its title (a later `images_data[title] = ...` overwrites an
      earlier one), no images and no best image. */
  lemma {:induction false} SearchedValues(points: seq<KeyPoint>, results: seq<SearchOutcome>, n: nat)
    requires n <= |points|
    ensures forall k :: Get(SearchedImages(points, results, n), k).Some? ==>
      exists i :: LastSearched(points, results, n, i, k) &&
        Get(SearchedImages(points, results, n), k) == Some(SearchEntry(results[i].urls))
    decreases n
  {
    if n > 0 {
      var i := n - 1;
      var d := SearchedImages(points, results, i);
      SearchedValues(points, results, i);
      if Searched(points, results, i) {
        var t := points[i].pointTitle;
        var e := SearchEntry(results[i].urls);
        forall k | Get(Put(d, t, e), k).Some? ensures
          exists j :: LastSearched(points, results, n, j, k) &&
            Get(Put(d, t, e), k) == Some(SearchEntry(results[j].urls))
        {
          PutGet(d, t, e, k);
          if k == t {
            assert LastSearched(points, results, n, i, k);
          } else {
            var j :| LastSearched(points, results, i, j, k) && Get(d, k) == Some(SearchEntry(results[j].urls));
            assert LastSearched(points, results, n, j, k);
          }
        }
      } else {
        forall k | Get(d, k).Some? ensures
          exists j :: LastSearched(points, results, n, j, k) && Get(d, k) == Some(SearchEntry(results[j].urls))
        {
          var j :| LastSearched(points, results, i, j, k) && Get(d, k) == Some(SearchEntry(results[j].urls));
          assert LastSearched(points, results, n, j, k);
        }
      }
    }
  }

  /** The keys are distinct and are exactly the titles of the points whose
      search did not raise; each entry holds the links of the last such
      point's search, no images and no best image. */
  lemma SearchedImagesSound(points: seq<KeyPoint>, results: seq<SearchOutcome>, n: nat)
    requires n <= |points|
    ensures DistinctKeys(SearchedImages(points, results, n))
    ensures forall k :: k in Keys(SearchedImages(points, results, n)) <==>
      exists i :: 0 <= i < n && Searched(points, results, i) && points[i].pointTitle == k
    ensures forall k :: Get(SearchedImages(points, results, n), k).Some? ==>
      exists i :: LastSearched(points, results, n, i, k) &&
        Get(SearchedImages(points, results, n), k) == Some(SearchEntry(results[i].urls))
  {
    SearchedDistinct(points, results, n);
    SearchedKeys(points, results, n);
    SearchedValues(points, results, n);
  }

  /** `image_search_node` as a function of its state and oracles: unchanged
      without key points; one error when the node raises (`failure`);
      otherwise `images_data` replaced and the stage recorded. */
  function ImageSearchResult(s: LessonState, failure: Option<string>, search: (nat, string) -> SearchOutcome): LessonState {
    if |s.keyPoints| == 0 then s
    else if failure.Some? then s.(errors := s.errors + ["Image search error: " + failure.value])
    else
      var results := GatherSearches(s.keyPoints, search);
      s.(imagesData := SearchedImages(s.keyPoints, results, |s.keyPoints|), currentProcessing := ImageSearchComplete)
  }

  /** `image_search_node`: gathers one search per key point, then fills a
      fresh `images_data` in a loop over the points. */
  method ImageSearchNode(s: LessonState, failure: Option<string>, search: (nat, string) -> SearchOutcome)
    returns (r: LessonState)
    ensures r == ImageSearchResult(s, failure, search)
  {
    if |s.keyPoints| == 0 {
      return s;
    }
    if failure.Some? {
      return s.(errors := s.errors + ["Image search error: " + failure.value]);
    }
    var searchResults := SearchTasks(s.keyPoints, search);
    var imagesData: Dict<ImageInfo> := [];
    var i := 0;
    while i < |s.keyPoints|
      invariant 0 <= i <= |s.keyPoints|
      invariant imagesData == SearchedImages(s.keyPoints, searchResults, i)
    {
      if i < |searchResults| && searchResults[i].Links? {
        imagesData := Put(imagesData, s.keyPoints[i].pointTitle, SearchEntry(searchResults[i].urls));
      }
      i := i + 1;
    }
    r := s.(imagesData := imagesData, currentProcessing := ImageSearchComplete);
  }

  /** What the search node promises: without key points the state is
      unchanged; on a raise exactly one error is appended; otherwise the new
      keys are exactly the titles whose search did not raise, each with
      `{urls: result, images: [], best_image: None}` for the last point with
      that title, and only `images_data`
      and `current_processing` change. */
  lemma ImageSearchSound(s: LessonState, failure: Option<string>, search: (nat, string) -> SearchOutcome)
    ensures var r := ImageSearchResult(s, failure, search);
      && (|s.keyPoints| == 0 ==> r == s)
      && (|s.keyPoints| > 0 && failure.Some? ==> ErrorAppended(s, r, "Image search error: " + failure.value))
      && (|s.keyPoints| > 0 && failure.None? ==>
        var results := GatherSearches(s.keyPoints, search);
        && r == s.(imagesData := r.imagesData, currentProcessing := ImageSearchComplete)
        && DistinctKeys(r.imagesData)
        && (forall k :: k in Keys(r.imagesData) <==>
             exists i :: 0 <= i < |s.keyPoints| && results[i].Links? && s.keyPoints[i].pointTitle == k)
        && (forall k :: Get(r.imagesData, k).Some? ==>
             exists i :: LastSearched(s.keyPoints, results, |s.keyPoints|, i, k) &&
               Get(r.imagesData, k) == Some(SearchEntry(results[i].urls))))
  {
    if |s.keyPoints| > 0 && failure.None? {
      var results := GatherSearches(s.keyPoints, search);
      SearchedImagesSound(s.keyPoints, results, |s.keyPoints|);
    }
  }

  /** `search_images` catches every exception, so when each task's outcome is
      the filtered reply, every key point's title becomes a key and every
      stored URL is non-empty. */
  lemma SearchWithFilteredReplies(s: LessonState, replies: (nat, string) -> SearchReply)
    requires |s.keyPoints| > 0
    ensures var r := ImageSearchResult(s, None, (i: nat, q: string) => Links(SearchImages(replies(i, q))));
      && (forall i :: 0 <= i < |s.keyPoints| ==> s.keyPoints[i].pointTitle in Keys(r.imagesData))
      && (forall k :: Get(r.imagesData, k).Some? ==>
            forall j :: 0 <= j < |Get(r.imagesData, k).value.urls| ==> Get(r.imagesData, k).value.urls[j] != "")
  {
    var search := (i: nat, q: string) => Links(SearchImages(replies(i, q)));
    var results := GatherSearches(s.keyPoints, search);
    SearchedImagesSound(s.keyPoints, results, |s.keyPoints|);
    var r := ImageSearchResult(s, None, search);
    forall i | 0 <= i < |s.keyPoints| ensures s.keyPoints[i].pointTitle in Keys(r.imagesData) {
      assert Searched(s.keyPoints, results, i);
    }
    forall k | Get(r.imagesData, k).Some?
      ensures forall j :: 0 <= j < |Get(r.imagesData, k).value.urls| ==> Get(r.imagesData, k).value.urls[j] != ""
    {
      var i :| LastSearched(s.keyPoints, results, |s.keyPoints|, i, k) &&
        Get(r.imagesData, k) == Some(SearchEntry(results[i].urls));
      assert results[i].urls == SearchImages(replies(i, s.keyPoints[i].searchQuery));
    }
  }

  // ---------------------------------------------------------------------------
  // Node 4: content generation placeholder
  // ---------------------------------------------------------------------------

  /** `content_generation_node`: records the stage and changes nothing else;
      the content itself is streamed after the workflow. */
  function ContentGenerationNode(s: LessonState): (r: LessonState)
    ensures r.currentProcessing == ContentGenerationComplete
    ensures r.(currentProcessing := s.currentProcessing) == s
  {
    s.(currentProcessing := ContentGenerationComplete)
  }

  // ---------------------------------------------------------------------------
  // Node 5: quiz generation
  // ---------------------------------------------------------------------------

  /** The quiz chain's input. */
  datatype QuizRequest = QuizRequest(topic: string, keyPoints: string)

  /** `", ".join(point["point_title"] for point in key_points)`. */
  function KeyPointsText(points: seq<KeyPoint>): string {
    Join(", ", Titles(points))
  }

  /** The quiz input lists every title once, separated by `", "`: its length
      is the titles' total plus two characters per separator, and a further
      point extends it by `", "` and that point's title. */
  lemma KeyPointsTextShape(points: seq<KeyPoint>, p: KeyPoint)
    requires |points| > 0
    ensures |KeyPointsText(points)| == TotalLength(Titles(points)) + 2 * (|points| - 1)
    ensures KeyPointsText(points + [p]) == KeyPointsText(points) + ", " + p.pointTitle
  {
    JoinLength(", ", Titles(points));
    assert Titles(points + [p]) == Titles(points) + [p.pointTitle];
    JoinSnoc(", ", Titles(points), p.pointTitle);
  }

  /** `quiz_generation_node`; `chain` is the quiz chain, from its input to the
      quiz text or the exception it raised. */
  function QuizGenerationNode(s: LessonState, chain: QuizRequest -> Result<string>): (r: LessonState)
    ensures |s.keyPoints| == 0 ==> r == s
    ensures |s.keyPoints| > 0 ==>
      var reply := chain(QuizRequest(s.topic, KeyPointsText(s.keyPoints)));
      && (reply.Ok? ==> r.quiz == Some(reply.value) && r.currentProcessing == QuizComplete &&
                        r.(quiz := s.quiz, currentProcessing := s.currentProcessing) == s)
      && (reply.Err? ==> ErrorAppended(s, r, "Quiz generation error: " + reply.error))
  {
    if |s.keyPoints| == 0 then s
    else
      match chain(QuizRequest(s.topic, KeyPointsText(s.keyPoints)))
      case Ok(quiz) => s.(quiz := Some(quiz), currentProcessing := QuizComplete)
      case Err(e) => s.(errors := s.errors + ["Quiz generation error: " + e])
  }
}
