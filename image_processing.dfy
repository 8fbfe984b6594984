/** `image_processing_node` (node 3), in both copies: server/python_backend.py
    and t.py.  It downloads at most two URLs per point, records every successful
    download and makes the first one the point's `best_image`, sends each best
    image to the vision model and keeps the non-empty descriptions.  The server
    copy afterwards strips the image objects from the best images; the t.py copy
    keeps them, also in `images`. */
module ImageProcessing {
  import opened Common
  import opened Lesson

  /** Which copy of the node: server/python_backend.py or t.py. */
  datatype Variant = Server | Streamlit

  /** The fixed score every successful download gets. */
  const ImageScore := 85
  /** `urls[:2]`: at most this many URLs of a point are downloaded. */
  const UrlsPerPoint := 2

  /** `url_to_point[i]`: the point title and URL of the i-th download task. */
  type Task = (string, string)

  // ---------------------------------------------------------------------------
  // Download tasks
  // ---------------------------------------------------------------------------

  /** `urls[:2]`. */
  function FirstUrls(urls: seq<string>): (r: seq<string>)
    ensures |r| == if |urls| < UrlsPerPoint then |urls| else UrlsPerPoint
    ensures r == urls[..|r|]
  {
    if |urls| <= UrlsPerPoint then urls else urls[..UrlsPerPoint]
  }

  /** The tasks of one point, in URL order. */
  function PointTasks(title: string, urls: seq<string>): (ts: seq<Task>)
    ensures |ts| == |FirstUrls(urls)|
    ensures forall j :: 0 <= j < |ts| ==> ts[j] == (title, FirstUrls(urls)[j])
  {
    var first := FirstUrls(urls);
    seq(|first|, j requires 0 <= j < |first| => (title, first[j]))
  }

  /** All download tasks, point after point in `images_data` iteration order. */
  function DownloadTasks(d: Dict<ImageInfo>): (ts: seq<Task>)
    ensures |ts| <= UrlsPerPoint * |d|
    decreases |d|
  {
    if |d| == 0 then []
    else DownloadTasks(d[..|d| - 1]) + PointTasks(d[|d| - 1].0, d[|d| - 1].1.urls)
  }

  /** The URLs the tasks download, in task order. */
  function TaskUrls(tasks: seq<Task>): (urls: seq<string>)
    ensures |urls| == |tasks|
  {
    seq(|tasks|, k requires 0 <= k < |tasks| => tasks[k].1)
  }

  /** `url_to_point` once every task is registered. */
  function TaskIndex(tasks: seq<Task>): map<nat, Task> {
    map k: nat | k < |tasks| :: tasks[k]
  }

  lemma TaskIndexSnoc(tasks: seq<Task>, t: Task)
    ensures TaskIndex(tasks + [t]) == TaskIndex(tasks)[|tasks| := t]
  {
  }

  lemma TaskUrlsSnoc(tasks: seq<Task>, t: Task)
    ensures TaskUrls(tasks + [t]) == TaskUrls(tasks) + [t.1]
  {
    assert forall k :: 0 <= k < |tasks| ==> (tasks + [t])[k] == tasks[k];
  }

  lemma DownloadTasksSnoc(d: Dict<ImageInfo>, i: nat)
    requires i < |d|
    ensures DownloadTasks(d[..i + 1]) == DownloadTasks(d[..i]) + PointTasks(d[i].0, d[i].1.urls)
  {
    assert d[..i + 1][..i] == d[..i];
  }

  lemma PointTasksStep(title: string, urls: seq<string>, j: nat)
    requires j < |FirstUrls(urls)|
    ensures PointTasks(title, urls)[..j + 1] == PointTasks(title, urls)[..j] + [(title, FirstUrls(urls)[j])]
  {
  }

  /** The loop that fills `processing_tasks` and `url_to_point`: task `i`
      downloads `urls[i]`, and `url_to_point[i]` is the title and URL of the
      i-th task. */
  method BuildTasks(d: Dict<ImageInfo>) returns (urls: seq<string>, urlToPoint: map<nat, Task>)
    ensures urls == TaskUrls(DownloadTasks(d))
    ensures urlToPoint == TaskIndex(DownloadTasks(d))
  {
    urls, urlToPoint := [], map[];
    ghost var done: seq<Task> := [];
    var i := 0;
    while i < |d|
      invariant 0 <= i <= |d|
      invariant done == DownloadTasks(d[..i])
      invariant urls == TaskUrls(done)
      invariant urlToPoint == TaskIndex(done)
    {
      var (title, info) := d[i];
      var first := FirstUrls(info.urls);
      var j := 0;
      while j < |first|
        invariant 0 <= j <= |first|
        invariant done == DownloadTasks(d[..i]) + PointTasks(title, info.urls)[..j]
        invariant urls == TaskUrls(done)
        invariant urlToPoint == TaskIndex(done)
      {
        TaskIndexSnoc(done, (title, first[j]));
        TaskUrlsSnoc(done, (title, first[j]));
        PointTasksStep(title, info.urls, j);
        done := done + [(title, first[j])];
        urls := urls + [first[j]];
        urlToPoint := urlToPoint[|urls| - 1 := (title, first[j])];
        j := j + 1;
      }
      assert PointTasks(title, info.urls)[..j] == PointTasks(title, info.urls);
      DownloadTasksSnoc(d, i);
      i := i + 1;
    }
    assert d[..i] == d;
  }

  /** The URLs that the tasks download for `title`, in task order. */
  function UrlsFor(title: string, tasks: seq<Task>): seq<string>
    decreases |tasks|
  {
    if |tasks| == 0 then []
    else UrlsFor(title, tasks[..|tasks| - 1]) + (if tasks[|tasks| - 1].0 == title then [tasks[|tasks| - 1].1] else [])
  }

  lemma {:induction false} UrlsForAppend(title: string, a: seq<Task>, b: seq<Task>)
    ensures UrlsFor(title, a + b) == UrlsFor(title, a) + UrlsFor(title, b)
    decreases |b|
  {
    if |b| > 0 {
      assert (a + b)[..|a + b| - 1] == a + b[..|b| - 1];
      UrlsForAppend(title, a, b[..|b| - 1]);
    } else {
      assert a + b == a;
    }
  }

  lemma {:induction false} UrlsForPoint(title: string, t: string, urls: seq<string>, n: nat)
    requires n <= |FirstUrls(urls)|
    ensures UrlsFor(title, PointTasks(t, urls)[..n]) == if title == t then FirstUrls(urls)[..n] else []
    decreases n
  {
    if n > 0 {
      var ts := PointTasks(t, urls);
      assert ts[..n][..n - 1] == ts[..n - 1];
      UrlsForPoint(title, t, urls, n - 1);
      if title == t {
        assert FirstUrls(urls)[..n] == FirstUrls(urls)[..n - 1] + [FirstUrls(urls)[n - 1]];
      }
    }
  }

  lemma {:induction false} GetSnoc<V>(d: Dict<V>, k: string, v: V, t: string)
    ensures Get(d + [(k, v)], t) == if Get(d, t).Some? then Get(d, t) else if k == t then Some(v) else None
    decreases |d|
  {
    if |d| > 0 {
      assert (d + [(k, v)])[1..] == d[1..] + [(k, v)];
      GetSnoc(d[1..], k, v, t);
    }
  }

  /** For every point, the tasks download exactly the first (at most two)
      URLs of that point, in URL order; a title that is not a key gets none. */
  lemma {:induction false} DownloadTasksPerPoint(d: Dict<ImageInfo>, title: string)
    requires DistinctKeys(d)
    ensures UrlsFor(title, DownloadTasks(d)) == match Get(d, title) case None => [] case Some(info) => FirstUrls(info.urls)
    decreases |d|
  {
    if |d| > 0 {
      var init, last := d[..|d| - 1], d[|d| - 1];
      assert d == init + [last];
      assert DistinctKeys(init);
      DownloadTasksPerPoint(init, title);
      UrlsForAppend(title, DownloadTasks(init), PointTasks(last.0, last.1.urls));
      UrlsForPoint(title, last.0, last.1.urls, |FirstUrls(last.1.urls)|);
      assert PointTasks(last.0, last.1.urls)[..|FirstUrls(last.1.urls)|] == PointTasks(last.0, last.1.urls);
      GetSnoc(init, last.0, last.1, title);
      if last.0 == title {
        GetFound(init, title);
        assert title !in Keys(init) by {
          forall i | 0 <= i < |init| ensures Keys(init)[i] != title {
            assert d[i].0 != d[|d| - 1].0;
          }
        }
      }
    }
  }

  // ---------------------------------------------------------------------------
  // Recording the downloads
  // ---------------------------------------------------------------------------

  /** The gathered downloads, in task order: `download(k, url)` is what the
      k-th task produced, `None` for a failed download or an exception. */
  function GatherDownloads(urls: seq<string>, download: (nat, string) -> Option<Picture>): (r: seq<Option<Picture>>)
    ensures |r| == |urls|
  {
    seq(|urls|, k requires 0 <= k < |urls| => download(k, urls[k]))
  }

  /** The entry appended to `images`: `{url, score}` on the server, also the
      image object in t.py. */
  function Record(v: Variant, url: string, pic: Picture): ImageRecord {
    match v
    case Server => ImageRecord(url, ImageScore, None)
    case Streamlit => ImageRecord(url, ImageScore, Some(pic))
  }

  /** A `best_image`: both copies attach the image object. */
  function BestRecord(url: string, pic: Picture): ImageRecord {
    ImageRecord(url, ImageScore, Some(pic))
  }

  /** One successful download recorded in the point's entry. */
  function WithDownload(v: Variant, info: ImageInfo, url: string, pic: Picture): ImageInfo {
    info.(images := info.images + [Record(v, url, pic)],
          bestImage := if info.bestImage.Some? then info.bestImage else Some(BestRecord(url, pic)))
  }

  /** The download at index `k` succeeded and belongs to a task of `title`. */
  predicate Succeeds(urlToPoint: map<nat, Task>, downloaded: seq<Option<Picture>>, k: int, title: string) {
    0 <= k < |downloaded| && k in urlToPoint && downloaded[k].Some? && urlToPoint[k].0 == title
  }

  /** `updated_images_data` after the loop over the first `n` downloads. */
  function AfterDownloads(v: Variant, d: Dict<ImageInfo>, urlToPoint: map<nat, Task>,
                          downloaded: seq<Option<Picture>>, n: nat): Dict<ImageInfo>
    requires n <= |downloaded|
    decreases n
  {
    if n == 0 then d
    else
      var prev := AfterDownloads(v, d, urlToPoint, downloaded, n - 1);
      var k := n - 1;
      if k in urlToPoint && downloaded[k].Some? then
        var title := urlToPoint[k].0;
        match Get(prev, title)
        case None => prev
        case Some(info) => Put(prev, title, WithDownload(v, info, urlToPoint[k].1, downloaded[k].value))
      else prev
  }

  /** The loop over the gathered downloads that appends to `images` and sets
      the first `best_image`. */
  method ApplyDownloads(v: Variant, d: Dict<ImageInfo>, urlToPoint: map<nat, Task>, downloaded: seq<Option<Picture>>)
    returns (updated: Dict<ImageInfo>)
    ensures updated == AfterDownloads(v, d, urlToPoint, downloaded, |downloaded|)
  {
    updated := d;
    var idx := 0;
    while idx < |downloaded|
      invariant 0 <= idx <= |downloaded|
      invariant updated == AfterDownloads(v, d, urlToPoint, downloaded, idx)
    {
      var img := downloaded[idx];
      if idx in urlToPoint && img.Some? {
        var (title, url) := urlToPoint[idx];
        var found := Get(updated, title);
        if found.Some? {
          var info := found.value;
          info := info.(images := info.images + [Record(v, url, img.value)]);
          if info.bestImage.None? {
            info := info.(bestImage := Some(BestRecord(url, img.value)));
          }
          updated := Put(updated, title, info);
        }
      }
      idx := idx + 1;
    }
  }

  /** The records of the successful downloads of `title` among the first `n`,
      in task order. */
  function Successes(v: Variant, title: string, urlToPoint: map<nat, Task>, downloaded: seq<Option<Picture>>, n: nat): seq<ImageRecord>
    requires n <= |downloaded|
    decreases n
  {
    if n == 0 then []
    else
      var earlier := Successes(v, title, urlToPoint, downloaded, n - 1);
      if Succeeds(urlToPoint, downloaded, n - 1, title) then earlier + [Record(v, urlToPoint[n - 1].1, downloaded[n - 1].value)]
      else earlier
  }

  /** The best-image record of the first successful download of `title`
      among the first `n`, if there is one. */
  function FirstSuccess(title: string, urlToPoint: map<nat, Task>, downloaded: seq<Option<Picture>>, n: nat): Option<ImageRecord>
    requires n <= |downloaded|
    decreases n
  {
    if n == 0 then None
    else
      var earlier := FirstSuccess(title, urlToPoint, downloaded, n - 1);
      if earlier.Some? then earlier
      else if Succeeds(urlToPoint, downloaded, n - 1, title) then Some(BestRecord(urlToPoint[n - 1].1, downloaded[n - 1].value))
      else None
  }

  /** `FirstSuccess` is the download with the smallest index: none exactly
      when no download of `title` succeeded; otherwise the earliest success. */
  lemma {:induction false} FirstSuccessIsEarliest(title: string, urlToPoint: map<nat, Task>, downloaded: seq<Option<Picture>>, n: nat)
    requires n <= |downloaded|
    ensures FirstSuccess(title, urlToPoint, downloaded, n).None? <==>
      forall k :: 0 <= k < n ==> !Succeeds(urlToPoint, downloaded, k, title)
    ensures forall k :: (0 <= k < n && Succeeds(urlToPoint, downloaded, k, title) &&
                         (forall j :: 0 <= j < k ==> !Succeeds(urlToPoint, downloaded, j, title))) ==>
        FirstSuccess(title, urlToPoint, downloaded, n) == Some(BestRecord(urlToPoint[k].1, downloaded[k].value))
    decreases n
  {
    if n > 0 {
      FirstSuccessIsEarliest(title, urlToPoint, downloaded, n - 1);
    }
  }

  /** Every record a download adds has the fixed score and a successful
      task's URL, and carries the image object exactly in t.py. */
  lemma {:induction false} SuccessesShape(v: Variant, title: string, urlToPoint: map<nat, Task>, downloaded: seq<Option<Picture>>, n: nat)
    requires n <= |downloaded|
    ensures forall r :: r in Successes(v, title, urlToPoint, downloaded, n) ==>
      && r.score == ImageScore
      && (r.picture.Some? <==> v.Streamlit?)
      && exists k :: 0 <= k < n && Succeeds(urlToPoint, downloaded, k, title) && r.url == urlToPoint[k].1
    decreases n
  {
    if n > 0 {
      SuccessesShape(v, title, urlToPoint, downloaded, n - 1);
    }
  }

  /** The downloads loop keeps the keys and their order; each entry gains the
      records of its successful downloads in task order, and a point that had
      no best image gets the first successful one.  Failed downloads leave no
      trace. */
  lemma {:induction false} AfterDownloadsSound(v: Variant, d: Dict<ImageInfo>, urlToPoint: map<nat, Task>,
                                               downloaded: seq<Option<Picture>>, n: nat, title: string)
    requires n <= |downloaded|
    ensures Keys(AfterDownloads(v, d, urlToPoint, downloaded, n)) == Keys(d)
    ensures Get(d, title).None? ==> Get(AfterDownloads(v, d, urlToPoint, downloaded, n), title).None?
    ensures Get(d, title).Some? ==>
      var info := Get(d, title).value;
      Get(AfterDownloads(v, d, urlToPoint, downloaded, n), title) ==
        Some(info.(images := info.images + Successes(v, title, urlToPoint, downloaded, n),
                   bestImage := if info.bestImage.Some? then info.bestImage else FirstSuccess(title, urlToPoint, downloaded, n)))
    decreases n
  {
    if n > 0 {
      var k := n - 1;
      var prev := AfterDownloads(v, d, urlToPoint, downloaded, k);
      AfterDownloadsSound(v, d, urlToPoint, downloaded, k, title);
      if !Succeeds(urlToPoint, downloaded, k, title) {
        assert Successes(v, title, urlToPoint, downloaded, n) == Successes(v, title, urlToPoint, downloaded, k);
        assert FirstSuccess(title, urlToPoint, downloaded, n) == FirstSuccess(title, urlToPoint, downloaded, k);
      }
      if k in urlToPoint && downloaded[k].Some? {
        var t := urlToPoint[k].0;
        AfterDownloadsSound(v, d, urlToPoint, downloaded, k, t);
        var found := Get(prev, t);
        if found.Some? {
          var info' := WithDownload(v, found.value, urlToPoint[k].1, downloaded[k].value);
          GetFound(prev, t);
          PutKeys(prev, t, info');
          PutGet(prev, t, info', title);
          if t == title {
            var info := Get(d, title).value;
            assert Succeeds(urlToPoint, downloaded, k, title);
            assert Successes(v, title, urlToPoint, downloaded, n) ==
              Successes(v, title, urlToPoint, downloaded, k) + [Record(v, urlToPoint[k].1, downloaded[k].value)];
            assert info'.images == info.images + Successes(v, title, urlToPoint, downloaded, n);
            assert info'.bestImage == if info.bestImage.Some? then info.bestImage else FirstSuccess(title, urlToPoint, downloaded, n);
            assert Get(AfterDownloads(v, d, urlToPoint, downloaded, n), title) == Some(info');
          } else {
            assert !Succeeds(urlToPoint, downloaded, k, title);
            assert AfterDownloads(v, d, urlToPoint, downloaded, n) == Put(prev, t, info');
            assert Get(AfterDownloads(v, d, urlToPoint, downloaded, n), title) == Get(prev, title);
          }
        } else {
          assert t == title ==> Get(d, title).None?;
          assert t != title ==> !Succeeds(urlToPoint, downloaded, k, title);
          assert AfterDownloads(v, d, urlToPoint, downloaded, n) == prev;
        }
      } else {
        assert !Succeeds(urlToPoint, downloaded, k, title);
        assert AfterDownloads(v, d, urlToPoint, downloaded, n) == prev;
      }
    } else if Get(d, title).Some? {
      assert Get(d, title).value.images + [] == Get(d, title).value.images;
    }
  }

  // ---------------------------------------------------------------------------
  // Vision analysis and descriptions
  // ---------------------------------------------------------------------------

  /** What a vision task returned: its text (possibly an error text, since
      `analyze_image_with_vision` catches exceptions), non-string content, or
      an exception that escaped. */
  datatype AnalysisReply = Description(text: string) | OtherContent | AnalysisRaised(error: string)

  /** The arguments of `analyze_image_with_vision`. */
  datatype VisionRequest = VisionRequest(picture: Picture, pointTitle: string, visualDescription: string)

  /** `updated_images_data[title]["best_image"]` when the title is a key. */
  function BestImage(d: Dict<ImageInfo>, title: string): Option<ImageRecord> {
    match Get(d, title)
    case None => None
    case Some(info) => info.bestImage
  }

  /** The point gets a vision task rather than the `asyncio.sleep(0)`
      placeholder: it has a best image, which on the server must also still
      carry its image object. */
  predicate Analysable(v: Variant, d: Dict<ImageInfo>, title: string) {
    BestImage(d, title).Some? && (v.Server? ==> BestImage(d, title).value.picture.Some?)
  }

  /** t.py reads `best_image["image"]` unguarded: a best image without an
      image object raises `KeyError('image')`. */
  predicate MissingPicture(v: Variant, points: seq<KeyPoint>, d: Dict<ImageInfo>) {
    v.Streamlit? && exists i :: 0 <= i < |points| && NoPictureAt(d, points[i].pointTitle)
  }

  predicate NoPictureAt(d: Dict<ImageInfo>, title: string) {
    BestImage(d, title).Some? && BestImage(d, title).value.picture.None?
  }

  /** The result of the i-th analysis task: the vision reply for an analysable
      point, `None` (non-string) for a placeholder. */
  function AnalysisTask(v: Variant, d: Dict<ImageInfo>, p: KeyPoint, i: nat, vision: (nat, VisionRequest) -> AnalysisReply): AnalysisReply {
    var best := BestImage(d, p.pointTitle);
    if Analysable(v, d, p.pointTitle) && best.value.picture.Some? then
      vision(i, VisionRequest(best.value.picture.value, p.pointTitle, p.visualDescription))
    else OtherContent
  }

  /** The gathered analysis results, one per key point in order. */
  function AnalysisResults(v: Variant, points: seq<KeyPoint>, d: Dict<ImageInfo>, vision: (nat, VisionRequest) -> AnalysisReply): (r: seq<AnalysisReply>)
    ensures |r| == |points|
  {
    seq(|points|, i requires 0 <= i < |points| => AnalysisTask(v, d, points[i], i, vision))
  }

  /** The loop that builds `analysis_tasks`, followed by the gather.  `raised`
      is t.py's `KeyError`. */
  method GatherAnalyses(v: Variant, points: seq<KeyPoint>, d: Dict<ImageInfo>, vision: (nat, VisionRequest) -> AnalysisReply)
    returns (raised: bool, results: seq<AnalysisReply>)
    ensures raised == MissingPicture(v, points, d)
    ensures !raised ==> results == AnalysisResults(v, points, d, vision)
  {
    results := [];
    var i := 0;
    while i < |points|
      invariant 0 <= i <= |points|
      invariant forall j :: 0 <= j < i ==> !(v.Streamlit? && NoPictureAt(d, points[j].pointTitle))
      invariant results == AnalysisResults(v, points, d, vision)[..i]
    {
      var title := points[i].pointTitle;
      var best := BestImage(d, title);
      if best.Some? && (v.Server? ==> best.value.picture.Some?) {
        if best.value.picture.None? {
          assert v.Streamlit? && NoPictureAt(d, points[i].pointTitle);
          return true, [];
        }
        results := results + [vision(i, VisionRequest(best.value.picture.value, title, points[i].visualDescription))];
      } else {
        results := results + [OtherContent];
      }
      assert AnalysisResults(v, points, d, vision)[..i + 1] == AnalysisResults(v, points, d, vision)[..i] + [AnalysisResults(v, points, d, vision)[i]];
      i := i + 1;
    }
    assert AnalysisResults(v, points, d, vision)[..i] == AnalysisResults(v, points, d, vision);
    raised := false;
  }

  /** `analyzed_descriptions` after the loop over the first `n` points: the
      non-empty string results, keyed by point title. */
  function Descriptions(points: seq<KeyPoint>, results: seq<AnalysisReply>, n: nat): map<string, string>
    requires n <= |points|
    decreases n
  {
    if n == 0 then map[]
    else
      var m := Descriptions(points, results, n - 1);
      var i := n - 1;
      if i < |results| && results[i].Description? && results[i].text != "" then m[points[i].pointTitle := results[i].text] else m
  }

  /** The loop that fills `analyzed_descriptions`. */
  method CollectDescriptions(points: seq<KeyPoint>, results: seq<AnalysisReply>) returns (m: map<string, string>)
    ensures m == Descriptions(points, results, |points|)
  {
    m := map[];
    var i := 0;
    while i < |points|
      invariant 0 <= i <= |points|
      invariant m == Descriptions(points, results, i)
    {
      if i < |results| && results[i].Description? && results[i].text != "" {
        m := m[points[i].pointTitle := results[i].text];
      }
      i := i + 1;
    }
  }

  /** Every recorded description is a non-empty text some point's task
      returned under that point's title. */
  lemma {:induction false} DescriptionsSound(points: seq<KeyPoint>, results: seq<AnalysisReply>, n: nat)
    requires n <= |points|
    ensures forall t :: t in Descriptions(points, results, n) ==>
      Descriptions(points, results, n)[t] != "" &&
      exists i :: 0 <= i < n && i < |results| && points[i].pointTitle == t &&
        results[i] == Description(Descriptions(points, results, n)[t])
    decreases n
  {
    if n > 0 {
      DescriptionsSound(points, results, n - 1);
    }
  }

  /** The i-th analysis task returned a non-empty text, which the loop records. */
  predicate Recorded(results: seq<AnalysisReply>, i: int) {
    0 <= i < |results| && results[i].Description? && results[i].text != ""
  }

  /** Point i is the last of the first n whose text is recorded under its title. */
  predicate LastRecorded(points: seq<KeyPoint>, results: seq<AnalysisReply>, n: nat, i: int) {
    && i < n <= |points| && Recorded(results, i)
    && forall j :: i < j < n && Recorded(results, j) ==> points[j].pointTitle != points[i].pointTitle
  }

  /** Conversely, every non-empty text is recorded under its point's title, and
      the last point with that title wins. */
  lemma {:induction false} DescriptionsComplete(points: seq<KeyPoint>, results: seq<AnalysisReply>, n: nat, i: nat)
    requires n <= |points| && i < n && Recorded(results, i)
    ensures points[i].pointTitle in Descriptions(points, results, n)
    ensures LastRecorded(points, results, n, i) ==> Descriptions(points, results, n)[points[i].pointTitle] == results[i].text
    decreases n
  {
    if n - 1 > i {
      DescriptionsComplete(points, results, n - 1, i);
      if LastRecorded(points, results, n, i) {
        assert LastRecorded(points, results, n - 1, i);
      }
    }
  }

  // ---------------------------------------------------------------------------
  // Removing the image objects (server copy only)
  // ---------------------------------------------------------------------------

  /** `best_image.pop("image", None)` on one entry. */
  function StripInfo(info: ImageInfo): ImageInfo {
    if info.bestImage.Some? then info.(bestImage := Some(info.bestImage.value.(picture := None))) else info
  }

  /** Every entry with its best image's image object removed. */
  function Stripped(d: Dict<ImageInfo>): (r: Dict<ImageInfo>)
    ensures |r| == |d|
  {
    seq(|d|, i requires 0 <= i < |d| => (d[i].0, StripInfo(d[i].1)))
  }

  /** The loop over `updated_images_data` that pops `"image"`. */
  method StripPictures(d: Dict<ImageInfo>) returns (r: Dict<ImageInfo>)
    ensures r == Stripped(d)
  {
    r := d;
    var i := 0;
    while i < |r|
      invariant 0 <= i <= |r| == |d|
      invariant forall j :: 0 <= j < i ==> r[j] == (d[j].0, StripInfo(d[j].1))
      invariant forall j :: i <= j < |r| ==> r[j] == d[j]
    {
      r := r[i := (r[i].0, StripInfo(r[i].1))];
      i := i + 1;
    }
  }

  /** Stripping keeps the keys and looks up as the stripped entry. */
  lemma {:induction false} StrippedGet(d: Dict<ImageInfo>, title: string)
    ensures Keys(Stripped(d)) == Keys(d)
    ensures Get(Stripped(d), title) == match Get(d, title) case None => None case Some(info) => Some(StripInfo(info))
    decreases |d|
  {
    if |d| > 0 {
      assert Stripped(d)[1..] == Stripped(d[1..]);
      StrippedGet(d[1..], title);
    }
  }

  // ---------------------------------------------------------------------------
  // The node
  // ---------------------------------------------------------------------------

  /** `updated_images_data` once every gathered download is recorded. */
  function ProcessedImages(v: Variant, d: Dict<ImageInfo>, download: (nat, string) -> Option<Picture>): Dict<ImageInfo> {
    var tasks := DownloadTasks(d);
    var downloaded := GatherDownloads(TaskUrls(tasks), download);
    AfterDownloads(v, d, TaskIndex(tasks), downloaded, |downloaded|)
  }

  /** `image_processing_node` as a function of its state and oracles: unchanged
      without `images_data`; one error when the node raises (`failure`, or
      t.py's `KeyError`); otherwise `images_data`, `analyzed_descriptions` and
      the stage replaced. */
  function ImageProcessingResult(v: Variant, s: LessonState, failure: Option<string>,
                                 download: (nat, string) -> Option<Picture>,
                                 vision: (nat, VisionRequest) -> AnalysisReply): LessonState {
    if |s.imagesData| == 0 then s
    else if failure.Some? then s.(errors := s.errors + ["Image processing error: " + failure.value])
    else
      var updated := ProcessedImages(v, s.imagesData, download);
      if MissingPicture(v, s.keyPoints, updated) then s.(errors := s.errors + ["Image processing error: 'image'"])
      else
        var results := AnalysisResults(v, s.keyPoints, updated, vision);
        s.(imagesData := if v.Server? then Stripped(updated) else updated,
           analyzedDescriptions := Descriptions(s.keyPoints, results, |s.keyPoints|),
           currentProcessing := ImageProcessingComplete)
  }

  /** `image_processing_node`, step by step as the source runs it. */
  method ImageProcessingNode(v: Variant, s: LessonState, failure: Option<string>,
                             download: (nat, string) -> Option<Picture>,
                             vision: (nat, VisionRequest) -> AnalysisReply)
    returns (r: LessonState)
    ensures r == ImageProcessingResult(v, s, failure, download, vision)
  {
    if |s.imagesData| == 0 {
      return s;
    }
    if failure.Some? {
      return s.(errors := s.errors + ["Image processing error: " + failure.value]);
    }
    var urls, urlToPoint := BuildTasks(s.imagesData);
    var downloaded := GatherDownloads(urls, download);
    var updated := ApplyDownloads(v, s.imagesData, urlToPoint, downloaded);
    var raised, results := GatherAnalyses(v, s.keyPoints, updated, vision);
    if raised {
      return s.(errors := s.errors + ["Image processing error: 'image'"]);
    }
    var descriptions := CollectDescriptions(s.keyPoints, results);
    if v.Server? {
      updated := StripPictures(updated);
    }
    r := s.(imagesData := updated, analyzedDescriptions := descriptions, currentProcessing := ImageProcessingComplete);
  }

  /** What the node promises when it completes: the keys of `images_data`
      are kept; every description is non-empty and belongs to a point that
      has a best image; on the server no best image still holds an image
      object; nothing else but the stage changes. */
  lemma ImageProcessingSound(v: Variant, s: LessonState, failure: Option<string>,
                             download: (nat, string) -> Option<Picture>,
                             vision: (nat, VisionRequest) -> AnalysisReply)
    ensures var r := ImageProcessingResult(v, s, failure, download, vision);
      && (|s.imagesData| == 0 ==> r == s)
      && (|s.imagesData| > 0 && failure.Some? ==> ErrorAppended(s, r, "Image processing error: " + failure.value))
      && (|s.imagesData| > 0 && failure.None? && MissingPicture(v, s.keyPoints, ProcessedImages(v, s.imagesData, download)) ==>
            ErrorAppended(s, r, "Image processing error: 'image'"))
      && (r.currentProcessing != ImageProcessingComplete ==> r == s || ErrorAppended(s, r, r.errors[|r.errors| - 1]))
      && (|s.imagesData| > 0 && failure.None? && !MissingPicture(v, s.keyPoints, ProcessedImages(v, s.imagesData, download)) ==>
        && r == s.(imagesData := r.imagesData, analyzedDescriptions := r.analyzedDescriptions, currentProcessing := ImageProcessingComplete)
        && Keys(r.imagesData) == Keys(s.imagesData)
        && (forall t :: t in r.analyzedDescriptions ==> r.analyzedDescriptions[t] != "" && BestImage(r.imagesData, t).Some?)
        && (var results := AnalysisResults(v, s.keyPoints, ProcessedImages(v, s.imagesData, download), vision);
            forall i :: 0 <= i < |s.keyPoints| && Recorded(results, i) ==>
              && s.keyPoints[i].pointTitle in r.analyzedDescriptions
              && (LastRecorded(s.keyPoints, results, |s.keyPoints|, i) ==> r.analyzedDescriptions[s.keyPoints[i].pointTitle] == results[i].text))
        && (v.Server? ==> forall i :: 0 <= i < |r.imagesData| && r.imagesData[i].1.bestImage.Some? ==>
                            r.imagesData[i].1.bestImage.value.picture.None?))
  {
    var r := ImageProcessingResult(v, s, failure, download, vision);
    if |s.imagesData| > 0 && failure.None? {
      var tasks := DownloadTasks(s.imagesData);
      var downloaded := GatherDownloads(TaskUrls(tasks), download);
      var updated := ProcessedImages(v, s.imagesData, download);
      AfterDownloadsSound(v, s.imagesData, TaskIndex(tasks), downloaded, |downloaded|, "");
      if !MissingPicture(v, s.keyPoints, updated) {
        var results := AnalysisResults(v, s.keyPoints, updated, vision);
        DescriptionsSound(s.keyPoints, results, |s.keyPoints|);
        StrippedGet(updated, "");
        forall t | t in r.analyzedDescriptions
          ensures r.analyzedDescriptions[t] != "" && BestImage(r.imagesData, t).Some?
        {
          var i :| 0 <= i < |s.keyPoints| && s.keyPoints[i].pointTitle == t && results[i] == Description(r.analyzedDescriptions[t]);
          assert Analysable(v, updated, t);
          StrippedGet(updated, t);
        }
        forall i | 0 <= i < |s.keyPoints| && Recorded(results, i)
          ensures s.keyPoints[i].pointTitle in r.analyzedDescriptions
          ensures LastRecorded(s.keyPoints, results, |s.keyPoints|, i) ==> r.analyzedDescriptions[s.keyPoints[i].pointTitle] == results[i].text
        {
          DescriptionsComplete(s.keyPoints, results, |s.keyPoints|, i);
        }
      }
    }
  }

  /** The first successful download of a point becomes its best image.  A
      point that had no best image has none afterwards exactly when none of its
      downloads succeeded; otherwise its best image is the earliest successful
      task's URL with score 85, with the image object in t.py and without it on
      the server.  Every success is in `images`, in task order. */
  lemma BestImageIsFirstDownload(v: Variant, s: LessonState, download: (nat, string) -> Option<Picture>,
                                 vision: (nat, VisionRequest) -> AnalysisReply, title: string)
    requires |s.imagesData| > 0
    requires Get(s.imagesData, title).Some? && Get(s.imagesData, title).value.bestImage.None?
    requires !MissingPicture(v, s.keyPoints, ProcessedImages(v, s.imagesData, download))
    ensures var r := ImageProcessingResult(v, s, None, download, vision);
      var tasks := DownloadTasks(s.imagesData);
      var downloaded := GatherDownloads(TaskUrls(tasks), download);
      var index := TaskIndex(tasks);
      && Get(r.imagesData, title).Some?
      && Get(r.imagesData, title).value.images ==
           Get(s.imagesData, title).value.images + Successes(v, title, index, downloaded, |downloaded|)
      && ((forall k :: 0 <= k < |downloaded| ==> !Succeeds(index, downloaded, k, title)) <==>
            Get(r.imagesData, title).value.bestImage.None?)
      && (forall k :: (0 <= k < |downloaded| && Succeeds(index, downloaded, k, title) &&
                       (forall j :: 0 <= j < k ==> !Succeeds(index, downloaded, j, title))) ==>
              Get(r.imagesData, title).value.bestImage ==
                Some(ImageRecord(tasks[k].1, ImageScore, if v.Server? then None else downloaded[k])))
  {
    var tasks := DownloadTasks(s.imagesData);
    var downloaded := GatherDownloads(TaskUrls(tasks), download);
    var index := TaskIndex(tasks);
    var updated := ProcessedImages(v, s.imagesData, download);
    AfterDownloadsSound(v, s.imagesData, index, downloaded, |downloaded|, title);
    FirstSuccessIsEarliest(title, index, downloaded, |downloaded|);
    StrippedGet(updated, title);
  }

  /** Downloads only ever attach image objects to the best images they set,
      so a state whose entries have no best image yet (as the search node
      leaves them) never reaches t.py's `KeyError`. */
  lemma FreshEntriesHavePictures(v: Variant, s: LessonState, download: (nat, string) -> Option<Picture>)
    requires forall i :: 0 <= i < |s.imagesData| ==> s.imagesData[i].1.bestImage.None?
    ensures !MissingPicture(v, s.keyPoints, ProcessedImages(v, s.imagesData, download))
  {
    var tasks := DownloadTasks(s.imagesData);
    var downloaded := GatherDownloads(TaskUrls(tasks), download);
    var index := TaskIndex(tasks);
    var updated := ProcessedImages(v, s.imagesData, download);
    forall t ensures !NoPictureAt(updated, t) {
      AfterDownloadsSound(v, s.imagesData, index, downloaded, |downloaded|, t);
      if Get(s.imagesData, t).Some? {
        GetFound(s.imagesData, t);
        FirstInfoHasNoBest(s.imagesData, t);
        FirstSuccessHasPicture(t, index, downloaded, |downloaded|);
      }
    }
  }

  lemma {:induction false} FirstInfoHasNoBest(d: Dict<ImageInfo>, t: string)
    requires forall i :: 0 <= i < |d| ==> d[i].1.bestImage.None?
    requires Get(d, t).Some?
    ensures Get(d, t).value.bestImage.None?
    decreases |d|
  {
    if d[0].0 != t {
      FirstInfoHasNoBest(d[1..], t);
    }
  }

  lemma {:induction false} FirstSuccessHasPicture(title: string, urlToPoint: map<nat, Task>, downloaded: seq<Option<Picture>>, n: nat)
    requires n <= |downloaded|
    ensures FirstSuccess(title, urlToPoint, downloaded, n).Some? ==> FirstSuccess(title, urlToPoint, downloaded, n).value.picture.Some?
    decreases n
  {
    if n > 0 {
      FirstSuccessHasPicture(title, urlToPoint, downloaded, n - 1);
    }
  }
}
