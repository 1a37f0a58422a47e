/**
 * The browser-facing half of the downloader (src/comic.rs): reading the
 * catalog into chapters, scrolling a chapter until every page has loaded,
 * collecting its image sources, checking them against the declared page
 * count, and expanding one chapter batch into numbered image jobs.
 *
 * Every WebDriver call is replaced by its result, passed in as an oracle
 * value (a page reading, an attribute that is present or absent).
 */
module Comic {
  import opened Wrappers
  import opened Format

  // ---------------------------------------------------------------------------
  // Data model

  /** A file-system path as its list of components; `join` appends one. */
  type Path = seq<string>

  function Join(p: Path, name: string): Path {
    p + [name]
  }

  /** The directory part of a path that has a file name. */
  function Parent(p: Path): Path
    requires p != []
  {
    p[..|p| - 1]
  }

  function FileNameOf(p: Path): string
    requires p != []
  {
    p[|p| - 1]
  }

  /** A parsed URL, reduced to the parts the downloader touches. */
  datatype Url = Url(scheme: string, host: string, path: string, query: string)

  /** `Url::set_path`: replaces the path and keeps every other part. */
  function SetPath(u: Url, path: string): (r: Url)
    ensures r.path == path
    ensures r.scheme == u.scheme && r.host == u.host && r.query == u.query
  {
    u.(path := path)
  }

  /** One chapter's batch: its ordered image URLs and the directory for them. */
  datatype Messages = Messages(imagesUrl: seq<string>, savePath: Path)

  /** One image job: where to fetch from and which file to write. */
  datatype Message = Message(imageUrl: string, savePath: Path)

  datatype ChapterInfo = ChapterInfo(chapterName: string, chapterUrl: Url)

  /** The catalog once read; the browser handle it also owns is not modelled. */
  datatype ComicInfo = ComicInfo(comicName: string, items: seq<ChapterInfo>)

  // ---------------------------------------------------------------------------
  // Flattening one chapter batch into image jobs

  /** `format!("{n:05}.png")`: at least five digits, then the extension. */
  function ImageFileName(n: nat): (name: string)
    ensures |name| >= 9 && name[|name| - 4..] == ".png"
  {
    var stem := ZeroPad(n, 5);
    assert (stem + ".png")[|stem|..] == ".png";
    stem + ".png"
  }

  /** Reads the number back out of an image file name; `None` if it is not `<digits>.png`. */
  function ParseImageFileName(name: string): Option<nat> {
    if |name| > 4 && name[|name| - 4..] == ".png" && AllDigits(name[..|name| - 4])
    then Some(Value(name[..|name| - 4]))
    else None
  }

  lemma ImageFileNameRoundTrip(n: nat)
    ensures ParseImageFileName(ImageFileName(n)) == Some(n)
  {
    var stem := ZeroPad(n, 5);
    var name := ImageFileName(n);
    ValueOfZeroPad(n, 5);
    assert name[..|name| - 4] == stem;
  }

  lemma ImageFileNameInjective(a: nat, b: nat)
    requires ImageFileName(a) == ImageFileName(b)
    ensures a == b
  {
    ImageFileNameRoundTrip(a);
    ImageFileNameRoundTrip(b);
  }

  /** Image numbers below 100000 give file names that sort in page order. */
  lemma ImageFileNamesSorted(a: nat, b: nat)
    requires a < b < 100000
    ensures LexLess(ImageFileName(a), ImageFileName(b))
  {
    assert Pow10(5) == 100000;
    ZeroPadOrdered(a, b, 5);
    ZeroPadLength(a, 5);
    ZeroPadLength(b, 5);
    LexLessAppend(ZeroPad(a, 5), ZeroPad(b, 5), ".png");
  }

  /** From 100000 on the width is only a minimum: page 100000 sorts before page 99999. */
  lemma ImageFileNamesUnsortedPastWidth()
    ensures LexLess(ImageFileName(100000), ImageFileName(99999))
  {
    assert Digits(100000) == "100000" by {
      assert Digits(10) == "10";
      assert Digits(100) == "100";
      assert Digits(1000) == "1000";
      assert Digits(10000) == "10000";
    }
    assert Digits(99999) == "99999" by {
      assert Digits(99) == "99";
      assert Digits(999) == "999";
      assert Digits(9999) == "9999";
    }
    assert ImageFileName(100000) == "100000.png";
    assert ImageFileName(99999) == "99999.png";
  }

  /** The job the k-th (0-based) URL of a batch becomes. */
  function JobAt(batch: Messages, k: nat): Message
    requires k < |batch.imagesUrl|
  {
    Message(batch.imagesUrl[k], Join(batch.savePath, ImageFileName(k + 1)))
  }

  /** The jobs of one batch, as `Messages::flatten_message` produces them. */
  function Flattened(batch: Messages): seq<Message> {
    seq(|batch.imagesUrl|, k requires 0 <= k < |batch.imagesUrl| => JobAt(batch, k))
  }

  /**
   * `Messages::flatten_message`: one job per URL, in URL order; the k-th job
   * keeps the k-th URL and writes `savePath/{k+1:05}.png`.
   */
  method FlattenMessage(batch: Messages) returns (jobs: seq<Message>)
    ensures |jobs| == |batch.imagesUrl|
    ensures forall k | 0 <= k < |jobs| ::
      jobs[k].imageUrl == batch.imagesUrl[k] &&
      jobs[k].savePath == Join(batch.savePath, ImageFileName(k + 1))
    ensures jobs == Flattened(batch)
  {
    jobs := [];
    var n := 1;
    for i := 0 to |batch.imagesUrl|
      invariant n == i + 1
      invariant jobs == Flattened(batch)[..i]
    {
      jobs := jobs + [Message(batch.imagesUrl[i], Join(batch.savePath, ImageFileName(n)))];
      n := n + 1;
    }
  }

  /** Every job lands in the batch directory, and its file name reads back as its 1-based position. */
  lemma FlattenedNumbering(batch: Messages, k: nat)
    requires k < |Flattened(batch)|
    ensures Parent(Flattened(batch)[k].savePath) == batch.savePath
    ensures ParseImageFileName(FileNameOf(Flattened(batch)[k].savePath)) == Some(k + 1)
  {
    ImageFileNameRoundTrip(k + 1);
  }

  /** No two jobs of a batch write the same file. */
  lemma FlattenedPathsDistinct(batch: Messages, i: nat, j: nat)
    requires i < |Flattened(batch)| && j < |Flattened(batch)| && i != j
    ensures Flattened(batch)[i].savePath != Flattened(batch)[j].savePath
  {
    if Flattened(batch)[i].savePath == Flattened(batch)[j].savePath {
      assert ImageFileName(i + 1) == FileNameOf(Flattened(batch)[i].savePath);
      ImageFileNameInjective(i + 1, j + 1);
    }
  }

  /** For chapters of fewer than 100000 pages, file-name order is page order. */
  lemma FlattenedNamesSorted(batch: Messages, i: nat, j: nat)
    requires i < j < |Flattened(batch)| && |batch.imagesUrl| < 100000
    ensures LexLess(FileNameOf(Flattened(batch)[i].savePath), FileNameOf(Flattened(batch)[j].savePath))
  {
    ImageFileNamesSorted(i + 1, j + 1);
  }

  // ---------------------------------------------------------------------------
  // Catalog page: comic title and chapter list

  /** One chapter anchor; an attribute the page does not carry is `None`. */
  datatype Anchor = Anchor(href: Option<string>, title: Option<string>)

  /**
   * What the browser reads on the catalog page: whether it loaded, the title
   * heading (absent if the title element is missing) and the anchors of the
   * chapter list (absent if the list container is missing).
   */
  datatype CatalogPage = CatalogPage(loads: bool, title: Option<string>, anchors: Option<seq<Anchor>>)

  datatype CatalogError = CatalogNavigationError | CatalogElementMissing | AnchorAttributeMissing

  predicate AnchorComplete(a: Anchor) {
    a.href.Some? && a.title.Some?
  }

  /**
   * `ComicDriver::process_page`: one chapter per anchor, in anchor order. The
   * one mutable URL has its path replaced by each anchor's `href`, so every
   * chapter URL is the catalog URL with only the path changed. A missing
   * `href` or `title` makes its `unwrap` panic; the model reports that as
   * `AnchorAttributeMissing`.
   */
  method ProcessCatalog(catalogUrl: Url, page: CatalogPage) returns (r: Result<ComicInfo, CatalogError>)
    ensures !page.loads ==> r == Failure(CatalogNavigationError)
    ensures page.loads && (page.title.None? || page.anchors.None?) ==> r == Failure(CatalogElementMissing)
    ensures r.Success? <==>
      page.loads && page.title.Some? && page.anchors.Some? &&
      forall i | 0 <= i < |page.anchors.value| :: AnchorComplete(page.anchors.value[i])
    ensures r.Failure? && page.loads && page.title.Some? && page.anchors.Some? ==>
      r.error == AnchorAttributeMissing
    ensures r.Success? ==>
      r.value.comicName == page.title.value &&
      |r.value.items| == |page.anchors.value| &&
      forall i | 0 <= i < |r.value.items| ::
        r.value.items[i].chapterName == page.anchors.value[i].title.value &&
        r.value.items[i].chapterUrl == catalogUrl.(path := page.anchors.value[i].href.value)
  {
    if !page.loads {
      return Failure(CatalogNavigationError);
    }
    var url := catalogUrl;
    if page.title.None? || page.anchors.None? {
      return Failure(CatalogElementMissing);
    }
    var name := page.title.value;
    var anchors := page.anchors.value;
    var items: seq<ChapterInfo> := [];
    for i := 0 to |anchors|
      invariant |items| == i
      invariant forall j | 0 <= j < i :: AnchorComplete(anchors[j])
      invariant forall j | 0 <= j < i ::
        items[j].chapterName == anchors[j].title.value &&
        items[j].chapterUrl == catalogUrl.(path := anchors[j].href.value)
      invariant url.scheme == catalogUrl.scheme && url.host == catalogUrl.host && url.query == catalogUrl.query
    {
      if anchors[i].href.None? {
        return Failure(AnchorAttributeMissing);
      }
      url := SetPath(url, anchors[i].href.value);
      if anchors[i].title.None? {
        return Failure(AnchorAttributeMissing);
      }
      items := items + [ChapterInfo(anchors[i].title.value, url)];
    }
    r := Success(ComicInfo(name, items));
  }

  // ---------------------------------------------------------------------------
  // Forcing a chapter to load every page

  /** How the scroll loop ends: with the declared page count, or never (the readings ran out first). */
  datatype ScrollOutcome = Reached(count: nat) | Stalled

  /** The scroll loop ends once some reading equals the declared count (at once if that is 0). */
  predicate ScrollCompletes(pageCount: nat, readings: seq<nat>) {
    pageCount == 0 || pageCount in readings
  }

  /**
   * `page_prepare`: starting from index 0, each round presses PageDown, reads
   * the page index from the next reading, and presses PageDown again, until
   * the index equals `pageCount`; it then returns `pageCount`. `rounds` is
   * the number of rounds run (two key presses each). When the readings run
   * out before a match the real loop would go on scrolling; the model reports
   * `Stalled`.
   */
  method PagePrepare(pageCount: nat, readings: seq<nat>) returns (outcome: ScrollOutcome, rounds: nat)
    ensures outcome.Reached? <==> ScrollCompletes(pageCount, readings)
    ensures outcome.Reached? ==> outcome.count == pageCount
    ensures rounds <= |readings|
    ensures forall j | 0 <= j < rounds - 1 :: readings[j] != pageCount
    ensures pageCount == 0 ==> rounds == 0
    ensures outcome.Reached? && pageCount != 0 ==> 0 < rounds && readings[rounds - 1] == pageCount
    ensures outcome.Stalled? ==> rounds == |readings|
  {
    var index := 0;
    rounds := 0;
    while index != pageCount
      invariant rounds <= |readings|
      invariant forall j | 0 <= j < rounds - 1 :: readings[j] != pageCount
      invariant rounds == 0 ==> index == 0
      invariant pageCount == 0 ==> rounds == 0
      invariant rounds > 0 ==> index == readings[rounds - 1]
      decreases |readings| - rounds
    {
      if rounds == |readings| {
        return Stalled, rounds;
      }
      index := readings[rounds];
      rounds := rounds + 1;
    }
    outcome := Reached(pageCount);
  }

  // ---------------------------------------------------------------------------
  // Collecting a chapter's image URLs

  datatype ScanError =
    | NavigationError
    | ScrollStalled
    | ImageSourceMissing
    | ConsistencyError(declared: nat, found: nat)

  predicate AllPresent(srcs: seq<Option<string>>) {
    forall j | 0 <= j < |srcs| :: srcs[j].Some?
  }

  function Present(srcs: seq<Option<string>>): seq<string>
    requires AllPresent(srcs)
  {
    seq(|srcs|, j requires 0 <= j < |srcs| => srcs[j].value)
  }

  /**
   * `get_image_list`: the `data-src` attribute of every image, in document
   * order; an image without one makes the `unwrap` panic.
   */
  method GetImageList(srcs: seq<Option<string>>) returns (r: Result<seq<string>, ScanError>)
    ensures r.Success? <==> AllPresent(srcs)
    ensures r.Success? ==> |r.value| == |srcs| && forall j | 0 <= j < |srcs| :: r.value[j] == srcs[j].value
    ensures r.Failure? ==> r.error == ImageSourceMissing
  {
    var ret: seq<string> := [];
    for j := 0 to |srcs|
      invariant |ret| == j
      invariant forall i | 0 <= i < j :: srcs[i].Some? && ret[i] == srcs[i].value
    {
      if srcs[j].None? {
        return Failure(ImageSourceMissing);
      }
      ret := ret + [srcs[j].value];
    }
    r := Success(ret);
  }

  // ---------------------------------------------------------------------------
  // Scanning the chapters in catalog order

  /**
   * What the browser shows for one chapter: whether it loaded, the declared
   * page count, the successive page-index readings while scrolling, and the
   * `data-src` attribute of each image afterwards.
   */
  datatype ChapterPage = ChapterPage(loads: bool, pageCount: nat, indexReadings: seq<nat>, imageSrcs: seq<Option<string>>)

  /** The result of scanning one chapter: its URLs, or why it stops the scan. */
  function ChapterResult(page: ChapterPage): (r: Result<seq<string>, ScanError>)
    ensures r.Success? ==> |r.value| == page.pageCount
  {
    if !page.loads then Failure(NavigationError)
    else if !ScrollCompletes(page.pageCount, page.indexReadings) then Failure(ScrollStalled)
    else if !AllPresent(page.imageSrcs) then Failure(ImageSourceMissing)
    else if page.pageCount != |page.imageSrcs| then Failure(ConsistencyError(page.pageCount, |page.imageSrcs|))
    else Success(Present(page.imageSrcs))
  }

  /** `root/comic_name/chapter_name`. */
  function ChapterDir(root: Path, comicName: string, info: ChapterInfo): Path {
    Join(Join(root, comicName), info.chapterName)
  }

  /**
   * What a scan of `info` under `root` reports, given one page reading per
   * chapter: the batches sent are those of the leading chapters that scanned
   * cleanly, each in its own directory and in catalog order; the scan ends
   * with `Pass` exactly when every chapter was sent, and otherwise with the
   * error of the first chapter that was not.
   */
  ghost predicate ScanReport(root: Path, info: ComicInfo, pages: seq<ChapterPage>, sent: seq<Messages>, outcome: Outcome<ScanError>)
    requires |pages| == |info.items|
  {
    |sent| <= |info.items| &&
    (forall i | 0 <= i < |sent| ::
      ChapterResult(pages[i]).Success? &&
      sent[i] == Messages(ChapterResult(pages[i]).value, ChapterDir(root, info.comicName, info.items[i]))) &&
    (outcome.Pass? <==> |sent| == |info.items|) &&
    (outcome.Fail? ==> ChapterResult(pages[|sent|]) == Failure(outcome.error))
  }

  /**
   * The tokio task that `ComicInfo::process_page` spawns: visit the chapters in catalog
   * order; for each, scroll it fully, collect its image URLs, abort the whole
   * task unless their number equals the declared page count, and otherwise
   * send the batch for `root/comic_name/chapter_name`.
   */
  method ScanChapters(root: Path, info: ComicInfo, pages: seq<ChapterPage>) returns (sent: seq<Messages>, outcome: Outcome<ScanError>)
    requires |pages| == |info.items|
    ensures ScanReport(root, info, pages, sent, outcome)
  {
    sent := [];
    for i := 0 to |info.items|
      invariant |sent| == i
      invariant forall j | 0 <= j < i ::
        ChapterResult(pages[j]).Success? &&
        sent[j] == Messages(ChapterResult(pages[j]).value, ChapterDir(root, info.comicName, info.items[j]))
    {
      var page := pages[i];
      if !page.loads {
        return sent, Fail(NavigationError);
      }
      var scroll, _ := PagePrepare(page.pageCount, page.indexReadings);
      if scroll.Stalled? {
        return sent, Fail(ScrollStalled);
      }
      var count := scroll.count;
      var images := GetImageList(page.imageSrcs);
      if images.Failure? {
        return sent, Fail(images.error);
      }
      if count != |images.value| {
        return sent, Fail(ConsistencyError(count, |images.value|));
      }
      var savePath := Join(Join(root, info.comicName), info.items[i].chapterName);
      sent := sent + [Messages(images.value, savePath)];
    }
    outcome := Pass;
  }

  /** Every batch the scan sends holds exactly the declared number of URLs. */
  lemma SentBatchesConsistent(root: Path, info: ComicInfo, pages: seq<ChapterPage>, sent: seq<Messages>, outcome: Outcome<ScanError>, i: nat)
    requires |pages| == |info.items| && ScanReport(root, info, pages, sent, outcome)
    requires i < |sent|
    ensures |sent[i].imagesUrl| == pages[i].pageCount
  {
  }

  /** A chapter whose image count differs from its declared count is never sent, nor is any chapter after it. */
  lemma MismatchStopsScan(root: Path, info: ComicInfo, pages: seq<ChapterPage>, sent: seq<Messages>, outcome: Outcome<ScanError>, c: nat)
    requires |pages| == |info.items| && ScanReport(root, info, pages, sent, outcome)
    requires c < |pages| && pages[c].loads && ScrollCompletes(pages[c].pageCount, pages[c].indexReadings)
    requires AllPresent(pages[c].imageSrcs) && pages[c].pageCount != |pages[c].imageSrcs|
    ensures |sent| <= c && outcome.Fail?
    ensures |sent| == c ==> outcome.error == ConsistencyError(pages[c].pageCount, |pages[c].imageSrcs|)
  {
  }
}
