/**
 * `generateDataFrame` (TTScraper.py:266-305): the four extractors over every
 * fetched page, the bio-link lookup, the local URL, `errorHandling`, and the
 * selection of the `{"DNE"}` rows whose posts are deactivated.
 *
 * The bio-link scraper, the clock and the environment are parameters; the
 * deactivation requests and the upload are represented by the list of URLs
 * that would be deactivated.
 */
module Pipeline {
  import opened Wrappers
  import opened Json
  import opened Payload
  import opened Extractors
  import opened Reconcile

  /** One row of `self.links`: the post's database id, its URL and the page `getHTML` fetched. */
  datatype Post = Post(id: string, url: string, page: Page)

  /** `API_URL`, `API_KEY` and `TT_CREATOR_MAIN_PAGE` (None when unset). */
  datatype Config = Config(apiUrl: string, apiKey: string, mainPagePrefix: Option<string>)

  /** The post's address in the database (line 289). */
  function LocalUrl(cfg: Config, id: string): string {
    cfg.apiUrl + "posts/" + id + "?key=" + cfg.apiKey
  }

  /**
   * Line 285: `getLinkInBio` on the `creator_main_page` cell. A missing cell
   * (NaN) or one that is not a string makes the request inside it raise, and
   * its `except` returns "LinkInBioDNE".
   */
  function LinkOf(author: Dict, linkInBio: string -> string): string {
    match Lookup(author, "creator_main_page")
    case Some(JStr(u)) => linkInBio(u)
    case _ => LinkInBioDne
  }

  /** The row lines 276-292 build for one post. */
  function BuildRow(post: Post, cfg: Config, loads: string -> Option<Json>, linkInBio: string -> string,
                    now: string): Row
  {
    var author := AuthorInfo(post.page, loads, cfg.mainPagePrefix);
    Row(post.url, EngagementInfo(post.page, loads), author, VideoInfo(post.page, loads),
        CommentInfo(post.page, loads), LinkOf(author, linkInBio), post.id, LocalUrl(cfg, post.id), now)
  }

  /** The marker under `key` is "", "DNE" or `failed`, and "DNE" exactly for the sentinel. */
  predicate TokenOk(d: Dict, key: string, failed: string, sentinel: bool) {
    && Marker(d, key).Some?
    && (Marker(d, key).value == "" || Marker(d, key).value == Dne || Marker(d, key).value == failed)
    && (Marker(d, key).value == Dne <==> sentinel)
  }

  /** The four extractors leave well-formed markers. */
  lemma CategoryTokens(page: Page, loads: string -> Option<Json>, prefix: Option<string>)
    ensures TokenOk(EngagementInfo(page, loads), EngageMarker, EngageFailed, IsDneSentinel(page))
    ensures TokenOk(AuthorInfo(page, loads, prefix), CreatorMarker, CreatorFailed, IsDneSentinel(page))
    ensures TokenOk(VideoInfo(page, loads), VideoMarker, VideoFailed, IsDneSentinel(page))
    ensures TokenOk(CommentInfo(page, loads), CommentMarker, CommentFailed, IsDneSentinel(page))
  {
    EngagementMarker(page, loads);
    AuthorMarker(page, loads, prefix);
    VideoMarkerValue(page, loads);
    CommentMarkerValue(page, loads);
  }

  /**
   * The markers of a built row are extractor tokens, all four are "DNE"
   * exactly for the sentinel, and the sentinel's engagement dict has no
   * comment count to be zero.
   */
  lemma RowWellMarked(post: Post, cfg: Config, loads: string -> Option<Json>, linkInBio: string -> string,
                      now: string)
    ensures var row := BuildRow(post, cfg, loads, linkInBio, now);
      && WellMarked(row)
      && (forall i :: 0 <= i < 4 ==> (Tokens(row)[i] == Dne <==> IsDneSentinel(post.page)))
      && (IsDneSentinel(post.page) ==> !IsZero(Lookup(row.engage, "video_comment_count")))
  {
    CategoryTokens(post.page, loads, cfg.mainPagePrefix);
    if IsDneSentinel(post.page) {
      DneShortCircuit(post.page, loads, cfg.mainPagePrefix);
      assert |"video_comment_count"| != |EngageMarker|;
    }
    MarkedFromTokens(BuildRow(post, cfg, loads, linkInBio, now), IsDneSentinel(post.page));
  }

  /** A row whose four markers are well formed is well marked, with "DNE" in all four or none. */
  lemma MarkedFromTokens(row: Row, sentinel: bool)
    requires TokenOk(row.engage, EngageMarker, EngageFailed, sentinel)
    requires TokenOk(row.author, CreatorMarker, CreatorFailed, sentinel)
    requires TokenOk(row.video, VideoMarker, VideoFailed, sentinel)
    requires TokenOk(row.comment, CommentMarker, CommentFailed, sentinel)
    ensures WellMarked(row)
    ensures forall i :: 0 <= i < 4 ==> (Tokens(row)[i] == Dne <==> sentinel)
  {
  }

  /** What the run records for one post. */
  function RecordOf(post: Post, cfg: Config, loads: string -> Option<Json>, linkInBio: string -> string,
                    now: string): Record
  {
    RowWellMarked(post, cfg, loads, linkInBio, now);
    ReconcileRow(BuildRow(post, cfg, loads, linkInBio, now))
  }

  /** The records of a batch, in the order of its posts. */
  function Records(posts: seq<Post>, cfg: Config, loads: string -> Option<Json>, linkInBio: string -> string,
                   now: string): (rs: seq<Record>)
    ensures |rs| == |posts|
  {
    seq(|posts|, i requires 0 <= i < |posts| => RecordOf(posts[i], cfg, loads, linkInBio, now))
  }

  /** Lines 298-299: the local URLs of the records whose set is `{"DNE"}`, in row order. */
  function DneUrls(records: seq<Record>): seq<string> {
    if |records| == 0 then []
    else
      var last := records[|records| - 1];
      DneUrls(records[..|records| - 1]) + (if last.errorMessage == {Dne} then [last.localUrl] else [])
  }

  /** The local URLs of the posts whose page is the 404 sentinel, in batch order. */
  function SentinelUrls(posts: seq<Post>, cfg: Config): seq<string> {
    if |posts| == 0 then []
    else
      var last := posts[|posts| - 1];
      SentinelUrls(posts[..|posts| - 1], cfg) + (if IsDneSentinel(last.page) then [LocalUrl(cfg, last.id)] else [])
  }

  /**
   * `generateDataFrame`. The four `apply` passes of lines 276-282 are
   * independent of each other, so one pass over the posts runs all four
   * extractors; the bio link, id and local URL are added in the same pass.
   */
  method GenerateDataFrame(posts: seq<Post>, cfg: Config, loads: string -> Option<Json>,
                           linkInBio: string -> string, now: string)
    returns (result: seq<Record>, deactivated: seq<string>)
    ensures result == Records(posts, cfg, loads, linkInBio, now)
    ensures deactivated == DneUrls(result)
  {
    var rows := BuildRows(posts, cfg, loads, linkInBio, now);
    forall j | 0 <= j < |rows| ensures Marked(rows[j]) {
      RowMarked(posts[j], cfg, loads, linkInBio, now);
    }
    result := ErrorHandling(rows);
    RecordsOfRows(posts, cfg, loads, linkInBio, now, rows, result);
    deactivated := Deactivate(result);
  }

  /** Lines 276-292 over the whole batch, one row per post in order. */
  method BuildRows(posts: seq<Post>, cfg: Config, loads: string -> Option<Json>, linkInBio: string -> string,
                   now: string) returns (rows: seq<Row>)
    ensures |rows| == |posts|
    ensures forall j :: 0 <= j < |posts| ==> rows[j] == BuildRow(posts[j], cfg, loads, linkInBio, now)
  {
    rows := [];
    var i := 0;
    while i < |posts|
      invariant i <= |posts| && |rows| == i
      invariant forall j :: 0 <= j < i ==> rows[j] == BuildRow(posts[j], cfg, loads, linkInBio, now)
    {
      var row := RowOf(posts[i], cfg, loads, linkInBio, now);
      rows := rows + [row];
      i := i + 1;
    }
  }

  /** A built row can be reconciled. */
  lemma RowMarked(post: Post, cfg: Config, loads: string -> Option<Json>, linkInBio: string -> string, now: string)
    ensures Marked(BuildRow(post, cfg, loads, linkInBio, now))
  {
    RowWellMarked(post, cfg, loads, linkInBio, now);
  }

  /** Reconciling the built rows one by one gives the batch's records. */
  lemma RecordsOfRows(posts: seq<Post>, cfg: Config, loads: string -> Option<Json>, linkInBio: string -> string,
                      now: string, rows: seq<Row>, result: seq<Record>)
    requires |rows| == |posts| == |result|
    requires forall j :: 0 <= j < |posts| ==> rows[j] == BuildRow(posts[j], cfg, loads, linkInBio, now)
    requires forall j :: 0 <= j < |posts| ==> Marked(rows[j]) && result[j] == ReconcileRow(rows[j])
    ensures result == Records(posts, cfg, loads, linkInBio, now)
  {
  }

  /** One post's row: the four extractors, the bio link, the id and the local URL. */
  method RowOf(post: Post, cfg: Config, loads: string -> Option<Json>, linkInBio: string -> string, now: string)
    returns (row: Row)
    ensures row == BuildRow(post, cfg, loads, linkInBio, now)
  {
    var engage := GetEngagementInfo(post.page, loads);
    var author := GetAuthorInfo(post.page, loads, cfg.mainPagePrefix);
    var video := GetVideoInfo(post.page, loads);
    var comment := GetCommentInfo(post.page, loads);
    var link := LinkOf(author, linkInBio);
    row := Row(post.url, engage, author, video, comment, link, post.id, LocalUrl(cfg, post.id), now);
  }

  /** Lines 298-299: `deactiveURL` on the local URL of each `{"DNE"}` row, in row order. */
  method Deactivate(result: seq<Record>) returns (deactivated: seq<string>)
    ensures deactivated == DneUrls(result)
  {
    deactivated := [];
    var i := 0;
    while i < |result|
      invariant i <= |result|
      invariant deactivated == DneUrls(result[..i])
    {
      assert result[..i + 1][..i] == result[..i];
      if result[i].errorMessage == {Dne} {
        deactivated := deactivated + [result[i].localUrl];
      }
      i := i + 1;
    }
    assert result[..|result|] == result;
  }

  /** A record's set is `{"DNE"}` exactly when its post's page was the sentinel, and then its status is "ERROR". */
  lemma DneRecord(post: Post, cfg: Config, loads: string -> Option<Json>, linkInBio: string -> string, now: string)
    ensures var r := RecordOf(post, cfg, loads, linkInBio, now);
      && (r.errorMessage == {Dne} <==> IsDneSentinel(post.page))
      && (IsDneSentinel(post.page) ==> r.status == Error)
      && r.localUrl == LocalUrl(cfg, post.id)
  {
    RowWellMarked(post, cfg, loads, linkInBio, now);
    var row := BuildRow(post, cfg, loads, linkInBio, now);
    DneSetOnlyFromDne(row);
    if IsDneSentinel(post.page) {
      DneRow(row);
    }
  }

  /**
   * The extractors compare the page with the string "DNE", so a 200 page whose
   * body is exactly "DNE" ends as `{"DNE"}` too, and its post is deactivated.
   */
  lemma DneBodyRecord(id: string, url: string, cfg: Config, loads: string -> Option<Json>,
                      linkInBio: string -> string, now: string)
    ensures var r := RecordOf(Post(id, url, Html(Dne)), cfg, loads, linkInBio, now);
      && r.errorMessage == {Dne} && r.status == Error
    ensures DneUrls(Records([Post(id, url, Html(Dne))], cfg, loads, linkInBio, now)) == [LocalUrl(cfg, id)]
  {
    DneRecord(Post(id, url, Html(Dne)), cfg, loads, linkInBio, now);
    DeactivatesExactlyDne([Post(id, url, Html(Dne))], cfg, loads, linkInBio, now);
    assert [Post(id, url, Html(Dne))][..0] == [];
  }

  /**
   * A page that cannot be read (a fetch that was neither 200 nor 404) fails all
   * four categories, has no main-page URL and so no bio link: its record holds
   * five tokens and is "ERROR".
   */
  lemma UnusableRecord(id: string, url: string, cfg: Config, loads: string -> Option<Json>,
                       linkInBio: string -> string, now: string)
    ensures var r := RecordOf(Post(id, url, Other), cfg, loads, linkInBio, now);
      && r.errorMessage == {EngageFailed, CreatorFailed, VideoFailed, CommentFailed, LinkFailed}
      && r.status == Error
  {
    var post := Post(id, url, Other);
    RowWellMarked(post, cfg, loads, linkInBio, now);
    var row := BuildRow(post, cfg, loads, linkInBio, now);
    OtherPageFails(loads, cfg.mainPagePrefix);
    assert AuthorInfo(Other, loads, cfg.mainPagePrefix) == [(CreatorMarker, JStr(CreatorFailed))];
    assert EngagementInfo(Other, loads) == [(EngageMarker, JStr(EngageFailed))];
    assert Tokens(row) == [EngageFailed, CreatorFailed, VideoFailed, CommentFailed];
    assert "creator_main_page" != CreatorMarker by {
      assert |"creator_main_page"| != |CreatorMarker|;
    }
    assert Lookup(row.author, "creator_main_page") == None;
    AllFailedRow(row);
  }

  /** Exactly the posts whose page was the sentinel are deactivated, once each, in batch order. */
  lemma {:induction false} DeactivatesExactlyDne(posts: seq<Post>, cfg: Config, loads: string -> Option<Json>,
                                                 linkInBio: string -> string, now: string)
    ensures DneUrls(Records(posts, cfg, loads, linkInBio, now)) == SentinelUrls(posts, cfg)
    decreases |posts|
  {
    if |posts| > 0 {
      var n := |posts| - 1;
      var rs := Records(posts, cfg, loads, linkInBio, now);
      assert rs[..n] == Records(posts[..n], cfg, loads, linkInBio, now);
      DeactivatesExactlyDne(posts[..n], cfg, loads, linkInBio, now);
      DneRecord(posts[n], cfg, loads, linkInBio, now);
    }
  }

  // ---------------------------------------------------------------------------
  // The run as written

  /** How a run of `generateDataFrame` ends: with its frame and deactivations, or with the exception it returns. */
  datatype Run = Completed(records: seq<Record>, deactivated: seq<string>) | Aborted

  /** Some row's author dict has a `creator_main_page` key, so the column exists. */
  predicate HasMainPageColumn(posts: seq<Post>, cfg: Config, loads: string -> Option<Json>) {
    exists i :: 0 <= i < |posts| && HasKey(AuthorInfo(posts[i].page, loads, cfg.mainPagePrefix), "creator_main_page")
  }

  /** Some row's engagement dict has a `video_comment_count` key, so the column exists. */
  predicate HasCommentCountColumn(posts: seq<Post>, loads: string -> Option<Json>) {
    exists i :: 0 <= i < |posts| && HasKey(EngagementInfo(posts[i].page, loads), "video_comment_count")
  }

  /**
   * `generateDataFrame` as written. An author extractor that raises ends the
   * run through the outer `except` (line 304); so does the KeyError of
   * `result["creator_main_page"]` (line 285) when no row has that column, and
   * of `df['video_comment_count']` (line 212) when no row has that one.
   * Otherwise every author dict is the one `AuthorInfo` gives
   * (`AuthorAsWrittenAgrees`) and the run completes.
   */
  function RunAsWritten(posts: seq<Post>, cfg: Config, loads: string -> Option<Json>,
                        linkInBio: string -> string, now: string): Run
  {
    if exists i :: 0 <= i < |posts| && AuthorInfoAsWritten(posts[i].page, loads, cfg.mainPagePrefix).Raised? then Aborted
    else if !HasMainPageColumn(posts, cfg, loads) then Aborted
    else if !HasCommentCountColumn(posts, loads) then Aborted
    else
      var records := Records(posts, cfg, loads, linkInBio, now);
      Completed(records, DneUrls(records))
  }

  /**
   * A batch made only of missing pages: the code as written aborts before
   * deactivating anything, while the post should be deactivated.
   */
  lemma AllDneBatchAborts(cfg: Config, loads: string -> Option<Json>, linkInBio: string -> string, now: string)
    ensures var posts := [Post("7", "https://www.tiktok.com/@a/video/7", DNE)];
      && RunAsWritten(posts, cfg, loads, linkInBio, now) == Aborted
      && DneUrls(Records(posts, cfg, loads, linkInBio, now)) == [LocalUrl(cfg, "7")]
  {
    var posts := [Post("7", "https://www.tiktok.com/@a/video/7", DNE)];
    DneShortCircuit(DNE, loads, cfg.mainPagePrefix);
    assert Keys([(CreatorMarker, JStr(Dne))]) == [CreatorMarker];
    assert !HasMainPageColumn(posts, cfg, loads);
    DeactivatesExactlyDne(posts, cfg, loads, linkInBio, now);
    assert posts[..0] == [];
  }

  /**
   * A batch with no non-dict `authorStats` and at least one post whose
   * engagement and author categories both succeeded completes, with the
   * records and deactivations of `GenerateDataFrame`.
   */
  lemma RunCompletes(posts: seq<Post>, cfg: Config, loads: string -> Option<Json>,
                     linkInBio: string -> string, now: string, k: nat)
    requires forall i :: 0 <= i < |posts| ==> !StatsNotDict(posts[i].page, loads)
    requires k < |posts|
    requires Lookup(EngagementInfo(posts[k].page, loads), EngageMarker) == Some(JStr(""))
    requires Lookup(AuthorInfo(posts[k].page, loads, cfg.mainPagePrefix), CreatorMarker) == Some(JStr(""))
    ensures RunAsWritten(posts, cfg, loads, linkInBio, now) ==
            Completed(Records(posts, cfg, loads, linkInBio, now), SentinelUrls(posts, cfg))
  {
    forall i | 0 <= i < |posts|
      ensures !AuthorInfoAsWritten(posts[i].page, loads, cfg.mainPagePrefix).Raised?
    {
      AuthorAsWrittenAgrees(posts[i].page, loads, cfg.mainPagePrefix);
    }
    CommentCountColumnAt(posts[k].page, loads);
    MainPageColumnAt(posts[k].page, loads, cfg.mainPagePrefix);
    assert HasMainPageColumn(posts, cfg, loads);
    assert HasCommentCountColumn(posts, loads);
    DeactivatesExactlyDne(posts, cfg, loads, linkInBio, now);
  }

  /** A successful engagement dict has the `video_comment_count` column. */
  lemma CommentCountColumnAt(page: Page, loads: string -> Option<Json>)
    requires Lookup(EngagementInfo(page, loads), EngageMarker) == Some(JStr(""))
    ensures HasKey(EngagementInfo(page, loads), "video_comment_count")
  {
    EngagementMarker(page, loads);
    EngagementCounts(page, loads);
    EngagementDistinct();
    assert Path(FirstItem(page, loads).value, ["stats", "commentCount"]) == EngagementValues(FirstItem(page, loads).value)[3];
    LookupFound(EngagementInfo(page, loads), "video_comment_count");
  }

  /** A successful author dict has the `creator_main_page` column. */
  lemma MainPageColumnAt(page: Page, loads: string -> Option<Json>, prefix: Option<string>)
    requires Lookup(AuthorInfo(page, loads, prefix), CreatorMarker) == Some(JStr(""))
    ensures HasKey(AuthorInfo(page, loads, prefix), "creator_main_page")
  {
    AuthorMarker(page, loads, prefix);
    AuthorFields(page, loads, prefix, "creator_main_page");
    LookupFound(AuthorInfo(page, loads, prefix), "creator_main_page");
  }
}
