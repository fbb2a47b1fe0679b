# TikTok post scraper: a verified model

This project models the core of `TTScraper.py`, a scraper for TikTok posts. For each post in a batch it:

- fetches the post's page;
- cuts the `SIGI_STATE` JSON payload out of the HTML;
- builds four per-category dicts from it (engagement, author, video, comments), each with a marker column: `engage_EM`, `creator_EM`, `video_EM` and `comment_EM`;
- reconciles the markers into an `Error_Message` set and a `Status`;
- collects the local URLs of the posts whose page is "DNE" (does not exist), so they can be deactivated. A page is "DNE" when the fetch returned 404, and also when it returned 200 with a body of exactly "DNE", because the extractors compare the page with that string.

Modules, in dependency order:

- `Wrappers`: `Option`.
- `Json`: parsed JSON values. A Python dict is an ordered sequence of (key, value) pairs. The module gives lookup (`d[k]`), assignment (`d[k] = v`, which keeps insertion order) and removal.
- `Text`: `str.find`, `str.split` and `"/".join`, and the fact that splitting a join recovers the parts.
- `Decimal`: ASCII digits, zero-padded rendering, and `int(str)`.
- `Calendar`: proleptic Gregorian calendar arithmetic. It covers `datetime.utcfromtimestamp` (floor seconds, years 1..9999, otherwise an error) and `strftime('%Y-%m-%d %H:%M:%S')`, with a parser that reads the rendering back.
- `Payload`: how `getHTML` classifies a fetch (`DNE` for 404, the text for 200, anything else `Other`), and the payload slice `html.split(OPEN)[1].split(CLOSE)[0]`.
- `Extractors`: the four `get*Info` methods.
  - Engagement and video are step-by-step methods. Each assignment can raise, and the `except` writes the failure marker into the dict built so far.
  - The author extractor rebinds its dict to the item's `authorStats` and updates that dict in place.
  - The comment extractor is a loop of four appends per comment.
  - Each method is proved equal to a declarative function. The properties are lemmas about those functions.
- `Reconcile`: `errorHandling`, as four passes over the rows (zero-comment suppression, join and split into a set, the link-in-bio rule, then status and dropping the markers). It is proved equal to a per-row function `ReconcileRow`.
- `Pipeline`: `generateDataFrame`. Each post becomes a row, the rows are reconciled, and the `{"DNE"}` rows give the deactivation list. The main result is that the deactivation list is exactly the local URLs of the posts whose page was "DNE", in batch order. That means a 404, or a 200 whose body is exactly "DNE".

What happens outside the program is passed in as parameters:

- the JSON parser is a function `string -> Option<Json>`;
- `getLinkInBio`'s scraping is a function `string -> string`;
- the environment variables are a `Config`;
- the clock reading is a string.

Behaviour of the code worth noting:

- **The payload slice.** The slice ends at the first `</script>` or at a second opening marker, whichever comes first (`Payload.SliceSpec`, `Payload.SliceUnique`).
- **A body of "DNE".** A 200 page whose body is exactly "DNE" is treated like a 404. All four markers become "DNE", so the post is deactivated (`Pipeline.DneBodyRecord`).
- **Other fetch outcomes.** For a fetch that is neither 200 nor 404, `getHTML` returns the response object, or `None` after a transport error. The `.split` on that value raises, so every category reports its own failure token (`Extractors.OtherPageFails`).
- **Fields kept on failure.** A failed category keeps the fields it assigned before the failing subscript (`Extractors.BuiltField`, `Extractors.AuthorFields`).
- **Failed comment lists.** A failed comment category can hold lists of different lengths (`Extractors.CommentFailureLengths`).
- **A page whose payload cannot be read.** A page that is not HTML text fails all four categories and gets five tokens: the four failure tokens and "LinkInBioScrapingFailed". Its author dict has no `creator_main_page`, so the bio link is "LinkInBioDNE", and the link rule adds "LinkInBioScrapingFailed" (`Pipeline.UnusableRecord`). The same holds for any row whose four categories failed and whose bio link is "LinkInBioDNE" (`Reconcile.AllFailedRow`). A readable page whose categories all fail can still get only the four failure tokens. This happens when the item's `authorStats` already holds a `creator_main_page` key, because line 115 keeps that dict and line 285 then follows its link.
- **Errors that escape.** Two error paths are not kept per record. They end the whole run instead. See "Findings".

## Model

| member | source | states |
|---|---|---|
| `Text.Find` | TTScraper.py:87 | the first index where the pattern occurs, or None exactly when it occurs nowhere |
| `Text.Split` | TTScraper.py:87 | `str.split`: at least one piece, joining the pieces gives the string back, the first piece is the text before the first separator and the rest is the split of what follows it |
| `Text.SplitJoin` | TTScraper.py:214-215 | splitting on a one-character separator that no part contains gives the joined parts back unchanged |
| `Json.LookupFound` | TTScraper.py:90 | `d[k]` succeeds exactly when the dict holds the key |
| `Json.AssignLookup` | TTScraper.py:90-94 | after `d[k] = v`, `d[k]` is `v` and every other key reads as before |
| `Json.AssignKeys` | TTScraper.py:82-94 | `d[k] = v` keeps the key order and appends a new key at the end |
| `Json.AssignNew` | TTScraper.py:172-175 | assigning a key the dict does not hold appends the pair |
| `Json.RemoveLookup` | TTScraper.py:227 | after dropping a column it is absent and every other column reads as before |
| `Payload.GetHtml` | TTScraper.py:63-74 | the page is the DNE sentinel exactly for status 404, the body text exactly for status 200, and unusable for other statuses and transport errors |
| `Payload.CutSpec` | TTScraper.py:87 | `split(open)[1].split(close)[0]` fails exactly when the opening marker is absent; otherwise it is a prefix of the text after the first opening marker that contains neither marker and ends where one of them begins, or at the end of that text |
| `Payload.PieceUnique` | TTScraper.py:87 | when both markers start with the same character and hold it nowhere else, so that no occurrence of either can overlap another, those conditions have exactly one solution |
| `Payload.SliceSpec` | TTScraper.py:87 | the same statement for the `SIGI_STATE` script markers: the slice ends where the first `</script>` or a second opening marker begins, or runs to the end of the page |
| `Payload.SliceUnique` | TTScraper.py:87 | for the `SIGI_STATE` markers, any prefix meeting `SliceSpec`'s conditions is the slice itself: the slice is determined by them |
| `Payload.Root` | TTScraper.py:88 | a 200 page whose slice exists gives `json.loads` of that slice; any other page, or one without the opening marker, gives nothing |
| `Decimal.PaddedValue` | TTScraper.py:142 | a zero-padded rendering of width w reads back as the number when it is below 10^w |
| `Decimal.ParseShow` | TTScraper.py:141 | `int(str(n)) == n` for every integer, negative ones included |
| `Calendar.CivilFromDays` | TTScraper.py:142 | every day count since 1970-01-01 maps to a valid date lying exactly that many days after the epoch |
| `Calendar.FromEpoch` | TTScraper.py:142 | every Unix timestamp maps to valid date and time fields lying exactly that many seconds after the epoch (floor semantics before 1970) |
| `Calendar.UtcFromTimestampSpec` | TTScraper.py:142 | `utcfromtimestamp` succeeds exactly for moments in years 1..9999, and then gives valid fields exactly `t` seconds after the epoch |
| `Calendar.FormatDateTime` | TTScraper.py:142 | the `%Y-%m-%d %H:%M:%S` rendering is always 19 characters |
| `Calendar.ParseFormat` | TTScraper.py:142 | the rendering is exact: parsing it gives back every field of the moment |
| `Extractors.TopLevelMap` | TTScraper.py:88 | `json.loads(...)["ItemModule"]` is found exactly when the payload is an object whose member under the key is a dict |
| `Extractors.FirstItem` | TTScraper.py:89 | `videoProps[list(videoProps.keys())[0]]` exists exactly when the item map is non-empty, and is its first member |
| `Extractors.BuiltField` | TTScraper.py:90-97 | after a block of assignments, a field holds its value when its assignment ran before the first one that raised, and is absent otherwise |
| `Extractors.BuiltKeys` | TTScraper.py:82-97 | the keys of a block's dict are the fields assigned before the first failure, in order, followed by the marker |
| `Extractors.CategoryMarker` | TTScraper.py:83-97 | for any category the marker is "DNE" exactly for the sentinel, "" exactly when the item exists and every assignment ran, and the failure token otherwise |
| `Extractors.CategoryComplete` | TTScraper.py:90-95 | a category whose marker is "" holds every field with the value its right-hand side gave, and exactly the fields plus the marker |
| `Extractors.GetEngagementInfo` | TTScraper.py:76-98 | the method returns exactly the engagement dict `EngagementInfo` describes |
| `Extractors.EngagementAssignments` | TTScraper.py:86-98 | the four assignments with their `try`/`except` build the block dict of the four stats paths |
| `Extractors.EngagementMarker` | TTScraper.py:83-97 | `engage_EM` is "DNE" exactly for the sentinel, "" exactly when all four stats exist, "EngageScrapingFailed" otherwise |
| `Extractors.EngagementCounts` | TTScraper.py:90-94 | on success the four counts are `stats.playCount`, `diggCount`, `shareCount` and `commentCount` of the first item, and nothing else is in the dict |
| `Extractors.Truncate` | TTScraper.py:141 | `int()` of a float truncates toward zero |
| `Extractors.PyInt` | TTScraper.py:141 | `int()` of an int is itself, of a bool 0/1, of a float its truncation, of a string its decimal parse, and raises on anything else |
| `Extractors.PyIntShow` | TTScraper.py:141 | `int()` of the decimal string of an integer gives that integer back |
| `Extractors.CreateDateSpec` | TTScraper.py:141-143 | the creation date exists exactly when `createTime` converts to an integer whose moment is in years 1..9999, and it reads back as that moment |
| `Extractors.GetVideoInfo` | TTScraper.py:125-150 | the method returns exactly the video dict `VideoInfo` describes |
| `Extractors.VideoAssignments` | TTScraper.py:136-150 | the five assignments with their `try`/`except` build the block dict of the video fields |
| `Extractors.VideoDate` | TTScraper.py:141-143 | the date conversion step computes `CreateDate` |
| `Extractors.VideoMarkerValue` | TTScraper.py:132-149 | `video_EM` is "DNE" exactly for the sentinel, "" exactly when all five fields are computed, "VideoScrapingFailed" otherwise |
| `Extractors.VideoFields` | TTScraper.py:139-145 | on success the dict holds `id`, `desc`, the converted date, `video.duration` and `video.format`, and nothing else besides the marker |
| `Extractors.VideoDateRoundTrip` | TTScraper.py:141-143 | on success `video_create_date` parses as a valid UTC moment exactly `int(createTime)` seconds after the epoch |
| `Extractors.GetAuthorInfo` | TTScraper.py:100-123 | the method, which updates the `authorStats` dict in place, returns exactly `AuthorInfo` |
| `Extractors.AuthorAsWrittenAgrees` | TTScraper.py:115-123 | the code as written raises exactly when `authorStats` is present but not a dict, and otherwise returns `AuthorInfo` |
| `Extractors.AuthorNullStatsRaises` | TTScraper.py:115-122 | a payload whose `authorStats` is `null` makes the code as written raise out of its `except` |
| `Extractors.AuthorMarker` | TTScraper.py:108-122 | `creator_EM` is "DNE" exactly for the sentinel, "" exactly when the stats are a dict, the author is a string and the main-page prefix is set (`pre + author` at line 118 raises otherwise), "CreatorScrapingFailed" otherwise |
| `Extractors.FromStatsMarker` | TTScraper.py:116-122 | within the stats dict, the marker is "" exactly when the author and the main-page URL were both assigned |
| `Extractors.AuthorFields` | TTScraper.py:115-119 | the author dict is the item's `authorStats` with `creator_username` set to the author and `creator_main_page` to prefix + name when those assignments ran; every other stats key is kept |
| `Extractors.FromStatsFields` | TTScraper.py:116-118 | the same statement about the in-place updates of a given stats dict |
| `Extractors.FirstMalformed` | TTScraper.py:170-175 | the position of the first comment lacking `user`, `text` or `create_time`, with every earlier comment well formed |
| `Extractors.GetCommentInfo` | TTScraper.py:152-180 | the loop returns exactly the dict `CommentInfo` describes, on success and at the first malformed comment |
| `Extractors.FirstMalformedAt` | TTScraper.py:170-175 | a malformed comment preceded only by well-formed ones is the one where the loop stops |
| `Extractors.CommentFailedAt` | TTScraper.py:170-179 | stopping at comment k leaves k+1 ids, the user and text appended only when their subscripts succeeded, k timestamps, and the failure token |
| `Extractors.CommentDictLookup` | TTScraper.py:158-162 | each of the four list keys and the marker key finds its own part of the comment dict |
| `Extractors.CommentMarkerValue` | TTScraper.py:163-179 | `comment_EM` is "DNE" exactly for the sentinel, "" exactly when every comment is read, "CommentScrapingFailed" otherwise |
| `Extractors.CommentColumns` | TTScraper.py:169-176 | on success the four lists are as long as the comment map and hold, at each position, that comment's key, user, text and create time |
| `Extractors.CommentFailureLengths` | TTScraper.py:170-179 | on failure at comment k the id list has k+1 entries, the timestamp list k, and the user and text lists k or k+1 |
| `Extractors.DneShortCircuit` | TTScraper.py:83-85 | on the sentinel page all four extractors return only the "DNE" marker, with the comment lists empty |
| `Extractors.OtherPageFails` | TTScraper.py:96-97 | a page that is not HTML text makes all four categories report their own failure token |
| `Extractors.EmptyItemModuleFails` | TTScraper.py:89 | an empty `ItemModule` fails the engagement, author and video categories |
| `Extractors.EmptyCommentItem` | TTScraper.py:169-176 | an empty `CommentItem` is a success with four empty lists |
| `Reconcile.SuppressTokens` | TTScraper.py:212 | zero-count suppression changes at most the comment token, to "" |
| `Reconcile.ErrorHandling` | TTScraper.py:204-228 | the four passes produce, row by row, exactly `ReconcileRow` |
| `Reconcile.SuppressZeroCounts` | TTScraper.py:212 | each row's comment marker is cleared exactly when its comment count is zero |
| `Reconcile.CombineMarkers` | TTScraper.py:214-215 | each row's error set is the split of the "/"-joined markers |
| `Reconcile.AddLinkFailures` | TTScraper.py:217-221 | each row's error set gains the link failure by the rule of `func` |
| `Reconcile.StatusAndDrop` | TTScraper.py:224-227 | each row gets its status and loses its four marker columns |
| `Reconcile.ExtractorTokenShape` | TTScraper.py:214-215 | no token an extractor writes contains "/" or is the link failure token |
| `Reconcile.CombinedTokens` | TTScraper.py:214-215 | joining and splitting a well-marked row's markers gives exactly the set of its four tokens |
| `Reconcile.NoLinkToken` | TTScraper.py:218-219 | the combined set never already holds the link failure token |
| `Reconcile.WithLinkSpec` | TTScraper.py:217-220 | the link failure is added exactly when the link is "LinkInBioDNE" and the set is not `{"DNE"}`; nothing else changes, and the result is `{""}` exactly when the set was and the link was found |
| `Reconcile.WithLinkMember` | TTScraper.py:217-220 | the link rule changes no member other than the link failure token |
| `Reconcile.StatusOk` | TTScraper.py:224 | a row is OK exactly when all four tokens are "" after suppression and the bio link was found |
| `Reconcile.StatusIff` | TTScraper.py:224 | the status is OK exactly when the error set is `{""}`, and is OK or ERROR |
| `Reconcile.DneRow` | TTScraper.py:214-224 | a row whose four markers are all "DNE" gets the error set `{"DNE"}` and ERROR, with no link failure added |
| `Reconcile.AllFailedRow` | TTScraper.py:214-224 | a row whose four categories failed, with no bio link, ends with the four failure tokens plus "LinkInBioScrapingFailed" and "ERROR" |
| `Reconcile.DneSetOnlyFromDne` | TTScraper.py:214-221 | for rows whose markers are all "DNE" or all not "DNE", the set is `{"DNE"}` exactly for the DNE rows |
| `Reconcile.LinkRule` | TTScraper.py:217-221 | the final set holds the link failure exactly when the link is "LinkInBioDNE" and the markers do not combine to `{"DNE"}`, and is otherwise the combined set |
| `Reconcile.ZeroCountSuppresses` | TTScraper.py:212 | with a zero comment count, the comment failure token never reaches the error set |
| `Reconcile.DropKeepsColumns` | TTScraper.py:227 | the four markers are gone, and every other column is unchanged |
| `Pipeline.CategoryTokens` | TTScraper.py:274-282 | each extractor's marker is "", "DNE" or its own failure token, and is "DNE" exactly on the sentinel |
| `Pipeline.RowWellMarked` | TTScraper.py:276-292 | every row built for a post is well marked, with all four markers "DNE" exactly on the sentinel and no zero comment count then |
| `Pipeline.MarkedFromTokens` | TTScraper.py:214 | four well-formed category markers make a well-marked row |
| `Pipeline.GenerateDataFrame` | TTScraper.py:266-303 | the run returns one reconciled record per post, and deactivates the local URLs of the `{"DNE"}` records, in order |
| `Pipeline.BuildRows` | TTScraper.py:276-292 | the per-post pass builds exactly one row per post |
| `Pipeline.RowOf` | TTScraper.py:279-292 | the row of one post: the four extractors, the bio link, the id, the local URL and the timestamp |
| `Pipeline.Deactivate` | TTScraper.py:298-299 | the loop collects the local URLs of the records whose error set is `{"DNE"}`, in order |
| `Pipeline.DneRecord` | TTScraper.py:289-298 | a record's error set is `{"DNE"}` exactly when its post's page was the sentinel; it is then ERROR, and its local URL is `API_URL + "posts/" + id + "?key=" + API_KEY` |
| `Pipeline.DneBodyRecord` | TTScraper.py:83-85 | a 200 page whose body is exactly "DNE" ends as `{"DNE"}` and ERROR, and its post is deactivated |
| `Pipeline.UnusableRecord` | TTScraper.py:276-295 | an unreadable page's record holds the four failure tokens and "LinkInBioScrapingFailed", and is "ERROR" |
| `Pipeline.DeactivatesExactlyDne` | TTScraper.py:298-299 | the deactivated URLs are exactly the local URLs of the sentinel posts, in batch order |
| `Pipeline.AllDneBatchAborts` | TTScraper.py:285 | a batch whose only post is a 404 aborts as written, although its post should be deactivated |
| `Pipeline.RunCompletes` | TTScraper.py:272-303 | with no non-dict `authorStats` and one post whose engagement and author succeed, the run as written completes with the records and the sentinel URLs |
| `Pipeline.CommentCountColumnAt` | TTScraper.py:212 | a successful engagement dict has the `video_comment_count` column |
| `Pipeline.MainPageColumnAt` | TTScraper.py:285 | a successful author dict has the `creator_main_page` column |

## Left out

- Network I/O is not modelled. This covers the requests in `getHTML`, `getLinkInBio` and `deactiveURL`, `time.sleep` and `print`. A fetch is a `FetchOutcome` value, and deactivation is the list of URLs it would be sent to.
- Fetching the post list in `__init__` (lines 38-55) is replaced by the `posts` parameter.
- `getLinkInBio`'s parsing of the creator page (BeautifulSoup and a regex) is a parameter `string -> string`. Only its call site is modelled: a missing or non-string `creator_main_page` gives "LinkInBioDNE".
- `uploadFile` and S3 are not modelled, since they are external storage only.
- The timer in the `__main__` block is not modelled.
- `json.loads` is a parameter returning `Option<Json>`. JSON text with duplicate object keys is not distinguished: the model reads the first pair, while Python keeps the last.
- `int()` on strings accepts only an optional sign and ASCII digits. Surrounding whitespace, underscores and non-ASCII digits are not accepted.
- Calendar.FormatDateTime: a year below 1000 is zero-padded to four digits. The C library's `%Y` may print it unpadded.
- Floating-point `video_comment_count` values are real numbers. An IEEE NaN count is not modelled.
- `pd.json_normalize` and `pd.concat` are not modelled. Each category's columns stay in that category's own dict, so nested keys are not flattened. Column collisions between categories are not modelled. A missing cell (NaN) is a missing key.
- A post's `id` is a string. A numeric id from the API would make the concatenation at line 289 raise a TypeError, and that case is not modelled.
- The frame comparison `result["Error_Message"] == {"DNE"}` (line 298) is modelled as a per-row set comparison.
- The four `apply` passes of lines 278-282 are modelled as one pass per post, since each pass depends only on the page.
- `datetime.datetime.now()` is a parameter string. The environment variables are a `Config`, with an unset `TT_CREATOR_MAIN_PAGE` as None. An unset `API_URL` or `API_KEY` is not modelled. Either one makes `__init__` raise a TypeError at line 47, before any post is read.
- Failures of the deactivation and upload requests are not modelled.

## Findings

| source | as written | input that shows it | evidently intended | confidence | as-written member | corrected member |
|---|---|---|---|---|---|---|
| TTScraper.py:115-123 | `author_info` is rebound to `authorStats`. When that value is not a dict, the next assignment raises TypeError, and so does the `except` branch's assignment of the failure token. The exception ends the whole run at line 304. | a payload whose first item has `"authorStats": null` | a non-dict `authorStats` fails the author category with "CreatorScrapingFailed" | not executed | `Extractors.AuthorInfoAsWritten`, shown by `Extractors.AuthorNullStatsRaises` | `Extractors.AuthorInfo`, returned by `Extractors.GetAuthorInfo`, with `Extractors.AuthorAsWrittenAgrees` and `Extractors.AuthorMarker` |
| TTScraper.py:285 | `result["creator_main_page"]` raises KeyError when no row has that column, and `df['video_comment_count']` (line 212) does likewise. The run then returns the exception, and no post is deactivated. | a batch whose only post returned 404 | the missing cells are NaN, and the 404 post is deactivated | not executed | `Pipeline.RunAsWritten`, shown by `Pipeline.AllDneBatchAborts` | `Pipeline.GenerateDataFrame`, with `Pipeline.DeactivatesExactlyDne` |
