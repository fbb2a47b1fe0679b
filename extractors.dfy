/**
 * The four field extractors of `TikTokScraper`: `getEngagementInfo`,
 * `getAuthorInfo`, `getVideoInfo` and `getCommentInfo`. Each takes the page
 * `getHTML` returned and gives back one category dict whose marker key holds
 * "" on success, "DNE" for the 404 sentinel and "<Category>ScrapingFailed"
 * for anything that raised inside its `try`.
 *
 * `json.loads` is a parameter, `loads`, returning None where Python raises.
 */
module Extractors {
  import opened Wrappers
  import opened Text
  import opened Json
  import opened Payload
  import opened Decimal
  import opened Calendar

  const Dne: string := "DNE"
  const EngageFailed: string := "EngageScrapingFailed"
  const CreatorFailed: string := "CreatorScrapingFailed"
  const VideoFailed: string := "VideoScrapingFailed"
  const CommentFailed: string := "CommentScrapingFailed"

  const EngageMarker: string := "engage_EM"
  const CreatorMarker: string := "creator_EM"
  const VideoMarker: string := "video_EM"
  const CommentMarker: string := "comment_EM"

  /** `json.loads(payload)[key]` when it is a dict: the members of that top-level map. */
  function TopLevelMap(page: Page, loads: string -> Option<Json>, key: string): (r: Option<Dict>)
    ensures r.Some? ==> Root(page, loads).Some? && Index(Root(page, loads).value, key) == Some(JObj(r.value))
    ensures r.None? ==> Root(page, loads).None? || !Index(Root(page, loads).value, key).Some? ||
                        !Index(Root(page, loads).value, key).value.JObj?
  {
    match Root(page, loads)
    case None => None
    case Some(root) =>
      match Index(root, key)
      case Some(JObj(ms)) => Some(ms)
      case _ => None
  }

  /**
   * `props = json.loads(payload)["ItemModule"]; props[list(props.keys())[0]]`:
   * the item under the first key, whatever else the map holds. An empty map, a
   * map that is not an object, a missing key or a page with no payload gives None.
   */
  function FirstItem(page: Page, loads: string -> Option<Json>): (r: Option<Json>)
    ensures r.Some? <==> TopLevelMap(page, loads, "ItemModule").Some? && |TopLevelMap(page, loads, "ItemModule").value| > 0
    ensures r.Some? ==> r.value == TopLevelMap(page, loads, "ItemModule").value[0].1
  {
    match TopLevelMap(page, loads, "ItemModule")
    case None => None
    case Some(ms) => if |ms| > 0 then Lookup(ms, ms[0].0) else None
  }

  // ---------------------------------------------------------------------------
  // Successive assignments `info[keys[i]] = <expression i>` inside one `try`
  // block; `values[i]` is what expression `i` yields, None where it raises.

  /** The first `k` right-hand sides of a block all yield a value. */
  predicate Ran(values: seq<Option<Json>>, k: nat) {
    k <= |values| && forall i :: 0 <= i < k ==> values[i].Some?
  }

  /** How many assignments run before the first one whose right-hand side raises. */
  function Completed(values: seq<Option<Json>>): (k: nat)
    ensures Ran(values, k)
    ensures k < |values| ==> values[k].None?
  {
    if |values| == 0 || values[0].None? then 0 else 1 + Completed(values[1..])
  }

  /** The members the first `k` assignments put into an empty dict. */
  function Fields(keys: seq<string>, values: seq<Option<Json>>, k: nat): (d: Dict)
    requires k <= |keys| && Ran(values, k)
    ensures |d| == k
  {
    seq(k, i requires 0 <= i < k => (keys[i], values[i].value))
  }

  /**
   * The dict a `try` block of assignments leaves behind: the fields assigned
   * before the first failure, then the marker, "" when all of them ran.
   */
  function Built(keys: seq<string>, values: seq<Option<Json>>, marker: string, failed: string): Dict
    requires |keys| == |values|
  {
    var k := Completed(values);
    Fields(keys, values, k) + [(marker, JStr(if k == |values| then "" else failed))]
  }

  /** No two assignments of the block write the same key, and none writes the marker. */
  predicate Distinct(keys: seq<string>, marker: string) {
    && (forall i :: 0 <= i < |keys| ==> keys[i] != marker)
    && (forall i, j :: 0 <= i < j < |keys| ==> keys[i] != keys[j])
  }

  /** The members the first `k` assignments added carry exactly the first `k` keys. */
  lemma FieldsKeys(keys: seq<string>, values: seq<Option<Json>>, k: nat)
    requires k <= |keys| && Ran(values, k)
    ensures Keys(Fields(keys, values, k)) == keys[..k]
  {
    var ks := Keys(Fields(keys, values, k));
    assert forall i :: 0 <= i < k ==> ks[i] == keys[i];
  }

  /** A key none of the first `k` assignments writes is not in their dict. */
  lemma FieldsMiss(keys: seq<string>, values: seq<Option<Json>>, k: nat, key: string)
    requires k <= |keys| && Ran(values, k)
    requires forall i :: 0 <= i < k ==> keys[i] != key
    ensures !HasKey(Fields(keys, values, k), key)
  {
    FieldsKeys(keys, values, k);
  }

  lemma FieldsGrow(keys: seq<string>, values: seq<Option<Json>>, k: nat)
    requires k < |keys| && Ran(values, k + 1)
    ensures Fields(keys, values, k) + [(keys[k], values[k].value)] == Fields(keys, values, k + 1)
  {
    var f, g := Fields(keys, values, k), Fields(keys, values, k + 1);
    assert forall i :: 0 <= i < k ==> g[i] == f[i];
  }

  /** Assignment `k` runs: the dict grows by exactly that member, at the end. */
  lemma StepTaken(keys: seq<string>, values: seq<Option<Json>>, marker: string, k: nat)
    requires Distinct(keys, marker)
    requires k < |keys| && Ran(values, k + 1)
    ensures Assign(Fields(keys, values, k), keys[k], values[k].value) == Fields(keys, values, k + 1)
  {
    FieldsMiss(keys, values, k, keys[k]);
    FieldsGrow(keys, values, k);
    AssignNew(Fields(keys, values, k), keys[k], values[k].value);
  }

  /** The block stops after `k` assignments: the marker goes in last. */
  lemma BlockEnds(keys: seq<string>, values: seq<Option<Json>>, marker: string, failed: string, k: nat)
    requires Distinct(keys, marker) && |keys| == |values|
    requires Ran(values, k) && (k < |values| ==> values[k].None?)
    ensures Assign(Fields(keys, values, k), marker, JStr(if k == |values| then "" else failed))
            == Built(keys, values, marker, failed)
  {
    assert Completed(values) == k;
    FieldsMiss(keys, values, k, marker);
    AssignNew(Fields(keys, values, k), marker, JStr(if k == |values| then "" else failed));
  }

  /** A built dict holds the keys of the assignments that ran, in order, then the marker. */
  lemma BuiltKeys(keys: seq<string>, values: seq<Option<Json>>, marker: string, failed: string)
    requires |keys| == |values|
    ensures Keys(Built(keys, values, marker, failed)) == keys[..Completed(values)] + [marker]
  {
    var k := Completed(values);
    var b := Built(keys, values, marker, failed);
    FieldsKeys(keys, values, k);
    assert Keys(b)[..k] == Keys(Fields(keys, values, k));
  }

  /** The marker of a built dict says whether every assignment ran. */
  lemma BuiltMarker(keys: seq<string>, values: seq<Option<Json>>, marker: string, failed: string)
    requires Distinct(keys, marker) && |keys| == |values|
    ensures Lookup(Built(keys, values, marker, failed), marker) ==
            Some(JStr(if Completed(values) == |values| then "" else failed))
  {
    var k := Completed(values);
    BlockEnds(keys, values, marker, failed, k);
    AssignLookup(Fields(keys, values, k), marker, JStr(if k == |values| then "" else failed), marker);
  }

  /** A field of a built dict holds what its assignment computed, if that assignment ran. */
  lemma BuiltField(keys: seq<string>, values: seq<Option<Json>>, marker: string, failed: string, i: nat)
    requires Distinct(keys, marker) && |keys| == |values| && i < |keys|
    ensures Lookup(Built(keys, values, marker, failed), keys[i]) ==
            if i < Completed(values) then values[i] else None
  {
    var k := Completed(values);
    var f := Fields(keys, values, k);
    BlockEnds(keys, values, marker, failed, k);
    AssignLookup(f, marker, JStr(if k == |values| then "" else failed), keys[i]);
    if i < k {
      PrefixLookup(keys, values, k, i);
    } else {
      FieldsMiss(keys, values, k, keys[i]);
      LookupFound(f, keys[i]);
    }
  }

  /** Among the first `k` assignments with distinct keys, step `i` is the one found. */
  lemma {:induction false} PrefixLookup(keys: seq<string>, values: seq<Option<Json>>, k: nat, i: nat)
    requires k <= |keys| && Ran(values, k)
    requires forall a, b :: 0 <= a < b < |keys| ==> keys[a] != keys[b]
    requires i < k
    ensures Lookup(Fields(keys, values, k), keys[i]) == values[i]
  {
    var f := Fields(keys, values, k);
    if i > 0 {
      assert f[0].0 != keys[i];
      PrefixLookup(keys[1..], values[1..], k - 1, i - 1);
      assert Fields(keys[1..], values[1..], k - 1) == f[1..];
    }
  }

  /**
   * Part-way through a block of distinct keys: the first `k` assignments ran
   * and `info` holds exactly what they put in.
   */
  predicate After(keys: seq<string>, values: seq<Option<Json>>, marker: string, k: nat, info: Dict) {
    && Distinct(keys, marker) && |keys| == |values|
    && Ran(values, k) && info == Fields(keys, values, k)
  }

  /** Assignment `k` of a block, `info[key] = v`, when its right-hand side yielded `v`. */
  method Put(info: Dict, ghost keys: seq<string>, ghost values: seq<Option<Json>>, ghost marker: string,
             ghost k: nat, key: string, v: Json)
    returns (r: Dict)
    requires After(keys, values, marker, k, info) && k < |keys| && keys[k] == key && values[k] == Some(v)
    ensures After(keys, values, marker, k + 1, r)
  {
    StepTaken(keys, values, marker, k);
    r := Assign(info, key, v);
  }

  /** The block ends after `k` assignments: `info[marker] = ""`, or the failure token in `except`. */
  method Stop(info: Dict, ghost keys: seq<string>, ghost values: seq<Option<Json>>, marker: string,
              ghost k: nat, ghost failed: string, token: string)
    returns (r: Dict)
    requires After(keys, values, marker, k, info) && (k < |values| ==> values[k].None?)
    requires token == if k == |values| then "" else failed
    ensures r == Built(keys, values, marker, failed)
  {
    BlockEnds(keys, values, marker, failed, k);
    r := Assign(info, marker, JStr(token));
  }

  /**
   * Statement `k` of a block, `info[key] = <expression>`, once the expression
   * has been evaluated to `v`: the assignment when it yielded a value, and
   * otherwise the `except` branch, `info[marker] = failed`, which ends the block.
   */
  method Step(info: Dict, ghost keys: seq<string>, ghost values: seq<Option<Json>>, marker: string,
              ghost k: nat, failed: string, key: string, v: Option<Json>)
    returns (r: Dict, raised: bool)
    requires After(keys, values, marker, k, info) && k < |keys| && keys[k] == key && values[k] == v
    ensures raised <==> v.None?
    ensures raised ==> r == Built(keys, values, marker, failed)
    ensures !raised ==> After(keys, values, marker, k + 1, r)
  {
    if v.None? {
      r := Stop(info, keys, values, marker, k, failed, failed);
      raised := true;
    } else {
      r := Put(info, keys, values, marker, k, key, v.value);
      raised := false;
    }
  }

  /**
   * The shape the engagement and video extractors share: the DNE sentinel,
   * then a `try` whose slicing, parsing and first-item lookups may raise before
   * the block of assignments over that item starts.
   */
  function Category(page: Page, loads: string -> Option<Json>, keys: seq<string>,
                    valuesOf: Json -> seq<Option<Json>>, marker: string, failed: string): Dict
    requires forall item :: |valuesOf(item)| == |keys|
  {
    if IsDneSentinel(page) then [(marker, JStr(Dne))]
    else match FirstItem(page, loads)
      case None => [(marker, JStr(failed))]
      case Some(item) => Built(keys, valuesOf(item), marker, failed)
  }

  /**
   * The marker of a category is "DNE" exactly for the sentinel, "" exactly when
   * the page has a first item and every assignment on it ran, and the failure
   * token otherwise.
   */
  lemma CategoryMarker(page: Page, loads: string -> Option<Json>, keys: seq<string>,
                       valuesOf: Json -> seq<Option<Json>>, marker: string, failed: string)
    requires forall item :: |valuesOf(item)| == |keys|
    requires Distinct(keys, marker) && failed != "" && failed != Dne
    ensures var m := Lookup(Category(page, loads, keys, valuesOf, marker, failed), marker);
      && m.Some? && m.value.JStr?
      && (m.value.s == Dne <==> IsDneSentinel(page))
      && (m.value.s == "" <==> !IsDneSentinel(page) && FirstItem(page, loads).Some? &&
                               Completed(valuesOf(FirstItem(page, loads).value)) == |keys|)
      && (m.value.s == failed <==> !IsDneSentinel(page) && !(FirstItem(page, loads).Some? &&
                                   Completed(valuesOf(FirstItem(page, loads).value)) == |keys|))
  {
    if !IsDneSentinel(page) && FirstItem(page, loads).Some? {
      BuiltMarker(keys, valuesOf(FirstItem(page, loads).value), marker, failed);
    }
  }

  /**
   * A category whose marker is "" comes from a first item on which every
   * assignment ran: it holds, under each key of the block, exactly the value
   * that key's expression yields on the item, and nothing besides those keys
   * and the marker.
   */
  lemma CategoryComplete(page: Page, loads: string -> Option<Json>, keys: seq<string>,
                         valuesOf: Json -> seq<Option<Json>>, marker: string, failed: string)
    requires forall item :: |valuesOf(item)| == |keys|
    requires Distinct(keys, marker) && failed != "" && failed != Dne
    requires Lookup(Category(page, loads, keys, valuesOf, marker, failed), marker) == Some(JStr(""))
    ensures FirstItem(page, loads).Some?
    ensures var info, vs := Category(page, loads, keys, valuesOf, marker, failed), valuesOf(FirstItem(page, loads).value);
      && (forall i :: 0 <= i < |keys| ==> vs[i].Some? && Lookup(info, keys[i]) == vs[i])
      && Keys(info) == keys + [marker]
  {
    CategoryMarker(page, loads, keys, valuesOf, marker, failed);
    var vs := valuesOf(FirstItem(page, loads).value);
    assert Completed(vs) == |keys|;
    forall i | 0 <= i < |keys|
      ensures Lookup(Built(keys, vs, marker, failed), keys[i]) == vs[i]
    {
      BuiltField(keys, vs, marker, failed, i);
    }
    BuiltKeys(keys, vs, marker, failed);
    assert keys[..|keys|] == keys;
  }

  // ---------------------------------------------------------------------------
  // getEngagementInfo (TTScraper.py:76-98)

  /** The output keys of lines 90-93. */
  const EngagementKeys: seq<string> :=
    ["video_view_count", "video_like_count", "video_share_count", "video_comment_count"]

  /** The right-hand sides of lines 90-93: the `stats` fields of the item. */
  function EngagementValues(item: Json): (vs: seq<Option<Json>>)
    ensures |vs| == |EngagementKeys|
  {
    [ Path(item, ["stats", "playCount"]), Path(item, ["stats", "diggCount"]),
      Path(item, ["stats", "shareCount"]), Path(item, ["stats", "commentCount"]) ]
  }

  lemma EngagementDistinct()
    ensures Distinct(EngagementKeys, EngageMarker)
  {
    var ks := EngagementKeys;
    assert |ks[0]| == 16 && |ks[1]| == 16 && |ks[2]| == 17 && |ks[3]| == 19 && |EngageMarker| == 9;
    assert ks[0][6] != ks[1][6];
  }

  /** What `getEngagementInfo` returns. */
  function EngagementInfo(page: Page, loads: string -> Option<Json>): Dict {
    Category(page, loads, EngagementKeys, EngagementValues, EngageMarker, EngageFailed)
  }

  /** `getEngagementInfo` (TTScraper.py:76-98). */
  method GetEngagementInfo(page: Page, loads: string -> Option<Json>) returns (engageInfo: Dict)
    ensures engageInfo == EngagementInfo(page, loads)
  {
    engageInfo := [];
    if IsDneSentinel(page) {
      engageInfo := Assign(engageInfo, EngageMarker, JStr(Dne));
      return;
    }
    var item := FirstItem(page, loads);
    if item.None? {
      engageInfo := Assign(engageInfo, EngageMarker, JStr(EngageFailed));
      return;
    }
    engageInfo := EngagementAssignments(item.value);
  }

  /** Lines 90-94: the four counts one assignment at a time, stopping at the first that raises. */
  method EngagementAssignments(item: Json) returns (engageInfo: Dict)
    ensures engageInfo == Built(EngagementKeys, EngagementValues(item), EngageMarker, EngageFailed)
  {
    ghost var keys, values := EngagementKeys, EngagementValues(item);
    EngagementDistinct();
    engageInfo := [];
    assert After(keys, values, EngageMarker, 0, engageInfo);
    var raised;
    var view := Path(item, ["stats", "playCount"]);
    engageInfo, raised := Step(engageInfo, keys, values, EngageMarker, 0, EngageFailed, "video_view_count", view);
    if raised {
      return;
    }
    var like := Path(item, ["stats", "diggCount"]);
    engageInfo, raised := Step(engageInfo, keys, values, EngageMarker, 1, EngageFailed, "video_like_count", like);
    if raised {
      return;
    }
    var share := Path(item, ["stats", "shareCount"]);
    engageInfo, raised := Step(engageInfo, keys, values, EngageMarker, 2, EngageFailed, "video_share_count", share);
    if raised {
      return;
    }
    var comments := Path(item, ["stats", "commentCount"]);
    engageInfo, raised := Step(engageInfo, keys, values, EngageMarker, 3, EngageFailed, "video_comment_count", comments);
    if raised {
      return;
    }
    engageInfo := Stop(engageInfo, keys, values, EngageMarker, 4, EngageFailed, "");
  }

  /**
   * `engage_EM` is "DNE" exactly for the sentinel, "" exactly when the page
   * has a first item that carries all four `stats` counts, and
   * "EngageScrapingFailed" otherwise.
   */
  lemma EngagementMarker(page: Page, loads: string -> Option<Json>)
    ensures var m := Lookup(EngagementInfo(page, loads), EngageMarker);
      && m.Some? && m.value.JStr?
      && (m.value.s == Dne <==> IsDneSentinel(page))
      && (m.value.s == "" <==> !IsDneSentinel(page) && FirstItem(page, loads).Some? &&
                               forall i :: 0 <= i < 4 ==> EngagementValues(FirstItem(page, loads).value)[i].Some?)
      && (m.value.s == EngageFailed <==> !IsDneSentinel(page) && m.value.s != "")
  {
    EngagementDistinct();
    CategoryMarker(page, loads, EngagementKeys, EngagementValues, EngageMarker, EngageFailed);
  }

  /**
   * A successful engagement dict copies the four counts verbatim from
   * `item["stats"]` and holds nothing else but the marker.
   */
  lemma EngagementCounts(page: Page, loads: string -> Option<Json>)
    requires Lookup(EngagementInfo(page, loads), EngageMarker) == Some(JStr(""))
    ensures FirstItem(page, loads).Some?
    ensures var info, item := EngagementInfo(page, loads), FirstItem(page, loads).value;
      && Lookup(info, "video_view_count") == Path(item, ["stats", "playCount"])
      && Lookup(info, "video_like_count") == Path(item, ["stats", "diggCount"])
      && Lookup(info, "video_share_count") == Path(item, ["stats", "shareCount"])
      && Lookup(info, "video_comment_count") == Path(item, ["stats", "commentCount"])
      && Keys(info) == EngagementKeys + [EngageMarker]
  {
    EngagementDistinct();
    CategoryComplete(page, loads, EngagementKeys, EngagementValues, EngageMarker, EngageFailed);
    var ks := EngagementKeys;
    assert ks[0] == "video_view_count" && ks[1] == "video_like_count";
    assert ks[2] == "video_share_count" && ks[3] == "video_comment_count";
  }

  // ---------------------------------------------------------------------------
  // getVideoInfo (TTScraper.py:125-150)

  /** `int(x)` for a float: the integer part, rounding toward zero. */
  function Truncate(x: real): (n: int)
    ensures 0.0 <= x ==> n as real <= x < n as real + 1.0
    ensures x < 0.0 ==> n as real - 1.0 < x <= n as real
  {
    if 0.0 <= x then x.Floor else -((-x).Floor)
  }

  /**
   * Python's `int(x)` on a JSON value: an int as it is, a boolean as 0 or 1, a
   * float truncated toward zero, a string through `int(str)`; null, lists and
   * dicts raise TypeError, here None.
   */
  function PyInt(j: Json): (r: Option<int>)
    ensures j.JInt? ==> r == Some(j.i)
    ensures j.JBool? ==> r == Some(if j.b then 1 else 0)
    ensures j.JReal? ==> r == Some(Truncate(j.r))
    ensures j.JStr? ==> r == ParseInt(j.s)
    ensures j.JNull? || j.JArr? || j.JObj? ==> r.None?
  {
    match j
    case JInt(i) => Some(i)
    case JBool(b) => Some(if b then 1 else 0)
    case JReal(x) => Some(Truncate(x))
    case JStr(s) => ParseInt(s)
    case _ => None
  }

  /** A timestamp sent as the decimal string of an integer converts back to that integer. */
  lemma PyIntShow(n: int)
    ensures PyInt(JStr(Show(n))) == Some(n)
  {
    ParseShow(n);
  }

  /**
   * Lines 141-142: `utcfromtimestamp(int(item["createTime"])).strftime(...)`,
   * None where any of the three raises.
   */
  function CreateDate(item: Json): Option<Json> {
    match Index(item, "createTime")
    case None => None
    case Some(raw) =>
      match PyInt(raw)
      case None => None
      case Some(t) =>
        match UtcFromTimestamp(t)
        case None => None
        case Some(c) => Some(JStr(FormatDateTime(c)))
  }

  /**
   * The creation date exists exactly when `createTime` converts to an integer
   * whose moment lies in years 1..9999, and the string then reads back as that
   * valid UTC moment, exactly `int(createTime)` seconds after the epoch.
   */
  lemma CreateDateSpec(item: Json)
    ensures CreateDate(item).Some? <==>
              Index(item, "createTime").Some? && PyInt(Index(item, "createTime").value).Some? &&
              UtcFromTimestamp(PyInt(Index(item, "createTime").value).value).Some?
    ensures CreateDate(item).Some? ==>
              CreateDate(item).value.JStr? && ParseDateTime(CreateDate(item).value.s).Some? &&
              var c := ParseDateTime(CreateDate(item).value.s).value;
              ValidDateTime(c) && MinYear <= c.year <= MaxYear &&
              ToEpoch(c) == PyInt(Index(item, "createTime").value).value
  {
    if CreateDate(item).Some? {
      var t := PyInt(Index(item, "createTime").value).value;
      UtcFromTimestampSpec(t);
      ParseFormat(UtcFromTimestamp(t).value);
    }
  }

  /** The output keys of lines 139-146. */
  const VideoKeys: seq<string> :=
    ["video_id", "video_text", "video_create_date", "video_duration", "video_format"]

  /** The right-hand sides of lines 139-146. */
  function VideoValues(item: Json): (vs: seq<Option<Json>>)
    ensures |vs| == |VideoKeys|
  {
    [ Path(item, ["id"]), Path(item, ["desc"]), CreateDate(item),
      Path(item, ["video", "duration"]), Path(item, ["video", "format"]) ]
  }

  lemma VideoDistinct()
    ensures Distinct(VideoKeys, VideoMarker)
  {
    var ks := VideoKeys;
    assert |ks[0]| == 8 && |ks[1]| == 10 && |ks[2]| == 17 && |ks[3]| == 14 && |ks[4]| == 12;
    assert |VideoMarker| == 8 && ks[0][6] != VideoMarker[6];
  }

  /** What `getVideoInfo` returns. */
  function VideoInfo(page: Page, loads: string -> Option<Json>): Dict {
    Category(page, loads, VideoKeys, VideoValues, VideoMarker, VideoFailed)
  }

  /** `getVideoInfo` (TTScraper.py:125-150). */
  method GetVideoInfo(page: Page, loads: string -> Option<Json>) returns (videoInfo: Dict)
    ensures videoInfo == VideoInfo(page, loads)
  {
    videoInfo := [];
    if IsDneSentinel(page) {
      videoInfo := Assign(videoInfo, VideoMarker, JStr(Dne));
      return;
    }
    var item := FirstItem(page, loads);
    if item.None? {
      videoInfo := Assign(videoInfo, VideoMarker, JStr(VideoFailed));
      return;
    }
    videoInfo := VideoAssignments(item.value);
  }

  /** Lines 139-147: the five fields one assignment at a time, stopping at the first that raises. */
  method VideoAssignments(item: Json) returns (videoInfo: Dict)
    ensures videoInfo == Built(VideoKeys, VideoValues(item), VideoMarker, VideoFailed)
  {
    ghost var keys, values := VideoKeys, VideoValues(item);
    VideoDistinct();
    videoInfo := [];
    assert After(keys, values, VideoMarker, 0, videoInfo);
    var raised;
    var id := Path(item, ["id"]);
    videoInfo, raised := Step(videoInfo, keys, values, VideoMarker, 0, VideoFailed, "video_id", id);
    if raised {
      return;
    }
    var desc := Path(item, ["desc"]);
    videoInfo, raised := Step(videoInfo, keys, values, VideoMarker, 1, VideoFailed, "video_text", desc);
    if raised {
      return;
    }
    var date := VideoDate(item);
    videoInfo, raised := Step(videoInfo, keys, values, VideoMarker, 2, VideoFailed, "video_create_date", date);
    if raised {
      return;
    }
    var duration := Path(item, ["video", "duration"]);
    videoInfo, raised := Step(videoInfo, keys, values, VideoMarker, 3, VideoFailed, "video_duration", duration);
    if raised {
      return;
    }
    var format := Path(item, ["video", "format"]);
    videoInfo, raised := Step(videoInfo, keys, values, VideoMarker, 4, VideoFailed, "video_format", format);
    if raised {
      return;
    }
    videoInfo := Stop(videoInfo, keys, values, VideoMarker, 5, VideoFailed, "");
  }

  /** Lines 141-142 as statements: parse the timestamp, convert it, format it. */
  method VideoDate(item: Json) returns (date: Option<Json>)
    ensures date == CreateDate(item)
  {
    var raw := Index(item, "createTime");
    if raw.None? {
      return None;
    }
    var unixTimestamp := PyInt(raw.value);
    if unixTimestamp.None? {
      return None;
    }
    var moment := UtcFromTimestamp(unixTimestamp.value);
    if moment.None? {
      return None;
    }
    date := Some(JStr(FormatDateTime(moment.value)));
  }

  /**
   * `video_EM` is "DNE" exactly for the sentinel, "" exactly when the page has
   * a first item carrying all five fields with a convertible `createTime`, and
   * "VideoScrapingFailed" otherwise.
   */
  lemma VideoMarkerValue(page: Page, loads: string -> Option<Json>)
    ensures var m := Lookup(VideoInfo(page, loads), VideoMarker);
      && m.Some? && m.value.JStr?
      && (m.value.s == Dne <==> IsDneSentinel(page))
      && (m.value.s == "" <==> !IsDneSentinel(page) && FirstItem(page, loads).Some? &&
                               forall i :: 0 <= i < 5 ==> VideoValues(FirstItem(page, loads).value)[i].Some?)
      && (m.value.s == VideoFailed <==> !IsDneSentinel(page) && m.value.s != "")
  {
    VideoDistinct();
    CategoryMarker(page, loads, VideoKeys, VideoValues, VideoMarker, VideoFailed);
  }

  /**
   * A successful video dict copies `id`, `desc`, `video.duration` and
   * `video.format` verbatim, and its `video_create_date` reads back as the
   * valid UTC moment `int(createTime)` seconds after the epoch.
   */
  lemma VideoFields(page: Page, loads: string -> Option<Json>)
    requires Lookup(VideoInfo(page, loads), VideoMarker) == Some(JStr(""))
    ensures FirstItem(page, loads).Some?
    ensures var info, item := VideoInfo(page, loads), FirstItem(page, loads).value;
      && Lookup(info, "video_id") == Path(item, ["id"])
      && Lookup(info, "video_text") == Path(item, ["desc"])
      && Lookup(info, "video_create_date") == CreateDate(item)
      && Lookup(info, "video_duration") == Path(item, ["video", "duration"])
      && Lookup(info, "video_format") == Path(item, ["video", "format"])
      && Keys(info) == VideoKeys + [VideoMarker]
  {
    VideoDistinct();
    CategoryComplete(page, loads, VideoKeys, VideoValues, VideoMarker, VideoFailed);
    var ks := VideoKeys;
    assert ks[0] == "video_id" && ks[1] == "video_text" && ks[2] == "video_create_date";
    assert ks[3] == "video_duration" && ks[4] == "video_format";
  }

  /**
   * On success `video_create_date` is a valid `YYYY-MM-DD HH:MM:SS` string
   * that converts back to `int(createTime)`.
   */
  lemma VideoDateRoundTrip(page: Page, loads: string -> Option<Json>)
    requires Lookup(VideoInfo(page, loads), VideoMarker) == Some(JStr(""))
    ensures FirstItem(page, loads).Some?
    ensures var info, item := VideoInfo(page, loads), FirstItem(page, loads).value;
      && Index(item, "createTime").Some? && PyInt(Index(item, "createTime").value).Some?
      && Lookup(info, "video_create_date").Some? && Lookup(info, "video_create_date").value.JStr?
      && (var c := ParseDateTime(Lookup(info, "video_create_date").value.s);
          c.Some? && ValidDateTime(c.value) && MinYear <= c.value.year <= MaxYear &&
          ToEpoch(c.value) == PyInt(Index(item, "createTime").value).value)
  {
    VideoFields(page, loads);
    VideoDistinct();
    CategoryComplete(page, loads, VideoKeys, VideoValues, VideoMarker, VideoFailed);
    assert VideoValues(FirstItem(page, loads).value)[2] == CreateDate(FirstItem(page, loads).value);
    CreateDateSpec(FirstItem(page, loads).value);
  }

  // ---------------------------------------------------------------------------
  // getAuthorInfo (TTScraper.py:100-123)

  /**
   * `pre + author_info["creator_username"]`: only two strings concatenate;
   * `None + ...` (the variable is unset) or a name that is not a string raises
   * TypeError.
   */
  function MainPage(prefix: Option<string>, name: Json): Option<string> {
    if prefix.Some? && name.JStr? then Some(prefix.value + name.s) else None
  }

  /**
   * Lines 116-120 once `author_info` is the item's `authorStats` dict: the
   * assignments in order, each into that same dict, and the `except` branch
   * writing the failure token into it as well.
   */
  function AuthorFromStats(stats: Dict, author: Option<Json>, prefix: Option<string>): Dict {
    match author
    case None => Assign(stats, CreatorMarker, JStr(CreatorFailed))
    case Some(name) =>
      var named := Assign(stats, "creator_username", name);
      match MainPage(prefix, name)
      case None => Assign(named, CreatorMarker, JStr(CreatorFailed))
      case Some(url) => Assign(Assign(named, "creator_main_page", JStr(url)), CreatorMarker, JStr(""))
  }

  /** What a call returns, or that it raised out of its own `except` branch. */
  datatype Outcome = Returned(info: Dict) | Raised

  /**
   * `getAuthorInfo` as written. When `authorStats` is there but is not a dict,
   * `author_info` is bound to it, the next assignment raises TypeError, and so
   * does `author_info["creator_EM"] = ...` in the `except` branch: the
   * exception leaves the method.
   */
  function AuthorInfoAsWritten(page: Page, loads: string -> Option<Json>, prefix: Option<string>): Outcome {
    if IsDneSentinel(page) then Returned([(CreatorMarker, JStr(Dne))])
    else match FirstItem(page, loads)
      case None => Returned([(CreatorMarker, JStr(CreatorFailed))])
      case Some(item) =>
        match Index(item, "authorStats")
        case None => Returned([(CreatorMarker, JStr(CreatorFailed))])
        case Some(JObj(stats)) => Returned(AuthorFromStats(stats, Index(item, "author"), prefix))
        case Some(_) => Raised
  }

  /**
   * What `getAuthorInfo` returns, with the evidently intended handling of an
   * `authorStats` that is not a dict: the category fails like any other
   * malformed item.
   */
  function AuthorInfo(page: Page, loads: string -> Option<Json>, prefix: Option<string>): Dict {
    if IsDneSentinel(page) then [(CreatorMarker, JStr(Dne))]
    else match FirstItem(page, loads)
      case None => [(CreatorMarker, JStr(CreatorFailed))]
      case Some(item) =>
        match Index(item, "authorStats")
        case Some(JObj(stats)) => AuthorFromStats(stats, Index(item, "author"), prefix)
        case _ => [(CreatorMarker, JStr(CreatorFailed))]
  }

  /**
   * `getAuthorInfo` step by step, with a non-dict `authorStats` failing the
   * category. `author_info` is rebound to the item's stats dict and then
   * updated in place; the URL is built from the name read back out of it.
   */
  method GetAuthorInfo(page: Page, loads: string -> Option<Json>, prefix: Option<string>) returns (authorInfo: Dict)
    ensures authorInfo == AuthorInfo(page, loads, prefix)
  {
    authorInfo := [];
    if IsDneSentinel(page) {
      authorInfo := Assign(authorInfo, CreatorMarker, JStr(Dne));
      return;
    }
    var item := FirstItem(page, loads);
    if item.None? {
      authorInfo := Assign(authorInfo, CreatorMarker, JStr(CreatorFailed));
      return;
    }
    var stats := Index(item.value, "authorStats");
    if stats.None? || !stats.value.JObj? {
      authorInfo := Assign(authorInfo, CreatorMarker, JStr(CreatorFailed));
      return;
    }
    authorInfo := stats.value.members;
    var author := Index(item.value, "author");
    if author.None? {
      authorInfo := Assign(authorInfo, CreatorMarker, JStr(CreatorFailed));
      return;
    }
    authorInfo := Assign(authorInfo, "creator_username", author.value);
    AssignLookup(stats.value.members, "creator_username", author.value, "creator_username");
    var url := MainPage(prefix, Lookup(authorInfo, "creator_username").value);
    if url.None? {
      authorInfo := Assign(authorInfo, CreatorMarker, JStr(CreatorFailed));
      return;
    }
    authorInfo := Assign(authorInfo, "creator_main_page", JStr(url.value));
    authorInfo := Assign(authorInfo, CreatorMarker, JStr(""));
  }

  /** The page has a first item whose `authorStats` is present but not a dict. */
  predicate StatsNotDict(page: Page, loads: string -> Option<Json>) {
    && !IsDneSentinel(page) && FirstItem(page, loads).Some?
    && Index(FirstItem(page, loads).value, "authorStats").Some?
    && !Index(FirstItem(page, loads).value, "authorStats").value.JObj?
  }

  /** The code as written raises exactly on a non-dict `authorStats`, and otherwise agrees with `AuthorInfo`. */
  lemma AuthorAsWrittenAgrees(page: Page, loads: string -> Option<Json>, prefix: Option<string>)
    ensures AuthorInfoAsWritten(page, loads, prefix) ==
            if StatsNotDict(page, loads) then Raised else Returned(AuthorInfo(page, loads, prefix))
  {
  }

  /** One page on which the code as written raises: an item whose `authorStats` is null. */
  lemma AuthorNullStatsRaises(prefix: Option<string>)
    ensures var page := Html(OpenMarker + "{}" + CloseMarker);
            var loads := (s: string) => Some(JObj([("ItemModule", JObj([("7", JObj([("authorStats", JNull)]))]))]));
      && AuthorInfoAsWritten(page, loads, prefix) == Raised
      && AuthorInfo(page, loads, prefix) == [(CreatorMarker, JStr(CreatorFailed))]
  {
    var html := OpenMarker + "{}" + CloseMarker;
    assert html[..|OpenMarker|] == OpenMarker;
    assert Find(html, OpenMarker) == Some(0);
    assert |Split(html, OpenMarker)| >= 2;
    var loads := (s: string) => Some(JObj([("ItemModule", JObj([("7", JObj([("authorStats", JNull)]))]))]));
    assert Root(Html(html), loads).Some?;
    assert Lookup([("authorStats", JNull)], "authorStats") == Some(JNull);
  }

  /** The author lookups succeed and the main-page URL can be built. */
  predicate AuthorSucceeds(page: Page, loads: string -> Option<Json>, prefix: Option<string>) {
    && !IsDneSentinel(page) && FirstItem(page, loads).Some?
    && Index(FirstItem(page, loads).value, "authorStats").Some?
    && Index(FirstItem(page, loads).value, "authorStats").value.JObj?
    && Index(FirstItem(page, loads).value, "author").Some?
    && MainPage(prefix, Index(FirstItem(page, loads).value, "author").value).Some?
  }

  /**
   * `creator_EM` is "DNE" exactly for the sentinel, "" exactly when the stats,
   * the author and the main-page URL are all there, and
   * "CreatorScrapingFailed" otherwise, whatever `authorStats` held under that
   * key before.
   */
  lemma AuthorMarker(page: Page, loads: string -> Option<Json>, prefix: Option<string>)
    ensures var m := Lookup(AuthorInfo(page, loads, prefix), CreatorMarker);
      && m.Some? && m.value.JStr?
      && (m.value.s == Dne <==> IsDneSentinel(page))
      && (m.value.s == "" <==> AuthorSucceeds(page, loads, prefix))
      && (m.value.s == CreatorFailed <==> !IsDneSentinel(page) && !AuthorSucceeds(page, loads, prefix))
  {
    if !IsDneSentinel(page) && FirstItem(page, loads).Some? {
      var item := FirstItem(page, loads).value;
      var stats := Index(item, "authorStats");
      if stats.Some? && stats.value.JObj? {
        FromStatsMarker(stats.value.members, Index(item, "author"), prefix);
      }
    }
  }

  /** `AuthorFromStats` always ends with the marker: "" once the URL is built, the failure token otherwise. */
  lemma FromStatsMarker(stats: Dict, author: Option<Json>, prefix: Option<string>)
    ensures Lookup(AuthorFromStats(stats, author, prefix), CreatorMarker) ==
            Some(JStr(if author.Some? && MainPage(prefix, author.value).Some? then "" else CreatorFailed))
  {
    if author.Some? {
      var named := Assign(stats, "creator_username", author.value);
      var url := MainPage(prefix, author.value);
      if url.Some? {
        AssignLookup(Assign(named, "creator_main_page", JStr(url.value)), CreatorMarker, JStr(""), CreatorMarker);
      } else {
        AssignLookup(named, CreatorMarker, JStr(CreatorFailed), CreatorMarker);
      }
    } else {
      AssignLookup(stats, CreatorMarker, JStr(CreatorFailed), CreatorMarker);
    }
  }

  /**
   * Once `authorStats` is a dict, the result is that dict with its other keys
   * untouched, `creator_username` set to `author` when there is one, and
   * `creator_main_page` set to the prefix followed by that name when both are
   * strings.
   */
  lemma AuthorFields(page: Page, loads: string -> Option<Json>, prefix: Option<string>, key: string)
    requires !IsDneSentinel(page) && FirstItem(page, loads).Some?
    requires Index(FirstItem(page, loads).value, "authorStats").Some?
    requires Index(FirstItem(page, loads).value, "authorStats").value.JObj?
    ensures var item := FirstItem(page, loads).value;
            var stats := Index(item, "authorStats").value.members;
            var author := Index(item, "author");
            var info := AuthorInfo(page, loads, prefix);
      && (key != "creator_username" && key != "creator_main_page" && key != CreatorMarker ==>
            Lookup(info, key) == Lookup(stats, key))
      && Lookup(info, "creator_username") == (if author.Some? then author else Lookup(stats, "creator_username"))
      && Lookup(info, "creator_main_page") ==
           (if author.Some? && MainPage(prefix, author.value).Some?
            then Some(JStr(prefix.value + author.value.s)) else Lookup(stats, "creator_main_page"))
  {
    var item := FirstItem(page, loads).value;
    FromStatsFields(Index(item, "authorStats").value.members, Index(item, "author"), prefix, key);
  }

  /** `AuthorFromStats` writes the two author keys and the marker over `stats`, and nothing else. */
  lemma FromStatsFields(stats: Dict, author: Option<Json>, prefix: Option<string>, key: string)
    ensures var info := AuthorFromStats(stats, author, prefix);
      && (key != "creator_username" && key != "creator_main_page" && key != CreatorMarker ==>
            Lookup(info, key) == Lookup(stats, key))
      && Lookup(info, "creator_username") == (if author.Some? then author else Lookup(stats, "creator_username"))
      && Lookup(info, "creator_main_page") ==
           (if author.Some? && MainPage(prefix, author.value).Some?
            then Some(JStr(prefix.value + author.value.s)) else Lookup(stats, "creator_main_page"))
  {
    var u, m := "creator_username", "creator_main_page";
    if author.Some? {
      var named := Assign(stats, u, author.value);
      AssignLookup(stats, u, author.value, key);
      AssignLookup(stats, u, author.value, u);
      AssignLookup(stats, u, author.value, m);
      var url := MainPage(prefix, author.value);
      if url.Some? {
        var linked := Assign(named, m, JStr(url.value));
        AssignLookup(named, m, JStr(url.value), key);
        AssignLookup(named, m, JStr(url.value), u);
        AssignLookup(named, m, JStr(url.value), m);
        AssignLookup(linked, CreatorMarker, JStr(""), key);
        AssignLookup(linked, CreatorMarker, JStr(""), u);
        AssignLookup(linked, CreatorMarker, JStr(""), m);
      } else {
        AssignLookup(named, CreatorMarker, JStr(CreatorFailed), key);
        AssignLookup(named, CreatorMarker, JStr(CreatorFailed), u);
        AssignLookup(named, CreatorMarker, JStr(CreatorFailed), m);
      }
    } else {
      AssignLookup(stats, CreatorMarker, JStr(CreatorFailed), key);
      AssignLookup(stats, CreatorMarker, JStr(CreatorFailed), u);
      AssignLookup(stats, CreatorMarker, JStr(CreatorFailed), m);
    }
  }

  // ---------------------------------------------------------------------------
  // getCommentInfo (TTScraper.py:152-180)

  /** The dict `getCommentInfo` returns: its four lists in their literal order, then the marker. */
  function CommentDict(ids: seq<Json>, users: seq<Json>, texts: seq<Json>, times: seq<Json>, token: string): Dict {
    [ ("comment_id", JArr(ids)), ("comment_owner_username", JArr(users)),
      ("comment_text", JArr(texts)), ("comment_create_timestamp", JArr(times)),
      (CommentMarker, JStr(token)) ]
  }

  /** The three subscripts of lines 173-175 all succeed on this comment container. */
  predicate WellFormedComment(c: Json) {
    Index(c, "user").Some? && Index(c, "text").Some? && Index(c, "create_time").Some?
  }

  /** The position of the first comment on which one of the three subscripts raises. */
  function FirstMalformed(props: Dict): (r: Option<nat>)
    ensures r.Some? ==> r.value < |props| && !WellFormedComment(props[r.value].1)
    ensures r.Some? ==> forall j :: 0 <= j < r.value ==> WellFormedComment(props[j].1)
    ensures r.None? ==> forall j :: 0 <= j < |props| ==> WellFormedComment(props[j].1)
  {
    if |props| == 0 then None
    else if !WellFormedComment(props[0].1) then Some(0)
    else match FirstMalformed(props[1..])
      case None => None
      case Some(k) => Some(k + 1)
  }

  /**
   * Field `f` of each of the first `n` comments, in key order (null stands in
   * for a field that is missing, which no column built below contains).
   */
  function Column(props: Dict, n: nat, f: string): (col: seq<Json>)
    requires n <= |props|
    ensures |col| == n
  {
    seq(n, j requires 0 <= j < n => if Index(props[j].1, f).Some? then Index(props[j].1, f).value else JNull)
  }

  /** The keys of the first `n` comments, in key order. */
  function Ids(props: Dict, n: nat): (ids: seq<Json>)
    requires n <= |props|
    ensures |ids| == n
  {
    seq(n, j requires 0 <= j < n => JStr(props[j].0))
  }

  /** The value a subscript that succeeded appended, or nothing. */
  function Present(o: Option<Json>): seq<Json> {
    if o.Some? then [o.value] else []
  }

  /**
   * What `getCommentInfo` returns. The four appends of one comment run in
   * order, so when comment `k` is the first malformed one its id is in the
   * list, its user is when that subscript succeeded, its text is when both
   * the user and the text subscripts succeeded, and its timestamp never is:
   * the lists end up with different lengths.
   */
  function CommentInfo(page: Page, loads: string -> Option<Json>): Dict {
    if IsDneSentinel(page) then CommentDict([], [], [], [], Dne)
    else match TopLevelMap(page, loads, "CommentItem")
      case None => CommentDict([], [], [], [], CommentFailed)
      case Some(props) =>
        match FirstMalformed(props)
        case None =>
          var n := |props|;
          CommentDict(Ids(props, n), Column(props, n, "user"), Column(props, n, "text"),
                      Column(props, n, "create_time"), "")
        case Some(k) =>
          var user := Index(props[k].1, "user");
          var text := if user.Some? then Index(props[k].1, "text") else None;
          CommentDict(Ids(props, k + 1), Column(props, k, "user") + Present(user),
                      Column(props, k, "text") + Present(text), Column(props, k, "create_time"), CommentFailed)
  }

  /** One more comment's key extends the id column. */
  lemma IdsGrow(props: Dict, n: nat)
    requires n < |props|
    ensures Ids(props, n + 1) == Ids(props, n) + [JStr(props[n].0)]
  {
    assert Ids(props, n + 1)[..n] == Ids(props, n);
  }

  /** One more comment's field extends that field's column. */
  lemma ColumnGrow(props: Dict, n: nat, f: string)
    requires n < |props|
    requires Index(props[n].1, f).Some?
    ensures Column(props, n + 1, f) == Column(props, n, f) + [Index(props[n].1, f).value]
  {
    assert Column(props, n + 1, f)[..n] == Column(props, n, f);
  }

  /** The malformed comment the loop meets first is the one `FirstMalformed` names. */
  lemma {:induction false} FirstMalformedAt(props: Dict, k: nat)
    requires k < |props| && !WellFormedComment(props[k].1)
    requires forall j :: 0 <= j < k ==> WellFormedComment(props[j].1)
    ensures FirstMalformed(props) == Some(k)
  {
    if k > 0 {
      FirstMalformedAt(props[1..], k - 1);
    }
  }

  /** The dict `CommentInfo` gives when comment `k` is the first malformed one. */
  lemma CommentFailedAt(page: Page, loads: string -> Option<Json>, props: Dict, k: nat)
    requires !IsDneSentinel(page) && TopLevelMap(page, loads, "CommentItem") == Some(props)
    requires k < |props| && !WellFormedComment(props[k].1)
    requires forall j :: 0 <= j < k ==> WellFormedComment(props[j].1)
    ensures var user := Index(props[k].1, "user");
            var text := if user.Some? then Index(props[k].1, "text") else None;
      CommentInfo(page, loads) ==
        CommentDict(Ids(props, k + 1), Column(props, k, "user") + Present(user),
                    Column(props, k, "text") + Present(text), Column(props, k, "create_time"), CommentFailed)
  {
    FirstMalformedAt(props, k);
  }

  /** `getCommentInfo`: the loop over `commentProps.keys()` appending to the four lists. */
  method GetCommentInfo(page: Page, loads: string -> Option<Json>) returns (commentInfo: Dict)
    ensures commentInfo == CommentInfo(page, loads)
  {
    var ids, users, texts, times: seq<Json> := [], [], [], [];
    if IsDneSentinel(page) {
      return CommentDict(ids, users, texts, times, Dne);
    }
    var commentProps := TopLevelMap(page, loads, "CommentItem");
    if commentProps.None? {
      return CommentDict(ids, users, texts, times, CommentFailed);
    }
    var props := commentProps.value;
    var i := 0;
    while i < |props|
      invariant i <= |props|
      invariant forall j :: 0 <= j < i ==> WellFormedComment(props[j].1)
      invariant ids == Ids(props, i)
      invariant users == Column(props, i, "user")
      invariant texts == Column(props, i, "text")
      invariant times == Column(props, i, "create_time")
    {
      var container := props[i].1;
      IdsGrow(props, i);
      ids := ids + [JStr(props[i].0)];
      var user := Index(container, "user");
      if user.None? {
        CommentFailedAt(page, loads, props, i);
        assert users + Present(user) == users && texts + Present(None) == texts;
        return CommentDict(ids, users, texts, times, CommentFailed);
      }
      users := users + [user.value];
      var text := Index(container, "text");
      if text.None? {
        CommentFailedAt(page, loads, props, i);
        assert texts + Present(text) == texts;
        return CommentDict(ids, users, texts, times, CommentFailed);
      }
      texts := texts + [text.value];
      var createTime := Index(container, "create_time");
      if createTime.None? {
        CommentFailedAt(page, loads, props, i);
        return CommentDict(ids, users, texts, times, CommentFailed);
      }
      ColumnGrow(props, i, "user");
      ColumnGrow(props, i, "text");
      ColumnGrow(props, i, "create_time");
      times := times + [createTime.value];
      i := i + 1;
    }
    assert FirstMalformed(props) == None;
    commentInfo := CommentDict(ids, users, texts, times, "");
  }

  /** The list stored under `key`, or nothing when there is no list there. */
  function Items(info: Dict, key: string): seq<Json> {
    match Lookup(info, key)
    case Some(JArr(xs)) => xs
    case _ => []
  }

  /** Each key of `CommentDict` finds its own part. */
  lemma CommentDictLookup(ids: seq<Json>, users: seq<Json>, texts: seq<Json>, times: seq<Json>, token: string)
    ensures var info := CommentDict(ids, users, texts, times, token);
      && Items(info, "comment_id") == ids && Items(info, "comment_owner_username") == users
      && Items(info, "comment_text") == texts && Items(info, "comment_create_timestamp") == times
      && Lookup(info, CommentMarker) == Some(JStr(token))
  {
    var info := CommentDict(ids, users, texts, times, token);
    var id, user, text, time := "comment_id", "comment_owner_username", "comment_text", "comment_create_timestamp";
    assert |id| == 10 && |user| == 22 && |text| == 12 && |time| == 24 && |CommentMarker| == 10;
    assert id[8] != CommentMarker[8];
    assert Lookup(info, user) == Lookup(info[1..], user) == Some(JArr(users));
    assert Lookup(info[1..], text) == Lookup(info[1..][1..], text) == Some(JArr(texts));
    assert Lookup(info[1..][1..], time) == Lookup(info[1..][1..][1..], time);
    assert Lookup(info, text) == Lookup(info[1..], text);
    assert Lookup(info, time) == Lookup(info[1..], time) == Lookup(info[1..][1..], time);
    assert info[1..][1..][1..][1..] == [(CommentMarker, JStr(token))];
    assert Lookup(info[1..][1..][1..], "comment_create_timestamp") == Some(JArr(times));
    assert Lookup(info[1..][1..][1..], CommentMarker) == Some(JStr(token));
    assert Lookup(info[1..][1..], CommentMarker) == Some(JStr(token));
    assert Lookup(info[1..], CommentMarker) == Some(JStr(token));
  }

  /** Every comment was read: the payload parsed and no subscript raised. */
  predicate CommentSucceeds(page: Page, loads: string -> Option<Json>) {
    && !IsDneSentinel(page) && TopLevelMap(page, loads, "CommentItem").Some?
    && FirstMalformed(TopLevelMap(page, loads, "CommentItem").value).None?
  }

  /** `comment_EM` is "DNE" exactly for the sentinel, "" exactly when every comment was read, the failure token otherwise. */
  lemma CommentMarkerValue(page: Page, loads: string -> Option<Json>)
    ensures var m := Lookup(CommentInfo(page, loads), CommentMarker);
      && m.Some? && m.value.JStr?
      && (m.value.s == Dne <==> IsDneSentinel(page))
      && (m.value.s == "" <==> CommentSucceeds(page, loads))
      && (m.value.s == CommentFailed <==> !IsDneSentinel(page) && !CommentSucceeds(page, loads))
  {
    if IsDneSentinel(page) {
      CommentDictLookup([], [], [], [], Dne);
    } else if TopLevelMap(page, loads, "CommentItem").None? {
      CommentDictLookup([], [], [], [], CommentFailed);
    } else if CommentSucceeds(page, loads) {
      CommentColumns(page, loads);
    } else {
      CommentFailureLengths(page, loads, FirstMalformed(TopLevelMap(page, loads, "CommentItem").value).value);
    }
  }

  /**
   * On success the four lists hold one entry per comment, in key order: its
   * key, and its `user`, `text` and `create_time`.
   */
  lemma CommentColumns(page: Page, loads: string -> Option<Json>)
    requires CommentSucceeds(page, loads)
    ensures var props := TopLevelMap(page, loads, "CommentItem").value;
            var info := CommentInfo(page, loads);
      && Lookup(info, CommentMarker) == Some(JStr(""))
      && |Items(info, "comment_id")| == |props| && |Items(info, "comment_owner_username")| == |props|
      && |Items(info, "comment_text")| == |props| && |Items(info, "comment_create_timestamp")| == |props|
      && forall j :: 0 <= j < |props| ==>
           && Items(info, "comment_id")[j] == JStr(props[j].0)
           && Some(Items(info, "comment_owner_username")[j]) == Index(props[j].1, "user")
           && Some(Items(info, "comment_text")[j]) == Index(props[j].1, "text")
           && Some(Items(info, "comment_create_timestamp")[j]) == Index(props[j].1, "create_time")
  {
    var props := TopLevelMap(page, loads, "CommentItem").value;
    var n := |props|;
    CommentDictLookup(Ids(props, n), Column(props, n, "user"), Column(props, n, "text"),
                      Column(props, n, "create_time"), "");
  }

  /**
   * When comment `k` is the first malformed one, the ids list has `k + 1`
   * entries and the timestamp list `k`; the user list has the `k + 1`-th entry
   * exactly when that comment has a user, and the text list exactly when it
   * has both a user and a text.
   */
  lemma CommentFailureLengths(page: Page, loads: string -> Option<Json>, k: nat)
    requires !IsDneSentinel(page) && TopLevelMap(page, loads, "CommentItem").Some?
    requires FirstMalformed(TopLevelMap(page, loads, "CommentItem").value) == Some(k)
    ensures var c := TopLevelMap(page, loads, "CommentItem").value[k].1;
            var info := CommentInfo(page, loads);
      && Lookup(info, CommentMarker) == Some(JStr(CommentFailed))
      && |Items(info, "comment_id")| == k + 1
      && |Items(info, "comment_create_timestamp")| == k
      && |Items(info, "comment_owner_username")| == (if Index(c, "user").Some? then k + 1 else k)
      && |Items(info, "comment_text")| == (if Index(c, "user").Some? && Index(c, "text").Some? then k + 1 else k)
  {
    var props := TopLevelMap(page, loads, "CommentItem").value;
    var user := Index(props[k].1, "user");
    var text := if user.Some? then Index(props[k].1, "text") else None;
    CommentDictLookup(Ids(props, k + 1), Column(props, k, "user") + Present(user),
                      Column(props, k, "text") + Present(text), Column(props, k, "create_time"), CommentFailed);
  }

  // ---------------------------------------------------------------------------
  // All four categories on the same page

  /** On the sentinel every extractor returns only its marker, set to "DNE"; the comment dict keeps its four empty lists. */
  lemma DneShortCircuit(page: Page, loads: string -> Option<Json>, prefix: Option<string>)
    requires IsDneSentinel(page)
    ensures EngagementInfo(page, loads) == [(EngageMarker, JStr(Dne))]
    ensures AuthorInfo(page, loads, prefix) == [(CreatorMarker, JStr(Dne))]
    ensures VideoInfo(page, loads) == [(VideoMarker, JStr(Dne))]
    ensures CommentInfo(page, loads) == CommentDict([], [], [], [], Dne)
  {
  }

  /** A page that is neither the sentinel nor a 200 body fails every category. */
  lemma OtherPageFails(loads: string -> Option<Json>, prefix: Option<string>)
    ensures Lookup(EngagementInfo(Other, loads), EngageMarker) == Some(JStr(EngageFailed))
    ensures Lookup(AuthorInfo(Other, loads, prefix), CreatorMarker) == Some(JStr(CreatorFailed))
    ensures Lookup(VideoInfo(Other, loads), VideoMarker) == Some(JStr(VideoFailed))
    ensures Lookup(CommentInfo(Other, loads), CommentMarker) == Some(JStr(CommentFailed))
  {
    EngagementMarker(Other, loads);
    AuthorMarker(Other, loads, prefix);
    VideoMarkerValue(Other, loads);
    CommentMarkerValue(Other, loads);
  }

  /**
   * An empty `ItemModule` fails the three categories that read its first key
   * (`list(videoProps.keys())[0]` raises IndexError).
   */
  lemma EmptyItemModuleFails(page: Page, loads: string -> Option<Json>, prefix: Option<string>)
    requires !IsDneSentinel(page) && TopLevelMap(page, loads, "ItemModule") == Some([])
    ensures Lookup(EngagementInfo(page, loads), EngageMarker) == Some(JStr(EngageFailed))
    ensures Lookup(AuthorInfo(page, loads, prefix), CreatorMarker) == Some(JStr(CreatorFailed))
    ensures Lookup(VideoInfo(page, loads), VideoMarker) == Some(JStr(VideoFailed))
  {
    EngagementMarker(page, loads);
    AuthorMarker(page, loads, prefix);
    VideoMarkerValue(page, loads);
  }

  /** An empty `CommentItem` is a success with four empty lists. */
  lemma EmptyCommentItem(page: Page, loads: string -> Option<Json>)
    requires !IsDneSentinel(page) && TopLevelMap(page, loads, "CommentItem") == Some([])
    ensures CommentInfo(page, loads) == CommentDict([], [], [], [], "")
  {
    assert Ids([], 0) == [] && Column([], 0, "user") == [] && Column([], 0, "text") == [];
    assert Column([], 0, "create_time") == [];
  }
}
