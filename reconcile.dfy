/**
 * `errorHandling` (TTScraper.py:204-228): the four category markers of a row
 * are joined with "/", split back into a set, extended with the link-in-bio
 * failure and turned into a status; the markers themselves are dropped.
 *
 * A row keeps each category's columns in that category's own dict, so a
 * column such as `comment_EM` is the marker key of the comment dict.
 */
module Reconcile {
  import opened Wrappers
  import opened Text
  import opened Json
  import opened Extractors

  const Slash: string := "/"
  const LinkInBioDne: string := "LinkInBioDNE"
  const LinkFailed: string := "LinkInBioScrapingFailed"
  const Ok: string := "OK"
  const Error: string := "ERROR"

  /** One row of the frame `generateDataFrame` hands to `errorHandling`. */
  datatype Row = Row(url: string, engage: Dict, author: Dict, video: Dict, comment: Dict,
                     linkInBio: string, uniqueId: string, localUrl: string, timestamp: string)

  /** A row after `errorHandling`: markers dropped, `Error_Message` and `Status` added. */
  datatype Record = Record(url: string, engage: Dict, author: Dict, video: Dict, comment: Dict,
                           linkInBio: string, uniqueId: string, localUrl: string, timestamp: string,
                           errorMessage: set<string>, status: string)

  /**
   * `df['video_comment_count'] == 0` on one cell: Python's `0 == 0.0 == False`;
   * a missing cell (NaN), null, a string or a container compares unequal.
   */
  predicate IsZero(v: Option<Json>) {
    v == Some(JInt(0)) || v == Some(JReal(0.0)) || v == Some(JBool(false))
  }

  /** The string held under a marker key, if it is a string. */
  function Marker(d: Dict, key: string): Option<string> {
    match Lookup(d, key)
    case Some(JStr(t)) => Some(t)
    case _ => None
  }

  /** All four marker cells are strings, as `"/".join` needs. */
  predicate Marked(row: Row) {
    && Marker(row.engage, EngageMarker).Some? && Marker(row.author, CreatorMarker).Some?
    && Marker(row.video, VideoMarker).Some? && Marker(row.comment, CommentMarker).Some?
  }

  /** `df[["engage_EM", "creator_EM", "video_EM", "comment_EM"]]` on one row. */
  function Tokens(row: Row): (ts: seq<string>)
    requires Marked(row)
    ensures |ts| == 4
  {
    [ Marker(row.engage, EngageMarker).value, Marker(row.author, CreatorMarker).value,
      Marker(row.video, VideoMarker).value, Marker(row.comment, CommentMarker).value ]
  }

  /** Line 212 on one row: a zero comment count blanks the comment marker. */
  function Suppress(row: Row): Row {
    if IsZero(Lookup(row.engage, "video_comment_count"))
    then row.(comment := Assign(row.comment, CommentMarker, JStr("")))
    else row
  }

  /** Suppression keeps the markers strings and changes at most the comment token, to "". */
  lemma SuppressTokens(row: Row)
    requires Marked(row)
    ensures Marked(Suppress(row))
    ensures Tokens(Suppress(row)) ==
            Tokens(row)[3 := if IsZero(Lookup(row.engage, "video_comment_count")) then "" else Tokens(row)[3]]
  {
    AssignLookup(row.comment, CommentMarker, JStr(""), CommentMarker);
  }

  /** `set(x.split("/"))`. */
  function SplitSet(s: string): set<string> {
    set p | p in Split(s, Slash)
  }

  /** Lines 213-215 on one row. */
  function Combined(row: Row): set<string>
    requires Marked(row)
  {
    SuppressTokens(row);
    SplitSet(Join(Tokens(Suppress(row)), Slash))
  }

  /** `func` (lines 217-220). */
  function WithLink(errors: set<string>, linkInBio: string): set<string> {
    if linkInBio == LinkInBioDne && errors != {Dne} then errors + {LinkFailed} else errors
  }

  /** The `Status` lambda (line 224). */
  function StatusOf(errors: set<string>): string {
    if errors != {""} then Error else Ok
  }

  /** Line 227: the four marker columns dropped. */
  function Drop(row: Row, errors: set<string>, status: string): Record {
    Record(row.url, Remove(row.engage, EngageMarker), Remove(row.author, CreatorMarker),
           Remove(row.video, VideoMarker), Remove(row.comment, CommentMarker),
           row.linkInBio, row.uniqueId, row.localUrl, row.timestamp, errors, status)
  }

  /** What `errorHandling` makes of one row. */
  function ReconcileRow(row: Row): Record
    requires Marked(row)
  {
    var errors := WithLink(Combined(row), row.linkInBio);
    Drop(Suppress(row), errors, StatusOf(errors))
  }

  /**
   * `errorHandling` column by column: each pandas column operation is one pass
   * over the rows.
   */
  method ErrorHandling(df: seq<Row>) returns (result: seq<Record>)
    requires forall i :: 0 <= i < |df| ==> Marked(df[i])
    ensures |result| == |df|
    ensures forall i :: 0 <= i < |df| ==> result[i] == ReconcileRow(df[i])
  {
    var rows := SuppressZeroCounts(df);
    var errorMessage := CombineMarkers(rows, df);
    errorMessage := AddLinkFailures(rows, errorMessage);
    result := StatusAndDrop(rows, errorMessage);
  }

  /** `df.loc[df['video_comment_count'] == 0, 'comment_EM'] = ""` (line 212). */
  method SuppressZeroCounts(df: seq<Row>) returns (rows: seq<Row>)
    ensures |rows| == |df|
    ensures forall j :: 0 <= j < |df| ==> rows[j] == Suppress(df[j])
  {
    rows := df;
    var i := 0;
    while i < |rows|
      invariant i <= |rows| == |df|
      invariant forall j :: 0 <= j < i ==> rows[j] == Suppress(df[j])
      invariant forall j :: i <= j < |df| ==> rows[j] == df[j]
    {
      if IsZero(Lookup(rows[i].engage, "video_comment_count")) {
        rows := rows[i := rows[i].(comment := Assign(rows[i].comment, CommentMarker, JStr("")))];
      }
      i := i + 1;
    }
  }

  /** `df["Error_Message"]`: the markers joined with "/", then split into a set (lines 213-215). */
  method CombineMarkers(rows: seq<Row>, ghost df: seq<Row>) returns (errorMessage: seq<set<string>>)
    requires |rows| == |df|
    requires forall j :: 0 <= j < |df| ==> Marked(df[j]) && rows[j] == Suppress(df[j])
    ensures |errorMessage| == |rows|
    ensures forall j :: 0 <= j < |rows| ==> errorMessage[j] == Combined(df[j])
  {
    errorMessage := [];
    var i := 0;
    while i < |rows|
      invariant i <= |rows|
      invariant |errorMessage| == i
      invariant forall j :: 0 <= j < i ==> errorMessage[j] == Combined(df[j])
    {
      SuppressTokens(df[i]);
      var joined := Join(Tokens(rows[i]), Slash);
      errorMessage := errorMessage + [SplitSet(joined)];
      i := i + 1;
    }
  }

  /** `func` applied row by row, adding to each set in place (lines 217-221). */
  method AddLinkFailures(rows: seq<Row>, errors: seq<set<string>>) returns (errorMessage: seq<set<string>>)
    requires |errors| == |rows|
    ensures |errorMessage| == |rows|
    ensures forall j :: 0 <= j < |rows| ==> errorMessage[j] == WithLink(errors[j], rows[j].linkInBio)
  {
    errorMessage := errors;
    var i := 0;
    while i < |rows|
      invariant i <= |rows| == |errorMessage|
      invariant forall j :: 0 <= j < i ==> errorMessage[j] == WithLink(errors[j], rows[j].linkInBio)
      invariant forall j :: i <= j < |rows| ==> errorMessage[j] == errors[j]
    {
      var errorSet := errorMessage[i];
      if rows[i].linkInBio == LinkInBioDne && errorSet != {Dne} {
        errorSet := errorSet + {LinkFailed};
      }
      errorMessage := errorMessage[i := errorSet];
      i := i + 1;
    }
  }

  /** `df["Status"]` (line 224), then `df.drop` of the four marker columns (line 227). */
  method StatusAndDrop(rows: seq<Row>, errorMessage: seq<set<string>>) returns (result: seq<Record>)
    requires |errorMessage| == |rows|
    ensures |result| == |rows|
    ensures forall j :: 0 <= j < |rows| ==> result[j] == Drop(rows[j], errorMessage[j], StatusOf(errorMessage[j]))
  {
    result := [];
    var i := 0;
    while i < |rows|
      invariant i <= |rows|
      invariant |result| == i
      invariant forall j :: 0 <= j < i ==> result[j] == Drop(rows[j], errorMessage[j], StatusOf(errorMessage[j]))
    {
      var status := if errorMessage[i] != {""} then Error else Ok;
      result := result + [Drop(rows[i], errorMessage[i], status)];
      i := i + 1;
    }
  }

  // ---------------------------------------------------------------------------
  // Properties

  /** The tokens an extractor can leave in its marker. */
  predicate ExtractorToken(t: string) {
    t == "" || t == Dne || t == EngageFailed || t == CreatorFailed || t == VideoFailed || t == CommentFailed
  }

  /** Every marker of the row is a token some extractor writes. */
  predicate WellMarked(row: Row) {
    Marked(row) && forall i :: 0 <= i < 4 ==> ExtractorToken(Tokens(row)[i])
  }

  /** No extractor token contains "/" or is the link-in-bio token. */
  lemma ExtractorTokenShape(t: string)
    requires ExtractorToken(t)
    ensures '/' !in t && t != LinkFailed
  {
  }

  /** The tokens after suppression, as they reach the join. */
  function Reconciled(row: Row): (ts: seq<string>)
    requires Marked(row)
    ensures |ts| == 4
  {
    var ts := Tokens(row);
    if IsZero(Lookup(row.engage, "video_comment_count")) then ts[3 := ""] else ts
  }

  /**
   * Since no token contains "/", the join-then-split gives back the four
   * tokens: `Error_Message` before the link rule is exactly the set of the
   * (suppressed) markers, duplicates collapsed.
   */
  lemma CombinedTokens(row: Row)
    requires WellMarked(row)
    ensures Combined(row) == {Reconciled(row)[0], Reconciled(row)[1], Reconciled(row)[2], Reconciled(row)[3]}
  {
    SuppressTokens(row);
    var ts := Tokens(Suppress(row));
    forall i | 0 <= i < |ts|
      ensures Slash[0] !in ts[i]
    {
      if i < 3 || !IsZero(Lookup(row.engage, "video_comment_count")) {
        ExtractorTokenShape(Tokens(row)[i]);
      }
    }
    SplitJoin(ts, Slash);
    SetOfFour(ts);
  }

  /** The set of a four-element sequence. */
  lemma SetOfFour(ts: seq<string>)
    requires |ts| == 4
    ensures (set p | p in ts) == {ts[0], ts[1], ts[2], ts[3]}
  {
    assert ts == [ts[0], ts[1], ts[2], ts[3]];
  }

  /** `Error_Message` and `Status` of the record, in terms of the markers' set. */
  lemma ReconcileErrors(row: Row)
    requires Marked(row)
    ensures ReconcileRow(row).errorMessage == WithLink(Combined(row), row.linkInBio)
    ensures ReconcileRow(row).status == StatusOf(ReconcileRow(row).errorMessage)
  {
  }

  /** A set of four tokens is `{""}` exactly when all four are "". */
  lemma FourEmpty(ts: seq<string>)
    requires |ts| == 4
    ensures {ts[0], ts[1], ts[2], ts[3]} == {""} <==> ts == ["", "", "", ""]
  {
    if {ts[0], ts[1], ts[2], ts[3]} == {""} {
      assert ts[0] in {""} && ts[1] in {""} && ts[2] in {""} && ts[3] in {""};
    }
  }

  /** The markers' set never holds the link-in-bio token. */
  lemma NoLinkToken(row: Row)
    requires WellMarked(row)
    ensures Combined(row) == {Reconciled(row)[0], Reconciled(row)[1], Reconciled(row)[2], Reconciled(row)[3]}
    ensures LinkFailed !in Combined(row)
  {
    CombinedTokens(row);
    var ts := Reconciled(row);
    forall i | 0 <= i < 4 ensures ts[i] != LinkFailed {
      if i < 3 || !IsZero(Lookup(row.engage, "video_comment_count")) {
        ExtractorTokenShape(Tokens(row)[i]);
      }
    }
  }

  /**
   * On a set without the link token, `func` adds it exactly when the link is
   * "LinkInBioDNE" and the set is not `{"DNE"}`, and changes nothing else; the
   * result is `{""}` exactly when the set was and a link was found.
   */
  lemma WithLinkSpec(errors: set<string>, linkInBio: string)
    requires LinkFailed !in errors
    ensures LinkFailed in WithLink(errors, linkInBio) <==> linkInBio == LinkInBioDne && errors != {Dne}
    ensures WithLink(errors, linkInBio) - {LinkFailed} == errors
    ensures WithLink(errors, linkInBio) == {""} <==> errors == {""} && linkInBio != LinkInBioDne
  {
    if linkInBio == LinkInBioDne && errors != {Dne} {
      assert LinkFailed in WithLink(errors, linkInBio);
    } else if linkInBio == LinkInBioDne {
      assert Dne in WithLink(errors, linkInBio);
    }
  }

  /** `Status` is "OK" exactly when every category succeeded and a bio link was found. */
  lemma StatusOk(row: Row)
    requires WellMarked(row)
    ensures ReconcileRow(row).status == Ok <==> Reconciled(row) == ["", "", "", ""] && row.linkInBio != LinkInBioDne
  {
    ReconcileErrors(row);
    NoLinkToken(row);
    WithLinkSpec(Combined(row), row.linkInBio);
    FourEmpty(Reconciled(row));
  }

  /** `Status` is "OK" exactly when `Error_Message` is `{""}`, and "ERROR" otherwise. */
  lemma StatusIff(row: Row)
    requires Marked(row)
    ensures ReconcileRow(row).status == Ok <==> ReconcileRow(row).errorMessage == {""}
    ensures ReconcileRow(row).status == Ok || ReconcileRow(row).status == Error
  {
  }

  /**
   * A row whose four markers are "DNE" (and whose engagement dict, like the
   * sentinel's, has no zero comment count) ends with `{"DNE"}` and "ERROR",
   * whatever its bio link.
   */
  lemma DneRow(row: Row)
    requires Marked(row) && forall i :: 0 <= i < 4 ==> Tokens(row)[i] == Dne
    requires !IsZero(Lookup(row.engage, "video_comment_count"))
    ensures ReconcileRow(row).errorMessage == {Dne} && ReconcileRow(row).status == Error
  {
    CombinedTokens(row);
  }

  /**
   * A row whose four categories all failed, with no zero comment count and no
   * bio link, ends with five tokens: the four failure tokens and the link
   * failure.
   */
  lemma AllFailedRow(row: Row)
    requires Marked(row) && Tokens(row) == [EngageFailed, CreatorFailed, VideoFailed, CommentFailed]
    requires !IsZero(Lookup(row.engage, "video_comment_count")) && row.linkInBio == LinkInBioDne
    ensures ReconcileRow(row).errorMessage == {EngageFailed, CreatorFailed, VideoFailed, CommentFailed, LinkFailed}
    ensures ReconcileRow(row).status == Error
  {
    assert WellMarked(row);
    CombinedTokens(row);
    assert Combined(row) == {EngageFailed, CreatorFailed, VideoFailed, CommentFailed};
    assert Combined(row) != {Dne} by {
      assert EngageFailed in Combined(row);
    }
    ReconcileErrors(row);
    assert ReconcileRow(row).errorMessage != {""} by {
      assert LinkFailed in ReconcileRow(row).errorMessage;
    }
  }

  /**
   * Only rows whose markers are all "DNE" end with `{"DNE"}`; every other
   * row's set holds a token besides "DNE".
   */
  lemma DneSetOnlyFromDne(row: Row)
    requires WellMarked(row)
    requires forall i :: 0 <= i < 4 ==> (Tokens(row)[i] == Dne <==> Tokens(row)[0] == Dne)
    requires Tokens(row)[0] == Dne ==> !IsZero(Lookup(row.engage, "video_comment_count"))
    ensures ReconcileRow(row).errorMessage == {Dne} <==> Tokens(row)[0] == Dne
  {
    CombinedTokens(row);
    if Tokens(row)[0] == Dne {
      DneRow(row);
    } else {
      var ts := Reconciled(row);
      assert ts[0] != Dne && ts[0] in ReconcileRow(row).errorMessage;
    }
  }

  /**
   * `LinkInBioScrapingFailed` is in the set exactly when the bio link is
   * "LinkInBioDNE" and the markers' set is not `{"DNE"}`; the rest of the set
   * is the markers' set.
   */
  lemma LinkRule(row: Row)
    requires WellMarked(row)
    ensures LinkFailed in ReconcileRow(row).errorMessage <==> row.linkInBio == LinkInBioDne && Combined(row) != {Dne}
    ensures ReconcileRow(row).errorMessage - {LinkFailed} == Combined(row)
  {
    ReconcileErrors(row);
    NoLinkToken(row);
    WithLinkSpec(Combined(row), row.linkInBio);
  }

  /** A zero comment count keeps the comment failure out of the set when no other marker has it. */
  lemma ZeroCountSuppresses(row: Row)
    requires WellMarked(row) && IsZero(Lookup(row.engage, "video_comment_count"))
    requires Tokens(row)[0] != CommentFailed && Tokens(row)[1] != CommentFailed && Tokens(row)[2] != CommentFailed
    ensures CommentFailed !in ReconcileRow(row).errorMessage
  {
    ReconcileErrors(row);
    NoLinkToken(row);
    assert CommentFailed !in Combined(row);
    WithLinkMember(Combined(row), row.linkInBio, CommentFailed);
  }

  /** `func` adds no token but the link-in-bio one. */
  lemma WithLinkMember(errors: set<string>, linkInBio: string, t: string)
    requires t != LinkFailed
    ensures t in WithLink(errors, linkInBio) <==> t in errors
  {
  }

  /**
   * The record keeps each category's other columns as they were; only the
   * marker columns are gone.
   */
  lemma DropKeepsColumns(row: Row, key: string)
    requires Marked(row)
    ensures var r := ReconcileRow(row);
      && Lookup(r.engage, EngageMarker).None? && Lookup(r.author, CreatorMarker).None?
      && Lookup(r.video, VideoMarker).None? && Lookup(r.comment, CommentMarker).None?
      && (key != EngageMarker ==> Lookup(r.engage, key) == Lookup(row.engage, key))
      && (key != CreatorMarker ==> Lookup(r.author, key) == Lookup(row.author, key))
      && (key != VideoMarker ==> Lookup(r.video, key) == Lookup(row.video, key))
      && (key != CommentMarker ==> Lookup(r.comment, key) == Lookup(row.comment, key))
      && r.linkInBio == row.linkInBio && r.localUrl == row.localUrl && r.url == row.url
  {
    var s := Suppress(row);
    AssignLookup(row.comment, CommentMarker, JStr(""), key);
    RemoveLookup(row.engage, EngageMarker, key);
    RemoveLookup(row.author, CreatorMarker, key);
    RemoveLookup(row.video, VideoMarker, key);
    RemoveLookup(s.comment, CommentMarker, key);
    RemoveLookup(row.engage, EngageMarker, EngageMarker);
    RemoveLookup(row.author, CreatorMarker, CreatorMarker);
    RemoveLookup(row.video, VideoMarker, VideoMarker);
    RemoveLookup(s.comment, CommentMarker, CommentMarker);
  }
}
