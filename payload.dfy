/**
 * Where the embedded state comes from: the page `getHTML` returns for one
 * fetch, and the `SIGI_STATE` script block every extractor cuts out of it.
 */
module Payload {
  import opened Wrappers
  import opened Text
  import opened Json

  /** What the HTTP GET of one video page produced. */
  datatype FetchOutcome = Response(status: int, body: string) | TransportError

  /**
   * The value `getHTML` returns: the string "DNE" for a 404, the decoded body
   * for a 200, and otherwise something that is not a string (the response
   * object itself, or None after an exception).
   */
  datatype Page = DNE | Html(text: string) | Other

  function GetHtml(f: FetchOutcome): (p: Page)
    ensures p == DNE <==> f.Response? && f.status == 404
    ensures p.Html? <==> f.Response? && f.status == 200
    ensures p.Html? ==> p.text == f.body
  {
    match f
    case Response(status, body) =>
      if status == 404 then DNE else if status == 200 then Html(body) else Other
    case TransportError => Other
  }

  /**
   * `html_data == "DNE"`: the extractors compare strings, so a 200 page whose
   * body is exactly "DNE" is taken for the sentinel as well.
   */
  predicate IsDneSentinel(p: Page) {
    p == DNE || p == Html("DNE")
  }

  const OpenMarker: string := "<script id=\"SIGI_STATE\" type=\"application/json\">"
  const CloseMarker: string := "</script>"

  /**
   * `html.split(open)[1].split(close)[0]`, with the IndexError (no `open`
   * in `html`) as None.
   */
  function Cut(html: string, open: string, close: string): Option<string>
    requires |open| > 0 && |close| > 0
  {
    var parts := Split(html, open);
    if |parts| < 2 then None else Some(Split(parts[1], close)[0])
  }

  /** The payload slice every extractor parses (lines 87, 112, 136, 167). */
  function Slice(html: string): Option<string> {
    Cut(html, OpenMarker, CloseMarker)
  }

  /** An occurrence inside a prefix is an occurrence in the whole string. */
  lemma MatchesInPrefix(s: string, k: nat, pat: string, j: int)
    requires k <= |s| && MatchesAt(s[..k], pat, j)
    ensures MatchesAt(s, pat, j)
  {
    assert s[..k][j..j + |pat|] == s[j..j + |pat|];
  }

  /** The first piece of a split is the prefix before the first separator, if any. */
  lemma FirstPiece(s: string, sep: string)
    requires |sep| > 0
    ensures var p := Split(s, sep)[0];
      && |p| <= |s| && p == s[..|p|]
      && (forall j :: !MatchesAt(p, sep, j))
      && (p == s || MatchesAt(s, sep, |p|))
  {
    var p := Split(s, sep)[0];
    match Find(s, sep)
    case None =>
    case Some(i) =>
      assert p == s[..i];
      forall j ensures !MatchesAt(p, sep, j) {
        if MatchesAt(p, sep, j) {
          MatchesInPrefix(s, i, sep, j);
        }
      }
  }

  /**
   * The cut is a prefix of the text after the first `open` that holds neither
   * marker and ends where one of them begins, or at the end; without an `open`
   * there is none. `PieceUnique` says when these conditions fix the cut.
   */
  lemma CutSpec(html: string, open: string, close: string)
    requires |open| > 0 && |close| > 0
    ensures Cut(html, open, close).None? <==> Find(html, open).None?
    ensures Find(html, open).Some? ==>
      var rest := html[Find(html, open).value + |open|..];
      var p := Cut(html, open, close).value;
      && |p| <= |rest| && p == rest[..|p|]
      && (forall j :: !MatchesAt(p, open, j))
      && (forall j :: !MatchesAt(p, close, j))
      && (p == rest || MatchesAt(rest, close, |p|) || MatchesAt(rest, open, |p|))
  {
    match Find(html, open)
    case None =>
    case Some(i) =>
      var rest := html[i + |open|..];
      assert Cut(html, open, close) == Some(Split(Split(rest, open)[0], close)[0]);
      BlockPiece(rest, open, close);
  }

  /** The first `close`-piece of the first `open`-piece of `rest`. */
  lemma BlockPiece(rest: string, open: string, close: string)
    requires |open| > 0 && |close| > 0
    ensures var p := Split(Split(rest, open)[0], close)[0];
      && |p| <= |rest| && p == rest[..|p|]
      && (forall j :: !MatchesAt(p, open, j))
      && (forall j :: !MatchesAt(p, close, j))
      && (p == rest || MatchesAt(rest, close, |p|) || MatchesAt(rest, open, |p|))
  {
    var block := Split(rest, open)[0];
    FirstPiece(rest, open);
    FirstPiece(block, close);
    PieceOfPiece(rest, block, Split(block, close)[0], open, close);
  }

  /** A piece `p` ending before `close` in a piece `block` ending before `open`. */
  lemma PieceOfPiece(rest: string, block: string, p: string, open: string, close: string)
    requires |block| <= |rest| && block == rest[..|block|]
    requires (forall j :: !MatchesAt(block, open, j)) && (block == rest || MatchesAt(rest, open, |block|))
    requires |p| <= |block| && p == block[..|p|]
    requires (forall j :: !MatchesAt(p, close, j)) && (p == block || MatchesAt(block, close, |p|))
    ensures |p| <= |rest| && p == rest[..|p|]
    ensures forall j :: !MatchesAt(p, open, j)
    ensures p == rest || MatchesAt(rest, close, |p|) || MatchesAt(rest, open, |p|)
  {
    assert p == rest[..|p|];
    forall j ensures !MatchesAt(p, open, j) {
      if MatchesAt(p, open, j) {
        MatchesInPrefix(block, |p|, open, j);
      }
    }
    if p != block {
      MatchesInPrefix(rest, |block|, close, |p|);
    }
  }

  /**
   * The payload is the text after the first opening marker, up to the first
   * closing marker or a second opening marker, whichever comes first (or to
   * the end); without an opening marker there is none.
   */
  lemma SliceSpec(html: string)
    ensures Slice(html).None? <==> Find(html, OpenMarker).None?
    ensures Find(html, OpenMarker).Some? ==>
      var rest := html[Find(html, OpenMarker).value + |OpenMarker|..];
      var p := Slice(html).value;
      && |p| <= |rest| && p == rest[..|p|]
      && (forall j :: !MatchesAt(p, OpenMarker, j))
      && (forall j :: !MatchesAt(p, CloseMarker, j))
      && (p == rest || MatchesAt(rest, CloseMarker, |p|) || MatchesAt(rest, OpenMarker, |p|))
  {
    CutSpec(html, OpenMarker, CloseMarker);
  }

  /**
   * `p` is a prefix of `rest` holding neither marker and ending where one of
   * them begins, or at the end of `rest`: the conditions `CutSpec` states.
   */
  ghost predicate Piece(rest: string, open: string, close: string, p: string) {
    && |p| <= |rest| && p == rest[..|p|]
    && (forall j :: !MatchesAt(p, open, j))
    && (forall j :: !MatchesAt(p, close, j))
    && (p == rest || MatchesAt(rest, close, |p|) || MatchesAt(rest, open, |p|))
  }

  /** The first character of `m` occurs nowhere else in it. */
  predicate LeadOnly(m: string) {
    |m| > 0 && forall i :: 0 < i < |m| ==> m[i] != m[0]
  }

  /** No marker with the same lead can begin strictly inside an occurrence of `m`. */
  lemma CutMarker(rest: string, m: string, m': string, k: nat, i: nat)
    requires LeadOnly(m) && |m'| > 0 && m'[0] == m[0]
    requires MatchesAt(rest, m, k) && k < i < k + |m|
    ensures !MatchesAt(rest, m', i)
  {
    assert rest[k..k + |m|][i - k] == m[i - k];
    assert rest[i] != m'[0];
  }

  /**
   * A longer prefix than a piece either contains a marker, where the piece
   * ends, or ends where no marker begins.
   */
  lemma LongerPrefix(rest: string, open: string, close: string, p: string, q: string)
    requires LeadOnly(open) && LeadOnly(close) && open[0] == close[0]
    requires Piece(rest, open, close, p)
    requires |p| < |q| <= |rest| && q == rest[..|q|]
    ensures || MatchesAt(q, open, |p|) || MatchesAt(q, close, |p|)
            || (q != rest && !MatchesAt(rest, close, |q|) && !MatchesAt(rest, open, |q|))
  {
    var m := if MatchesAt(rest, close, |p|) then close else open;
    assert MatchesAt(rest, m, |p|);
    if |p| + |m| <= |q| {
      assert q[|p|..|p| + |m|] == rest[|p|..|p| + |m|];
      assert MatchesAt(q, m, |p|);
    } else {
      CutMarker(rest, m, close, |p|, |q|);
      CutMarker(rest, m, open, |p|, |q|);
    }
  }

  /** When no marker occurrence can overlap another, the conditions have one solution. */
  lemma PieceUnique(rest: string, open: string, close: string, p: string, q: string)
    requires LeadOnly(open) && LeadOnly(close) && open[0] == close[0]
    requires Piece(rest, open, close, p) && Piece(rest, open, close, q)
    ensures p == q
  {
    if |p| < |q| {
      LongerPrefix(rest, open, close, p, q);
      assert false;
    } else if |q| < |p| {
      LongerPrefix(rest, open, close, q, p);
      assert false;
    }
  }

  /**
   * For the `SIGI_STATE` markers the conditions of `SliceSpec` determine the
   * slice: any prefix of the text after the first opening marker that meets
   * them is the slice itself.
   */
  lemma SliceUnique(html: string, p: string)
    requires Find(html, OpenMarker).Some?
    requires Piece(html[Find(html, OpenMarker).value + |OpenMarker|..], OpenMarker, CloseMarker, p)
    ensures Slice(html) == Some(p)
  {
    SliceSpec(html);
    MarkerLeads();
    var rest := html[Find(html, OpenMarker).value + |OpenMarker|..];
    assert Piece(rest, OpenMarker, CloseMarker, Slice(html).value);
    PieceUnique(rest, OpenMarker, CloseMarker, Slice(html).value, p);
  }

  /** Both script markers start with '<' and hold no other '<'. */
  lemma MarkerLeads()
    ensures LeadOnly(OpenMarker) && LeadOnly(CloseMarker) && OpenMarker[0] == CloseMarker[0]
  {
    var head, tail := "<script id=\"SIGI_STATE\"", " type=\"application/json\">";
    assert OpenMarker == head + tail;
    assert LeadOnly(head);
    assert head[0] == '<' && '<' !in tail;
    LeadOnlyConcat(head, tail);
  }

  /** Appending text without the lead character keeps it the only one. */
  lemma LeadOnlyConcat(head: string, tail: string)
    requires LeadOnly(head) && head[0] !in tail
    ensures LeadOnly(head + tail) && (head + tail)[0] == head[0]
  {
    forall i | 0 < i < |head + tail|
      ensures (head + tail)[i] != head[0]
    {
      if i >= |head| {
        assert (head + tail)[i] == tail[i - |head|];
      }
    }
  }

  /** `json.loads(<payload>)`: the parsed state of a page, when it has one. */
  function Root(page: Page, loads: string -> Option<Json>): (r: Option<Json>)
    ensures page.Html? && Slice(page.text).Some? ==> r == loads(Slice(page.text).value)
    ensures !page.Html? || Slice(page.text).None? ==> r.None?
  {
    if page.Html? then
      match Slice(page.text)
      case Some(raw) => loads(raw)
      case None => None
    else None
  }
}
