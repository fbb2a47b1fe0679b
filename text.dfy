/**
 * The Python string operations the scraper relies on: `str.find`,
 * `str.split(sep)` and `sep.join(parts)`.
 */
module Text {
  import opened Wrappers

  /** `pat` occurs in `s` at index `j`. */
  predicate MatchesAt(s: string, pat: string, j: int) {
    0 <= j && j + |pat| <= |s| && s[j..j + |pat|] == pat
  }

  /** An occurrence one place further along in `s` is an occurrence in `s[1..]`. */
  lemma MatchesAtTail(s: string, pat: string, j: int)
    requires |s| > 0 && 0 <= j
    ensures MatchesAt(s, pat, j + 1) <==> MatchesAt(s[1..], pat, j)
  {
    if j + 1 + |pat| <= |s| {
      assert s[j + 1..j + 1 + |pat|] == s[1..][j..j + |pat|];
    }
  }

  /** `s.find(pat)`, with -1 as None: the leftmost occurrence of `pat`. */
  function Find(s: string, pat: string): (r: Option<nat>)
    requires |pat| > 0
    ensures r.Some? ==> MatchesAt(s, pat, r.value) && forall j :: 0 <= j < r.value ==> !MatchesAt(s, pat, j)
    ensures r.None? ==> forall j :: !MatchesAt(s, pat, j)
    decreases |s|
  {
    if |s| < |pat| then None
    else if s[..|pat|] == pat then Some(0)
    else
      var r := Find(s[1..], pat);
      assert forall j :: 0 <= j ==> (MatchesAt(s, pat, j + 1) <==> MatchesAt(s[1..], pat, j)) by {
        forall j | 0 <= j ensures MatchesAt(s, pat, j + 1) <==> MatchesAt(s[1..], pat, j) {
          MatchesAtTail(s, pat, j);
        }
      }
      assert forall j :: MatchesAt(s, pat, j) ==> j > 0;
      assert forall j :: MatchesAt(s, pat, j) ==> MatchesAt(s[1..], pat, j - 1) by {
        forall j | MatchesAt(s, pat, j) ensures MatchesAt(s[1..], pat, j - 1) {
          MatchesAtTail(s, pat, j - 1);
        }
      }
      match r
      case Some(i) => Some(i + 1)
      case None => None
  }

  /** `sep.join(parts)` */
  function Join(parts: seq<string>, sep: string): string {
    if |parts| == 0 then ""
    else if |parts| == 1 then parts[0]
    else parts[0] + sep + Join(parts[1..], sep)
  }

  /**
   * `s.split(sep)`: the pieces between the occurrences of `sep`, found left to
   * right without overlap. There is always at least one piece, and joining the
   * pieces with `sep` gives `s` back.
   */
  function Split(s: string, sep: string): (parts: seq<string>)
    requires |sep| > 0
    ensures |parts| >= 1
    ensures Join(parts, sep) == s
    ensures Find(s, sep).None? ==> parts == [s]
    ensures Find(s, sep).Some? ==> |parts| >= 2 && parts[0] == s[..Find(s, sep).value]
    ensures Find(s, sep).Some? ==> parts[1..] == Split(s[Find(s, sep).value + |sep|..], sep)
    decreases |s|
  {
    match Find(s, sep)
    case None => [s]
    case Some(i) =>
      var rest := Split(s[i + |sep|..], sep);
      assert s == s[..i] + sep + s[i + |sep|..];
      assert ([s[..i]] + rest)[1..] == rest;
      [s[..i]] + rest
  }

  /**
   * Splitting on a one-character separator undoes joining with it, provided no
   * piece contains that character.
   */
  lemma {:induction false} SplitJoin(parts: seq<string>, sep: string)
    requires |sep| == 1 && |parts| >= 1
    requires forall i :: 0 <= i < |parts| ==> sep[0] !in parts[i]
    ensures Split(Join(parts, sep), sep) == parts
  {
    var p := parts[0];
    var s := Join(parts, sep);
    assert forall j :: 0 <= j < |p| ==> !MatchesAt(s, sep, j) by {
      forall j | 0 <= j < |p| ensures !MatchesAt(s, sep, j) {
        assert s[j] == p[j] by { assert s[..|p|] == p; }
        assert p[j] != sep[0];
        assert j + 1 <= |s| ==> s[j..j + 1][0] == s[j];
      }
    }
    if |parts| == 1 {
      assert forall j :: !MatchesAt(s, sep, j);
    } else {
      var rest := Join(parts[1..], sep);
      assert s == p + sep + rest;
      assert MatchesAt(s, sep, |p|) by { assert s[|p|..|p| + 1] == sep; }
      assert Find(s, sep) == Some(|p|);
      assert s[|p| + 1..] == rest;
      SplitJoin(parts[1..], sep);
      assert Split(s, sep) == [p] + parts[1..];
    }
  }
}
