/**
 * The java.lang.String operations the dispatcher relies on, on `string` (a
 * sequence of Unicode scalar values, where Java has UTF-16 code units; the two
 * agree on text without supplementary characters): `indexOf`, `contains`,
 * `trim`, `equalsIgnoreCase("su")` and `split` with a separator read literally.
 */
module JavaStrings {
  import opened Options

  /** `pat` occurs in `s` starting at index `i`. */
  predicate OccursAt(s: string, pat: string, i: nat) {
    i + |pat| <= |s| && s[i..i + |pat|] == pat
  }

  /** `s.indexOf(pat, from)`: the first index at or after `from` where `pat` occurs. */
  function IndexOfFrom(s: string, pat: string, from: nat): (r: Option<nat>)
    decreases |s| - from
    ensures r.Some? ==> from <= r.value && OccursAt(s, pat, r.value)
    ensures forall j: nat :: from <= j && (r.None? || j < r.value) ==> !OccursAt(s, pat, j)
  {
    if from + |pat| > |s| then None
    else if s[from..from + |pat|] == pat then Some(from)
    else IndexOfFrom(s, pat, from + 1)
  }

  /** `s.indexOf(pat)`. */
  function IndexOf(s: string, pat: string): (r: Option<nat>)
    ensures r.Some? ==> OccursAt(s, pat, r.value)
    ensures forall j: nat :: (r.None? || j < r.value) ==> !OccursAt(s, pat, j)
  {
    IndexOfFrom(s, pat, 0)
  }

  /** `s.contains(pat)`. */
  function Contains(s: string, pat: string): (b: bool)
    ensures b <==> exists j: nat :: OccursAt(s, pat, j)
  {
    IndexOf(s, pat).Some?
  }

  /** A one-character pattern occurs exactly where that character stands. */
  lemma SingleCharOccurrences(s: string, c: char)
    ensures forall j: nat :: OccursAt(s, [c], j) <==> j < |s| && s[j] == c
  {
  }

  /** Java's `trim` strips every character at or below U+0020. */
  predicate IsTrimmable(c: char) {
    c <= ' '
  }

  /** The number of trimmable characters at the front of `s`. */
  function LeadingBlanks(s: string): (k: nat)
    ensures k <= |s|
    ensures forall j :: 0 <= j < k ==> IsTrimmable(s[j])
    ensures k < |s| ==> !IsTrimmable(s[k])
  {
    if s == [] || !IsTrimmable(s[0]) then 0 else 1 + LeadingBlanks(s[1..])
  }

  /** The length of `s` once its trailing trimmable characters are cut. */
  function TrailingBlanksStart(s: string): (k: nat)
    ensures k <= |s|
    ensures forall j :: k <= j < |s| ==> IsTrimmable(s[j])
    ensures k > 0 ==> !IsTrimmable(s[k - 1])
  {
    if s == [] || !IsTrimmable(s[|s| - 1]) then |s| else TrailingBlanksStart(s[..|s| - 1])
  }

  /**
   * `s.trim()`: the slice of `s` left once the trimmable characters at both ends
   * are cut, so that it neither starts nor ends with one.
   */
  function Trim(s: string): (r: string)
    ensures exists i, j ::
              && 0 <= i <= j <= |s| && r == s[i..j]
              && (forall k :: 0 <= k < i ==> IsTrimmable(s[k]))
              && (forall k :: j <= k < |s| ==> IsTrimmable(s[k]))
    ensures r == [] || (!IsTrimmable(r[0]) && !IsTrimmable(r[|r| - 1]))
    ensures s != [] && !IsTrimmable(s[0]) ==> r != [] && r[0] == s[0]
    ensures (forall j :: 0 <= j < |s| ==> !IsTrimmable(s[j])) ==> r == s
  {
    var rest := s[LeadingBlanks(s)..];
    TrimBounds(s, LeadingBlanks(s), rest, TrailingBlanksStart(rest));
    rest[..TrailingBlanksStart(rest)]
  }

  /** Cutting `rest`, the part of `s` from `i` on, at `t` is one slice of `s` with only blanks after it. */
  lemma TrimBounds(s: string, i: nat, rest: string, t: nat)
    requires i <= |s| && rest == s[i..] && t <= |rest|
    requires forall k :: t <= k < |rest| ==> IsTrimmable(rest[k])
    ensures rest[..t] == s[i..i + t]
    ensures forall k :: i + t <= k < |s| ==> IsTrimmable(s[k])
  {
    forall k | i + t <= k < |s| ensures IsTrimmable(s[k]) {
      assert s[k] == rest[k - i];
    }
  }

  /**
   * The contract of `trim` leaves it no choice: any string that is a slice of
   * `" su "` between blank runs, and that neither starts nor ends with a blank,
   * is `"su"`.
   */
  lemma TrimExample(r: string)
    requires exists i, j ::
               && 0 <= i <= j <= 4 && r == " su "[i..j]
               && (forall k :: 0 <= k < i ==> IsTrimmable(" su "[k]))
               && (forall k :: j <= k < 4 ==> IsTrimmable(" su "[k]))
    requires r == [] || (!IsTrimmable(r[0]) && !IsTrimmable(r[|r| - 1]))
    ensures r == "su"
  {
    var i, j :| 0 <= i <= j <= 4 && r == " su "[i..j] &&
      (forall k :: 0 <= k < i ==> IsTrimmable(" su "[k])) && (forall k :: j <= k < 4 ==> IsTrimmable(" su "[k]));
    assert !IsTrimmable(" su "[1]) && !IsTrimmable(" su "[2]);
    assert i <= 1 && 3 <= j;
    assert r != [];
  }

  /**
   * `s.equalsIgnoreCase("su")`. Java compares the upper and then the lower case
   * of each character, so besides s/S the long s U+017F (whose upper case is
   * 'S') matches the first letter; only u/U match the second.
   */
  function EqualsIgnoreCaseSu(s: string): (b: bool)
    ensures b <==> s in {"su", "sU", "Su", "SU", "ſu", "ſU"}
  {
    assert |s| == 2 ==> s == [s[0], s[1]];
    |s| == 2 && (s[0] == 's' || s[0] == 'S' || s[0] == 'ſ') && (s[1] == 'u' || s[1] == 'U')
  }

  /** Every piece between occurrences of `sep`, taken leftmost first; the empty ones included. */
  function Pieces(s: string, sep: string): (r: seq<string>)
    requires |sep| > 0
    decreases |s|
    ensures |r| >= 1
  {
    match IndexOf(s, sep)
    case None => [s]
    case Some(i) => [s[..i]] + Pieces(s[i + |sep|..], sep)
  }

  /**
   * The cut is always at the leftmost occurrence, as Java's matcher makes it: the
   * first piece runs up to the first occurrence of `sep`, and the other pieces
   * are those of the text after that occurrence. Without an occurrence the one
   * piece is the whole text.
   */
  lemma PiecesCutLeftmost(s: string, sep: string)
    requires |sep| > 0
    ensures !Contains(s, sep) ==> Pieces(s, sep) == [s]
    ensures Contains(s, sep) ==>
      var ps := Pieces(s, sep);
      var i := |ps[0]|;
      |ps| >= 2 && OccursAt(s, sep, i) && s[..i] == ps[0] &&
      (forall j: nat :: j < i ==> !OccursAt(s, sep, j)) &&
      ps[1..] == Pieces(s[i + |sep|..], sep)
  {
  }

  /** The pieces glued back together with `sep` between neighbours. */
  function Join(xs: seq<string>, sep: string): string {
    if |xs| == 0 then ""
    else if |xs| == 1 then xs[0]
    else xs[0] + sep + Join(xs[1..], sep)
  }

  /** What `String.split` removes: the empty strings at the end of the piece list. */
  function DropTrailingEmpty(xs: seq<string>): (r: seq<string>)
    ensures |r| <= |xs| && r == xs[..|r|]
    ensures forall k :: |r| <= k < |xs| ==> xs[k] == ""
    ensures r == [] || r[|r| - 1] != ""
  {
    if xs == [] then []
    else if xs[|xs| - 1] == "" then DropTrailingEmpty(xs[..|xs| - 1])
    else xs
  }

  /**
   * `s.split(sep)` with the separator read literally: the input itself when the
   * separator does not occur, otherwise the pieces up to the last non-empty one.
   */
  function Split(s: string, sep: string): (r: seq<string>)
    requires |sep| > 0
    ensures !Contains(s, sep) ==> r == [s]
    ensures Contains(s, sep) ==>
      |r| <= |Pieces(s, sep)| && r == Pieces(s, sep)[..|r|] &&
      (forall k :: |r| <= k < |Pieces(s, sep)| ==> Pieces(s, sep)[k] == "") &&
      (r == [] || r[|r| - 1] != "")
  {
    if !Contains(s, sep) then [s] else DropTrailingEmpty(Pieces(s, sep))
  }

  /** Joining a non-empty list behind a first piece puts one separator between them. */
  lemma JoinCons(head: string, xs: seq<string>, sep: string)
    requires |xs| >= 1
    ensures Join([head] + xs, sep) == head + sep + Join(xs, sep)
  {
  }

  /** A string is its part before an occurrence, the occurrence and the part after it. */
  lemma CutAround(s: string, sep: string, i: nat)
    requires OccursAt(s, sep, i)
    ensures s == s[..i] + sep + s[i + |sep|..]
  {
  }

  /** Gluing the pieces back together gives the input. */
  lemma {:induction false} JoinPieces(s: string, sep: string)
    requires |sep| > 0
    decreases |s|
    ensures Join(Pieces(s, sep), sep) == s
  {
    match IndexOf(s, sep)
    case None =>
    case Some(i) =>
      var rest := s[i + |sep|..];
      JoinPieces(rest, sep);
      JoinCons(s[..i], Pieces(rest, sep), sep);
      CutAround(s, sep, i);
  }

  /** No piece contains a whole separator. */
  lemma {:induction false} PiecesAreSeparatorFree(s: string, sep: string)
    requires |sep| > 0
    decreases |s|
    ensures forall k :: 0 <= k < |Pieces(s, sep)| ==> !Contains(Pieces(s, sep)[k], sep)
  {
    match IndexOf(s, sep)
    case None =>
    case Some(i) =>
      var rest := s[i + |sep|..];
      PiecesAreSeparatorFree(rest, sep);
      var head := s[..i];
      forall j: nat | OccursAt(head, sep, j)
        ensures false
      {
        assert head[j..j + |sep|] == s[j..j + |sep|];
        assert OccursAt(s, sep, j);
      }
      assert Pieces(s, sep) == [head] + Pieces(rest, sep);
  }

  /** No element of a split holds the separator. */
  lemma SplitIsSeparatorFree(s: string, sep: string)
    requires |sep| > 0
    ensures forall k :: 0 <= k < |Split(s, sep)| ==> !Contains(Split(s, sep)[k], sep)
  {
    PiecesAreSeparatorFree(s, sep);
    var ps, r := Pieces(s, sep), Split(s, sep);
    if Contains(s, sep) {
      forall k | 0 <= k < |r|
        ensures !Contains(r[k], sep)
      {
        assert r[k] == ps[k];
      }
    }
  }
}
