/** The five fixed regular expressions of the extractors, as predicates over
    ASCII strings. Every pattern starts and ends with `\b` around characters that
    are all word characters, so a match always begins where a run of word
    characters begins; for the variable-length ones it is exactly that maximal
    run. */
module Patterns {
  import opened Strings

  datatype Pattern =
    | DashedId     // \b\d{2}-\d{6}\b
    | BareId       // \b\d{8,12}\b
    | PassportRun  // \b[A-Z0-9]{6,9}\b
    | DashedDate   // \b\d{2}-\d{2}-\d{4}\b
    | EightDigits  // \b\d{8}\b

  /** End of the maximal run of word characters that starts at `i`. */
  function RunEnd(s: String, i: nat): (j: nat)
    requires i <= |s|
    ensures i <= j <= |s|
    ensures forall k | i <= k < j :: IsWordChar(s[k])
    ensures j == |s| || !IsWordChar(s[j])
    decreases |s| - i
  {
    if i < |s| && IsWordChar(s[i]) then RunEnd(s, i + 1) else i
  }

  /** `\b` in front of a word character at `i`. */
  predicate StartBoundary(s: String, i: nat) {
    i == 0 || (i <= |s| && !IsWordChar(s[i - 1]))
  }

  /** `\b` behind a word character that ends at `j`. */
  predicate EndBoundary(s: String, j: nat) {
    j >= |s| || !IsWordChar(s[j])
  }

  predicate DigitsIn(s: String, lo: nat, hi: nat)
    requires lo <= hi <= |s|
  {
    forall k | lo <= k < hi :: IsDigit(s[k])
  }

  predicate IsPassportChar(c: char) { IsUpperLetter(c) || IsDigit(c) }

  /** The pattern matches `s` starting at position `i`. */
  predicate MatchesAt(p: Pattern, s: String, i: nat) {
    && i < |s|
    && StartBoundary(s, i)
    && match p
       case DashedId =>
         && i + 9 <= |s| && DigitsIn(s, i, i + 2) && s[i + 2] == '-'
         && DigitsIn(s, i + 3, i + 9) && EndBoundary(s, i + 9)
       case BareId =>
         8 <= RunEnd(s, i) - i <= 12 && DigitsIn(s, i, RunEnd(s, i))
       case PassportRun =>
         && 6 <= RunEnd(s, i) - i <= 9
         && forall k | i <= k < RunEnd(s, i) :: IsPassportChar(s[k])
       case DashedDate =>
         && i + 10 <= |s| && DigitsIn(s, i, i + 2) && s[i + 2] == '-'
         && DigitsIn(s, i + 3, i + 5) && s[i + 5] == '-'
         && DigitsIn(s, i + 6, i + 10) && EndBoundary(s, i + 10)
       case EightDigits =>
         RunEnd(s, i) - i == 8 && DigitsIn(s, i, RunEnd(s, i))
  }

  /** Where a match that starts at `i` ends. */
  function MatchEnd(p: Pattern, s: String, i: nat): (j: nat)
    requires MatchesAt(p, s, i)
    ensures i < j <= |s|
  {
    match p
    case DashedId => i + 9
    case DashedDate => i + 10
    case _ => RunEnd(s, i)
  }

  /** The text a match of `p` consists of, whatever surrounds it. */
  predicate HasShape(p: Pattern, w: String) {
    match p
    case DashedId =>
      |w| == 9 && DigitsIn(w, 0, 2) && w[2] == '-' && DigitsIn(w, 3, 9)
    case BareId =>
      8 <= |w| <= 12 && DigitsIn(w, 0, |w|)
    case PassportRun =>
      6 <= |w| <= 9 && forall k | 0 <= k < |w| :: IsPassportChar(w[k])
    case DashedDate =>
      |w| == 10 && DigitsIn(w, 0, 2) && w[2] == '-' && DigitsIn(w, 3, 5) && w[5] == '-' && DigitsIn(w, 6, 10)
    case EightDigits =>
      |w| == 8 && DigitsIn(w, 0, 8)
  }

  /** The leftmost position at or after `from` where `p` matches. */
  function SearchFrom(p: Pattern, s: String, from: nat): (r: Option<nat>)
    ensures r.Some? ==> from <= r.value < |s| && MatchesAt(p, s, r.value)
    ensures r.Some? ==> forall k | from <= k < r.value :: !MatchesAt(p, s, k)
    ensures r.None? ==> forall k | from <= k < |s| :: !MatchesAt(p, s, k)
    decreases |s| - from
  {
    if from >= |s| then None
    else if MatchesAt(p, s, from) then Some(from)
    else SearchFrom(p, s, from + 1)
  }

  /** `re.search(p, s).group()`: the text of the leftmost match, if any. */
  function Search(p: Pattern, s: String): (m: Option<String>)
    ensures m.Some? ==> HasShape(p, m.value) && Contains(s, m.value)
    ensures m.None? <==> forall k | 0 <= k < |s| :: !MatchesAt(p, s, k)
    ensures m.Some? ==>
              exists i | 0 <= i < |s| && MatchesAt(p, s, i) ::
                && (forall k | 0 <= k < i :: !MatchesAt(p, s, k))
                && m.value == s[i..MatchEnd(p, s, i)]
  {
    match SearchFrom(p, s, 0)
    case None => None
    case Some(i) =>
      var j := MatchEnd(p, s, i);
      ContainsSlice(s, i, j);
      Some(s[i..j])
  }

  /** `re.search(r'\b\d{2}-\d{2}-\d{4}\b|\b\d{8}\b', t)` is not None. */
  predicate IsDateShaped(t: String) {
    exists i | 0 <= i < |t| :: MatchesAt(DashedDate, t, i) || MatchesAt(EightDigits, t, i)
  }

  /** Every date-shaped token holds a digit. */
  lemma DateShapedHasDigit(t: String)
    requires IsDateShaped(t)
    ensures HasDigit(t)
  {
    var i :| 0 <= i < |t| && (MatchesAt(DashedDate, t, i) || MatchesAt(EightDigits, t, i));
    assert IsDigit(t[i]);
  }

  /** `RunEnd` is the end of whatever maximal run of word characters starts at `i`. */
  lemma {:induction false} RunEndIs(s: String, i: nat, j: nat)
    requires i <= j <= |s|
    requires forall k | i <= k < j :: IsWordChar(s[k])
    requires j == |s| || !IsWordChar(s[j])
    ensures RunEnd(s, i) == j
    decreases j - i
  {
    if i < j {
      RunEndIs(s, i + 1, j);
    }
  }

  /** A match that starts at the very front is the leftmost one. */
  lemma SearchAtFront(p: Pattern, s: String)
    requires MatchesAt(p, s, 0)
    ensures Search(p, s) == Some(s[..MatchEnd(p, s, 0)])
  {
  }

  /** Of several matches, the one starting furthest left is returned. */
  lemma SearchLeftmost(p: Pattern, s: String, i: nat)
    requires i < |s| && MatchesAt(p, s, i)
    requires forall k | 0 <= k < i :: !MatchesAt(p, s, k)
    ensures Search(p, s) == Some(s[i..MatchEnd(p, s, i)])
  {
    var r := SearchFrom(p, s, 0);
    assert r.Some? && r.value <= i;
  }
}
