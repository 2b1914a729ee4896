/** `extract_birthplace`: a capture flag raised by the TEMPAT (or NEGERI ...
    LAHIR) label and lowered for good by the next field label. As for the full
    name, `Birthplace` states the result declaratively and the method
    `ExtractBirthplace` runs the source's loop and is proved to compute it. */
module Places {
  import opened Strings
  import opened Patterns

  /** The labels that end the birthplace field. */
  const PlaceStopWords: seq<String> :=
    ["WARGANEGARA", "KAD", "PENGENALAN", "JANTINA", "TARIKH", "BANGSA", "ALAMAT"]

  predicate EndsPlace(t: String) { ContainsAny(Upper(t), PlaceStopWords) }

  /** Tokens with TARIKH are skipped outright, so TARIKH LAHIR never opens the field. */
  predicate MentionsTarikh(t: String) { Contains(Upper(t), "TARIKH") }

  predicate IsPlaceLabel(t: String) {
    var u := Upper(t);
    Contains(u, "TEMPAT") || (Contains(u, "NEGERI") && Contains(u, "LAHIR"))
  }

  /** The token that raises the capture flag. */
  predicate OpensPlace(t: String) { !MentionsTarikh(t) && IsPlaceLabel(t) }

  /** What a token met while capturing must be to be appended. */
  predicate KeptInPlace(t: String) {
    && !MentionsTarikh(t) && !IsPlaceLabel(t) && !IsDateShaped(t)
    && |t| > 2 && Upper(t) != "NEGARA"
  }

  /** The tokens of `ts` that are kept, in their order. */
  function KeptPlaceTokens(ts: seq<String>): (r: seq<String>)
    ensures |r| <= |ts|
    ensures forall k | 0 <= k < |r| :: KeptInPlace(r[k]) && r[k] in ts
    decreases |ts|
  {
    if ts == [] then []
    else
      var init := KeptPlaceTokens(ts[..|ts| - 1]);
      var last := ts[|ts| - 1];
      if KeptInPlace(last) then init + [last] else init
  }

  /** A single token is kept exactly when it passes the filters. */
  lemma KeptPlaceTokensOne(t: String)
    ensures KeptPlaceTokens([t]) == if KeptInPlace(t) then [t] else []
  {
    assert [t][..0] == [];
  }

  /** Filtering two pieces one after the other keeps what each piece keeps,
      in order; with `KeptPlaceTokensOne`, this fixes the filter token by token. */
  lemma {:induction false} KeptPlaceTokensAppend(a: seq<String>, b: seq<String>)
    ensures KeptPlaceTokens(a + b) == KeptPlaceTokens(a) + KeptPlaceTokens(b)
    decreases |b|
  {
    if b == [] {
      assert a + b == a;
    } else {
      var b', last := b[..|b| - 1], b[|b| - 1];
      KeptPlaceTokensAppend(a, b');
      assert (a + b)[..|a + b| - 1] == a + b';
      assert (a + b)[|a + b| - 1] == last;
      var tail := if KeptInPlace(last) then [last] else [];
      calc {
        KeptPlaceTokens(a + b);
        KeptPlaceTokens(a + b') + tail;
        KeptPlaceTokens(a) + KeptPlaceTokens(b') + tail;
        KeptPlaceTokens(a) + (KeptPlaceTokens(b') + tail);
        KeptPlaceTokens(a) + KeptPlaceTokens(b);
      }
    }
  }

  lemma KeptPlaceTokensSnoc(texts: seq<String>, lo: nat, i: nat)
    requires lo <= i < |texts|
    ensures KeptPlaceTokens(texts[lo..i + 1]) ==
              KeptPlaceTokens(texts[lo..i]) + (if KeptInPlace(texts[i]) then [texts[i]] else [])
  {
    assert texts[lo..i + 1][..i - lo] == texts[lo..i];
  }

  /** Capture begins after the first opening label, if there is one. */
  function PlaceStart(texts: seq<String>): (r: Option<nat>)
    ensures r.Some? ==> 0 < r.value <= |texts| && OpensPlace(texts[r.value - 1])
    ensures r.Some? ==> forall k | 0 <= k < r.value - 1 :: !OpensPlace(texts[k])
    ensures r.None? ==> forall k | 0 <= k < |texts| :: !OpensPlace(texts[k])
  {
    match FindFrom(texts, OpensPlace, 0)
    case Some(i) => Some(i + 1)
    case None => None
  }

  /** Capture ends at the first field label from `lo` on, or at the end. */
  function PlaceEnd(texts: seq<String>, lo: nat): (hi: nat)
    requires lo <= |texts|
    ensures lo <= hi <= |texts|
    ensures forall k | lo <= k < hi :: !EndsPlace(texts[k])
    ensures hi < |texts| ==> EndsPlace(texts[hi])
  {
    match FindFrom(texts, EndsPlace, lo)
    case Some(j) => j
    case None => |texts|
  }

  /** The captured tokens: the window between start and end, filtered. */
  function PlaceParts(texts: seq<String>): seq<String> {
    match PlaceStart(texts)
    case None => []
    case Some(lo) => KeptPlaceTokens(texts[lo..PlaceEnd(texts, lo)])
  }

  /** `extract_birthplace(texts)`, stated declaratively. */
  function Birthplace(texts: seq<String>): Option<String> {
    var parts := PlaceParts(texts);
    if parts == [] then None else Some(Join(parts, " "))
  }

  /** `extract_birthplace(texts)`. Once raised the flag never drops, so the
      loop runs in two phases: looking for the opening label, then capturing up
      to the next field label. */
  method ExtractBirthplace(texts: seq<String>) returns (place: Option<String>)
    ensures place == Birthplace(texts)
  {
    var capture, lo := FindPlaceLabel(texts);
    var parts: seq<String> := [];
    if capture {
      parts := CapturePlace(texts, lo);
    }
    place := if parts == [] then None else Some(Join(parts, " "));
  }

  /** The loop before the flag is raised. Field labels do not stop it yet, and
      tokens with TARIKH are skipped before the label test. */
  method FindPlaceLabel(texts: seq<String>) returns (found: bool, lo: nat)
    ensures found <==> PlaceStart(texts).Some?
    ensures found ==> PlaceStart(texts) == Some(lo)
  {
    found, lo := false, 0;
    var i := 0;
    while i < |texts|
      invariant 0 <= i <= |texts|
      invariant forall k | 0 <= k < i :: !OpensPlace(texts[k])
    {
      var t := texts[i];
      if MentionsTarikh(t) {
        // skipped
      } else if IsPlaceLabel(t) {
        assert FindFrom(texts, OpensPlace, 0) == Some(i);
        found, lo := true, i + 1;
        return;
      }
      i := i + 1;
    }
  }

  /** The loop once the flag is raised: the kept tokens from `lo` up to the
      first field label. */
  method CapturePlace(texts: seq<String>, lo: nat) returns (parts: seq<String>)
    requires lo <= |texts|
    ensures parts == KeptPlaceTokens(texts[lo..PlaceEnd(texts, lo)])
  {
    parts := [];
    var i := lo;
    assert texts[lo..lo] == [];
    while i < |texts|
      invariant lo <= i <= |texts|
      invariant forall k | lo <= k < i :: !EndsPlace(texts[k])
      invariant parts == KeptPlaceTokens(texts[lo..i])
    {
      var t := texts[i];
      if EndsPlace(t) {
        PlaceEndAt(texts, lo, i);
        return;
      }
      KeptPlaceTokensSnoc(texts, lo, i);
      parts := AppendIfPlace(parts, t);
      i := i + 1;
    }
    PlaceEndAt(texts, lo, |texts|);
  }

  /** The tests a token met while capturing goes through. */
  method AppendIfPlace(parts: seq<String>, t: String) returns (r: seq<String>)
    ensures KeptInPlace(t) ==> r == parts + [t]
    ensures !KeptInPlace(t) ==> r == parts
  {
    r := parts;
    if MentionsTarikh(t) {
      // skipped
    } else if IsPlaceLabel(t) {
      // the flag is already raised
    } else if IsDateShaped(t) {
      // dates are skipped
    } else if |t| > 2 && Upper(t) != "NEGARA" {
      r := parts + [t];
    }
  }

  /** Capture from `lo` ends at `j` when `j` is the first field label from `lo` on. */
  lemma PlaceEndAt(texts: seq<String>, lo: nat, j: nat)
    requires lo <= j <= |texts|
    requires forall k | lo <= k < j :: !EndsPlace(texts[k])
    requires j < |texts| ==> EndsPlace(texts[j])
    ensures PlaceEnd(texts, lo) == j
  {
  }

  /** Every appended token comes after the opening label and before the first
      later field label, holds no TARIKH and no date, is longer than two
      characters and is not NEGARA. */
  lemma PlacePartsFiltered(texts: seq<String>)
    ensures PlaceStart(texts).None? ==> PlaceParts(texts) == []
    ensures forall k | 0 <= k < |PlaceParts(texts)| ::
              var p := PlaceParts(texts)[k];
              && p in texts[PlaceStart(texts).value..PlaceEnd(texts, PlaceStart(texts).value)]
              && !EndsPlace(p) && !MentionsTarikh(p) && !IsDateShaped(p)
              && |p| > 2 && Upper(p) != "NEGARA"
  {
    match PlaceStart(texts)
    case None =>
    case Some(lo) =>
      var window := texts[lo..PlaceEnd(texts, lo)];
      forall t | t in window ensures !EndsPlace(t) {
        var j :| 0 <= j < |window| && window[j] == t;
        assert texts[lo + j] == t;
      }
  }
}
