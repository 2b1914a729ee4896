/** `extract_date_of_birth`, `extract_date_of_issue` and `extract_date_of_expiry`:
    find a label token, then look at no more than the three tokens after it for a
    date-shaped token, which is returned whole. Only the date of birth falls back
    to the first date-shaped token anywhere. */
module Dates {
  import opened Strings
  import opened Patterns

  datatype Field = Birth | Issue | Expiry

  /** The label tokens that open each field's look-ahead window. */
  predicate IsAnchor(f: Field, t: String) {
    var u := Upper(t);
    match f
    case Birth => u == "TARIKH LAHIR" || u == "TARIKH" || u == "DATE OF BIRTH"
    case Issue => Contains(u, "DIKELUARKAN") || Contains(u, "ISSUE")
    case Expiry => Contains(u, "MANSUH") || Contains(u, "EXPIRY")
  }

  /** `min(i + 4, len(texts))`: the window after position `i` holds at most three tokens. */
  function WindowEnd(texts: seq<String>, i: nat): (hi: nat)
    requires i < |texts|
    ensures i < hi <= |texts| && hi <= i + 4
    ensures hi == i + 4 || hi == |texts|
  {
    if i + 4 < |texts| then i + 4 else |texts|
  }

  /** The first date-shaped token among `texts[lo..hi]`. */
  function FirstDateIn(texts: seq<String>, lo: nat, hi: nat): (r: Option<nat>)
    requires hi <= |texts|
    ensures r.Some? ==> lo <= r.value < hi && IsDateShaped(texts[r.value])
    ensures r.Some? ==> forall k | lo <= k < r.value :: !IsDateShaped(texts[k])
    ensures r.None? ==> forall k | lo <= k < hi :: !IsDateShaped(texts[k])
  {
    FindFrom(texts[..hi], IsDateShaped, lo)
  }

  /** Token `i` is a label of `f` whose window holds a date. */
  predicate AnchorsDate(texts: seq<String>, f: Field, i: nat) {
    i < |texts| && IsAnchor(f, texts[i]) && FirstDateIn(texts, i + 1, WindowEnd(texts, i)).Some?
  }

  /** The first label at or after `from` whose window holds a date; labels with
      an empty window are passed over. */
  function AnchorFrom(texts: seq<String>, f: Field, from: nat): (r: Option<nat>)
    ensures r.Some? ==> from <= r.value < |texts| && AnchorsDate(texts, f, r.value)
    ensures r.Some? ==> forall i | from <= i < r.value :: !AnchorsDate(texts, f, i)
    ensures r.None? ==> forall i | from <= i < |texts| :: !AnchorsDate(texts, f, i)
    decreases |texts| - from
  {
    if from >= |texts| then None
    else if AnchorsDate(texts, f, from) then Some(from)
    else AnchorFrom(texts, f, from + 1)
  }

  /** The labelled look-ahead search shared by the three extractors. */
  function LabelledDate(texts: seq<String>, f: Field): (r: Option<String>)
    ensures r.Some? ==>
              exists i, j | 0 <= i < j < |texts| && j <= i + 3 ::
                IsAnchor(f, texts[i]) && texts[j] == r.value && IsDateShaped(r.value)
    ensures r.None? <==>
              forall i, j | 0 <= i < j < |texts| && j <= i + 3 ::
                IsAnchor(f, texts[i]) ==> !IsDateShaped(texts[j])
  {
    match AnchorFrom(texts, f, 0)
    case None =>
      assert forall i, j | 0 <= i < j < |texts| && j <= i + 3 && IsAnchor(f, texts[i]) ::
        !IsDateShaped(texts[j]) by {
        forall i, j | 0 <= i < j < |texts| && j <= i + 3 && IsAnchor(f, texts[i])
          ensures !IsDateShaped(texts[j])
        {
          assert !AnchorsDate(texts, f, i);
        }
      }
      None
    case Some(i) =>
      var j := FirstDateIn(texts, i + 1, WindowEnd(texts, i)).value;
      Some(texts[j])
  }

  /** The first date-shaped token anywhere. */
  function FirstDate(texts: seq<String>): (r: Option<String>)
    ensures r.Some? ==> r.value in texts && IsDateShaped(r.value)
    ensures r.Some? ==>
              exists k | 0 <= k < |texts| ::
                texts[k] == r.value && forall j | 0 <= j < k :: !IsDateShaped(texts[j])
    ensures r.None? <==> forall k | 0 <= k < |texts| :: !IsDateShaped(texts[k])
  {
    match FindFrom(texts, IsDateShaped, 0)
    case Some(k) => Some(texts[k])
    case None => None
  }

  /** `extract_date_of_birth(texts)`: a labelled date takes precedence over the
      first date-shaped token anywhere, so the result is absent only when no
      token holds a date at all. */
  function DateOfBirth(texts: seq<String>): (r: Option<String>)
    ensures r.Some? ==> r.value in texts && IsDateShaped(r.value)
    ensures r.None? <==> forall k | 0 <= k < |texts| :: !IsDateShaped(texts[k])
    ensures LabelledDate(texts, Birth).Some? ==> r == LabelledDate(texts, Birth)
    ensures LabelledDate(texts, Birth).None? ==> r == FirstDate(texts)
  {
    var labelled := LabelledDate(texts, Birth);
    if labelled.Some? then labelled else FirstDate(texts)
  }

  /** `extract_date_of_issue(texts)`: no fallback, so without a DIKELUARKAN or
      ISSUE label nothing is found. */
  function DateOfIssue(texts: seq<String>): (r: Option<String>)
    ensures r.Some? ==>
              exists i, j | 0 <= i < j < |texts| && j <= i + 3 ::
                IsAnchor(Issue, texts[i]) && texts[j] == r.value && IsDateShaped(r.value)
    ensures (forall i | 0 <= i < |texts| :: !IsAnchor(Issue, texts[i])) ==> r.None?
    ensures r.None? <==>
              forall i, j | 0 <= i < j < |texts| && j <= i + 3 ::
                IsAnchor(Issue, texts[i]) ==> !IsDateShaped(texts[j])
    ensures r == LabelledDate(texts, Issue)
  {
    LabelledDate(texts, Issue)
  }

  /** `extract_date_of_expiry(texts)`: as for the date of issue, anchored on
      MANSUH or EXPIRY. */
  function DateOfExpiry(texts: seq<String>): (r: Option<String>)
    ensures r.Some? ==>
              exists i, j | 0 <= i < j < |texts| && j <= i + 3 ::
                IsAnchor(Expiry, texts[i]) && texts[j] == r.value && IsDateShaped(r.value)
    ensures (forall i | 0 <= i < |texts| :: !IsAnchor(Expiry, texts[i])) ==> r.None?
    ensures r.None? <==>
              forall i, j | 0 <= i < j < |texts| && j <= i + 3 ::
                IsAnchor(Expiry, texts[i]) ==> !IsDateShaped(texts[j])
    ensures r == LabelledDate(texts, Expiry)
  {
    LabelledDate(texts, Expiry)
  }

  /** The first label whose window holds a date decides, and within that window
      the first date wins. */
  lemma {:induction false} FirstAnchoredDateWins(texts: seq<String>, f: Field, i: nat, j: nat)
    requires i < j < |texts| && j <= i + 3
    requires IsAnchor(f, texts[i]) && IsDateShaped(texts[j])
    requires forall k | i < k < j :: !IsDateShaped(texts[k])
    requires forall a | 0 <= a < i :: !AnchorsDate(texts, f, a)
    ensures LabelledDate(texts, f) == Some(texts[j])
  {
    FirstDateInWindow(texts, i, j);
    assert AnchorsDate(texts, f, i);
    FirstAnchorFound(texts, f, i);
  }

  /** Within label `i`'s window, the first date-shaped token is found. */
  lemma FirstDateInWindow(texts: seq<String>, i: nat, j: nat)
    requires i < j < |texts| && j <= i + 3 && IsDateShaped(texts[j])
    requires forall k | i < k < j :: !IsDateShaped(texts[k])
    ensures FirstDateIn(texts, i + 1, WindowEnd(texts, i)) == Some(j)
  {
    var d := FirstDateIn(texts, i + 1, WindowEnd(texts, i));
    assert d.Some? && d.value <= j;
  }

  /** The search for a label starting at the front stops at the first label with a date. */
  lemma FirstAnchorFound(texts: seq<String>, f: Field, i: nat)
    requires AnchorsDate(texts, f, i)
    requires forall a | 0 <= a < i :: !AnchorsDate(texts, f, a)
    ensures AnchorFrom(texts, f, 0) == Some(i)
  {
    var r := AnchorFrom(texts, f, 0);
    assert r.Some?;
    assert r.value <= i;
  }
}
