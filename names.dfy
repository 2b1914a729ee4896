/** `extract_full_name` and `split_name`.

    The full name is captured by a small state machine: a flag `capture` is
    raised by the NAMA label (or, when no token mentions a name label, by the
    token that holds the identity number), every later token that passes the
    filters is appended, and the first field label stops the scan. The
    function `FullName` states the same result declaratively: the filtered
    tokens of one window of the input; the method `ExtractFullName` runs the
    loop and is proved to compute it. */
module Names {
  import opened Strings
  import opened Numbers
  import opened Patterns

  /** `text.upper() in ['NAMA', 'NAME'] or 'NAMA' in text.upper()`: the label that starts capture. */
  predicate IsNameLabel(t: String) {
    var u := Upper(t);
    u == "NAMA" || u == "NAME" || Contains(u, "NAMA")
  }

  /** `'NAMA' in t.upper() or 'NAME' in t.upper()`: a token that rules out the fallback. */
  predicate MentionsName(t: String) {
    Contains(Upper(t), "NAMA") || Contains(Upper(t), "NAME")
  }

  predicate HasNameLabel(texts: seq<String>) {
    exists k | 0 <= k < |texts| :: MentionsName(texts[k])
  }

  /** The labels that end the name field. */
  const NameStopWords: seq<String> :=
    ["JANTINA", "TARIKH", "LAHIR", "TEMPAT", "NEGERI", "WARGANEGARA", "GENDER", "DATE", "MUKIM", "ALAMAT"]

  /** The card's printed headings, never part of a name. */
  const HeadingWords: seq<String> := ["KAD", "PENGENALAN", "NEGARA", "BRUNEI", "DARUSSALAM", "NAMA"]

  predicate EndsName(t: String) { ContainsAny(Upper(t), NameStopWords) }

  /** The filters a token inside the window must pass to be appended. */
  predicate KeptInName(t: String, id: Option<String>) {
    && |t| > 2
    && !ContainsAny(Upper(t), HeadingWords)
    && !(id.Some? && Contains(RemoveSpaces(id.value), RemoveSpaces(t)))
    && !HasDigit(t)
  }

  /** The tokens of `ts` that pass the filters, in their order. */
  function KeptNameTokens(ts: seq<String>, id: Option<String>): (r: seq<String>)
    ensures |r| <= |ts|
    ensures forall k | 0 <= k < |r| :: KeptInName(r[k], id) && r[k] in ts
    decreases |ts|
  {
    if ts == [] then []
    else
      var init := KeptNameTokens(ts[..|ts| - 1], id);
      var last := ts[|ts| - 1];
      if KeptInName(last, id) then init + [last] else init
  }

  /** Extending the window by one token appends that token exactly when it is kept. */
  lemma KeptNameTokensSnoc(texts: seq<String>, lo: nat, i: nat, id: Option<String>)
    requires lo <= i < |texts|
    ensures KeptNameTokens(texts[lo..i + 1], id) ==
              KeptNameTokens(texts[lo..i], id) + (if KeptInName(texts[i], id) then [texts[i]] else [])
  {
    assert texts[lo..i + 1][..i - lo] == texts[lo..i];
  }

  /** A single token is kept exactly when it passes the filters. */
  lemma KeptNameTokensOne(t: String, id: Option<String>)
    ensures KeptNameTokens([t], id) == if KeptInName(t, id) then [t] else []
  {
    assert [t][..0] == [];
  }

  /** Filtering two pieces one after the other keeps what each piece keeps,
      in order; with `KeptNameTokensOne`, this fixes the filter token by token. */
  lemma {:induction false} KeptNameTokensAppend(a: seq<String>, b: seq<String>, id: Option<String>)
    ensures KeptNameTokens(a + b, id) == KeptNameTokens(a, id) + KeptNameTokens(b, id)
    decreases |b|
  {
    if b == [] {
      assert a + b == a;
    } else {
      var b', last := b[..|b| - 1], b[|b| - 1];
      KeptNameTokensAppend(a, b', id);
      assert (a + b)[..|a + b| - 1] == a + b';
      assert (a + b)[|a + b| - 1] == last;
      var tail := if KeptInName(last, id) then [last] else [];
      calc {
        KeptNameTokens(a + b, id);
        KeptNameTokens(a + b', id) + tail;
        KeptNameTokens(a, id) + KeptNameTokens(b', id) + tail;
        KeptNameTokens(a, id) + (KeptNameTokens(b', id) + tail);
        KeptNameTokens(a, id) + KeptNameTokens(b, id);
      }
    }
  }

  /** The first token that contains `id`, raw spaces included. */
  function FirstHolding(texts: seq<String>, id: String, from: nat): (r: Option<nat>)
    ensures r.Some? ==> from <= r.value < |texts| && Contains(texts[r.value], id)
    ensures r.Some? ==> forall k | from <= k < r.value :: !Contains(texts[k], id)
    ensures r.None? ==> forall k | from <= k < |texts| :: !Contains(texts[k], id)
    decreases |texts| - from
  {
    if from >= |texts| then None
    else if Contains(texts[from], id) then Some(from)
    else FirstHolding(texts, id, from + 1)
  }

  /** The fallback applies when no token mentions a name label and an identity
      number was found. */
  predicate UsesIdFallback(texts: seq<String>) {
    !HasNameLabel(texts) && ExtractIdNumber(texts).Some?
  }

  /** After the first name label, if there is one. */
  function LabelStart(texts: seq<String>): (r: Option<nat>)
    ensures r.Some? ==> 0 < r.value <= |texts| && IsNameLabel(texts[r.value - 1])
    ensures r.Some? ==> forall k | 0 <= k < r.value - 1 :: !IsNameLabel(texts[k])
    ensures r.None? <==> forall k | 0 <= k < |texts| :: !IsNameLabel(texts[k])
  {
    match FindFrom(texts, IsNameLabel, 0)
    case Some(i) => Some(i + 1)
    case None => None
  }

  /** Where capture begins: after the first name label, or under the fallback
      after the first token holding the identity number; nowhere if neither exists. */
  function NameStart(texts: seq<String>): (r: Option<nat>)
    ensures r.Some? ==> 0 < r.value <= |texts|
    ensures !UsesIdFallback(texts) ==> r == LabelStart(texts)
    ensures UsesIdFallback(texts) && r.Some? ==>
              var id := ExtractIdNumber(texts).value;
              Contains(texts[r.value - 1], id) && forall k | 0 <= k < r.value - 1 :: !Contains(texts[k], id)
    ensures UsesIdFallback(texts) && r.None? ==>
              forall k | 0 <= k < |texts| :: !Contains(texts[k], ExtractIdNumber(texts).value)
  {
    if UsesIdFallback(texts) then
      match FirstHolding(texts, ExtractIdNumber(texts).value, 0)
      case Some(i) => Some(i + 1)
      case None => None
    else LabelStart(texts)
  }

  /** Where capture ends: at the first field label from `lo` on, or at the end. */
  function NameEnd(texts: seq<String>, lo: nat): (hi: nat)
    requires lo <= |texts|
    ensures lo <= hi <= |texts|
    ensures forall k | lo <= k < hi :: !EndsName(texts[k])
    ensures hi < |texts| ==> EndsName(texts[hi])
  {
    match FindFrom(texts, EndsName, lo)
    case Some(j) => j
    case None => |texts|
  }

  /** The tokens captured when capture begins at `start`: the window up to the
      next field label, filtered. */
  function CapturedFrom(texts: seq<String>, start: Option<nat>, id: Option<String>): seq<String>
    requires start.Some? ==> start.value <= |texts|
  {
    match start
    case None => []
    case Some(lo) => KeptNameTokens(texts[lo..NameEnd(texts, lo)], id)
  }

  /** The captured tokens of `extract_full_name`. */
  function NameParts(texts: seq<String>): seq<String> {
    CapturedFrom(texts, NameStart(texts), ExtractIdNumber(texts))
  }

  /** `extract_full_name(texts)`, stated declaratively. */
  function FullName(texts: seq<String>): Option<String> {
    var parts := NameParts(texts);
    if parts == [] then None else Some(Join(parts, " "))
  }

  /** A label that starts capture is also one that rules out the fallback. */
  lemma NameLabelMentionsName(t: String)
    requires IsNameLabel(t)
    ensures MentionsName(t)
  {
    var u := Upper(t);
    if u == "NAMA" {
      ContainsSelf(u);
    } else if u == "NAME" {
      ContainsSelf(u);
    }
  }

  /** `extract_full_name(texts)`. */
  method ExtractFullName(texts: seq<String>) returns (name: Option<String>)
    ensures name == FullName(texts)
  {
    var id := ExtractIdNumber(texts);
    var hasNama := HasNameLabel(texts);
    var start, capture := 0, false;
    if !hasNama && id.Some? {
      start, capture := FindIdToken(texts, id.value);
      if !capture {
        NoLabelWithoutMention(texts);
      }
    }
    assert NameStart(texts) == if capture then Some(start) else LabelStart(texts);
    var parts := CaptureName(texts, id, start, capture);
    assert parts == NameParts(texts);
    name := if parts == [] then None else Some(Join(parts, " "));
  }

  /** Without any token mentioning NAMA or NAME there is no name label. */
  lemma NoLabelWithoutMention(texts: seq<String>)
    requires !HasNameLabel(texts)
    ensures LabelStart(texts) == None
  {
    forall k | 0 <= k < |texts| ensures !IsNameLabel(texts[k]) {
      if IsNameLabel(texts[k]) {
        NameLabelMentionsName(texts[k]);
      }
    }
  }

  /** The fallback loop: capture starts after the first token holding the number. */
  method FindIdToken(texts: seq<String>, id: String) returns (start: nat, capture: bool)
    ensures capture <==> FirstHolding(texts, id, 0).Some?
    ensures capture ==> start == FirstHolding(texts, id, 0).value + 1
    ensures !capture ==> start == 0
  {
    start, capture := 0, false;
    var i := 0;
    while i < |texts|
      invariant 0 <= i <= |texts|
      invariant forall k | 0 <= k < i :: !Contains(texts[k], id)
    {
      if Contains(texts[i], id) {
        start, capture := i + 1, true;
        assert FirstHolding(texts, id, 0) == Some(i);
        return;
      }
      i := i + 1;
    }
  }

  /** The capture loop, entered with the state the fallback left: capturing from
      `start`, or not yet capturing and scanning from the first token. Once
      raised the flag never drops, so the loop runs in two phases: looking for
      the name label, then capturing up to the next field label. */
  method CaptureName(texts: seq<String>, id: Option<String>, start: nat, capture: bool)
    returns (parts: seq<String>)
    requires capture ==> start <= |texts|
    requires !capture ==> start == 0
    ensures parts == CapturedFrom(texts, if capture then Some(start) else LabelStart(texts), id)
  {
    var lo := start;
    var capturing := capture;
    if !capturing {
      capturing, lo := FindNameLabel(texts);
    }
    if !capturing {
      parts := [];
    } else {
      parts := CaptureWindow(texts, id, lo);
    }
  }

  /** The loop before the flag is raised: the token after the first name label. */
  method FindNameLabel(texts: seq<String>) returns (found: bool, lo: nat)
    ensures found <==> LabelStart(texts).Some?
    ensures found ==> LabelStart(texts) == Some(lo)
  {
    found, lo := false, 0;
    var i := 0;
    while i < |texts|
      invariant 0 <= i <= |texts|
      invariant forall k | 0 <= k < i :: !IsNameLabel(texts[k])
    {
      if IsNameLabel(texts[i]) {
        found, lo := true, i + 1;
        return;
      }
      i := i + 1;
    }
  }

  /** The loop once the flag is raised: the filtered tokens from `lo` up to the
      first field label. */
  method CaptureWindow(texts: seq<String>, id: Option<String>, lo: nat) returns (parts: seq<String>)
    requires lo <= |texts|
    ensures parts == KeptNameTokens(texts[lo..NameEnd(texts, lo)], id)
  {
    parts := [];
    var i := lo;
    assert texts[lo..lo] == [];
    while i < |texts|
      invariant lo <= i <= |texts|
      invariant forall k | lo <= k < i :: !EndsName(texts[k])
      invariant parts == KeptNameTokens(texts[lo..i], id)
    {
      var t := texts[i];
      if EndsName(t) {
        NameEndAt(texts, lo, i);
        return;
      }
      KeptNameTokensSnoc(texts, lo, i, id);
      parts := AppendIfKept(parts, t, id);
      i := i + 1;
    }
    NameEndAt(texts, lo, |texts|);
  }

  /** The filters of the capture loop, applied to one token. */
  method AppendIfKept(parts: seq<String>, t: String, id: Option<String>) returns (r: seq<String>)
    ensures KeptInName(t, id) ==> r == parts + [t]
    ensures !KeptInName(t, id) ==> r == parts
  {
    r := parts;
    if |t| > 2 && !ContainsAny(Upper(t), HeadingWords) {
      if id.Some? && Contains(RemoveSpaces(id.value), RemoveSpaces(t)) {
        // the token is part of the identity number
      } else if HasDigit(t) {
        // names carry no digits
      } else {
        r := parts + [t];
      }
    }
  }

  /** Every captured token passed the filters, lies in the window before the
      first field label, and so itself contains no field label. */
  lemma NamePartsFiltered(texts: seq<String>)
    ensures forall k | 0 <= k < |NameParts(texts)| ::
              var p := NameParts(texts)[k];
              && p in texts && |p| > 2 && !HasDigit(p) && !EndsName(p)
              && !ContainsAny(Upper(p), HeadingWords)
              && !(ExtractIdNumber(texts).Some? &&
                   Contains(RemoveSpaces(ExtractIdNumber(texts).value), RemoveSpaces(p)))
  {
    match NameStart(texts)
    case None =>
    case Some(lo) =>
      WindowPartsInTexts(texts, lo, ExtractIdNumber(texts));
  }

  /** The kept tokens of a window come from the input and hold no field label. */
  lemma WindowPartsInTexts(texts: seq<String>, lo: nat, id: Option<String>)
    requires lo <= |texts|
    ensures var parts := KeptNameTokens(texts[lo..NameEnd(texts, lo)], id);
            forall k | 0 <= k < |parts| :: parts[k] in texts && !EndsName(parts[k])
  {
    var window := texts[lo..NameEnd(texts, lo)];
    var parts := KeptNameTokens(window, id);
    forall k | 0 <= k < |parts| ensures parts[k] in texts && !EndsName(parts[k]) {
      var j :| 0 <= j < |window| && window[j] == parts[k];
      assert texts[lo + j] == parts[k];
    }
  }

  /** No captured token is date-shaped: a date holds a digit, and names carry none. */
  lemma NoDateInName(texts: seq<String>)
    ensures forall k | 0 <= k < |NameParts(texts)| :: !IsDateShaped(NameParts(texts)[k])
  {
    NamePartsFiltered(texts);
    forall k | 0 <= k < |NameParts(texts)| ensures !IsDateShaped(NameParts(texts)[k]) {
      if IsDateShaped(NameParts(texts)[k]) {
        DateShapedHasDigit(NameParts(texts)[k]);
      }
    }
  }

  /** The full name is the captured tokens joined by single spaces, so it
      carries no digit and is longer than two characters. */
  lemma {:induction false} FullNameShape(texts: seq<String>)
    requires FullName(texts).Some?
    ensures NameParts(texts) != [] && FullName(texts).value == Join(NameParts(texts), " ")
    ensures !HasDigit(FullName(texts).value)
    ensures |FullName(texts).value| > 2
  {
    var parts := NameParts(texts);
    NamePartsFiltered(texts);
    JoinNoDigit(parts);
    JoinLength(parts);
  }

  lemma {:induction false} JoinLength(parts: seq<String>)
    requires parts != []
    ensures |Join(parts, " ")| >= |parts[0]|
  {
  }

  /** Under the fallback, when no token holds the number as typed (for example
      because the number was read across a space), no name is found. */
  lemma FallbackWithoutIdToken(texts: seq<String>)
    requires UsesIdFallback(texts)
    requires forall k | 0 <= k < |texts| :: !Contains(texts[k], ExtractIdNumber(texts).value)
    ensures FullName(texts) == None
  {
    assert FirstHolding(texts, ExtractIdNumber(texts).value, 0) == None;
  }

  /** The tokens between a name label and the next field label are the name,
      once each of them has passed the filters. */
  lemma {:induction false} LabelledNameCaptured(texts: seq<String>, i: nat, j: nat)
    requires i < j <= |texts|
    requires IsNameLabel(texts[i]) && forall k | 0 <= k < i :: !IsNameLabel(texts[k])
    requires j < |texts| ==> EndsName(texts[j])
    requires forall k | i < k < j :: !EndsName(texts[k]) && KeptInName(texts[k], ExtractIdNumber(texts))
    ensures NameParts(texts) == texts[i + 1..j]
  {
    var id := ExtractIdNumber(texts);
    LabelledStart(texts, i);
    NameEndAt(texts, i + 1, j);
    var window := texts[i + 1..j];
    assert forall k | 0 <= k < |window| :: window[k] == texts[i + 1 + k];
    AllKept(window, id);
    assert NameParts(texts) == CapturedFrom(texts, Some(i + 1), id);
  }

  /** Capture from `lo` ends at `j` when `j` is the first field label from `lo` on. */
  lemma NameEndAt(texts: seq<String>, lo: nat, j: nat)
    requires lo <= j <= |texts|
    requires forall k | lo <= k < j :: !EndsName(texts[k])
    requires j < |texts| ==> EndsName(texts[j])
    ensures NameEnd(texts, lo) == j
  {
  }

  /** Capture starts right after the first name label. */
  lemma LabelledStart(texts: seq<String>, i: nat)
    requires i < |texts|
    requires IsNameLabel(texts[i]) && forall k | 0 <= k < i :: !IsNameLabel(texts[k])
    ensures NameStart(texts) == Some(i + 1)
  {
    NameLabelMentionsName(texts[i]);
    assert HasNameLabel(texts);
    assert FindFrom(texts, IsNameLabel, 0) == Some(i);
  }

  lemma {:induction false} AllKept(ts: seq<String>, id: Option<String>)
    requires forall k | 0 <= k < |ts| :: KeptInName(ts[k], id)
    ensures KeptNameTokens(ts, id) == ts
    decreases |ts|
  {
    if ts != [] {
      AllKept(ts[..|ts| - 1], id);
    }
  }

  /** The three parts `split_name` returns. */
  datatype NameSplit = NameSplit(first: Option<String>, middle: Option<String>, last: Option<String>)

  /** The words of an optional string; none for an absent one. */
  function WordsOf(s: Option<String>): seq<String> {
    match s
    case None => []
    case Some(v) => SplitWords(v)
  }

  /** `split_name(full_name)` as written; `None` stands for the `IndexError`
      raised when a non-empty full name holds only whitespace, so that
      `split()` gives no parts and `parts[0]` fails. */
  function SplitNameAsWritten(fullName: Option<String>): (r: Option<NameSplit>)
    ensures r.None? <==> fullName.Some? && fullName.value != [] && SplitWords(fullName.value) == []
  {
    if fullName.None? || fullName.value == [] then Some(NameSplit(None, None, None))
    else
      var parts := SplitWords(fullName.value);
      if |parts| == 1 then Some(NameSplit(Some(parts[0]), None, None))
      else if |parts| == 2 then Some(NameSplit(Some(parts[0]), None, Some(parts[1])))
      else if parts == [] then None
      else Some(NameSplit(Some(parts[0]), Some(Join(parts[1..|parts| - 1], " ")), Some(parts[|parts| - 1])))
  }

  /** `split_name(full_name)` with a whitespace-only name treated like an absent
      one, which is what its first branch evidently means. */
  function SplitName(fullName: Option<String>): (r: NameSplit)
    ensures WordsOf(fullName) == [] ==> r == NameSplit(None, None, None)
    ensures |WordsOf(fullName)| == 1 ==> r.first.Some? && r.middle.None? && r.last.None?
    ensures |WordsOf(fullName)| == 2 ==> r.first.Some? && r.middle.None? && r.last.Some?
    ensures |WordsOf(fullName)| >= 3 ==> r.first.Some? && r.middle.Some? && r.last.Some?
    ensures r.first.Some? ==> IsWord(r.first.value)
    ensures r.last.Some? ==> IsWord(r.last.value)
    ensures r.middle.Some? ==> r.middle.value == Join(SplitWords(r.middle.value), " ")
  {
    var words := WordsOf(fullName);
    if words == [] then NameSplit(None, None, None)
    else if |words| == 1 then NameSplit(Some(words[0]), None, None)
    else if |words| == 2 then NameSplit(Some(words[0]), None, Some(words[1]))
    else
      var inner := words[1..|words| - 1];
      SplitJoinRoundTrip(inner);
      NameSplit(Some(words[0]), Some(Join(inner, " ")), Some(words[|words| - 1]))
  }

  /** The parts rebuild the name: first, the words of the middle part, and last,
      in that order, are exactly the words of the full name. */
  lemma {:induction false} SplitNameRoundTrip(fullName: Option<String>)
    ensures var r := SplitName(fullName);
            WordsOf(r.first) + WordsOf(r.middle) + WordsOf(r.last) == WordsOf(fullName)
  {
    var words := WordsOf(fullName);
    var n := |words|;
    if n == 1 {
      WordsOfWord(words[0]);
    } else if n == 2 {
      WordsOfWord(words[0]);
      WordsOfWord(words[1]);
      assert words == [words[0]] + [words[1]];
    } else if n >= 3 {
      WordsOfWord(words[0]);
      WordsOfWord(words[n - 1]);
      SplitJoinRoundTrip(words[1..n - 1]);
      assert words == [words[0]] + words[1..n - 1] + [words[n - 1]];
    }
  }

  /** A single word splits into itself. */
  lemma WordsOfWord(w: String)
    requires IsWord(w)
    ensures WordsOf(Some(w)) == [w]
  {
    SplitJoinRoundTrip([w]);
  }

  /** Wherever the source does not raise, the corrected split agrees with it. */
  lemma SplitNameAgrees(fullName: Option<String>)
    requires SplitNameAsWritten(fullName).Some?
    ensures SplitNameAsWritten(fullName).value == SplitName(fullName)
  {
  }

  /** The crash is reachable from the extractor: a blank token after NAMA, with
      no identity number on the card, is captured as the full name, and
      splitting it raises. */
  lemma BlankNameCrashesSplit()
    ensures FullName(["NAMA", "   "]) == Some("   ")
    ensures SplitNameAsWritten(Some("   ")) == None
  {
    BlankNameCaptured();
    BlankHasNoWords();
  }

  lemma BlankHasNoWords()
    ensures SplitWords("   ") == []
  {
    assert "   "[1..] == "  ";
    assert "  "[1..] == " ";
    assert " "[1..] == [];
  }

  lemma BlankNameCaptured()
    ensures FullName(["NAMA", "   "]) == Some("   ")
  {
    var texts: seq<String> := ["NAMA", "   "];
    NoIdOnBlankCard();
    assert IsNameLabel(texts[0]) by { UpperNama(); ContainsSelf("NAMA"); }
    assert FindFrom(texts, IsNameLabel, 0) == Some(0);
    assert NameStart(texts) == Some(1) by {
      assert MentionsName(texts[0]) by { NameLabelMentionsName(texts[0]); }
      assert HasNameLabel(texts);
    }
    BlankPassesFilters();
    LabelledNameCaptured(texts, 0, 2);
    assert texts[1..2] == ["   "];
  }

  lemma UpperNama()
    ensures Upper("NAMA") == "NAMA"
  {
  }

  lemma NoIdOnBlankCard()
    ensures ExtractIdNumber(["NAMA", "   "]) == None
  {
    NamaHasNoDigit();
    BlankCleansToEmpty();
    NoIdInPair("NAMA", "   ");
  }

  lemma NoIdInPair(a: String, b: String)
    requires !HasDigit(CleanToken(a)) && !HasDigit(CleanToken(b))
    ensures ExtractIdNumber([a, b]) == None
  {
    NoDigitsNoId([a, b]);
  }

  /** Tokens without digits, once cleaned, yield no identity number. */
  lemma NoDigitsNoId(texts: seq<String>)
    requires forall k | 0 <= k < |texts| :: !HasDigit(CleanToken(texts[k]))
    ensures ExtractIdNumber(texts) == None
  {
    forall k | 0 <= k < |texts| ensures !YieldsId(texts[k]) {
      NoDigitNoId(texts[k]);
    }
  }

  lemma NamaHasNoDigit()
    ensures CleanToken("NAMA") == "NAMA" && !HasDigit("NAMA")
  {
    NamaCleans();
    NamaNoDigit();
  }

  lemma NamaCleans()
    ensures CleanToken("NAMA") == "NAMA"
  {
    var s := "NAMA";
    assert ' ' !in s;
    RemoveSpacesNoSpace(s);
    assert !IsSpace(s[0]) && !IsSpace(s[3]);
    StripUntrimmed(s);
  }

  lemma NamaNoDigit()
    ensures !HasDigit("NAMA")
  {
    var s := "NAMA";
    forall i | 0 <= i < |s| ensures !IsDigit(s[i]) {
    }
  }

  lemma BlankCleansToEmpty()
    ensures CleanToken("   ") == [] && !HasDigit([])
  {
    assert "   "[1..] == "  ";
    assert "  "[1..] == " ";
    assert " "[1..] == [];
  }

  /** "   " is long enough, holds no heading, no field label and no digit. */
  lemma BlankPassesFilters()
    ensures !EndsName("   ") && KeptInName("   ", None)
  {
    var u := Upper("   ");
    assert u == "   ";
    forall k | 0 <= k < |NameStopWords| ensures !Contains(u, NameStopWords[k]) {
      SpacesContainNoWord(u, NameStopWords[k]);
    }
    forall k | 0 <= k < |HeadingWords| ensures !Contains(u, HeadingWords[k]) {
      SpacesContainNoWord(u, HeadingWords[k]);
    }
  }
}
