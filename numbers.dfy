/** `extract_id_number` and `extract_passport_number`: scan the tokens in
    order and return the first acceptable leftmost regex match. */
module Numbers {
  import opened Strings
  import opened Patterns

  /** The six two-digit prefixes a Brunei identity number may start with. */
  predicate HasValidIdPrefix(id: String) {
    || StartsWith(id, "00") || StartsWith(id, "01")  // Brunei National
    || StartsWith(id, "30") || StartsWith(id, "31")  // Permanent Resident
    || StartsWith(id, "50") || StartsWith(id, "51")  // Foreigner
  }

  /** `dd-dddddd` or 8 to 12 digits. */
  predicate IsIdShape(w: String) {
    HasShape(DashedId, w) || HasShape(BareId, w)
  }

  /** `text.replace(" ", "").strip()`. */
  function CleanToken(t: String): (c: String)
    ensures ' ' !in c
  {
    var r := RemoveSpaces(t);
    StripWithin(r);
    Strip(r)
  }

  /** Stripping only removes characters, so it cannot bring a space back. */
  lemma StripWithin(s: String)
    requires ' ' !in s
    ensures ' ' !in Strip(s)
  {
    var a := StripStart(s);
    assert a == [] || a == s[|s| - |a|..];
    assert ' ' !in a by {
      if a != [] {
        forall k | 0 <= k < |a| ensures a[k] != ' ' {
          assert a[k] == s[|s| - |a| + k];
        }
      }
    }
    var b := StripEnd(a);
    assert b == a[..|b|];
    forall k | 0 <= k < |b| ensures b[k] != ' ' {
      assert b[k] == a[k];
    }
  }

  /** One pass of the pattern loop on one token: the dashed pattern is tried
      first, then the bare one, and only the leftmost match of each is checked
      against the prefix list. */
  function IdInToken(t: String): (r: Option<String>)
    ensures r.Some? ==> HasValidIdPrefix(r.value) && IsIdShape(r.value)
    ensures r.Some? ==> Contains(CleanToken(t), r.value)
    ensures r.Some? <==>
              || (Search(DashedId, CleanToken(t)).Some? && HasValidIdPrefix(Search(DashedId, CleanToken(t)).value))
              || (Search(BareId, CleanToken(t)).Some? && HasValidIdPrefix(Search(BareId, CleanToken(t)).value))
    ensures var dashed := Search(DashedId, CleanToken(t));
            dashed.Some? && HasValidIdPrefix(dashed.value) ==> r == dashed
    ensures r.Some? ==> r == Search(DashedId, CleanToken(t)) || r == Search(BareId, CleanToken(t))
  {
    var clean := CleanToken(t);
    var dashed := Search(DashedId, clean);
    if dashed.Some? && HasValidIdPrefix(dashed.value) then dashed
    else
      var bare := Search(BareId, clean);
      if bare.Some? && HasValidIdPrefix(bare.value) then bare else None
  }

  predicate YieldsId(t: String) { IdInToken(t).Some? }

  /** `extract_id_number(texts)`. */
  function ExtractIdNumber(texts: seq<String>): (r: Option<String>)
    ensures r.Some? ==> HasValidIdPrefix(r.value) && IsIdShape(r.value)
    ensures r.Some? ==> exists k | 0 <= k < |texts| :: Contains(CleanToken(texts[k]), r.value)
    ensures r.None? <==> forall k | 0 <= k < |texts| :: !YieldsId(texts[k])
  {
    match FindFrom(texts, YieldsId, 0)
    case Some(k) => IdInToken(texts[k])
    case None => None
  }

  /** The first token that yields an accepted match decides the result. */
  lemma IdFirstTokenWins(texts: seq<String>, k: nat)
    requires k < |texts| && YieldsId(texts[k])
    requires forall j | 0 <= j < k :: !YieldsId(texts[j])
    ensures ExtractIdNumber(texts) == IdInToken(texts[k])
  {
    var f := FindFrom(texts, YieldsId, 0);
    assert f == Some(k);
  }

  /** The words on the card that look like a passport number but are labels. */
  const PassportExcluded: set<String> := {
    "NEGARA", "KAD", "PENGENALAN", "NAMA", "JANTINA", "TARIKH", "LAHIR",
    "WARGANEGARA", "BRUNEI", "DARUSSALAM", "LELAKI", "PEREMPUAN",
    "TEMPAT", "NEGERI", "BANGSA"
  }

  predicate HasLetter(w: String) {
    exists k | 0 <= k < |w| :: IsUpperLetter(w[k])
  }

  /** The leftmost `[A-Z0-9]{6,9}` word of the token, kept only when it is not
      a label word and holds at least one letter. */
  function PassportInToken(t: String): (r: Option<String>)
    ensures r.Some? ==> 6 <= |r.value| <= 9 && forall k | 0 <= k < |r.value| :: IsPassportChar(r.value[k])
    ensures r.Some? ==> HasLetter(r.value) && r.value !in PassportExcluded && Contains(t, r.value)
    ensures r.Some? <==> var m := Search(PassportRun, t); m.Some? && m.value !in PassportExcluded && HasLetter(m.value)
    ensures r.Some? ==> r == Search(PassportRun, t)
  {
    var m := Search(PassportRun, t);
    if m.Some? && m.value !in PassportExcluded && HasLetter(m.value) then m else None
  }

  predicate YieldsPassport(t: String) { PassportInToken(t).Some? }

  /** `extract_passport_number(texts)`. */
  function ExtractPassportNumber(texts: seq<String>): (r: Option<String>)
    ensures r.Some? ==> 6 <= |r.value| <= 9 && HasLetter(r.value) && r.value !in PassportExcluded
    ensures r.Some? ==> forall k | 0 <= k < |r.value| :: IsPassportChar(r.value[k])
    ensures r.Some? ==> exists k | 0 <= k < |texts| :: Contains(texts[k], r.value)
    ensures r.None? <==> forall k | 0 <= k < |texts| :: !YieldsPassport(texts[k])
  {
    match FindFrom(texts, YieldsPassport, 0)
    case Some(k) => PassportInToken(texts[k])
    case None => None
  }

  /** The first token that yields an accepted candidate decides the result. */
  lemma PassportFirstTokenWins(texts: seq<String>, k: nat)
    requires k < |texts| && YieldsPassport(texts[k])
    requires forall j | 0 <= j < k :: !YieldsPassport(texts[j])
    ensures ExtractPassportNumber(texts) == PassportInToken(texts[k])
  {
    var f := FindFrom(texts, YieldsPassport, 0);
    assert f == Some(k);
  }

  /** Spaces inside a token never matter: they are removed before matching. */
  lemma IdIgnoresSpaces(t: String)
    ensures IdInToken(t) == IdInToken(RemoveSpaces(t))
  {
    RemoveSpacesIdempotent(t);
  }

  /** A cleaned token that is a single run of 8 to 12 digits with a valid
      prefix is returned whole, whatever those digits mean. */
  lemma WholeDigitRunIsId(t: String)
    requires 8 <= |CleanToken(t)| <= 12
    requires DigitsIn(CleanToken(t), 0, |CleanToken(t)|)
    requires HasValidIdPrefix(CleanToken(t))
    ensures IdInToken(t) == Some(CleanToken(t))
  {
    var c := CleanToken(t);
    forall k | 0 <= k < |c| ensures !MatchesAt(DashedId, c, k) {
      if k + 2 < |c| {
        assert IsDigit(c[k + 2]);
      }
    }
    assert Search(DashedId, c) == None;
    RunEndIs(c, 0, |c|);
    SearchAtFront(BareId, c);
    assert c[..|c|] == c;
  }

  /** Spaces are removed before matching: `["00 127039"]` yields `"00127039"`. */
  lemma SpacedIdIsJoined()
    ensures ExtractIdNumber(["00 127039"]) == Some("00127039")
  {
    SpacedIdCleaned();
    SpacedIdDigits();
    IdOfWholeRun("00 127039");
  }

  lemma SpacedIdDigits()
    ensures var c := "00127039"; |c| == 8 && DigitsIn(c, 0, |c|) && HasValidIdPrefix(c)
  {
    var c := "00127039";
    assert forall k | 0 <= k < |c| :: IsDigit(c[k]);
  }

  lemma DateDigits()
    ensures var c := "01011990"; 8 <= |c| <= 12 && (forall k | 0 <= k < |c| :: IsDigit(c[k])) && HasValidIdPrefix(c)
  {
  }

  lemma SpacedIdCleaned()
    ensures CleanToken("00 127039") == "00127039"
  {
    SpacedIdSpacesRemoved();
    StripUntrimmed("00127039");
  }

  lemma SpacedIdSpacesRemoved()
    ensures RemoveSpaces("00 127039") == "00127039"
  {
    SpacedPartsJoined();
    assert "00 127039" == "00" + " " + "127039";
  }

  lemma SpacedPartsJoined()
    ensures RemoveSpaces("00" + " " + "127039") == "00127039"
  {
    RemoveSpacesAppend("00" + " ", "127039");
    RemoveSpacesAppend("00", " ");
    RemoveSpacesNoSpace("00");
    RemoveSpacesNoSpace("127039");
  }

  /** A token made only of digits is left alone by cleaning. */
  lemma DigitRun(c: String)
    requires forall k | 0 <= k < |c| :: IsDigit(c[k])
    ensures CleanToken(c) == c && DigitsIn(c, 0, |c|)
  {
    RemoveSpacesNoSpace(c);
    StripUntrimmed(c);
  }

  /** Only the prefix is validated: a bare eight-digit date is taken for an
      identity number. */
  lemma DateTakenForId()
    ensures ExtractIdNumber(["01011990"]) == Some("01011990")
    ensures IsDateShaped("01011990")
  {
    EightDigitIdAccepted();
    EightDigitIdIsDate();
  }

  lemma EightDigitIdAccepted()
    ensures ExtractIdNumber(["01011990"]) == Some("01011990")
  {
    DateDigits();
    IdOfDigitToken("01011990");
  }

  lemma EightDigitIdIsDate()
    ensures IsDateShaped("01011990")
  {
    var c := "01011990";
    RunEndIs(c, 0, 8);
    assert MatchesAt(EightDigits, c, 0);
  }

  /** Only the leftmost candidate of a token is considered: in `"NEGARA BRUNEI"`
      the label NEGARA is rejected and BRUNEI is never tried. */
  lemma LeftmostPassportCandidateOnly()
    ensures ExtractPassportNumber(["NEGARA BRUNEI"]) == None
  {
    var t := "NEGARA BRUNEI";
    RunEndIs(t, 0, 6);
    SearchAtFront(PassportRun, t);
    assert t[..6] == "NEGARA";
  }

  /** The label PASSPORT is not excluded, so a passport page that prints it
      before the number yields the label. */
  lemma PassportLabelAccepted()
    ensures ExtractPassportNumber(["PASSPORT", "A1234567B"]) == Some("PASSPORT")
  {
    var t := "PASSPORT";
    assert |t| == 8 && forall k | 0 <= k < |t| :: IsPassportChar(t[k]);
    assert HasLetter(t) by { assert IsUpperLetter(t[0]); }
    assert t !in PassportExcluded;
    WholeRunIsPassport(t);
    FirstPassportOfPair(t, "A1234567B");
  }

  /** A token that is a single run of 6 to 9 capital letters or digits, with a
      letter and not a label word, is its own passport candidate. */
  lemma WholeRunIsPassport(t: String)
    requires 6 <= |t| <= 9 && forall k | 0 <= k < |t| :: IsPassportChar(t[k])
    requires HasLetter(t) && t !in PassportExcluded
    ensures PassportInToken(t) == Some(t)
  {
    RunEndIs(t, 0, |t|);
    SearchAtFront(PassportRun, t);
    assert t[..|t|] == t;
  }

  /** A one-token list whose token is 8 to 12 digits with a valid prefix
      yields the token. */
  lemma IdOfDigitToken(t: String)
    requires 8 <= |t| <= 12 && forall k | 0 <= k < |t| :: IsDigit(t[k])
    requires HasValidIdPrefix(t)
    ensures ExtractIdNumber([t]) == Some(t)
  {
    DigitRun(t);
    IdOfWholeRun(t);
  }

  lemma FirstPassportOfPair(a: String, b: String)
    requires YieldsPassport(a)
    ensures ExtractPassportNumber([a, b]) == PassportInToken(a)
  {
    PassportFirstTokenWins([a, b], 0);
  }

  /** A one-token list whose cleaned token is a single run of 8 to 12 digits
      with a valid prefix yields that run. */
  lemma IdOfWholeRun(t: String)
    requires 8 <= |CleanToken(t)| <= 12
    requires DigitsIn(CleanToken(t), 0, |CleanToken(t)|)
    requires HasValidIdPrefix(CleanToken(t))
    ensures ExtractIdNumber([t]) == Some(CleanToken(t))
  {
    WholeDigitRunIsId(t);
    IdFirstTokenWins([t], 0);
  }

  /** An accepted identity number starts with a digit taken from the token. */
  lemma IdHasDigit(t: String)
    requires YieldsId(t)
    ensures HasDigit(CleanToken(t))
  {
    var id := IdInToken(t).value;
    ContainsChar(CleanToken(t), id, 0);
    assert IsDigit(id[0]);
  }

  /** A token with no digit once cleaned yields no identity number. */
  lemma NoDigitNoId(t: String)
    requires !HasDigit(CleanToken(t))
    ensures !YieldsId(t)
  {
    if YieldsId(t) {
      IdHasDigit(t);
    }
  }
}
