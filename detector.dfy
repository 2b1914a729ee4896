/** `document_detector.py`: the identity-number colour table and the five-step
    priority chain that labels a token list as a Brunei identity card, a
    passport, or neither. */
module Detector {
  import opened Strings
  import opened Records
  import opened Numbers

  /** The card colour and holder type `classify_brunei_id` returns. */
  datatype IdClass = IdClass(color: String, holder: String)

  const Foreigner := IdClass("Green", "Foreigner")
  const PermanentResident := IdClass("Red", "Permanent Resident")
  const BruneiNational := IdClass("Yellow", "Brunei National")
  const Unclassified := IdClass("Unknown", "Unknown")

  /** `classify_brunei_id(id_number)`: each class is chosen by exactly its two
      prefixes, and the unknown class by a number without any of the six. */
  function ClassifyBruneiId(id: String): (c: IdClass)
    ensures c == Foreigner <==> StartsWith(id, "50") || StartsWith(id, "51")
    ensures c == PermanentResident <==> StartsWith(id, "30") || StartsWith(id, "31")
    ensures c == BruneiNational <==> StartsWith(id, "00") || StartsWith(id, "01")
    ensures c == Unclassified <==> !HasValidIdPrefix(id)
  {
    if StartsWith(id, "50") || StartsWith(id, "51") then Foreigner
    else if StartsWith(id, "30") || StartsWith(id, "31") then PermanentResident
    else if StartsWith(id, "00") || StartsWith(id, "01") then BruneiNational
    else Unclassified
  }

  /** The prefix whitelist of the extractor and the classifier's table agree,
      so an extracted number is always classified. */
  lemma ExtractedIdClassified(texts: seq<String>)
    requires ExtractIdNumber(texts).Some?
    ensures ClassifyBruneiId(ExtractIdNumber(texts).value) != Unclassified
  {
  }

  datatype Detection =
    | NationalId(idNumber: String, idClass: IdClass)
    | Passport(passportNumber: String)
    | Unknown

  const IdKeywords: seq<String> := ["kad pengenalan", "pengenalan", "negara brunei", "jantina", "tarikh lahir"]
  const PassportKeywords: seq<String> := ["passport", "pasport"]

  /** The lower-cased tokens joined by single spaces. */
  function AllText(texts: seq<String>): String {
    Join(LowerAll(texts), " ")
  }

  predicate HasIdKeyword(texts: seq<String>) { ContainsAny(AllText(texts), IdKeywords) }

  predicate HasPassportKeyword(texts: seq<String>) { ContainsAny(AllText(texts), PassportKeywords) }

  /** `detect_document(texts)`. The keyword loops only ever return, and the
      extractor they call does not depend on the keyword, so each loop is one
      test: some keyword occurs and the extractor finds a number. */
  function DetectDocument(texts: seq<String>): (r: Detection)
    ensures r.NationalId? ==> Some(r.idNumber) == ExtractIdNumber(texts)
    ensures r.NationalId? ==> r.idClass == ClassifyBruneiId(r.idNumber) && r.idClass != Unclassified
    ensures r.Passport? ==> Some(r.passportNumber) == ExtractPassportNumber(texts)
    ensures r.Unknown? <==> ExtractIdNumber(texts).None? && ExtractPassportNumber(texts).None?
    // an identity keyword with an identity number wins even over a passport keyword
    ensures HasIdKeyword(texts) && ExtractIdNumber(texts).Some? ==> r.NationalId?
    // a passport keyword with a passport number beats the keyword-less identity fallback
    ensures !HasIdKeyword(texts) && HasPassportKeyword(texts) && ExtractPassportNumber(texts).Some? ==> r.Passport?
    // without that, any identity number makes it an identity card
    ensures !(HasPassportKeyword(texts) && ExtractPassportNumber(texts).Some?) && ExtractIdNumber(texts).Some? ==> r.NationalId?
  {
    var id := ExtractIdNumber(texts);
    var passport := ExtractPassportNumber(texts);
    if HasIdKeyword(texts) && id.Some? then NationalId(id.value, ClassifyBruneiId(id.value))
    else if HasPassportKeyword(texts) && passport.Some? then Passport(passport.value)
    else if id.Some? then NationalId(id.value, ClassifyBruneiId(id.value))
    else if passport.Some? then Passport(passport.value)
    else Unknown
  }

  /** Keywords are looked up in the joined text, so a two-word keyword is found
      even when its words are two adjacent tokens. */
  lemma SplitIdKeywordFound(texts: seq<String>, i: nat, k: nat)
    requires i + 1 < |texts| && k < |IdKeywords|
    requires Lower(texts[i]) + " " + Lower(texts[i + 1]) == IdKeywords[k]
    ensures HasIdKeyword(texts)
  {
    JoinAdjacent(LowerAll(texts), i);
  }

  /** A keyword inside any one token, in any letter case, is found. */
  lemma TokenPassportKeywordFound(texts: seq<String>, i: nat, k: nat)
    requires i < |texts| && k < |PassportKeywords|
    requires Contains(Lower(texts[i]), PassportKeywords[k])
    ensures HasPassportKeyword(texts)
  {
    JoinContainsEach(LowerAll(texts), i);
    ContainsTransitive(AllText(texts), Lower(texts[i]), PassportKeywords[k]);
  }

  /** Every key `detect_document` can return. */
  const DetectionKeys: set<String> := {"document_type", "id_number", "card_color", "holder_type", "passport_number"}

  /** The dictionary `detect_document` returns. */
  function ToRecord(d: Detection): (r: Record)
    ensures "document_type" in r && r.Keys <= DetectionKeys
    ensures "id_number" in r <==> d.NationalId?
    ensures d.NationalId? ==> r.Keys == {"document_type", "id_number", "card_color", "holder_type"}
    ensures d.NationalId? ==> r["id_number"] == Str(d.idNumber)
    ensures d.NationalId? ==>
              && r["document_type"] == Str("National ID")
              && r["card_color"] == Str(d.idClass.color) && r["holder_type"] == Str(d.idClass.holder)
    ensures d.Passport? ==> r["document_type"] == Str("Passport")
    ensures d.Passport? ==> r.Keys == {"document_type", "passport_number"}
    ensures d.Passport? ==> r["passport_number"] == Str(d.passportNumber)
    ensures d.Unknown? <==> r == map["document_type" := Str("Unknown")]
  {
    match d
    case NationalId(id, c) =>
      map["document_type" := Str("National ID"), "id_number" := Str(id),
          "card_color" := Str(c.color), "holder_type" := Str(c.holder)]
    case Passport(p) =>
      map["document_type" := Str("Passport"), "passport_number" := Str(p)]
    case Unknown =>
      map["document_type" := Str("Unknown")]
  }

  /** The one-key Unknown record comes exactly from a token list in which
      neither extractor finds anything. */
  lemma UnknownRecord(texts: seq<String>)
    ensures (ToRecord(DetectDocument(texts)) == map["document_type" := Str("Unknown")])
            <==> ExtractIdNumber(texts).None? && ExtractPassportNumber(texts).None?
  {
  }
}
