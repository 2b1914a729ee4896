/** `extract_all_details`: every extractor applied to the same tokens, the full
    name split into three parts, and the tokens joined back into `raw_text`. */
module Details {
  import opened Strings
  import opened Records
  import opened Numbers
  import opened Dates
  import opened Gender
  import opened Names
  import opened Places

  datatype Details = Details(
    fullName: Option<String>,
    firstName: Option<String>,
    middleName: Option<String>,
    lastName: Option<String>,
    idNumber: Option<String>,
    dateOfBirth: Option<String>,
    placeOfBirth: Option<String>,
    gender: Option<String>,
    dateOfIssue: Option<String>,
    dateOfExpiry: Option<String>,
    rawText: String)

  /** `extract_all_details(texts)`; the split uses the corrected `SplitName`,
      so a blank full name gives three absent parts instead of an error. */
  function AllDetails(texts: seq<String>): (d: Details)
    ensures WordsOf(d.firstName) + WordsOf(d.middleName) + WordsOf(d.lastName) == WordsOf(d.fullName)
    ensures d.fullName.None? ==> d.firstName.None? && d.middleName.None? && d.lastName.None?
    ensures d.rawText == RawText(texts)
    ensures d.fullName == FullName(texts)
    ensures NameSplit(d.firstName, d.middleName, d.lastName) == SplitName(d.fullName)
    ensures d.idNumber == ExtractIdNumber(texts) && d.dateOfBirth == DateOfBirth(texts)
    ensures d.placeOfBirth == Birthplace(texts) && d.gender == ExtractGender(texts)
    ensures d.dateOfIssue == DateOfIssue(texts) && d.dateOfExpiry == DateOfExpiry(texts)
  {
    var fullName := FullName(texts);
    var split := SplitName(fullName);
    SplitNameRoundTrip(fullName);
    Details(fullName, split.first, split.middle, split.last,
            ExtractIdNumber(texts), DateOfBirth(texts), Birthplace(texts),
            ExtractGender(texts), DateOfIssue(texts), DateOfExpiry(texts), RawText(texts))
  }

  /** `" ".join(texts)`: every token, and every two adjacent tokens with the
      space between them, occur in it. */
  function RawText(texts: seq<String>): (raw: String)
    ensures forall k | 0 <= k < |texts| :: Contains(raw, texts[k])
    ensures forall k | 0 <= k && k + 1 < |texts| :: Contains(raw, texts[k] + " " + texts[k + 1])
  {
    var raw := Join(texts, " ");
    forall k | 0 <= k < |texts| ensures Contains(raw, texts[k]) {
      JoinContainsEach(texts, k);
    }
    forall k | 0 <= k && k + 1 < |texts| ensures Contains(raw, texts[k] + " " + texts[k + 1]) {
      JoinAdjacent(texts, k);
    }
    raw
  }

  /** The same record, computed by running the two capture loops. */
  method ExtractAllDetails(texts: seq<String>) returns (d: Details)
    ensures d == AllDetails(texts)
  {
    var fullName := ExtractFullName(texts);
    var split := SplitName(fullName);
    var place := ExtractBirthplace(texts);
    d := Details(fullName, split.first, split.middle, split.last,
                 ExtractIdNumber(texts), DateOfBirth(texts), place,
                 ExtractGender(texts), DateOfIssue(texts), DateOfExpiry(texts),
                 RawText(texts));
  }

  /** The eleven keys of the dictionary `extract_all_details` returns: the
      three that the contract of `ToRecord` reads and eight more. */
  const DetailKeys: set<String> := OtherKeys + {"full_name", "id_number", "raw_text"}

  const OtherKeys: set<String> := {
    "first_name", "middle_name", "last_name", "date_of_birth",
    "place_of_birth", "gender", "date_of_issue", "date_of_expiry"
  }

  /** The details as the dictionary the source returns. */
  function ToRecord(d: Details): (r: Record)
    ensures r.Keys == DetailKeys
    ensures r["raw_text"] == Str(d.rawText)
    ensures r["full_name"] == OptStr(d.fullName) && r["id_number"] == OptStr(d.idNumber)
    ensures Truthy(r["full_name"]) <==> d.fullName.Some? && d.fullName.value != []
    ensures Truthy(r["id_number"]) <==> d.idNumber.Some? && d.idNumber.value != []
    ensures r["first_name"] == OptStr(d.firstName) && r["middle_name"] == OptStr(d.middleName)
    ensures r["last_name"] == OptStr(d.lastName) && r["date_of_birth"] == OptStr(d.dateOfBirth)
    ensures r["place_of_birth"] == OptStr(d.placeOfBirth) && r["gender"] == OptStr(d.gender)
    ensures r["date_of_issue"] == OptStr(d.dateOfIssue) && r["date_of_expiry"] == OptStr(d.dateOfExpiry)
  {
    OptStrTruthy(d.fullName);
    OptStrTruthy(d.idNumber);
    OtherFields(d)["full_name" := OptStr(d.fullName)]["id_number" := OptStr(d.idNumber)]["raw_text" := Str(d.rawText)]
  }

  /** The eight entries of the dictionary the contract of `ToRecord` does not read. */
  function OtherFields(d: Details): (r: Record)
    ensures r.Keys == OtherKeys
    ensures r["first_name"] == OptStr(d.firstName) && r["middle_name"] == OptStr(d.middleName)
    ensures r["last_name"] == OptStr(d.lastName) && r["date_of_birth"] == OptStr(d.dateOfBirth)
    ensures r["place_of_birth"] == OptStr(d.placeOfBirth) && r["gender"] == OptStr(d.gender)
    ensures r["date_of_issue"] == OptStr(d.dateOfIssue) && r["date_of_expiry"] == OptStr(d.dateOfExpiry)
  {
    PersonFields(d) + DocumentFields(d)
  }

  /** The name parts and the date of birth. */
  function PersonFields(d: Details): (r: Record)
    ensures r.Keys == {"first_name", "middle_name", "last_name", "date_of_birth"}
    ensures r["first_name"] == OptStr(d.firstName) && r["middle_name"] == OptStr(d.middleName)
    ensures r["last_name"] == OptStr(d.lastName) && r["date_of_birth"] == OptStr(d.dateOfBirth)
  {
    map[
      "first_name" := OptStr(d.firstName),
      "middle_name" := OptStr(d.middleName),
      "last_name" := OptStr(d.lastName),
      "date_of_birth" := OptStr(d.dateOfBirth)
    ]
  }

  /** The birthplace, gender and the two document dates. */
  function DocumentFields(d: Details): (r: Record)
    ensures r.Keys == {"place_of_birth", "gender", "date_of_issue", "date_of_expiry"}
    ensures r["place_of_birth"] == OptStr(d.placeOfBirth) && r["gender"] == OptStr(d.gender)
    ensures r["date_of_issue"] == OptStr(d.dateOfIssue) && r["date_of_expiry"] == OptStr(d.dateOfExpiry)
  {
    map[
      "place_of_birth" := OptStr(d.placeOfBirth),
      "gender" := OptStr(d.gender),
      "date_of_issue" := OptStr(d.dateOfIssue),
      "date_of_expiry" := OptStr(d.dateOfExpiry)
    ]
  }

  /** An extracted identity number is never empty, so whenever one is found
      the record's `id_number` is truthy. */
  lemma FoundIdIsTruthy(texts: seq<String>)
    ensures Truthy(ToRecord(AllDetails(texts))["id_number"]) <==> ExtractIdNumber(texts).Some?
  {
    var id := ExtractIdNumber(texts);
    if id.Some? {
      assert HasValidIdPrefix(id.value);
    }
  }
}
