/** `extract_gender`: the first token that, upper-cased, is one of four words. */
module Gender {
  import opened Strings

  const GenderWords: map<String, String> :=
    map["LELAKI" := "Male", "PEREMPUAN" := "Female", "MALE" := "Male", "FEMALE" := "Female"]

  predicate NamesGender(t: String) { Upper(t) in GenderWords }

  /** `extract_gender(texts)`. */
  function ExtractGender(texts: seq<String>): (r: Option<String>)
    ensures r.Some? ==> r.value == "Male" || r.value == "Female"
    ensures r.Some? ==>
              exists k | 0 <= k < |texts| ::
                && NamesGender(texts[k]) && GenderWords[Upper(texts[k])] == r.value
                && forall j | 0 <= j < k :: !NamesGender(texts[j])
    ensures r.None? <==> forall k | 0 <= k < |texts| :: !NamesGender(texts[k])
  {
    match FindFrom(texts, NamesGender, 0)
    case Some(k) => Some(GenderWords[Upper(texts[k])])
    case None => None
  }

  /** Male exactly for LELAKI and MALE, Female exactly for PEREMPUAN and FEMALE. */
  lemma GenderTable(t: String)
    requires NamesGender(t)
    ensures GenderWords[Upper(t)] == "Male" <==> Upper(t) == "LELAKI" || Upper(t) == "MALE"
    ensures GenderWords[Upper(t)] == "Female" <==> Upper(t) == "PEREMPUAN" || Upper(t) == "FEMALE"
  {
  }
}
