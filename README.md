# Brunei eKYC field extraction, modelled in Dafny

This project models the rule-based part of a small eKYC service for Brunei
identity cards and passports. An OCR engine turns a card image into an
ordered list of text tokens. The service then does three things with them:

- **Field extractors** (`utils.py`). Each one scans the tokens for a field:
  - the identity number: a regex plus six valid two-digit prefixes;
  - the passport number: a regex, an exclusion vocabulary, and a must-contain-a-letter rule;
  - the full name: a capture state machine on the NAMA label, falling back to the token that holds the identity number;
  - the three dates: a label, then a look-ahead of at most three tokens;
  - gender: a lookup table;
  - the birthplace: a second capture state machine.

  `split_name` splits the full name into first, middle and last parts.
  `extract_all_details` assembles all the fields into one record.
- **Document detector** (`document_detector.py`). It maps an identity number's
  prefix to a card colour and holder type. It then labels the tokens as a
  National ID, a Passport or Unknown, through a five-step priority chain.
- **Front/back merge** (`app.py`). The front result is copied. Five fields that
  are missing from it are filled from the back result. The raw text and the
  confidence of both sides are stored under renamed keys.

Modules follow the source:

- `Strings`: Python's `str` operations on ASCII text.
- `Patterns`: the five fixed regexes as predicates.
- `Numbers`: the identity and passport extractors.
- `Dates`, `Gender`, `Names`, `Places`: the other extractors.
- `Details`: `extract_all_details`.
- `Records`: Python dictionaries and truthiness.
- `Detector`: `document_detector.py`.
- `Merge`: the merge block of the endpoint.

How the model is built:

- **Regexes.** Each regex is a predicate. `\b` sits between a word character
  `[A-Za-z0-9_]` and anything else. So a match of the three undashed patterns
  (`\b\d{8,12}\b`, `\b[A-Z0-9]{6,9}\b`, `\b\d{8}\b`) is a maximal run of word
  characters. The two dashed patterns (`\b\d{2}-\d{6}\b`, `\b\d{2}-\d{2}-\d{4}\b`)
  contain `-`, which is not a word character, so `\b` bounds them only at their
  two outer ends. `re.search` gives the leftmost match.
- **Search loops.** A scan with an early return is a first-index search over
  the tokens (`Strings.FindFrom`).
- **Capture loops.** The two loops that raise a capture flag and
  append to a list are methods with `while` loops:
  - `Names.CaptureName` / `Names.ExtractFullName`;
  - `Places.ExtractBirthplace`.

  Each method is proved equal to a declarative statement of its result: the
  filtered tokens of one window of the input. In both loops the flag, once
  raised, never drops. So each loop is written as two loops over the same
  tokens: one finds the label (`Names.FindNameLabel`, `Places.FindPlaceLabel`),
  the other captures up to the next field label (`Names.CaptureWindow`,
  `Places.CapturePlace`). The per-token tests keep the source's nested `if`s
  (`Names.AppendIfKept`, `Places.AppendIfPlace`).
- **The merge.** It mutates a copied dictionary in place, so it is a class
  (`Merge.OcrDict`) whose methods update a `map` field. The method
  `Merge.EkycMerge` is proved equal to the key-by-key description
  `Merge.Merged`.

Some consequences of the code that are easy to miss:

- `detect_document` checks five identity keywords (`document_detector.py:24`).
- It never calls `extract_all_details`. An identity card result has exactly four
  keys, a passport result two, and an Unknown result one.
- `["PASSPORT", "A1234567B"]` yields `PASSPORT`, not the number A1234567B:
  `PASSPORT` is the leftmost 6-9 character word, it is not excluded, and it
  holds letters (`Numbers.PassportLabelAccepted`).
- Since the detector produces no name, dates or birthplace and no `raw_text`,
  the merge of two processed results can fill only `id_number`. Both raw-text
  entries are always `None` (`Merge.ProcessedMerge`).
- `Details.AllDetails` splits the name with the corrected `Names.SplitName`
  (see the findings below), so it returns a record where the code raises.

## Model

| member | source | states |
|---|---|---|
| Patterns.Search | utils.py:22 | `re.search(...).group()`: a returned match is the text of the match at the leftmost matching position, has the pattern's shape and occurs in the string; nothing is returned exactly when no position starts a match |
| Patterns.SearchLeftmost | utils.py:22 | given a match at position `i` and none before it, the search returns the match at `i` |
| Patterns.DateShapedHasDigit | utils.py:117 | a token matching the date regex contains a digit |
| Patterns.RunEndIs | utils.py:15-16 | a `\b`-anchored run ends exactly where the maximal run of word characters ends |
| Patterns.SearchAtFront | utils.py:22 | a match starting at position 0 is the one `re.search` returns |
| Numbers.CleanToken | utils.py:20 | `replace(" ", "").strip()` leaves no space in the token |
| Numbers.IdInToken | utils.py:21-32 | within one cleaned token, the dashed pattern's leftmost match is returned whenever it has a valid prefix; otherwise the result is the bare pattern's leftmost match or nothing, so a result is always one of the two leftmost matches; a result has a valid prefix, an identity-number shape and occurs in the cleaned token; a result exists exactly when one of the two leftmost matches has a valid prefix |
| Numbers.ExtractIdNumber | utils.py:3-33 | the result has one of the prefixes 00, 01, 30, 31, 50, 51 and the shape `dd-dddddd` or 8-12 digits, and occurs in some cleaned token; it is None exactly when no token yields an accepted match |
| Numbers.IdFirstTokenWins | utils.py:19-32 | the first token that yields an accepted match decides the result |
| Numbers.IdIgnoresSpaces | utils.py:20 | spaces inside a token never change what it yields |
| Numbers.WholeDigitRunIsId | utils.py:16-32 | a cleaned token that is one run of 8-12 digits with a valid prefix is returned whole |
| Numbers.SpacedIdIsJoined | utils.py:20 | `["00 127039"]` yields `"00127039"` |
| Numbers.DateTakenForId | utils.py:16-32 | the date `"01011990"` is date-shaped and is still accepted as an identity number, because only the prefix is checked |
| Numbers.IdOfWholeRun | utils.py:19-32 | a one-token list whose cleaned token is a single run of 8-12 digits with a valid prefix yields that cleaned token |
| Numbers.IdOfDigitToken | utils.py:19-32 | a one-token list whose token is already 8-12 digits with a valid prefix yields the token unchanged |
| Numbers.PassportInToken | utils.py:49-56 | a result is the token's leftmost `[A-Z0-9]{6,9}` word, and it is returned exactly when it is not an excluded label and has a letter |
| Numbers.ExtractPassportNumber | utils.py:36-57 | the result has 6-9 characters, all capital letters or digits, at least one letter, is not one of the 15 excluded words and occurs in some token; it is None exactly when no token yields a candidate |
| Numbers.PassportFirstTokenWins | utils.py:48-56 | the first token that yields an accepted candidate decides the result |
| Numbers.LeftmostPassportCandidateOnly | utils.py:49-53 | in `"NEGARA BRUNEI"` only NEGARA is tried, and it is rejected, so nothing is found |
| Numbers.PassportLabelAccepted | utils.py:42-56 | `["PASSPORT", "A1234567B"]` yields `"PASSPORT"` |
| Numbers.WholeRunIsPassport | utils.py:49-56 | a token that is one run of 6-9 capital letters or digits, with a letter and not an excluded word, is its own candidate |
| Numbers.IdHasDigit | utils.py:15-22 | a token that yields an identity number has a digit once cleaned |
| Numbers.NoDigitNoId | utils.py:15-22 | a token with no digit once cleaned yields no identity number |
| Dates.WindowEnd | utils.py:122 | the look-ahead window after a label holds at most three tokens and is cut at the end of the list |
| Dates.FirstDateIn | utils.py:122-124 | the first date-shaped token of a window, or none when the window holds no date |
| Dates.AnchorFrom | utils.py:119-124 | the first label at or after a position whose window holds a date; labels with dateless windows are passed over |
| Dates.LabelledDate | utils.py:112-124 | a result is a whole date-shaped token lying one to three places after a label token; none exactly when no label has a date-shaped token in its window |
| Dates.FirstDate | utils.py:127-129 | a result is a date-shaped token with no date-shaped token before it; none exactly when no token is date-shaped |
| Dates.DateOfBirth | utils.py:112-131 | the labelled window takes precedence; otherwise the first date-shaped token anywhere; None exactly when no token is date-shaped |
| Dates.DateOfIssue | utils.py:205-217 | the labelled search anchored on DIKELUARKAN or ISSUE, with no fallback: a result lies one to three places after such a label, and there is none exactly when no such label has a date-shaped token within three places after it |
| Dates.DateOfExpiry | utils.py:219-231 | the labelled search anchored on MANSUH or EXPIRY, with no fallback: a result lies one to three places after such a label, and there is none exactly when no such label has a date-shaped token within three places after it |
| Dates.FirstAnchoredDateWins | utils.py:119-124 | when no earlier label has a date in its window, the first date in this label's window is the result |
| Dates.FirstDateInWindow | utils.py:122-124 | the first date-shaped token after a label, within three places, is the one the window search finds |
| Dates.FirstAnchorFound | utils.py:119-124 | the label search from the front stops at the first label whose window holds a date |
| Gender.ExtractGender | utils.py:134-151 | the result is Male or Female, taken from the first token whose upper-case form is in the table; None exactly when no token is |
| Gender.GenderTable | utils.py:140-145 | Male exactly for LELAKI and MALE, Female exactly for PEREMPUAN and FEMALE |
| Names.KeptNameTokens | utils.py:98-107 | the kept tokens are input tokens that pass the length, heading, identity-number and digit filters, and there are no more of them than input tokens |
| Names.KeptNameTokensOne | utils.py:98-107 | one token is kept exactly when it passes the four filters |
| Names.KeptNameTokensAppend | utils.py:84-107 | filtering a sequence keeps what filtering each of two consecutive pieces keeps, in input order; with the one-token case this says every passing token is kept, in order, and nothing else |
| Names.LabelStart | utils.py:84-90 | capture starts right after the first name label, and there is none exactly when no token is a name label |
| Names.NameStart | utils.py:73-90 | unless the fallback applies, capture starts after the first name label; under the fallback (no token mentions NAMA or NAME, and a number was found) it starts after the first token holding the number as typed, and never when no token holds it |
| Names.NameEnd | utils.py:93-95 | capture stops at the first field label at or after its start |
| Names.ExtractFullName | utils.py:60-109 | the extraction loop computes exactly the filtered window, joined by single spaces |
| Names.FindIdToken | utils.py:75-82 | the fallback loop finds the token after the first one holding the identity number, and raises the flag only then |
| Names.CaptureName | utils.py:84-107 | the capture loop appends exactly the filtered tokens between its start and the first field label |
| Names.FindNameLabel | utils.py:84-90 | before the flag is raised, the loop finds a name label exactly when there is one, and capture starts right after the first |
| Names.CaptureWindow | utils.py:92-107 | once the flag is raised, the loop appends exactly the filtered tokens up to the first field label, where it stops |
| Names.AppendIfKept | utils.py:97-107 | a token is appended exactly when it passes the length, heading, identity-number and digit tests, and the list is otherwise unchanged |
| Names.NoLabelWithoutMention | utils.py:73-90 | when no token mentions NAMA or NAME, no token is a name label either |
| Names.LabelledStart | utils.py:73-90 | the first name label starts capture right after it, since it also rules out the fallback |
| Names.NoDigitsNoId | utils.py:15-32 | tokens that have no digit once cleaned yield no identity number |
| Names.NamePartsFiltered | utils.py:94-107 | every captured token is an input token longer than two characters, with no digit, no heading word, no field label, and not part of the identity number |
| Names.NoDateInName | utils.py:103-104 | no captured name token is date-shaped, since a date holds a digit |
| Names.FullNameShape | utils.py:109 | the full name is the captured tokens joined by single spaces, has no digit and is longer than two characters |
| Names.NameLabelMentionsName | utils.py:73-90 | a token that starts capture also rules out the fallback |
| Names.FallbackWithoutIdToken | utils.py:75-82 | under the fallback, when no token holds the number as typed, no name is found |
| Names.LabelledNameCaptured | utils.py:84-107 | the tokens between the first name label and the next field label are the name when each passes the filters |
| Names.AllKept | utils.py:98-107 | filtering keeps a window whose tokens all pass |
| Names.SplitNameAsWritten | utils.py:186-203 | `split_name` as written: it fails exactly on a non-empty name made only of whitespace |
| Names.SplitName | utils.py:186-203 | no words gives three absent parts; one word gives first only; two give first and last; three or more give all three; first and last are single words, and middle is its own words joined by single spaces |
| Names.SplitNameRoundTrip | utils.py:196-203 | the words of first, middle and last, in order, are exactly the words of the full name; with `SplitName`'s contract, first is the first word, last the last, and middle the inner words joined by single spaces |
| Names.WordsOfWord | utils.py:196 | a single word splits into itself |
| Names.SplitNameAgrees | utils.py:186-203 | wherever `split_name` does not fail, the corrected split returns the same parts |
| Names.BlankNameCrashesSplit | utils.py:186-203 | `["NAMA", "   "]` gives the full name `"   "`, and splitting it fails |
| Names.BlankNameCaptured | utils.py:60-109 | the card `["NAMA", "   "]` gives the full name `"   "`: the blank token is longer than two characters and passes every filter |
| Places.KeptPlaceTokens | utils.py:171-183 | kept tokens are input tokens with no TARIKH, no label, no date, longer than two characters and not NEGARA |
| Places.KeptPlaceTokensOne | utils.py:171-183 | one token is kept exactly when it passes the TARIKH, label, date, length and NEGARA tests |
| Places.KeptPlaceTokensAppend | utils.py:161-183 | filtering a sequence keeps what filtering each of two consecutive pieces keeps, in input order; with the one-token case this says every passing token is kept, in order, and nothing else |
| Places.PlaceStart | utils.py:167-173 | capture starts after the first token with TEMPAT, or with NEGERI and LAHIR, that has no TARIKH |
| Places.PlaceEnd | utils.py:163-165 | capture ends at the first later token with WARGANEGARA, KAD, PENGENALAN, JANTINA, TARIKH, BANGSA or ALAMAT |
| Places.ExtractBirthplace | utils.py:154-185 | the extraction loop computes exactly the filtered window, joined by single spaces |
| Places.FindPlaceLabel | utils.py:161-173 | before the flag is raised, field labels do not stop the loop, TARIKH tokens are skipped, and the first TEMPAT or NEGERI-and-LAHIR token is found exactly when there is one |
| Places.CapturePlace | utils.py:161-183 | once the flag is raised, the loop appends exactly the kept tokens up to the first field label, where it stops |
| Places.AppendIfPlace | utils.py:167-183 | a token is appended exactly when it has no TARIKH, is no opening label, holds no date, is longer than two characters and is not NEGARA; the list is otherwise unchanged |
| Places.PlacePartsFiltered | utils.py:154-185 | nothing is captured without an opening label, and every captured token lies in the window and has no stop word, no TARIKH, no date, more than two characters and is not NEGARA |
| Details.AllDetails | utils.py:233-252 | each field comes from its own extractor (`FullName`, `ExtractIdNumber`, the three date searches, `Birthplace`, `ExtractGender`); first, middle and last are `SplitName` of the full name, the corrected split, so a blank name gives three absent parts where the code raises; their words are the words of the full name; `raw_text` is the tokens joined by spaces |
| Details.RawText | utils.py:251 | every token, and every two adjacent tokens with one space between them, occur in `raw_text` |
| Details.ExtractAllDetails | utils.py:233-252 | running the two capture loops gives the same record |
| Details.ToRecord | utils.py:240-252 | the dictionary has exactly the eleven keys, each holding its field (None when absent); `full_name` and `id_number` are truthy exactly when present and non-empty |
| Records.OptStrTruthy | app.py:52 | an optional string stored in a dictionary is truthy exactly when it is present and non-empty |
| Details.FoundIdIsTruthy | utils.py:244 | the record's `id_number` is truthy exactly when an identity number is found |
| Records.Get | app.py:52 | `dict.get` gives the stored value, or None for a missing key |
| Detector.ClassifyBruneiId | document_detector.py:3-11 | 50/51 is Green Foreigner, 30/31 Red Permanent Resident, 00/01 Yellow Brunei National, each exactly for its two prefixes; Unknown exactly without any of the six |
| Detector.ExtractedIdClassified | document_detector.py:4-9 | an extracted identity number is never classified Unknown |
| Detector.DetectDocument | document_detector.py:14-73 | a National ID carries the extracted number and its class, never Unknown; a Passport carries the extracted passport number; Unknown exactly when both extractors find nothing; an identity keyword with a number beats a passport keyword; a passport keyword with a number beats the keyword-less fallback |
| Detector.SplitIdKeywordFound | document_detector.py:20-31 | a two-word identity keyword split over two adjacent tokens is found |
| Detector.TokenPassportKeywordFound | document_detector.py:20-44 | a passport keyword inside any one token, in any letter case, is found |
| Detector.ToRecord | document_detector.py:35-73 | a National ID record has exactly four keys: `document_type` "National ID", the number, and the class's colour and holder type; a Passport record has two: `document_type` "Passport" and the number; an Unknown record is exactly `document_type` "Unknown" |
| Detector.UnknownRecord | document_detector.py:71-73 | the one-key Unknown record comes exactly from tokens where neither extractor finds anything |
| Merge.Fill | app.py:51-53 | only the given key can change, and it takes the source's value exactly when front's is falsy and the source's truthy |
| Merge.FillAllSpec | app.py:56-62 | after the five calls, each of the five keys holds back's value exactly when front's is falsy and back's truthy, and every other key is as in front |
| Merge.FillStep | app.py:51-53 | one more call on a key not yet visited fills that key exactly when it should and leaves every other key as it was |
| Merge.Renamed | app.py:65-74 | `raw_text` and `confidence` are gone; the four renamed keys hold `.get` on each input; every other key is untouched |
| Merge.Merged | app.py:48-74 | a truthy front value wins; a falsy or missing one is replaced by a truthy back value; otherwise the key stays as in front, present or absent; no `raw_text` or `confidence`; the renamed keys hold `.get` on the inputs; every other key keeps front's value |
| Merge.OcrDict.Copy | app.py:48 | the copy holds exactly the front dictionary |
| Merge.OcrDict.UpdateIfMissing | app.py:51-53 | the dictionary becomes `Fill` of its old value |
| Merge.OcrDict.Put | app.py:65-73 | only the written key changes |
| Merge.OcrDict.Remove | app.py:68-74 | only the deleted key goes |
| Merge.EkycMerge | app.py:48-74 | the in-place merge computes exactly `Merged` of the two inputs, which it only reads |
| Merge.MergeWithEmptyBack | app.py:48-74 | with an empty back, the result is front minus `raw_text` and `confidence`, plus the renamed keys, with the back ones None |
| Merge.ProcessedRecord | main.py:12-14 | a detection's dictionary, every entry kept, plus `confidence` and `extracted_texts`; `id_number` is present exactly for a National ID, and there is never a name, birthplace, date or `raw_text` |
| Merge.DetectedIdNonEmpty | document_detector.py:30-40 | a National ID is returned only with a non-empty, hence truthy, identity number |
| Merge.MergeFillsOnlyId | app.py:51-69 | with no name, birthplace, dates or `raw_text` on either side, only `id_number` can be filled, front's first, and both raw-text entries are None |
| Merge.ProcessedMerge | app.py:48-74 | merging two processed results fills no name, birthplace or date; `id_number` is present exactly when either side was detected as an identity card, front's number first; the raw-text entries are None |

## Left out

- Image reading, preprocessing and OCR (`preprocess.py`, `ocr_engine.py`). The token list is the input.
- The HTTP endpoint around the merge: routing, saving uploads to temporary files, error responses, clean-up, and the server entry point.
- The selfie upload of the client script. The endpoint ignores it.
- `main.py`: the debug prints, and the rounding of the confidence. The confidence is an opaque real (`Records.Num`), stored as given.
- Unicode. `\d`, `\b`, `upper()`, `lower()` and `isalpha()` are modelled on ASCII letters and digits only; `strip()` and `split()` use Python's whitespace set.
- Records.Value: Python values other than None, strings, lists of strings and numbers never occur in these dictionaries.
- Details.AllDetails: uses the corrected `Names.SplitName`, so it does not model the `IndexError` that `split_name` raises on a non-empty whitespace-only name; `Names.SplitNameAsWritten` models that crash.
- Merge.EkycMerge: takes and returns dictionary values. The copy in the source means neither input changes; the values here cannot change by construction, so that part holds trivially rather than being proved about aliased objects.

## Findings

| source | as written | input that shows it | evidently intended | confidence | as-written member | corrected member |
|---|---|---|---|---|---|---|
| utils.py:190-203 | `split_name` guards only against a falsy name, then indexes `parts[0]`; a non-empty name of only whitespace has no parts and raises `IndexError`, which `extract_all_details` (utils.py:237-238) does not catch | tokens `["NAMA", "   "]` with no identity number: the full name is `"   "` | a name without words gives three absent parts, like an absent name | not executed | Names.SplitNameAsWritten, Names.BlankNameCrashesSplit | Names.SplitName |
