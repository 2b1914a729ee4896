/** The merge inside the `/ekyc` endpoint: the front result is copied, five
    fields missing from it are filled from the back result, and the raw text
    and confidence of both sides are stored under renamed keys. */
module Merge {
  import opened Strings
  import opened Records
  import Detector
  import opened Numbers

  /** The keys `update_if_missing` is applied to. */
  const FillKeys: set<String> := {"date_of_issue", "date_of_expiry", "place_of_birth", "full_name", "id_number"}

  /** The keys deleted after being copied under a new name. */
  const DroppedKeys: set<String> := {"raw_text", "confidence"}

  /** The keys written from `.get` on the two inputs. */
  const RenamedKeys: set<String> := {"raw_text_front", "raw_text_back", "confidence_front", "confidence_back"}

  /** `update_if_missing(key, back)` changes `key`: front's value is falsy
      (or missing) and back's is truthy. */
  predicate Fills(front: Record, back: Record, key: String) {
    key in FillKeys && !Truthy(Get(front, key)) && Truthy(Get(back, key))
  }

  /** `update_if_missing(key, source)` on a dictionary value: only `key` can
      change, and it takes the source's value exactly when it fills. */
  function Fill(m: Record, key: String, source: Record): (r: Record)
    ensures forall k | k != key :: (k in r <==> k in m) && (k in r ==> r[k] == m[k])
    ensures !Truthy(Get(m, key)) && Truthy(Get(source, key)) ==> key in r && r[key] == source[key]
    ensures Truthy(Get(m, key)) || !Truthy(Get(source, key)) ==> r == m
  {
    if !Truthy(Get(m, key)) && Truthy(Get(source, key)) then m[key := source[key]] else m
  }

  /** The five calls of `update_if_missing`, in the source's order. */
  function FillAll(front: Record, back: Record): Record {
    var m1 := Fill(front, "date_of_issue", back);
    var m2 := Fill(m1, "date_of_expiry", back);
    var m3 := Fill(m2, "place_of_birth", back);
    var m4 := Fill(m3, "full_name", back);
    Fill(m4, "id_number", back)
  }

  /** `m` is front with exactly the keys of `done` that fill taken from back. */
  ghost predicate FilledUpTo(front: Record, back: Record, m: Record, done: set<String>) {
    && (forall k | k in done && Fills(front, back, k) :: k in m && m[k] == back[k])
    && (forall k | !(k in done && Fills(front, back, k)) ::
          (k in m <==> k in front) && (k in m ==> m[k] == front[k]))
  }

  /** One more `update_if_missing` on a key not yet visited. */
  lemma FillStep(front: Record, back: Record, m: Record, done: set<String>, key: String)
    requires FilledUpTo(front, back, m, done)
    requires key in FillKeys && key !in done
    ensures FilledUpTo(front, back, Fill(m, key, back), done + {key})
  {
    assert Get(m, key) == Get(front, key);
  }

  /** Each of the five keys is filled from back exactly when `Fills` says so. */
  lemma {:induction false} FillAllSpec(front: Record, back: Record)
    ensures var r := FillAll(front, back);
            && (forall k | Fills(front, back, k) :: k in r && r[k] == back[k])
            && (forall k | !Fills(front, back, k) :: (k in r <==> k in front) && (k in r ==> r[k] == front[k]))
  {
    var m2 := Fill(Fill(front, "date_of_issue", back), "date_of_expiry", back);
    FillFirstTwo(front, back);
    var m3 := Fill(m2, "place_of_birth", back);
    var m4 := Fill(m3, "full_name", back);
    var done := {"date_of_issue", "date_of_expiry"};
    FillStep(front, back, m2, done, "place_of_birth");
    FillStep(front, back, m3, done + {"place_of_birth"}, "full_name");
    FillStep(front, back, m4, done + {"place_of_birth"} + {"full_name"}, "id_number");
    assert done + {"place_of_birth"} + {"full_name"} + {"id_number"} == FillKeys;
  }

  lemma FillFirstTwo(front: Record, back: Record)
    ensures FilledUpTo(front, back, Fill(Fill(front, "date_of_issue", back), "date_of_expiry", back),
                       {"date_of_issue", "date_of_expiry"})
  {
    assert FilledUpTo(front, back, front, {});
    FillStep(front, back, front, {}, "date_of_issue");
    FillStep(front, back, Fill(front, "date_of_issue", back), {"date_of_issue"}, "date_of_expiry");
    assert {"date_of_issue"} + {"date_of_expiry"} == {"date_of_issue", "date_of_expiry"};
  }

  /** The renames of lines 65-74: both raw texts and both confidences stored
      under new keys, the original keys deleted. */
  function Renamed(m: Record, front: Record, back: Record): (r: Record)
    ensures forall k | k in DroppedKeys :: k !in r
    ensures RenamedKeys <= r.Keys
    ensures r["raw_text_front"] == Get(front, "raw_text") && r["raw_text_back"] == Get(back, "raw_text")
    ensures r["confidence_front"] == Get(front, "confidence") && r["confidence_back"] == Get(back, "confidence")
    ensures forall k | k !in DroppedKeys && k !in RenamedKeys :: (k in r <==> k in m) && (k in r ==> r[k] == m[k])
  {
    var withText := m["raw_text_front" := Get(front, "raw_text")]["raw_text_back" := Get(back, "raw_text")] - {"raw_text"};
    withText["confidence_front" := Get(front, "confidence")]["confidence_back" := Get(back, "confidence")] - {"confidence"}
  }

  /** The merged record, stated key by key. */
  function Merged(front: Record, back: Record): (m: Record)
    // a truthy front value wins
    ensures forall k | k in FillKeys && Truthy(Get(front, k)) :: k in m && m[k] == front[k]
    // a falsy or missing front value is replaced by a truthy back value
    ensures forall k | Fills(front, back, k) :: k in m && m[k] == back[k]
    // otherwise the key stays as in front, present or absent
    ensures forall k | k in FillKeys && !Truthy(Get(front, k)) && !Truthy(Get(back, k)) ::
              (k in m <==> k in front) && (k in front ==> m[k] == front[k])
    ensures forall k | k in DroppedKeys :: k !in m
    ensures RenamedKeys <= m.Keys
    ensures m["raw_text_front"] == Get(front, "raw_text") && m["raw_text_back"] == Get(back, "raw_text")
    ensures m["confidence_front"] == Get(front, "confidence") && m["confidence_back"] == Get(back, "confidence")
    // every other key keeps front's value and nothing is recomputed
    ensures forall k | k !in FillKeys && k !in DroppedKeys && k !in RenamedKeys ::
              (k in m <==> k in front) && (k in m ==> m[k] == front[k])
  {
    KeySetsDisjoint();
    FillAllSpec(front, back);
    var filled := FillAll(front, back);
    Renamed(filled, front, back)
  }

  lemma KeySetsDisjoint()
    ensures FillKeys !! DroppedKeys && FillKeys !! RenamedKeys && DroppedKeys !! RenamedKeys
  {
  }

  /** `merged_ocr`: the copied front dictionary, updated in place. */
  class OcrDict {
    var entries: Record

    /** `ocr_result_front.copy()`. */
    constructor Copy(source: Record)
      ensures entries == source
    {
      entries := source;
    }

    /** `update_if_missing(key, source)`. */
    method UpdateIfMissing(key: String, source: Record)
      modifies this
      ensures entries == Fill(old(entries), key, source)
    {
      if !Truthy(Get(entries, key)) && Truthy(Get(source, key)) {
        entries := entries[key := source[key]];
      }
    }

    /** `merged_ocr[key] = value`. */
    method Put(key: String, value: Value)
      modifies this
      ensures entries == old(entries)[key := value]
    {
      entries := entries[key := value];
    }

    /** `if key in merged_ocr: del merged_ocr[key]`. */
    method Remove(key: String)
      modifies this
      ensures entries == old(entries) - {key}
    {
      if key in entries {
        entries := entries - {key};
      }
    }
  }

  /** Lines 48-74 of the endpoint, on the two OCR results. */
  method EkycMerge(front: Record, back: Record) returns (merged: Record)
    ensures merged == Merged(front, back)
  {
    var d := new OcrDict.Copy(front);
    d.UpdateIfMissing("date_of_issue", back);
    d.UpdateIfMissing("date_of_expiry", back);
    d.UpdateIfMissing("place_of_birth", back);
    d.UpdateIfMissing("full_name", back);
    d.UpdateIfMissing("id_number", back);
    d.Put("raw_text_front", Get(front, "raw_text"));
    d.Put("raw_text_back", Get(back, "raw_text"));
    d.Remove("raw_text");
    d.Put("confidence_front", Get(front, "confidence"));
    d.Put("confidence_back", Get(back, "confidence"));
    d.Remove("confidence");
    merged := d.entries;
  }

  /** With nothing on the back, the merge only renames and drops the raw text
      and confidence entries of the front; the back entries are `None`. */
  lemma MergeWithEmptyBack(front: Record)
    ensures Merged(front, map[]) ==
              (front - DroppedKeys)["raw_text_front" := Get(front, "raw_text")]["raw_text_back" := Null]
                ["confidence_front" := Get(front, "confidence")]["confidence_back" := Null]
  {
  }

  /** `process_document`'s result for the tokens `texts`, given what the
      detector made of them: the detector's dictionary plus the OCR confidence
      and the tokens themselves. */
  function ProcessedRecord(d: Detector.Detection, texts: seq<String>, confidence: real): (r: Record)
    ensures r.Keys == Detector.ToRecord(d).Keys + {"confidence", "extracted_texts"}
    ensures r["confidence"] == Num(confidence) && r["extracted_texts"] == Texts(texts)
    ensures forall k | k in Detector.ToRecord(d) :: r[k] == Detector.ToRecord(d)[k]
    ensures "id_number" in r <==> d.NationalId?
    ensures d.NationalId? ==> r["id_number"] == Str(d.idNumber)
    ensures forall k | k in FillKeys - {"id_number"} :: k !in r
    ensures "raw_text" !in r
  {
    ProcessedKeys();
    Detector.ToRecord(d)["confidence" := Num(confidence)]["extracted_texts" := Texts(texts)]
  }

  lemma ProcessedKeys()
    ensures (FillKeys - {"id_number"}) !! (Detector.DetectionKeys + {"confidence", "extracted_texts"})
    ensures "raw_text" !in Detector.DetectionKeys + {"confidence", "extracted_texts"}
    ensures "id_number" != "confidence" && "id_number" != "extracted_texts"
  {
  }

  /** When neither side carries a name, a birthplace, dates or `raw_text`, and
      any `id_number` either side carries is truthy, the merge adds only
      `id_number`, front's first, and both raw-text entries are `None`. */
  lemma MergeFillsOnlyId(front: Record, back: Record)
    requires forall k | k in FillKeys - {"id_number"} :: k !in front && k !in back
    requires "raw_text" !in front && "raw_text" !in back
    requires "id_number" in front ==> Truthy(front["id_number"])
    requires "id_number" in back ==> Truthy(back["id_number"])
    ensures var m := Merged(front, back);
            && (forall k | k in FillKeys - {"id_number"} :: k !in m)
            && m["raw_text_front"] == Null && m["raw_text_back"] == Null
            && ("id_number" in m <==> "id_number" in front || "id_number" in back)
            && ("id_number" in front ==> m["id_number"] == front["id_number"])
            && ("id_number" !in front && "id_number" in back ==> m["id_number"] == back["id_number"])
  {
    assert "id_number" in FillKeys;
    if "id_number" !in front && "id_number" in back {
      assert Fills(front, back, "id_number");
    }
  }

  /** On two processed results the merge can fill only `id_number`, and only
      from a back side detected as an identity card: the detector produces no
      name, birthplace or dates and no `raw_text`, so both raw-text entries
      are `None`. */
  lemma ProcessedMerge(frontTexts: seq<String>, frontConfidence: real, backTexts: seq<String>, backConfidence: real)
    ensures var f := Detector.DetectDocument(frontTexts);
            var b := Detector.DetectDocument(backTexts);
            var m := Merged(ProcessedRecord(f, frontTexts, frontConfidence), ProcessedRecord(b, backTexts, backConfidence));
            && (forall k | k in FillKeys - {"id_number"} :: k !in m)
            && m["raw_text_front"] == Null && m["raw_text_back"] == Null
            && m["confidence_front"] == Num(frontConfidence) && m["confidence_back"] == Num(backConfidence)
            && ("id_number" in m <==> f.NationalId? || b.NationalId?)
            && (f.NationalId? ==> m["id_number"] == Str(f.idNumber))
            && (!f.NationalId? && b.NationalId? ==> m["id_number"] == Str(b.idNumber))
  {
    var f := Detector.DetectDocument(frontTexts);
    var b := Detector.DetectDocument(backTexts);
    DetectedIdNonEmpty(frontTexts);
    DetectedIdNonEmpty(backTexts);
    MergeFillsOnlyId(ProcessedRecord(f, frontTexts, frontConfidence), ProcessedRecord(b, backTexts, backConfidence));
  }

  /** A detected identity number is never empty, so its entry is truthy. */
  lemma DetectedIdNonEmpty(texts: seq<String>)
    ensures Detector.DetectDocument(texts).NationalId? ==> Detector.DetectDocument(texts).idNumber != []
  {
    var d := Detector.DetectDocument(texts);
    if d.NationalId? {
      assert HasValidIdPrefix(d.idNumber);
    }
  }
}
