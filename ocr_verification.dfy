/**
 * Field extraction from OCR text (`extract_fields`) and the format check
 * that stamps a verification status into the extracted record in place
 * (`verify_fields`).  The record is a Python dict from field names to
 * strings, modelled as a `map<string, string>`.
 */
module OcrVerification {
  import opened Wrappers
  import opened CharClasses
  import opened OcrPatterns

  const NameKey := "Name"
  const DobKey := "DOB"
  const AadhaarKey := "Aadhaar_No"
  const TextKey := "Extracted_Text"
  const StatusKey := "Verification_Status"

  const NotFound := "Not Found"
  const Passed := "\U{2705} Passed"
  const FailedStatus := "\U{26A0}\U{FE0F} Failed"

  // ---------------------------------------------------------------------
  // str.strip()
  // ---------------------------------------------------------------------

  /** The first position at or after `i` that is not whitespace (or `|s|`). */
  function SkipSpaces(s: string, i: nat): (j: nat)
    requires i <= |s|
    decreases |s| - i
    ensures i <= j <= |s|
    ensures forall m :: i <= m < j ==> IsPySpace(s[m])
    ensures j < |s| ==> !IsPySpace(s[j])
  {
    if i < |s| && IsPySpace(s[i]) then SkipSpaces(s, i + 1) else i
  }

  /** The end of `s[lo..j]` once its trailing whitespace is dropped. */
  function DropTrailingSpaces(s: string, lo: nat, j: nat): (b: nat)
    requires lo <= j <= |s|
    decreases j
    ensures lo <= b <= j
    ensures forall m :: b <= m < j ==> IsPySpace(s[m])
    ensures b > lo ==> !IsPySpace(s[b - 1])
  {
    if j > lo && IsPySpace(s[j - 1]) then DropTrailingSpaces(s, lo, j - 1) else j
  }

  /** `s.strip()`: `s` without its leading and trailing whitespace. */
  function Strip(s: string): (r: string)
    ensures |r| <= |s|
    ensures r == [] || (!IsPySpace(r[0]) && !IsPySpace(r[|r| - 1]))
    ensures r == [] <==> forall m :: 0 <= m < |s| ==> IsPySpace(s[m])
  {
    var a := SkipSpaces(s, 0);
    var b := DropTrailingSpaces(s, a, |s|);
    assert b > a ==> !IsPySpace(s[a]);
    s[a..b]
  }

  /**
   * Stripping undoes any whitespace padding of a string whose ends are not
   * whitespace; with `Strip`'s own contract this determines it.
   */
  lemma StripPadded(p: string, t: string, q: string)
    requires forall m :: 0 <= m < |p| ==> IsPySpace(p[m])
    requires forall m :: 0 <= m < |q| ==> IsPySpace(q[m])
    requires t == [] || (!IsPySpace(t[0]) && !IsPySpace(t[|t| - 1]))
    ensures Strip(p + t + q) == t
  {
    var s := p + t + q;
    assert forall m :: 0 <= m < |p| ==> s[m] == p[m];
    assert forall m :: 0 <= m < |t| ==> s[|p| + m] == t[m];
    assert forall m :: 0 <= m < |q| ==> s[|p| + |t| + m] == q[m];
    var a := SkipSpaces(s, 0);
    if t == [] {
      assert forall m :: 0 <= m < |s| ==> IsPySpace(s[m]) by {
        forall m | 0 <= m < |s| ensures IsPySpace(s[m]) {
          if m >= |p| { assert s[m] == q[m - |p|]; }
        }
      }
    } else {
      assert a == |p|;
      var b := DropTrailingSpaces(s, a, |s|);
      assert b == |p| + |t|;
      assert s[a..b] == t;
    }
  }

  // ---------------------------------------------------------------------
  // The three scanners: re.findall(pattern, text)[0]
  // ---------------------------------------------------------------------

  /** Where the first Aadhaar-number match starts. */
  function FindAadhaar(text: string): (r: Option<nat>)
    ensures r.Some? ==> AadhaarAt(text, r.value)
    ensures r.Some? ==> forall j: nat :: j < r.value ==> !AadhaarAt(text, j)
    ensures r.None? ==> forall j: nat :: !AadhaarAt(text, j)
  {
    var matchAt := (j: nat) => AadhaarAt(text, j);
    assert forall j: nat :: matchAt(j) == AadhaarAt(text, j);
    FirstFrom(|text|, matchAt, 0)
  }

  /** Where the first date-of-birth match starts. */
  function FindDob(text: string): (r: Option<nat>)
    ensures r.Some? ==> DobAt(text, r.value)
    ensures r.Some? ==> forall j: nat :: j < r.value ==> !DobAt(text, j)
    ensures r.None? ==> forall j: nat :: !DobAt(text, j)
  {
    var matchAt := (j: nat) => DobAt(text, j);
    assert forall j: nat :: matchAt(j) == DobAt(text, j);
    FirstFrom(|text|, matchAt, 0)
  }

  /** No span in the name language starts before `n` when the engine finds no match there. */
  lemma NoNameBefore(text: string, n: nat)
    requires forall j: nat :: j < n ==> NameEndAt(text, j).None?
    ensures forall j: nat, k: nat :: j < n ==> !NameSpan(text, j, k)
  {
    forall j: nat, k: nat | j < n && NameSpan(text, j, k) ensures false {
      NameEndLongest(text, j, k);
    }
  }

  /**
   * The first name match, as start and end: the leftmost position where a
   * span of the name language starts, and the longest such span there.
   */
  function FindName(text: string): (r: Option<(nat, nat)>)
    ensures r.Some? ==> NameSpan(text, r.value.0, r.value.1)
    ensures r.Some? ==> forall j: nat, k: nat :: j < r.value.0 ==> !NameSpan(text, j, k)
    ensures r.Some? ==> forall k: nat :: NameSpan(text, r.value.0, k) ==> k <= r.value.1
    ensures r.None? ==> forall j: nat, k: nat :: !NameSpan(text, j, k)
  {
    var matchAt := (j: nat) => NameEndAt(text, j).Some?;
    assert forall j: nat :: matchAt(j) == NameEndAt(text, j).Some?;
    var first := FirstFrom(|text|, matchAt, 0);
    if first.None? then
      NoNameBefore(text, |text| + 1);
      None
    else
      var i := first.value;
      NoNameBefore(text, i);
      NameEndSound(text, i);
      assert forall k: nat :: NameSpan(text, i, k) ==> k <= NameEndAt(text, i).value by {
        forall k: nat | NameSpan(text, i, k) ensures k <= NameEndAt(text, i).value {
          NameEndLongest(text, i, k);
        }
      }
      Some((i, NameEndAt(text, i).value))
  }

  /** `Aadhaar_No`: the first match, or "Not Found" when there is none. */
  function AadhaarField(text: string): (v: string)
    ensures v == NotFound <==> forall j: nat :: !AadhaarAt(text, j)
    ensures v != NotFound ==> AadhaarShape(v)
    ensures v != NotFound ==> exists i: nat :: AadhaarAt(text, i) && v == text[i..i + AadhaarLength] &&
                                               forall j: nat :: j < i ==> !AadhaarAt(text, j)
  {
    match FindAadhaar(text)
    case Some(i) => text[i..i + AadhaarLength]
    case None => NotFound
  }

  /** `DOB`: the first match, or "Not Found" when there is none. */
  function DobField(text: string): (v: string)
    ensures v == NotFound <==> forall j: nat :: !DobAt(text, j)
    ensures v != NotFound ==> DobShape(v)
    ensures v != NotFound ==> exists i: nat :: DobAt(text, i) && v == text[i..i + DobLength] &&
                                               forall j: nat :: j < i ==> !DobAt(text, j)
  {
    match FindDob(text)
    case Some(i) => text[i..i + DobLength]
    case None => NotFound
  }

  /**
   * `Name`: the first match, or "Not Found" when there is none.  "Not Found"
   * is itself in the name language, so that value does not tell the two apart.
   */
  function NameField(text: string): (v: string)
    ensures (forall j: nat, k: nat :: !NameSpan(text, j, k)) ==> v == NotFound
    ensures FindName(text).Some? ==> IsNameText(v)
    ensures v != NotFound ==> exists i: nat, k: nat :: NameSpan(text, i, k) && v == text[i..k]
    ensures FindName(text).Some? ==> v == text[FindName(text).value.0..FindName(text).value.1]
  {
    match FindName(text)
    case Some((i, k)) =>
      NameSpanSlice(text, i, k);
      text[i..k]
    case None => NotFound
  }

  /** `extract_fields(text)`: a record with exactly the three fields and the stripped text. */
  function ExtractFields(text: string): (r: map<string, string>)
    ensures r.Keys == {NameKey, DobKey, AadhaarKey, TextKey}
    ensures r[NameKey] == NameField(text) && r[DobKey] == DobField(text)
    ensures r[AadhaarKey] == AadhaarField(text) && r[TextKey] == Strip(text)
  {
    map[NameKey := NameField(text), DobKey := DobField(text),
        AadhaarKey := AadhaarField(text), TextKey := Strip(text)]
  }

  // ---------------------------------------------------------------------
  // verify_fields
  // ---------------------------------------------------------------------

  /**
   * `re.match(r"^\d{4}\s\d{4}\s\d{4}$", v)`: the whole value has the number's
   * shape, or has it followed by one final newline.
   */
  predicate AadhaarValid(v: string): (b: bool)
    ensures b <==> AadhaarShape(v) || (|v| == AadhaarLength + 1 && v[AadhaarLength] == '\n' && AadhaarShape(v[..AadhaarLength]))
    ensures b ==> |v| == AadhaarLength || |v| == AadhaarLength + 1
  {
    Anchored(v, AadhaarLength, AadhaarShape)
  }

  /**
   * `re.match(r"^\d{2}[/-]\d{2}[/-]\d{4}$", v)`: the whole value has the date's
   * shape, or has it followed by one final newline.
   */
  predicate DobValid(v: string): (b: bool)
    ensures b <==> DobShape(v) || (|v| == DobLength + 1 && v[DobLength] == '\n' && DobShape(v[..DobLength]))
    ensures b ==> |v| == DobLength || |v| == DobLength + 1
  {
    Anchored(v, DobLength, DobShape)
  }

  /** `$` also matches before one final newline, and only before one. */
  lemma AnchoredFinalNewline(v: string)
    requires AadhaarShape(v)
    ensures AadhaarValid(v + "\n")
    ensures !AadhaarValid(v + "\n\n")
  {
  }

  /**
   * The decision of `verify_fields` on record `m`: whether it passes, or the
   * key whose lookup raises `KeyError`.  The keys are read in the order
   * `Aadhaar_No`, `DOB`, then `Name`, and `Name` only when both formats hold.
   */
  function CheckFields(m: map<string, string>): (r: Result<bool, string>)
    ensures AadhaarKey !in m ==> r == Failure(AadhaarKey)
    ensures AadhaarKey in m && DobKey !in m ==> r == Failure(DobKey)
    ensures AadhaarKey in m && DobKey in m && !(AadhaarValid(m[AadhaarKey]) && DobValid(m[DobKey])) ==>
              r == Success(false)
    ensures r.Failure? ==> r.error in {AadhaarKey, DobKey, NameKey} && r.error !in m
    ensures r == Success(true) <==>
              AadhaarKey in m && DobKey in m && NameKey in m &&
              AadhaarValid(m[AadhaarKey]) && DobValid(m[DobKey]) && m[NameKey] != NotFound
    ensures AadhaarKey in m && DobKey in m && AadhaarValid(m[AadhaarKey]) && DobValid(m[DobKey]) && NameKey !in m ==>
              r == Failure(NameKey)
  {
    if AadhaarKey !in m then Failure(AadhaarKey)
    else if DobKey !in m then Failure(DobKey)
    else if !(AadhaarValid(m[AadhaarKey]) && DobValid(m[DobKey])) then Success(false)
    else if NameKey !in m then Failure(NameKey)
    else Success(m[NameKey] != NotFound)
  }

  /** The status text written for a decision. */
  function StatusText(pass: bool): (t: string)
    ensures t == Passed <==> pass
    ensures t == FailedStatus <==> !pass
  {
    if pass then Passed else FailedStatus
  }

  /** A field record that `verify_fields` updates in place. */
  class FieldRecord {
    var entries: map<string, string>

    constructor (m: map<string, string>)
      ensures entries == m
    {
      entries := m;
    }
  }

  /**
   * `verify_fields(data)`: write the status under `Verification_Status`,
   * adding or overwriting that one key, or raise `KeyError` (returned as the
   * missing key) and leave the record as it was.
   */
  method VerifyFields(data: FieldRecord) returns (keyError: Option<string>)
    modifies data
    ensures CheckFields(old(data.entries)).Failure? ==>
              keyError == Some(CheckFields(old(data.entries)).error) && data.entries == old(data.entries)
    ensures CheckFields(old(data.entries)).Success? ==>
              keyError == None &&
              data.entries == old(data.entries)[StatusKey := StatusText(CheckFields(old(data.entries)).value)]
    ensures keyError == None ==> data.entries.Keys == old(data.entries).Keys + {StatusKey}
    ensures forall k :: k in old(data.entries) && k != StatusKey ==> k in data.entries && data.entries[k] == old(data.entries)[k]
  {
    var decision := CheckFields(data.entries);
    match decision
    case Failure(key) =>
      keyError := Some(key);
    case Success(pass) =>
      data.entries := data.entries[StatusKey := StatusText(pass)];
      keyError := None;
  }

  // ---------------------------------------------------------------------
  // extract, then verify
  // ---------------------------------------------------------------------

  /** Every extracted number and date already has its anchored format; "Not Found" has neither. */
  lemma ExtractedFormats(text: string)
    ensures AadhaarValid(AadhaarField(text)) <==> FindAadhaar(text).Some?
    ensures DobValid(DobField(text)) <==> FindDob(text).Some?
  {
  }

  /**
   * Verifying an extracted record never raises, and passes exactly when a
   * number, a date and a name were all found and the name found is not the
   * literal text "Not Found".
   */
  lemma ExtractThenVerify(text: string)
    ensures CheckFields(ExtractFields(text)).Success?
    ensures CheckFields(ExtractFields(text)).value <==>
              FindAadhaar(text).Some? && FindDob(text).Some? && FindName(text).Some? && NameField(text) != NotFound
  {
    var m := ExtractFields(text);
    assert AadhaarKey in m && DobKey in m && NameKey in m;
    ExtractedFormats(text);
  }

  /** The text "Not Found" holds a name, which the extracted record cannot tell from none. */
  lemma NameNotFoundCollision()
    ensures FindName(NotFound).Some? && NameField(NotFound) == NotFound
  {
    var s := NotFound;
    assert WordStartsAt(s, 0) && WordEnd(s, 0) == 3;
    assert MoreWordAt(s, 3) && WordEnd(s, 4) == 9;
    assert NameEndAt(s, 0) == Some(9);
  }

  /** The `__main__` block's two steps (py:74-75) on one record: extract from `text`, then verify in place. */
  method ExtractAndVerify(text: string) returns (data: FieldRecord)
    ensures fresh(data)
    ensures data.entries.Keys == {NameKey, DobKey, AadhaarKey, TextKey, StatusKey}
    ensures data.entries[StatusKey] == Passed <==>
              FindAadhaar(text).Some? && FindDob(text).Some? && FindName(text).Some? && NameField(text) != NotFound
    ensures data.entries == ExtractFields(text)[StatusKey := StatusText(CheckFields(ExtractFields(text)).value)]
  {
    data := new FieldRecord(ExtractFields(text));
    ExtractThenVerify(text);
    var keyError := VerifyFields(data);
  }
}
