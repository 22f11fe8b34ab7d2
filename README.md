# Aadhaar identity-check: display, validation and OCR field rules in Dafny

This project models the logic in two parts of an Aadhaar identity-verification repository and proves properties of those models.

1. **The web form** (`AadhaarCheck.jsx`). It has three panels:
   - document analysis;
   - QR verification;
   - lookup by the 12-digit Aadhaar number.

   The model covers:
   - masking an identifier for display (`maskAadhaar`);
   - validating the lookup input (`validateAadhaarInput` and the guard at the start of `submitLookup`);
   - each panel's state (`file`, `preview`, `result`, `loading`) as the event handlers change it.
2. **The OCR verification module** (`ai_ocr_verification.py`). The model covers:
   - `extract_fields`: the leftmost match of three regular expressions in the OCR text (Aadhaar number, date of birth, name), each falling back to `"Not Found"`, plus the stripped text;
   - `verify_fields`: anchored re-checks of those fields, after which the record gets a `Verification_Status` written into it in place.

Modules:

- `CharClasses`: the ASCII parts of `\d`, `[A-Z]`, `[a-z]` and `\w`, JavaScript's `\s` and Python's `\s`. Python's set also includes 0x1C..0x1F, which it counts as whitespace.
- `Wrappers`: `Option`, which stands for JavaScript `null`/`undefined` and for "no match". `Result`, which holds a `KeyError`.
- `IdentifierRules`: masking and validation as pure functions. `DigitCount`, an independent definition that counts digits on the input's multiset of characters, backs the validation. Masking is pinned by properties of `RemoveSpaces`, such as its distributing over concatenation (`RemoveSpacesAppend`).
- `Panels`: one class per panel. Each `async` handler is split at its `await` into `Begin…` and `Finish…`. The settled request is an opaque `Outcome` parameter. The `disabled` attribute on each trigger button becomes `requires !loading`. Two class invariants hold:
  - `AnalyzePanel.Valid`: the preview always belongs to the chosen file;
  - `LookupPanel.Valid`: while a lookup is outstanding, no result is shown.
- `OcrPatterns`:
  - the regexes written out as predicates, including Python's `\b`;
  - one generic leftmost-match scanner (`FirstFrom`);
  - `NameEndAt`, which follows the way Python's backtracking engine matches the greedy name pattern;
  - `NameSpan`, an independent definition of that pattern's language. It is proved that the engine's match at a position is the longest span of the language starting there.
- `OcrVerification`: `str.strip`, the three field scanners, `extract_fields` (as a `map`), and `CheckFields`, the pure decision of `verify_fields`. The method `VerifyFields` updates a `FieldRecord` object in place.

Behaviour worth knowing, all proved:

- Python's `$` also matches just before a final newline. So the anchored checks accept `"1234 5678 9012\n"` but not the same number followed by two newlines (`AnchoredFinalNewline`). `AadhaarValid` and `DobValid` admit only the exact shape, or the shape followed by one newline.
- `verify_fields` reads `data["Name"]` only when both format checks hold. A record without `Name` therefore fails quietly when a format check fails, and raises `KeyError` otherwise (`CheckFields`).
- `"Not Found"` is itself a name: two capitalised words. So when that text is the first name in the OCR text, extract-then-verify fails even though a name was found (`NameNotFoundCollision`, `ExtractThenVerify`).
- In the code, editing the lookup input leaves the previous lookup result on screen (`EditInput`): the `onChange` at line 413 only calls `setAadhaarInput`.
- A file can be chosen while a request is outstanding, because the file inputs are not disabled. The late reply is then stored as the result for the new file (`ChooseFile` keeps `loading`; `Finish…` overwrites `result`).

## Model

| member | source | states |
|---|---|---|
| `IdentifierRules.RemoveSpaces` | aadhar-fraud-detection/aadhaar-ui/src/AadhaarCheck.jsx:87 | the cleaned identifier contains no whitespace and is no longer than the input |
| `IdentifierRules.RemoveSpacesAppend` | aadhar-fraud-detection/aadhaar-ui/src/AadhaarCheck.jsx:87 | removing all whitespace distributes over concatenation (`/\s+/g` acts character by character) |
| `IdentifierRules.KeepDigits` | aadhar-fraud-detection/aadhaar-ui/src/AadhaarCheck.jsx:165 | the digit-only projection contains only digits and is no longer than the input |
| `IdentifierRules.KeepDigitsCount` | aadhar-fraud-detection/aadhaar-ui/src/AadhaarCheck.jsx:165 | the digit-only projection has exactly as many characters as the input has digit characters |
| `IdentifierRules.KeepDigitsAppend` | aadhar-fraud-detection/aadhaar-ui/src/AadhaarCheck.jsx:165 | the digit-only projection distributes over concatenation |
| `IdentifierRules.KeepDigitsAllDigits` | aadhar-fraud-detection/aadhaar-ui/src/AadhaarCheck.jsx:165 | a string of digits is its own projection, so projecting twice changes nothing |
| `IdentifierRules.MaskAadhaar` | aadhar-fraud-detection/aadhaar-ui/src/AadhaarCheck.jsx:85-90 | "N/A" for null, undefined or ""; the input itself when it has other than 12 non-whitespace characters; otherwise a 14-character string "XXXX-XXXX-" followed by the last four non-whitespace characters |
| `IdentifierRules.MaskKeepsShortValue` | aadhar-fraud-detection/aadhaar-ui/src/AadhaarCheck.jsx:86 | a non-empty input shorter than 4 characters is returned unchanged |
| `IdentifierRules.MaskKeepsValueWithoutSpaces` | aadhar-fraud-detection/aadhaar-ui/src/AadhaarCheck.jsx:87-88 | only whitespace is stripped: a non-empty input without whitespace whose length is not 12 is returned unchanged |
| `IdentifierRules.MaskKeepsDashedIdentifier` | aadhar-fraud-detection/aadhaar-ui/src/AadhaarCheck.jsx:87-88 | "1234-5678-9012" is returned as it is |
| `IdentifierRules.MaskDependsOnlyOnLastFour` | aadhar-fraud-detection/aadhaar-ui/src/AadhaarCheck.jsx:87-89 | two inputs with 12 non-whitespace characters and the same last four are masked alike |
| `IdentifierRules.MaskGroupedIdentifier` | aadhar-fraud-detection/aadhaar-ui/src/AadhaarCheck.jsx:87-89 | three 4-character groups separated by single whitespace characters are masked to "XXXX-XXXX-" followed by the third group |
| `IdentifierRules.ValidateAadhaarInput` | aadhar-fraud-detection/aadhaar-ui/src/AadhaarCheck.jsx:164-167 | true exactly when the input has 12 digit characters; a null or undefined input is treated as "" and gives false |
| `IdentifierRules.ValidateAcceptsSpacedIdentifier` | aadhar-fraud-detection/aadhaar-ui/src/AadhaarCheck.jsx:164-167 | "1234 5678 9012" is accepted and "12345" is rejected |
| `Panels.PreviewOf` | aadhar-fraud-detection/aadhaar-ui/src/AadhaarCheck.jsx:127 | a preview exists exactly when a file was chosen, and it belongs to that file |
| `Panels.ResultOf` | aadhar-fraud-detection/aadhaar-ui/src/AadhaarCheck.jsx:137-140 | a parsed reply is stored as received; a thrown error becomes `{ error: message }` |
| `Panels.Detail` | aadhar-fraud-detection/aadhaar-ui/src/AadhaarCheck.jsx:182 | `err.detail` as `||` reads it: the body's `detail` field when there is one, and "" for a missing body or field |
| `Panels.LookupResultOf` | aadhar-fraud-detection/aadhaar-ui/src/AadhaarCheck.jsx:180-189 | a 2xx body is stored as received; for a non-2xx reply, its non-empty `detail`, or else "Lookup failed"; a rejection gives its message |
| `Panels.LookupQuery` | aadhar-fraud-detection/aadhaar-ui/src/AadhaarCheck.jsx:170-171 | something is sent exactly when the input validates, and what is sent is 12 digit characters: the input's digits |
| `Panels.AnalyzePanel.constructor` | aadhar-fraud-detection/aadhaar-ui/src/AadhaarCheck.jsx:104-107 | no file, no preview, no result, not loading |
| `Panels.AnalyzePanel.ChooseFile` | aadhar-fraud-detection/aadhaar-ui/src/AadhaarCheck.jsx:123-128 | the chosen file (or none) is stored, the result is cleared, and the preview is set for the file or cleared |
| `Panels.AnalyzePanel.BeginAnalyze` | aadhar-fraud-detection/aadhaar-ui/src/AadhaarCheck.jsx:130-132 | without a file nothing changes and nothing is sent; with one, `loading` is set and the file is sent |
| `Panels.AnalyzePanel.FinishAnalyze` | aadhar-fraud-detection/aadhaar-ui/src/AadhaarCheck.jsx:133-143 | the outcome is stored as the result and `loading` is cleared on every path |
| `Panels.AnalyzePanel.SubmitAnalyze` | aadhar-fraud-detection/aadhaar-ui/src/AadhaarCheck.jsx:130-144 | afterwards `loading` is false; the result is the outcome's when a file was sent, and unchanged otherwise |
| `Panels.QrPanel.constructor` | aadhar-fraud-detection/aadhaar-ui/src/AadhaarCheck.jsx:110-112 | no file, no result, not loading |
| `Panels.QrPanel.ChooseFile` | aadhar-fraud-detection/aadhaar-ui/src/AadhaarCheck.jsx:338-341 | the chosen file (or none) is stored and the result is cleared |
| `Panels.QrPanel.BeginQr` | aadhar-fraud-detection/aadhaar-ui/src/AadhaarCheck.jsx:147-149 | without a file nothing changes and nothing is sent; with one, `loading` is set and the file is sent |
| `Panels.QrPanel.FinishQr` | aadhar-fraud-detection/aadhaar-ui/src/AadhaarCheck.jsx:150-160 | the outcome is stored as the result and `loading` is cleared on every path |
| `Panels.QrPanel.SubmitQr` | aadhar-fraud-detection/aadhaar-ui/src/AadhaarCheck.jsx:147-161 | afterwards `loading` is false; the result is the outcome's when a file was sent, and unchanged otherwise |
| `Panels.LookupPanel.constructor` | aadhar-fraud-detection/aadhaar-ui/src/AadhaarCheck.jsx:115-117 | empty input, no result, not loading |
| `Panels.LookupPanel.EditInput` | aadhar-fraud-detection/aadhaar-ui/src/AadhaarCheck.jsx:413 | only the input changes; the previous result stays |
| `Panels.LookupPanel.BeginLookup` | aadhar-fraud-detection/aadhaar-ui/src/AadhaarCheck.jsx:169-176 | without exactly 12 digits, the result becomes `{ error: "Enter exactly 12 digits." }`, `loading` is not set and nothing is sent; otherwise `loading` is set, the result is cleared, and the 12 digits are sent |
| `Panels.LookupPanel.FinishLookup` | aadhar-fraud-detection/aadhaar-ui/src/AadhaarCheck.jsx:177-192 | the settled request's result is stored and `loading` is cleared on every path |
| `Panels.LookupPanel.SubmitLookup` | aadhar-fraud-detection/aadhaar-ui/src/AadhaarCheck.jsx:169-193 | afterwards `loading` is false and the result is the input error or the settled request's result; the query is sent exactly when the input validates |
| `OcrPatterns.WordBoundary` | AI_OCR_Module2/ai_ocr_verification.py:31-32 | `\b` holds between two characters exactly when one is a word character and the other is not; at either end of the text exactly when the adjacent character is a word character; never beyond the text |
| `OcrPatterns.AadhaarAt` | AI_OCR_Module2/ai_ocr_verification.py:31 | the number pattern matches at a position exactly when the 14 characters there have the `\d{4}\s\d{4}\s\d{4}` shape and neither neighbour is a word character |
| `OcrPatterns.DobAt` | AI_OCR_Module2/ai_ocr_verification.py:32 | the date pattern matches at a position exactly when the 10 characters there have the `\d{2}[/-]\d{2}[/-]\d{4}` shape and neither neighbour is a word character |
| `OcrPatterns.Anchored` | AI_OCR_Module2/ai_ocr_verification.py:50-51 | `^P$` accepts the value exactly when it matches `P` or is a match of `P` of the pattern's length followed by one newline |
| `OcrPatterns.FirstFrom` | AI_OCR_Module2/ai_ocr_verification.py:35-37 | the scan returns the leftmost matching position, and none when no position matches |
| `OcrPatterns.LowerRunEnd` | AI_OCR_Module2/ai_ocr_verification.py:33 | the greedy `[a-z]+` runs over lower-case letters only and stops at the first other character |
| `OcrPatterns.NameSpanSlice` | AI_OCR_Module2/ai_ocr_verification.py:33 | the name language stated on a span of the text is the same as on the extracted substring |
| `OcrPatterns.NameEndAt` | AI_OCR_Module2/ai_ocr_verification.py:33 | the engine's match at a position, when there is one, starts with an upper-case then a lower-case letter, lies within the text and is at least five characters long; `NameEndSound` and `NameEndLongest` tie it to the language |
| `OcrPatterns.NameEndSound` | AI_OCR_Module2/ai_ocr_verification.py:33 | the engine's match of the name pattern lies in the pattern's language (two or more capitalised words separated by single whitespace) |
| `OcrPatterns.NameEndLongest` | AI_OCR_Module2/ai_ocr_verification.py:33 | the engine finds a match wherever a span of the language starts, and no span starting there is longer than that match |
| `OcrVerification.Strip` | AI_OCR_Module2/ai_ocr_verification.py:43 | the stripped text neither starts nor ends with whitespace, and it is empty exactly when the text is all whitespace |
| `OcrVerification.StripPadded` | AI_OCR_Module2/ai_ocr_verification.py:43 | stripping removes exactly the leading and trailing whitespace around a core whose ends are not whitespace |
| `OcrVerification.FindAadhaar` | AI_OCR_Module2/ai_ocr_verification.py:31-35 | the first position where `\b\d{4}\s\d{4}\s\d{4}\b` matches, or none if none does |
| `OcrVerification.FindDob` | AI_OCR_Module2/ai_ocr_verification.py:32-36 | the first position where `\b\d{2}[/-]\d{2}[/-]\d{4}\b` matches, or none if none does |
| `OcrVerification.FindName` | AI_OCR_Module2/ai_ocr_verification.py:33-37 | the leftmost start of a name-language span and the longest span there, or none when the text has no such span |
| `OcrVerification.AadhaarField` | AI_OCR_Module2/ai_ocr_verification.py:42 | "Not Found" exactly when nothing matches; otherwise the leftmost 14-character match, in the `dddd dddd dddd` shape |
| `OcrVerification.DobField` | AI_OCR_Module2/ai_ocr_verification.py:41 | "Not Found" exactly when nothing matches; otherwise the leftmost 10-character match, in the `dd?dd?dddd` shape with `/` or `-` separators |
| `OcrVerification.NameField` | AI_OCR_Module2/ai_ocr_verification.py:40 | "Not Found" when no name is present; otherwise the first match `FindName` gives (the leftmost start, the longest span there), a substring of the text in the name language |
| `OcrVerification.ExtractFields` | AI_OCR_Module2/ai_ocr_verification.py:39-45 | exactly the keys Name, DOB, Aadhaar_No and Extracted_Text; the three fields as above and the stripped text |
| `OcrVerification.AadhaarValid` | AI_OCR_Module2/ai_ocr_verification.py:50 | the value passes exactly when it has the number's shape, or has it followed by one newline; so it is 14 or 15 characters long |
| `OcrVerification.DobValid` | AI_OCR_Module2/ai_ocr_verification.py:51 | the value passes exactly when it has the date's shape, or has it followed by one newline; so it is 10 or 11 characters long |
| `OcrVerification.AnchoredFinalNewline` | AI_OCR_Module2/ai_ocr_verification.py:50 | a number in the right shape followed by one newline passes the anchored check; followed by two it does not |
| `OcrVerification.CheckFields` | AI_OCR_Module2/ai_ocr_verification.py:50-56 | passes exactly when Aadhaar_No and DOB fully match their anchored patterns and Name is not "Not Found"; a missing key raises in the order Aadhaar_No, DOB, then Name; Name is read only when both formats hold, so a missing Name fails quietly when a format does not hold and raises otherwise |
| `OcrVerification.VerifyFields` | AI_OCR_Module2/ai_ocr_verification.py:48-57 | adds or overwrites only Verification_Status (Passed or Failed as decided); every other entry is unchanged; on a KeyError the record is untouched |
| `OcrVerification.ExtractedFormats` | AI_OCR_Module2/ai_ocr_verification.py:50-51 | an extracted number or date passes its anchored check exactly when a match was found |
| `OcrVerification.ExtractThenVerify` | AI_OCR_Module2/ai_ocr_verification.py:29-57 | verifying an extracted record never raises, and it passes exactly when a number, a date and a name were found and the name is not the text "Not Found" |
| `OcrVerification.NameNotFoundCollision` | AI_OCR_Module2/ai_ocr_verification.py:40 | the text "Not Found" holds a name, and the extracted Name is then "Not Found" |
| `OcrVerification.ExtractAndVerify` | AI_OCR_Module2/ai_ocr_verification.py:74-75 | after extract-then-verify the record is exactly the extracted record plus Verification_Status; the status is Passed exactly as `ExtractThenVerify` says, and Failed otherwise |
| `OcrVerification.StatusText` | AI_OCR_Module2/ai_ocr_verification.py:53-56 | the status is "✅ Passed" exactly for a pass and "⚠️ Failed" exactly for a failure |

## Left out

- Rendering (JSX markup, the theme and style objects, the `Field` component's `?? "N/A"`, the status badges): presentation only.
- `fetch`, `FormData`, `res.json()`, `encodeURIComponent` and the `import.meta.env` base URL: network and environment plumbing. Each settled request is an `Outcome` or `LookupOutcome` parameter. A query made only of digits is unchanged by URL encoding.
- `URL.createObjectURL` and `alert`: browser foreign calls. The preview is an abstract `ObjectUrl(file)`; the alert is the early return that sends nothing.
- The `maxLength={14}` attribute of the lookup input: the browser enforces it on typing, and the model accepts any text.
- React's batching of state updates: each setter is an immediate field assignment.
- The confidence display `(confidence * 100).toFixed(1)`: floating-point formatting.
- The Verhoeff checksum, the classifier and the lookup store: none of them is computed in this code.
- `extract_text` (OpenCV and Tesseract), `save_results` (JSON and CSV files via pandas) and the printing in the `__main__` block: I/O and foreign libraries.
- Unicode: `\d`, `\s`, `\w` (and so `\b`) and `str.strip` are modelled on ASCII only. JavaScript string lengths count UTF-16 code units and Dafny counts Unicode scalar values, so the two differ only outside the Basic Multilingual Plane.
- `Panels.Payload`: reply bodies are maps from field names to strings. JSON values of other types (numbers, arrays, a FastAPI `detail` list) are not modelled. `MaskAadhaar` takes only strings; the source would throw on a non-string with no `length`.
- `OcrVerification.VerifyFields`: record values are strings. `re.match` on a non-string value raises `TypeError`, which is not modelled. The method does not return the record, because Python returns the same object it was given.
