/**
 * The three panels of the identity-check form as objects whose fields the
 * event handlers update.  Each asynchronous handler is split at its `await`:
 * `Begin…` runs up to the request and returns what is sent (or nothing when
 * a guard returns early), and `Finish…` runs once the request has settled,
 * with the settled request given as an opaque outcome.  The `disabled`
 * attribute of each trigger button keeps a second submission from starting
 * while one is outstanding: that is the `!loading` precondition of `Begin…`.
 */
module Panels {
  import opened Wrappers
  import opened CharClasses
  import opened IdentifierRules

  /** A file chosen in a file input. */
  datatype File = File(name: string)

  /** The analyze panel's preview: "" or an object URL made for one file. */
  datatype Preview = NoPreview | ObjectUrl(source: File)

  /** A decoded JSON reply body, its fields abstracted as strings. */
  datatype Payload = Payload(fields: map<string, string>)

  /** What a panel shows: the reply body as received, or `{ error: message }`. */
  datatype PanelResult = Received(data: Payload) | Failed(error: string)

  /** How `await fetch(...)` followed by `await res.json()` settles. */
  datatype Outcome = Parsed(data: Payload) | Thrown(message: string)

  /**
   * How the lookup request settles: a 2xx reply whose body parsed, a non-2xx
   * reply (its body, or `None` when the body did not parse), or a rejection
   * (which includes a 2xx reply whose body did not parse).
   */
  datatype LookupOutcome = OkReply(data: Payload) | ErrorReply(body: Option<Payload>) | Rejected(message: string)

  const InputError := "Enter exactly 12 digits."
  const LookupFailed := "Lookup failed"
  const DetailKey := "detail"

  /** The preview made for the chosen file: one for a file, "" for none. */
  function PreviewOf(f: Option<File>): (p: Preview)
    ensures p.ObjectUrl? <==> f.Some?
    ensures p.ObjectUrl? ==> p.source == f.value
  {
    match f
    case Some(x) => ObjectUrl(x)
    case None => NoPreview
  }

  /** `setResult(data)` on a parsed reply, `setResult({ error: e.message })` when it throws. */
  function ResultOf(o: Outcome): (r: PanelResult)
    ensures r.Received? <==> o.Parsed?
    ensures o.Parsed? ==> r.data == o.data
    ensures o.Thrown? ==> r.error == o.message
  {
    match o
    case Parsed(d) => Received(d)
    case Thrown(m) => Failed(m)
  }

  /** `err.detail`, as `||` reads it: missing and empty are alike. */
  function Detail(body: Option<Payload>): (d: string)
    ensures body.Some? && DetailKey in body.value.fields ==> d == body.value.fields[DetailKey]
    ensures body.None? || DetailKey !in body.value.fields ==> d == ""
  {
    if body.Some? && DetailKey in body.value.fields then body.value.fields[DetailKey] else ""
  }

  /**
   * The lookup panel's result once the request settles: the body of a 2xx
   * reply; the non-empty `detail` of an error reply, else "Lookup failed";
   * the message of a rejection.
   */
  function LookupResultOf(o: LookupOutcome): (r: PanelResult)
    ensures r.Received? <==> o.OkReply?
    ensures o.OkReply? ==> r.data == o.data
    ensures o.Rejected? ==> r.error == o.message
    ensures o.ErrorReply? && Detail(o.body) == "" ==> r == Failed(LookupFailed)
    ensures o.ErrorReply? && Detail(o.body) != "" ==> r == Failed(Detail(o.body))
  {
    match o
    case OkReply(d) => Received(d)
    case ErrorReply(body) =>
      var detail := Detail(body);
      Failed(if detail != "" then detail else LookupFailed)
    case Rejected(m) => Failed(m)
  }

  /** The query value sent to `/lookup`: the digits of the input, if there are exactly 12. */
  function LookupQuery(input: string): (q: Option<string>)
    ensures q.Some? <==> ValidateAadhaarInput(Some(input))
    ensures q.Some? ==> |q.value| == IdentifierDigits && forall i :: 0 <= i < |q.value| ==> IsDigit(q.value[i])
    ensures q.Some? ==> q.value == KeepDigits(input)
  {
    var digits := KeepDigits(input);
    KeepDigitsCount(input);
    if |digits| != IdentifierDigits then None else Some(digits)
  }

  /** The document-analysis panel: `file`, `preview`, `result`, `loading`. */
  class AnalyzePanel {
    var file: Option<File>
    var preview: Preview
    var result: Option<PanelResult>
    var loading: bool

    /** The preview always belongs to the chosen file. */
    predicate Valid()
      reads this
    {
      preview == PreviewOf(file)
    }

    constructor ()
      ensures Valid()
      ensures file == None && preview == NoPreview && result == None && !loading
    {
      file, preview, result, loading := None, NoPreview, None, false;
    }

    /** `handleFileUpload`: take the first chosen file (or none), clear the result, renew the preview. */
    method ChooseFile(chosen: Option<File>)
      requires Valid()
      modifies this
      ensures Valid()
      ensures file == chosen && result == None && preview == PreviewOf(chosen)
      ensures loading == old(loading)
    {
      file := chosen;
      result := None;
      preview := PreviewOf(chosen);
    }

    /**
     * The part of `submitAnalyze` before the request: with no file it only
     * alerts and changes nothing; otherwise it sets `loading` and sends the file.
     */
    method BeginAnalyze() returns (sent: Option<File>)
      requires Valid() && !loading
      modifies this
      ensures Valid()
      ensures sent == old(file)
      ensures file == old(file) && preview == old(preview) && result == old(result)
      ensures loading <==> sent.Some?
    {
      if file.None? {
        return None;
      }
      loading := true;
      sent := file;
    }

    /** The part of `submitAnalyze` after the request: store what came back, then clear `loading`. */
    method FinishAnalyze(o: Outcome)
      requires Valid() && loading
      modifies this
      ensures Valid()
      ensures result == Some(ResultOf(o)) && !loading
      ensures file == old(file) && preview == old(preview)
    {
      result := Some(ResultOf(o));
      loading := false;
    }

    /** `submitAnalyze` from start to finish, for a request that settles as `o`. */
    method SubmitAnalyze(o: Outcome) returns (sent: Option<File>)
      requires Valid() && !loading
      modifies this
      ensures Valid() && !loading
      ensures sent == old(file) && file == old(file) && preview == old(preview)
      ensures result == if sent.Some? then Some(ResultOf(o)) else old(result)
    {
      sent := BeginAnalyze();
      if sent.Some? {
        FinishAnalyze(o);
      }
    }
  }

  /** The QR-verification panel: `qrFile`, `qrRes`, `qrLoading`. */
  class QrPanel {
    var file: Option<File>
    var result: Option<PanelResult>
    var loading: bool

    constructor ()
      ensures file == None && result == None && !loading
    {
      file, result, loading := None, None, false;
    }

    /** The file input's `onChange`: take the first chosen file (or none) and clear the result. */
    method ChooseFile(chosen: Option<File>)
      modifies this
      ensures file == chosen && result == None && loading == old(loading)
    {
      file := chosen;
      result := None;
    }

    /** The part of `submitQR` before the request: nothing changes without a file. */
    method BeginQr() returns (sent: Option<File>)
      requires !loading
      modifies this
      ensures sent == old(file)
      ensures file == old(file) && result == old(result)
      ensures loading <==> sent.Some?
    {
      if file.None? {
        return None;
      }
      loading := true;
      sent := file;
    }

    /** The part of `submitQR` after the request. */
    method FinishQr(o: Outcome)
      requires loading
      modifies this
      ensures result == Some(ResultOf(o)) && !loading && file == old(file)
    {
      result := Some(ResultOf(o));
      loading := false;
    }

    /** `submitQR` from start to finish, for a request that settles as `o`. */
    method SubmitQr(o: Outcome) returns (sent: Option<File>)
      requires !loading
      modifies this
      ensures !loading && sent == old(file) && file == old(file)
      ensures result == if sent.Some? then Some(ResultOf(o)) else old(result)
    {
      sent := BeginQr();
      if sent.Some? {
        FinishQr(o);
      }
    }
  }

  /** The lookup panel: `aadhaarInput`, `lookupRes`, `lookupLoading`. */
  class LookupPanel {
    var input: string
    var result: Option<PanelResult>
    var loading: bool

    /** While a lookup is outstanding no result is shown. */
    predicate Valid()
      reads this
    {
      loading ==> result == None
    }

    constructor ()
      ensures Valid()
      ensures input == "" && result == None && !loading
    {
      input, result, loading := "", None, false;
    }

    /** The text input's `onChange`: only the input changes; the shown result stays. */
    method EditInput(text: string)
      requires Valid()
      modifies this
      ensures Valid()
      ensures input == text && result == old(result) && loading == old(loading)
    {
      input := text;
    }

    /**
     * The part of `submitLookup` before the request.  Without exactly 12
     * digits it shows the input error and sends nothing; otherwise it sets
     * `loading`, clears the result and sends the 12 digits.
     */
    method BeginLookup() returns (query: Option<string>)
      requires Valid() && !loading
      modifies this
      ensures Valid()
      ensures input == old(input)
      ensures query == LookupQuery(input)
      ensures query.None? ==> result == Some(Failed(InputError)) && !loading
      ensures query.Some? ==> result == None && loading
    {
      var digits := KeepDigits(input);
      if |digits| != IdentifierDigits {
        result := Some(Failed(InputError));
        return None;
      }
      loading := true;
      result := None;
      query := Some(digits);
    }

    /** The part of `submitLookup` after the request (its `finally` clears `loading`). */
    method FinishLookup(o: LookupOutcome)
      requires Valid() && loading
      modifies this
      ensures Valid()
      ensures result == Some(LookupResultOf(o)) && !loading && input == old(input)
    {
      result := Some(LookupResultOf(o));
      loading := false;
    }

    /** `submitLookup` from start to finish, for a request that settles as `o`. */
    method SubmitLookup(o: LookupOutcome) returns (query: Option<string>)
      requires Valid() && !loading
      modifies this
      ensures Valid() && !loading && input == old(input)
      ensures query == LookupQuery(input)
      ensures result == Some(if query.Some? then LookupResultOf(o) else Failed(InputError))
    {
      query := BeginLookup();
      if query.Some? {
        FinishLookup(o);
      }
    }
  }
}
