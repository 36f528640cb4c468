/** The admin write form (src/components/NfcWriter.tsx): its three state
    fields, the input handler and `handleWrite`. The Web NFC writer is not
    called: what it did is a parameter (`WriteOutcome`), and what
    `handleWrite` asks of it is returned (`TextRecord`). */
module Writer {
  import opened Options
  import opened AccountIds

  /** The message reported when a thrown error carries none. */
  const WriteFailureFallback: string := "Failed to write to NFC tag"

  /** One NDEF record as passed to `ndef.write`. */
  datatype TextRecord = TextRecord(recordType: string, data: string, lang: string)

  /** How the awaited `ndef.write` (or the construction of its reader)
      ended: it resolved, or it threw an error whose `message` may be
      absent. */
  datatype WriteOutcome = Written | Threw(message: Option<string>)

  /** The callback `handleWrite` invoked before it returned, if any. */
  datatype Report = NoReport | Completed(accountId: string) | Failed(error: string)

  /** `error.message || "Failed to write to NFC tag"`: the error's own
      message when it is truthy (present and non-empty), the fallback
      otherwise. The parent never receives an empty error string. */
  function FailureMessage(message: Option<string>): (r: string)
    ensures r != []
    ensures Truthy(message) ==> r == message.value
    ensures !Truthy(message) ==> r == WriteFailureFallback
  {
    if Truthy(message) then message.value else WriteFailureFallback
  }

  class NfcWriter {
    /** The text field, always kept normalised by its `onChange`. */
    var accountId: string
    var isWriting: bool
    /** `null` until the mount effect has looked for `NDEFReader`. */
    var isNfcSupported: Option<bool>

    /** The field only ever holds what the normaliser can return. */
    predicate Valid()
      reads this
    {
      AllDigits(accountId) && |accountId| <= IdLength
    }

    constructor ()
      ensures Valid()
      ensures accountId == "" && !isWriting && isNfcSupported == None
    {
      accountId := "";
      isWriting := false;
      isNfcSupported := None;
    }

    /** The mount effect; `available` stands for
        `typeof NDEFReader !== 'undefined'`. */
    method DetectSupport(available: bool)
      requires Valid()
      modifies this`isNfcSupported
      ensures Valid()
      ensures isNfcSupported == Some(available)
    {
      isNfcSupported := Some(available);
    }

    /** The field's `onChange`: whatever was typed or pasted is normalised. */
    method ChangeInput(raw: string)
      modifies this`accountId
      ensures Valid()
      ensures accountId == Normalize(raw)
    {
      accountId := Normalize(raw);
    }

    /** The Write button: disabled while a write runs or the id is invalid.
        Since the field holds at most five digits, it is enabled exactly when
        no write runs and five digits have been entered. */
    predicate WriteEnabled()
      reads this
      ensures Valid() ==> (WriteEnabled() <==> !isWriting && |accountId| == IdLength)
    {
      !isWriting && ValidateAccountId(accountId)
    }

    /** `handleWrite`, from the guard to its `finally`. An invalid id stops
        it before anything changes. A valid one sets `isWriting`, and on a
        device with Web NFC hands one text record holding the id to the
        writer and reports the outcome; without Web NFC it only starts the
        simulated write, whose outcome arrives after this method has
        returned. `isWriting` is false again on every path that set it. */
    method HandleWrite(outcome: WriteOutcome) returns (request: Option<TextRecord>, report: Report)
      requires Valid()
      modifies this`isWriting
      ensures Valid()
      ensures !ValidateAccountId(accountId) ==>
                request == None && report == NoReport && isWriting == old(isWriting)
      ensures ValidateAccountId(accountId) ==> !isWriting
      ensures ValidateAccountId(accountId) && isNfcSupported == Some(true) ==>
                request == Some(TextRecord("text", accountId, "en")) &&
                report == (if outcome.Written? then Completed(accountId)
                           else Failed(FailureMessage(outcome.message)))
      ensures ValidateAccountId(accountId) && isNfcSupported != Some(true) ==>
                request == None && report == NoReport
      ensures report.Completed? ==> ValidateAccountId(report.accountId)
    {
      request, report := None, NoReport;
      if !ValidateAccountId(accountId) {
        return;
      }
      isWriting := true;
      if isNfcSupported == Some(true) {
        request := Some(TextRecord("text", accountId, "en"));
        match outcome
        case Written =>
          report := Completed(accountId);
        case Threw(message) =>
          report := Failed(FailureMessage(message));
      }
      isWriting := false;
    }
  }
}
