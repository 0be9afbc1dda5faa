/** The credential-ingest state of the scanner component: the `loggingIn`
    try-lock, the `err` message shown on screen, and the events that change
    them. A scan is handled by `OnScan`; the settlement of the credential
    writes it starts is a separate event, `OnSettled`; the permission chain's
    outcome arrives through `OnPermission`. Ghost fields log what was submitted
    to the settings store and which notices were raised. */
module Scanner {
  import opened JsString
  import opened Payload
  import opened Permission

  const InvalidQrMessage := "Invalid QR scanned!"
  const InvalidQrToast := "Invalid QR Code"
  const ScanCompleteToast := "Scan complete. Logging in.."
  const LoggedInToast := "Logged in successfully"

  /** A side-effect-only notification: a short toast, or the error logged
      when a submission fails. */
  datatype Notice = Toast(text: string) | ErrorLogged

  /** The whole observable state. `submitted` lists the triples handed to the
      settings store, one per started submission; `settled` counts the
      submissions whose writes have settled. */
  datatype ScannerState = ScannerState(
    loggingIn: bool,
    err: Option<string>,
    submitted: seq<Creds>,
    settled: nat,
    notices: seq<Notice>)

  /** State at mount: not logging in, no error, nothing submitted. */
  const Initial := ScannerState(false, None, [], 0, [])

  /** At most one submission is outstanding, `loggingIn` is set exactly while
      one is, and only well-formed credentials ever reach the settings store. */
  ghost predicate Consistent(st: ScannerState)
  {
    st.settled <= |st.submitted| <= st.settled + 1
    && (st.loggingIn <==> st.settled < |st.submitted|)
    && forall i :: 0 <= i < |st.submitted| ==> WellFormed(st.submitted[i])
  }

  /** One scan event carrying `data`; `android` stands for the platform check. */
  function Scan(st: ScannerState, data: Option<string>, android: bool): ScannerState
  {
    if st.loggingIn then st
    else match Parse(data)
      case None =>
        if android then st.(notices := st.notices + [Toast(InvalidQrToast)])
        else st.(err := Some(InvalidQrMessage))
      case Some(c) =>
        st.(loggingIn := true,
            submitted := st.submitted + [c],
            notices := st.notices + [Toast(ScanCompleteToast)])
  }

  /** The reason a rejected write passes on through `Promise.all`: `null` or
      `undefined`, or a value whose `stack` property can be read. */
  datatype Reason = Nullish | NonNullish

  /** How the three writes of one submission settled. */
  datatype Outcome = Fulfilled | Rejected(reason: Reason)

  /** The outstanding submission settles, releasing the lock on every outcome:
      the behaviour the failure handler is evidently meant to have. */
  function Settle(st: ScannerState, outcome: Outcome): ScannerState
    requires st.settled < |st.submitted|
  {
    st.(loggingIn := false,
        settled := st.settled + 1,
        notices := st.notices + [if outcome.Fulfilled? then Toast(LoggedInToast) else ErrorLogged])
  }

  /** The settlement as the failure handler is written: it reads `e.stack`
      before it clears the lock, so a nullish reason throws a TypeError there,
      nothing is logged and the lock is never cleared. */
  function SettleAsWritten(st: ScannerState, outcome: Outcome): ScannerState
    requires st.settled < |st.submitted|
  {
    if outcome == Rejected(Nullish) then st.(settled := st.settled + 1)
    else Settle(st, outcome)
  }

  /** As written, a submission rejected with a nullish reason leaves the lock
      taken after it has settled, and every later scan is dropped. */
  lemma {:induction false} NullishRejectionStaysLocked(
    st: ScannerState, data: Option<string>, android: bool)
    requires Consistent(st) && st.loggingIn
    ensures SettleAsWritten(st, Rejected(Nullish)).loggingIn
    ensures !Consistent(SettleAsWritten(st, Rejected(Nullish)))
    ensures Scan(SettleAsWritten(st, Rejected(Nullish)), data, android)
         == SettleAsWritten(st, Rejected(Nullish))
  {
  }

  /** On every other outcome the handler as written and the intended one agree. */
  lemma {:induction false} AsWrittenAgreesOtherwise(st: ScannerState, outcome: Outcome)
    requires st.settled < |st.submitted| && outcome != Rejected(Nullish)
    ensures SettleAsWritten(st, outcome) == Settle(st, outcome)
  {
  }

  /** A scan keeps the state consistent: what it submits was accepted by the
      parser, so it is well formed. */
  lemma {:induction false} ScanKeepsConsistent(st: ScannerState, data: Option<string>, android: bool)
    requires Consistent(st)
    ensures Consistent(Scan(st, data, android))
  {
    if !st.loggingIn && Parse(data).Some? {
      ParseSound(data, Parse(data).value);
    }
  }

  /** Settling keeps the state consistent and releases the lock, on both paths,
      without touching the error message or the submission log. */
  lemma {:induction false} SettleReleases(st: ScannerState, outcome: Outcome)
    requires Consistent(st) && st.loggingIn
    ensures Consistent(Settle(st, outcome))
    ensures !Settle(st, outcome).loggingIn
    ensures Settle(st, outcome).err == st.err && Settle(st, outcome).submitted == st.submitted
  {
  }

  /** While a submission is outstanding a scan changes nothing at all. */
  lemma {:induction false} BusyScanIsNoOp(st: ScannerState, data: Option<string>, android: bool)
    requires st.loggingIn
    ensures Scan(st, data, android) == st
  {
  }

  /** From idle, a scan starts a submission exactly when the payload parses,
      and then submits exactly the parsed triple; the error message is left
      alone when it does. */
  lemma {:induction false} IdleScanOutcome(st: ScannerState, data: Option<string>, android: bool)
    requires !st.loggingIn
    ensures Scan(st, data, android).loggingIn <==> Parse(data).Some?
    ensures Scan(st, data, android).submitted
         == st.submitted + (if Parse(data).Some? then [Parse(data).value] else [])
    ensures Parse(data).Some? ==> Scan(st, data, android).err == st.err
  {
  }

  /** A rejected scan starts nothing and keeps the lock free; the error message
      becomes the invalid-QR text off Android and is left unchanged on Android. */
  lemma {:induction false} RejectedScan(st: ScannerState, data: Option<string>, android: bool)
    requires !st.loggingIn && Parse(data).None?
    ensures !Scan(st, data, android).loggingIn
    ensures Scan(st, data, android).submitted == st.submitted
    ensures Scan(st, data, android).err == if android then st.err else Some(InvalidQrMessage)
  {
  }

  /** A payload with fewer than two colons, and a missing one, never start a
      submission. */
  lemma {:induction false} FewColonsStartNothing(st: ScannerState, s: string, android: bool)
    requires !st.loggingIn && ColonCount(s) < 2
    ensures !Scan(st, Some(s), android).loggingIn
    ensures Scan(st, Some(s), android).submitted == st.submitted
    ensures !Scan(st, None, android).loggingIn
    ensures Scan(st, None, android).submitted == st.submitted
  {
    FewColonsRejected(s);
    EmptyPayloadExample();
  }

  /** Scanning the QR encoding of well-formed credentials while idle submits
      exactly those credentials. */
  lemma {:induction false} EncodedScanSubmits(st: ScannerState, c: Creds, android: bool)
    requires !st.loggingIn && WellFormed(c)
    ensures Scan(st, Some(Encode(c)), android).loggingIn
    ensures Scan(st, Some(Encode(c)), android).submitted == st.submitted + [c]
  {
    ParseComplete(c);
  }

  /** Two scans of valid payloads in a row, with no settlement between them,
      submit once: the second is dropped by the lock. */
  lemma {:induction false} BackToBackScansSubmitOnce(
    st: ScannerState, first: string, second: string, android: bool)
    requires !st.loggingIn
    requires Parse(Some(first)).Some? && Parse(Some(second)).Some?
    ensures Scan(Scan(st, Some(first), android), Some(second), android).submitted
         == st.submitted + [Parse(Some(first)).value]
  {
  }

  /** Every submitted triple is, once encoded, a payload that was scanned:
      what reaches the settings store is the scanned text split losslessly. */
  lemma {:induction false} SubmittedIsScanned(st: ScannerState, data: Option<string>, android: bool)
    requires !st.loggingIn && Parse(data).Some?
    ensures data == Some(Encode(Scan(st, data, android).submitted[|st.submitted|]))
  {
    ParseSound(data, Parse(data).value);
  }

  /** The component instance: the `err` state and the `loggingIn` ref are its
      fields, the ghost fields record submissions and notices. */
  class CredsScanner {
    var loggingIn: bool
    var err: Option<string>
    ghost var submitted: seq<Creds>
    ghost var settled: nat
    ghost var notices: seq<Notice>

    ghost function State(): ScannerState
      reads this
    {
      ScannerState(loggingIn, err, submitted, settled, notices)
    }

    ghost predicate Valid()
      reads this
    {
      Consistent(State())
    }

    constructor ()
      ensures Valid() && State() == Initial
    {
      loggingIn := false;
      err := None;
      submitted := [];
      settled := 0;
      notices := [];
    }

    /** Handle one decoded scan. Returns the triple handed to the settings
        store (server address, client id, client secret), if a submission
        was started. */
    method OnScan(data: Option<string>, android: bool) returns (submission: Option<Creds>)
      requires Valid()
      modifies this
      ensures Valid()
      ensures State() == Scan(old(State()), data, android)
      ensures submission.Some? <==> !old(loggingIn) && Parse(data).Some?
      ensures submission.Some? ==> loggingIn && submitted == old(submitted) + [submission.value]
      ensures submission.Some? ==> data == Some(Encode(submission.value)) && WellFormed(submission.value)
      ensures submission.None? ==> submitted == old(submitted) && loggingIn == old(loggingIn)
    {
      ScanKeepsConsistent(State(), data, android);
      if loggingIn {
        return None;
      }
      var parsed := Parse(data);
      match parsed {
        case None =>
          if android {
            notices := notices + [Toast(InvalidQrToast)];
          } else {
            err := Some(InvalidQrMessage);
          }
          submission := None;
        case Some(c) =>
          ParseSound(data, c);
          notices := notices + [Toast(ScanCompleteToast)];
          loggingIn := true;
          submitted := submitted + [c];
          submission := Some(c);
      }
    }

    /** The outstanding submission's writes settled: all of them fulfilled,
        or one was rejected with the given reason. */
    method OnSettled(outcome: Outcome)
      requires Valid() && loggingIn
      modifies this
      ensures Valid()
      ensures State() == Settle(old(State()), outcome)
      ensures !loggingIn && err == old(err) && submitted == old(submitted)
    {
      if outcome.Fulfilled? {
        notices := notices + [Toast(LoggedInToast)];
      } else {
        notices := notices + [ErrorLogged];
      }
      loggingIn := false;
      settled := settled + 1;
    }

    /** The mount-time permission chain settled with these provider replies.
        Returns whether the request call was issued. */
    method OnPermission(query: Reply, request: Reply) returns (asked: bool)
      requires Valid()
      modifies this`err
      ensures Valid()
      ensures asked <==> MayAsk(query)
      ensures err == if CameraGranted(query, request) then old(err) else Some(PermissionMessage)
    {
      var decision := Decide(query, request);
      asked := decision.asked;
      if decision.denied {
        err := Some(PermissionMessage);
      }
    }
  }
}
