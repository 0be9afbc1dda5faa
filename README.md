# Client credentials QR scanner — Dafny model

This project models the logic of the `ClientCredsScanner` component of the
MyHomeNew app. The component provisions a device with server credentials from
one QR code. The model covers three parts:

- **Payload parsing** (`js_string.dfy`, `payload.dfy`). A scanned text is split
  on `:`. The first piece is the client id and the second is the client
  secret. The remaining pieces are re-joined with `:` as the hostname, so a
  port such as `host:8443` stays intact. The scan is rejected unless all three
  are non-empty. JavaScript's `x || ''`, `split(':')`, `shift()` and
  `join(':')` are modelled exactly: `null` becomes `""`, `"".split(':')` is
  `[""]`, shifting an empty array gives `undefined`, and joining an empty
  array gives `""`.
- **Submission guard** (`scanner.dfy`). `loggingIn` is a non-blocking
  try-lock. Class `CredsScanner` holds the `loggingIn` ref and the `err` state
  as fields. `OnScan` handles one decoded scan. `OnSettled` is the settlement
  of the three credential writes that a scan started. Ghost fields log each
  submitted `Creds(clientId, clientSecret, hostname)` triple, in the order
  the parser yields them, and each toast or logged error. The hostname is the
  value written as the server address. Pure transition functions `Scan` and
  `Settle` specify the methods. The lemmas about them state the lock's promises.
- **Camera permission** (`permission.dfy`). The mount-time promise chain
  becomes `Decide`. Its inputs are the replies of the status query and of the
  request call, where a reply is either a rejection or a status. It decides
  whether the request is issued and whether the error message is set.
  `CredsScanner.OnPermission` applies that decision to `err`.

Asynchronous boundaries are explicit events. A scan, a settlement and the
permission outcome are separate method calls, and the caller chooses their
order. The `Platform.OS === 'android'` test is a boolean parameter.

The source has no permission-state field. The permission chain's only effect
is to set `err`. The model follows the code: `Decision.denied` is the verdict,
and no separate Unknown/Granted/Denied state is kept.

## Model

| member | source | states |
|---|---|---|
| JsString.OrEmpty | components/client-creds-scanner.jsx:38 | `data \|\| ''`: the result is empty exactly when `data` is null, undefined or `""`, and otherwise it is `data` itself |
| JsString.Shift | components/client-creds-scanner.jsx:39-40 | `shift()` yields `undefined` exactly on an empty array and then leaves it empty; otherwise the first element followed by what is left is the original array |
| JsString.Truthy | components/client-creds-scanner.jsx:43 | no contract; the falsy test of `!clientId` and `!clientSecret`, used through Payload.FromPartsFields and Payload.ParseSound |
| JsString.Join | components/client-creds-scanner.jsx:41 | no contract; `join(':')`, specified by JsString.JoinSplit |
| JsString.Split | components/client-creds-scanner.jsx:38 | `split(':')` yields one more piece than there are colons, and no piece contains a colon |
| JsString.JoinSplit | components/client-creds-scanner.jsx:38-41 | joining the pieces of a split with `:` gives back the original string |
| JsString.SplitAfterField | components/client-creds-scanner.jsx:38-40 | a colon-free leading field followed by `:` is exactly the first piece of the split, and the rest splits as before |
| JsString.ColonFreeMeansNoColon | components/client-creds-scanner.jsx:38 | a field with no counted colons is one in which `:` does not occur |
| Payload.Parse | components/client-creds-scanner.jsx:38-43 | a null or undefined payload is rejected, and an accepted triple has three non-empty fields; the full meaning is in Payload.ParseSound and Payload.ParseComplete |
| Payload.FromParts | components/client-creds-scanner.jsx:39-43 | fewer than three pieces are always rejected; an accepted triple's id and secret are the first two pieces |
| Payload.FromPartsFields | components/client-creds-scanner.jsx:39-43 | the first two pieces become id and secret and the re-joined rest becomes the hostname; the result is accepted iff all three are non-empty |
| Payload.ParseSound | components/client-creds-scanner.jsx:38-43 | an accepted scan is non-null and equals `clientId + ":" + clientSecret + ":" + hostname`; all fields are non-empty, and id and secret are colon-free |
| Payload.ParseComplete | components/client-creds-scanner.jsx:38-43 | every well-formed credential triple, encoded as a payload, parses back to itself |
| Payload.AcceptedIffEncoding | components/client-creds-scanner.jsx:38-43 | a text is accepted as a triple iff the triple is well formed and the text is its encoding |
| Payload.HostnameKeepsColons | components/client-creds-scanner.jsx:38-41 | id and secret hold no `:`; an accepted payload has at least two colons, and the hostname keeps all colons but the first two |
| Payload.FewColonsRejected | components/client-creds-scanner.jsx:38-43 | any payload with fewer than two colons is rejected |
| Payload.EmptySecretRejected | components/client-creds-scanner.jsx:38-43 | `id::rest` (empty secret) is rejected whatever `rest` is |
| Payload.EmptyHostnameRejected | components/client-creds-scanner.jsx:38-43 | `id:secret:` (empty hostname) is rejected |
| Payload.PlainHostExample | components/client-creds-scanner.jsx:38-43 | `"id:secret:host"` gives id `id`, secret `secret`, hostname `host` |
| Payload.HostWithPortExample | components/client-creds-scanner.jsx:38-41 | `"id:secret:host:8443"` gives id `id`, secret `secret`, hostname `host:8443` |
| Payload.EmptyPayloadExample | components/client-creds-scanner.jsx:38-43 | a null or empty payload is rejected |
| Payload.RejectedExamples | components/client-creds-scanner.jsx:38-43 | `"id::host"` and `"id:secret:"` are rejected |
| Permission.Decide | components/client-creds-scanner.jsx:13-30 | the request is issued iff the first status is not granted and asking again is allowed; the error is set iff the chain does not end with the camera granted (a rejected call counts as not granted); a first status of granted issues no request and sets no error; not granted and no re-asking sets the error without a request |
| Permission.UnaskedRequestIrrelevant | components/client-creds-scanner.jsx:15-23 | when no request is issued, its reply cannot change the outcome |
| Permission.RequestOutcome | components/client-creds-scanner.jsx:21-30 | after a request, the error is set iff the request was rejected or came back not granted |
| Scanner.Scan | components/client-creds-scanner.jsx:33-54 | no contract; one scan event, specified by Scanner.ScanKeepsConsistent, Scanner.BusyScanIsNoOp, Scanner.IdleScanOutcome and Scanner.RejectedScan |
| Scanner.Settle | components/client-creds-scanner.jsx:55-62 | no contract; the settlement with the lock released on every outcome, specified by Scanner.SettleReleases |
| Scanner.SettleAsWritten | components/client-creds-scanner.jsx:59-61 | no contract; the failure handler as written, where a nullish rejection reason throws before the lock is cleared, specified by Scanner.NullishRejectionStaysLocked |
| Scanner.NullishRejectionStaysLocked | components/client-creds-scanner.jsx:59-61 | as written, a submission rejected with a null or undefined reason leaves `loggingIn` set, breaks the one-outstanding invariant, and makes every later scan a no-op |
| Scanner.AsWrittenAgreesOtherwise | components/client-creds-scanner.jsx:55-62 | on success and on a rejection with a non-nullish reason, the handler as written and the lock-releasing settlement agree |
| Scanner.ScanKeepsConsistent | components/client-creds-scanner.jsx:33-54 | a scan keeps at most one submission outstanding, keeps `loggingIn` set exactly while one is, and submits only well-formed triples |
| Scanner.SettleReleases | components/client-creds-scanner.jsx:55-62 | after settlement `loggingIn` is false on success and on every failure, whatever the rejection reason; `err` and the submission log are unchanged |
| Scanner.BusyScanIsNoOp | components/client-creds-scanner.jsx:34-36 | while `loggingIn` is set, a scan changes nothing: no parse effect, no error, no submission |
| Scanner.IdleScanOutcome | components/client-creds-scanner.jsx:38-54 | from idle, a scan sets `loggingIn` iff the payload parses, and then submits exactly the parsed triple with `err` untouched |
| Scanner.RejectedScan | components/client-creds-scanner.jsx:43-50 | a rejected scan submits nothing and leaves `loggingIn` false; `err` becomes `"Invalid QR scanned!"` off Android and is unchanged on Android |
| Scanner.FewColonsStartNothing | components/client-creds-scanner.jsx:38-50 | a payload with fewer than two colons, or a null payload, starts no submission and leaves `loggingIn` false |
| Scanner.EncodedScanSubmits | components/client-creds-scanner.jsx:38-54 | scanning the encoding of a well-formed triple while idle submits exactly that triple |
| Scanner.BackToBackScansSubmitOnce | components/client-creds-scanner.jsx:34-54 | two valid scans in a row with no settlement between them submit once, the first payload's triple |
| Scanner.SubmittedIsScanned | components/client-creds-scanner.jsx:38-54 | the triple a scan submits, joined with `:`, is exactly the scanned text |
| Scanner.CredsScanner.constructor | components/client-creds-scanner.jsx:9-10 | at mount `err` is null, `loggingIn` is false and nothing has been submitted |
| Scanner.CredsScanner.OnScan | components/client-creds-scanner.jsx:33-54 | the new state is `Scan` of the old; a submission starts iff the lock was free and the payload parsed; the submitted triple is well formed and re-encodes to the scanned text |
| Scanner.CredsScanner.OnSettled | components/client-creds-scanner.jsx:55-62 | the new state is `Settle` of the old; the lock is released on success and on every rejection; `err` and the submission log are unchanged |
| Scanner.CredsScanner.OnPermission | components/client-creds-scanner.jsx:12-31 | the request is issued iff the first status allows it; `err` becomes the camera message unless the camera ends up granted, and is otherwise unchanged |

## Left out

- Rendering: the view, the error text display and layout (lines 65-81) are UI.
- Barcode decoding: `BarCodeScanner` is a foreign library. Only the decoded `data` it delivers is modelled, as a string or null.
- Notifications: `ToastAndroid.show` and `console.error` are recorded as abstract notices. The success-path toasts (lines 52 and 56) are recorded on every platform because the code calls them unconditionally. What a toast call does on a platform that is not Android is not modelled.
- Platform detection: `Platform.OS === 'android'` is a boolean parameter.
- Persistence: the setters in `lib/settings` are not part of this model. The three writes of `Promise.all` are one atomic recorded submission. Their settlement is one `OnSettled(outcome)` event. The outcome is fulfilment, or a rejection whose reason is either nullish or not. Partial writes, where some setters succeed and others fail, are not modelled.
- Scanner.CredsScanner.OnSettled requires an outstanding submission, because a settlement event exists only for a promise that a scan created.
- Lifecycle: React's `useEffect` and `useCallback` scheduling, unmount and remount are not modelled. The permission chain is one `OnPermission` event that the caller issues once.
- Permission provider: the results of `expo-permissions` are the inputs of `Decide`. A provider that resolves with a null object is not modelled; every reply is either a rejection or a status.

## Findings

| source | as written | input that shows it | evidently intended | confidence | as-written member | corrected member |
|---|---|---|---|---|---|---|
| components/client-creds-scanner.jsx:59-61 | the failure handler evaluates `e.stack` before it clears `loggingIn` | a setter whose promise rejects with `undefined` or `null`: `Promise.all` passes that reason on, `e.stack` throws a TypeError, and `loggingIn` stays true, so every later scan is dropped at line 34 | the lock is released after every settled submission, whatever the rejection reason | medium: the setters are not part of this model, so whether they ever reject with a nullish reason is unknown; not executed | Scanner.NullishRejectionStaysLocked | Scanner.SettleReleases |

`Scanner.SettleAsWritten` models the handler as written. `Scanner.Settle`, which `CredsScanner.OnSettled` uses, releases the lock on every outcome.
