# Tag Tracer: account ids, admin gate and scan page

A Dafny model of the logic in Tag Tracer's three core components:

- **Account ids** (`AccountIds`, from `src/components/NfcWriter.tsx`). The
  validator `/^\d{5}$/` is written as a small anchored matcher and proved to
  accept exactly the strings of five ASCII digits. The input normaliser
  `replace(/\D/g, '').substring(0, 5)` is a digit filter followed by a
  five-character cut. Its properties are proved: what it outputs, its length
  bound, that it preserves order, its fixed points, idempotence, an append
  law, and when its output validates.
- **Write form** (`Writer.NfcWriter`). This class holds the form's three
  state fields. Its invariant says the field holds at most five
  digits. `HandleWrite` refuses an invalid id. For a valid id on a device
  with Web NFC it builds the `text`/`en` record holding the id and reports the outcome, with
  a fallback message when a thrown error has none, and it clears
  `isWriting` again on every path.
- **Admin dialog** (`Admin.AdminPanel`). This class holds the four fields
  `isOpen`, `password`, `isAuthenticated` and `error`, with one method per
  handler. Each method states the new value of every field it may change,
  and its `modifies` frame fixes the rest. The invariant "authenticated only
  while open" is kept by every handler. `TypePassword` and `HandleLogin`
  are called only from the login form, so they require it to be on screen
  (src/components/AdminPanel.tsx:65-76). `HandleWriteComplete` and
  `HandleWriteError` require nothing beyond the invariant. The writer calls
  them from code that runs after an await or a timer, and by then the
  dialog may have been closed. `AdminWriteSession` chains the dialog and the
  write form. It proves that, before `handleWrite` returns, an id reaches the
  parent only after the right password and a successful write.
  `LateWriteCompletion` shows the other route: a write still pending when
  the dialog is closed forwards its id to an unauthenticated panel.
- **Scan page** (`Index.IndexPage`). This class holds the scanning flag, the
  last id and its profile address. Its invariant says the two "last"
  fields are set together and the address is the prefix followed by the id.
  Clicks on the scan button are ignored while a scan runs. `RunPage`
  replays an event trace and proves what the page then holds.

The Web NFC API, timers and `Math.random` are not modelled. What the host
writer did becomes a parameter (`WriteOutcome`), and what `handleWrite`
hands to it becomes a result (`TextRecord`). `window.open(url)` becomes the
address that `HandleScan` returns.

These components contain no tag-payload decoder, serial-number hash or
history cap. The scan page accepts any id string: the simulated scanner in
the repository produces ids like `user-1234`, not five-digit ids.

## Model

| member | source | states |
|---|---|---|
| AccountIds.MatchesDigitRunIff | src/components/NfcWriter.tsx:27 | the pattern tail `\d{n}$` matches a string iff it has length n and only ASCII digits |
| AccountIds.ValidateAccountId | src/components/NfcWriter.tsx:25-28 | an id validates iff it has exactly five characters, all in '0'..'9' |
| AccountIds.StripNonDigits | src/components/NfcWriter.tsx:95 | `replace(/\D/g, '')` output holds only digits and is no longer than its input |
| AccountIds.Substring0 | src/components/NfcWriter.tsx:95 | `substring(0, n)` is a prefix of length min(n, length) |
| AccountIds.Normalize | src/components/NfcWriter.tsx:95 | the field value holds only digits, has at most five, is a prefix of the input's digits, and is all of them unless it has five |
| AccountIds.StripNonDigitsConcat | src/components/NfcWriter.tsx:95 | filtering distributes over concatenation, so the digits keep their original order |
| AccountIds.StripNonDigitsKeepsDigits | src/components/NfcWriter.tsx:95 | each digit occurs in the output as often as in the input; no other character occurs |
| AccountIds.StripNonDigitsFixed | src/components/NfcWriter.tsx:95 | the filter leaves a string unchanged iff it is all digits |
| AccountIds.NormalizeFixpoints | src/components/NfcWriter.tsx:95 | normalising leaves a string unchanged iff it is at most five digits |
| AccountIds.NormalizeIdempotent | src/components/NfcWriter.tsx:95 | normalising an already normalised value returns it unchanged |
| AccountIds.NormalizeAppend | src/components/NfcWriter.tsx:95 | for the line-95 expression on all strings: applying it to its own output followed by more text gives the same value as applying it once to the whole text |
| AccountIds.NormalizeValidIff | src/components/NfcWriter.tsx:95-101 | the normalised value validates iff the raw input held at least five digits |
| AccountIds.ValidIdIsNormal | src/components/NfcWriter.tsx:95 | every valid id is a fixed point of the normaliser |
| Writer.FailureMessage | src/components/NfcWriter.tsx:79 | the reported error is the thrown message when it is non-empty, otherwise "Failed to write to NFC tag"; never empty |
| Writer.NfcWriter.constructor | src/components/NfcWriter.tsx:14-16 | the form starts with an empty id, not writing, support unknown |
| Writer.NfcWriter.DetectSupport | src/components/NfcWriter.tsx:19-23 | the mount effect records whether Web NFC exists and changes nothing else |
| Writer.NfcWriter.ChangeInput | src/components/NfcWriter.tsx:95 | the field becomes the normalised input, so it holds at most five digits |
| Writer.NfcWriter.WriteEnabled | src/components/NfcWriter.tsx:101 | under the field's invariant, the Write button is enabled exactly when no write runs and five digits have been entered |
| Writer.NfcWriter.HandleWrite | src/components/NfcWriter.tsx:30-84 | an invalid id changes nothing and reports nothing; a valid id with Web NFC hands over the record {text, id, en}, reports that same id on success or the fallback-aware message on a throw; `isWriting` is false afterwards on every path that set it |
| Admin.AdminPanel.constructor | src/components/AdminPanel.tsx:14-17 | the dialog starts closed, unauthenticated, with empty password and error |
| Admin.AdminPanel.LoginFormShown | src/components/AdminPanel.tsx:59-76 | the login form is rendered only in the open dialog, and an open dialog shows exactly one of the login form and the writer |
| Admin.AdminPanel.WriterShown | src/components/AdminPanel.tsx:59-82 | the writer is rendered only while authenticated, and under the invariant exactly while authenticated |
| Admin.AdminPanel.ErrorShown | src/components/AdminPanel.tsx:65-76 | the error line sits in the login branch, so it is never drawn beside the writer |
| Admin.AdminPanel.Open | src/components/AdminPanel.tsx:53 | the Admin button sets `isOpen` and changes no other field |
| Admin.AdminPanel.TypePassword | src/components/AdminPanel.tsx:71 | typing sets `password` and changes no other field |
| Admin.AdminPanel.HandleLogin | src/components/AdminPanel.tsx:19-28 | authenticated with error "" iff the password is "00000"; otherwise error becomes "Invalid password" and the other three fields stay; the error line is visible afterwards iff the login failed |
| Admin.AdminPanel.HandleWriteComplete | src/components/AdminPanel.tsx:30-35 | from any state: forwards the id unchanged; closes, de-authenticates, clears the password; leaves `error` |
| Admin.AdminPanel.HandleWriteError | src/components/AdminPanel.tsx:37-39 | from any state: no field changes |
| Admin.AdminPanel.HandleClose | src/components/AdminPanel.tsx:41-46 | all four fields return to their initial values, so no error line is visible |
| Admin.AdminWriteSession | src/components/AdminPanel.tsx:78-81 | before `handleWrite` returns, an id reaches the parent iff the password is right, the value the field received held five digits, Web NFC exists and the write resolved; it is then the normalised value and valid |
| Admin.LateWriteCompletion | src/components/AdminPanel.tsx:30-46 | a write that resolves after the dialog was closed and reopened still forwards its id while the panel is unauthenticated, and clears the half-typed password |
| Index.ProfileUrl | src/pages/Index.tsx:16 | the address starts with the fixed prefix, and dropping the prefix yields exactly the id |
| Index.ProfileUrlRoundTrip | src/pages/Index.tsx:16 | reading the id back from an address inverts the construction, and only that id's address yields it |
| Index.IndexPage.constructor | src/pages/Index.tsx:10-12 | both "last" fields start null and the page is not scanning |
| Index.IndexPage.InfoMounted | src/pages/Index.tsx:69-74 | under JavaScript truthiness, the page mounts its info component exactly when a scan has been recorded |
| Index.IndexPage.CardVisible | src/components/NfcInfo.tsx:18 | the mounted component draws a card exactly when a non-empty id has been recorded; an empty id shows none |
| Index.IndexPage.StartScanning | src/pages/Index.tsx:25-28 | accepted only while not scanning (the button is disabled otherwise); sets `isScanning` and nothing else |
| Index.IndexPage.PressScanButton | src/pages/Index.tsx:59-62 | a click starts a scan when the button is enabled and changes nothing while a scan runs; the last id and address stay |
| Index.IndexPage.HandleScan | src/pages/Index.tsx:14-18 | sets the id, its profile address and `isScanning := false`, keeping both "last" fields set together |
| Index.IndexPage.HandleScanError | src/pages/Index.tsx:30-33 | clears `isScanning` and leaves the last id and address |
| Index.RunPage | src/pages/Index.tsx:10-33 | after any trace of button presses, reads and read errors, the page holds the last id read and its address, or neither, and is scanning iff the trace ends with a press |

## Left out

- The Web NFC calls (`NDEFReader`, `ndef.write`). They are a browser API. Whether it exists is the parameter of `DetectSupport`, and how the write ended is the parameter of `HandleWrite`.
- Writer.NfcWriter.HandleWrite: a throw from the `NDEFReader` constructor is folded into `Threw`, so the model reports the record as handed over even then. A throw from the `onWriteComplete` callback, which the `catch` would also report as an error, is not modelled. This assumes that the parent's `onWriteComplete`, which `handleWriteComplete` calls first (src/components/AdminPanel.tsx:31), never throws; that parent is not part of this model.
- Writer.NfcWriter.HandleWrite: the method is atomic. The state while the write is awaited (`isWriting` true, the button disabled) is not modelled as its own step.
- The simulated write without Web NFC (`setTimeout`, `Math.random`, four fixed causes) is left out. `HandleWrite` models only that this branch reports nothing before it returns. The delayed report depends on timers and floating-point randomness.
- Writer.NfcWriter.ChangeInput: `raw` is the value the browser delivers after `maxLength={5}` (src/components/NfcWriter.tsx:96) has cut the edit. That cut depends on the caret and selection and is not modelled. So `NormalizeAppend` is a fact about the line-95 expression, not about what typing or pasting into the field yields.
- Admin.AdminWriteSession: `raw` is the value delivered to `onChange`, after the browser's `maxLength` cut. Pasting `a12345` into the empty field delivers `a1234`, which fails validation.
- Admin.AdminWriteSession: only reports made before `handleWrite` returns are covered. Without Web NFC the simulated write's timer later calls `onWriteComplete` with the id about 80% of the time (src/components/NfcWriter.tsx:60-63), and that id reaches the parent through `handleWriteComplete`. The model leaves this out because it depends on a timer and `Math.random`.
- Admin.AdminPanel.HandleWriteComplete: the model does not promise that a completion arrives only while the writer is shown. The write resolves after an await or a timer, possibly after `handleClose`, and the source does not check. `LateWriteCompletion` exhibits this case.
- Admin.AdminPanel.HandleWriteError: the same holds for a write error reported after the dialog was closed. The handler changes nothing in any state.
- Toasts, `console` logging and all JSX layout are presentation only.
- `NfcScanner.tsx` (simulated scan with a timer and random ids) is left out. It is modelled only as the `TagRead`/`ReadFailed` events that `RunPage` replays.
- `ScanHistory.tsx` (local-storage plumbing) is left out, and so is `NfcInfo.tsx` apart from its render guard, which `CardVisible` models. The rest of `NfcInfo.tsx` is clipboard access and `window.open`: I/O with no logic to verify.
- The mount-time permission toast in `Index.tsx` is left out. It is a timer-driven notification.
