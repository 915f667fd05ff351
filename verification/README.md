# Location-assignment form, modelled in Dafny

The system is a one-component inventory form. The user picks a catalog item,
scans or types a destination location, and submits. The form checks the
location against the item's allow-list and posts `{ item_id, location }` to a
remote service. On success it shows a confirmation QR code and turns the
scanner back on.

This project models that workflow as a state machine over an immutable state
record. The record has seven fields: selected item, unit, scanning flag, error
line, destination location, QR payload and loaded catalog. Each event handler
of the component is a pure transition function.

- `basics.dfy`: `Option` and `Result`.
- `catalog.dfy`: the catalog `Item` and the lookup by id (`items.find`).
- `workflow.dfy`: the state, the four error messages and the handlers.
  The asynchronous submit handler is split in two. `Validate` is the ordered,
  short-circuiting validator; it returns an error or the captured item and
  location. `Complete` applies the request's outcome (`Ok`, `NotOk` or
  `Threw`), which is passed in as a parameter. `Submit` composes the two and
  reports the request it issued.
- `session.dfy`: events, a run of events, and properties of whole sessions.
  Every reachable state stays consistent. Every issued request is authorised
  by the catalog. The error line is never cleared. While every choice in the
  selector names a catalog id, a selection, once made, stays made. A payload,
  once published, stays published.
- `scenarios.dfy`: the accepted session (bolt, "A1", ok response) and the
  rejected one (bolt, "B9").

The network outcome of the submission is a parameter. The catalog is given
in the initial state.

No handler in `src/App.js` resets the error string: every `setError` call
passes a non-empty message (lines 44, 64, 69, 74, 93, 97). `ErrorNeverCleared`
proves that, once shown, some message keeps showing. A successful submit
keeps the previous message too (`Workflow.Complete`).

## Model

| member | source | states |
|---|---|---|
| `Catalog.FirstWithId` | src/App.js:31 | the lookup finds a position exactly when some entry has the id; that entry has the id and no earlier entry does |
| `Catalog.Find` | src/App.js:31 | the item found carries the requested id and is the first catalog entry with that id |
| `Catalog.FindUnique` | src/App.js:31 | when catalog ids are unique, the lookup returns exactly the entry carrying the id |
| `Workflow.Init` | src/App.js:6-14 | the initial state has nothing selected, an empty destination and error, the given catalog, and satisfies the consistency invariant |
| `Workflow.SelectItem` | src/App.js:30-34 | selecting a catalog id makes the first catalog entry with that id the selection; the unit becomes exactly that item's unit; no other field changes; with unique ids it is the entry with that id |
| `Workflow.StartScan` | src/App.js:42-49 | with no selection the error becomes "Please select an item first." and scanning is unchanged; with a selection scanning turns on and the error is untouched; nothing else changes |
| `Workflow.ScanResult` | src/App.js:51-56 | an empty payload changes nothing; a non-empty one turns scanning off and becomes the destination; nothing else changes |
| `Workflow.TypeLocation` | src/App.js:58-60 | typing sets the destination to the typed text and changes nothing else |
| `Workflow.Validate` | src/App.js:63-76 | checks run in order (selection, non-empty destination, allow-list), each with its own message; it succeeds exactly on submittable states and then captures the selected item and the destination |
| `Workflow.Complete` | src/App.js:89-98 | an ok outcome publishes the captured item and location as the QR payload and turns scanning on, keeping the error; a non-ok status or thrown error only sets "Failed to submit the location. Please try again." |
| `Workflow.Submit` | src/App.js:62-99 | a request is issued exactly when the state is submittable, with the selected item's id and the destination; each failed check sets its own message and issues nothing, whatever the location; the outcome decides the next state |
| `Session.Step` | src/App.js:30-103 | no event changes the catalog; a request is issued exactly for a submit click on a submittable state; the scanner's error callback changes nothing |
| `Session.Run` | src/App.js:62-99 | a session issues at most one request per submit click and never changes the catalog |
| `Session.StepConsistent` | src/App.js:30-98 | each handler preserves the consistency invariant (unit mirrors selection, QR payload is an allowed location of a catalog item, error is one of the form's messages) |
| `Session.RunConsistent` | src/App.js:30-98 | every state a session reaches from a consistent state is consistent |
| `Session.StepAuthorized` | src/App.js:73-88 | a request issued from a consistent state names a catalog item's id and a location that item allows |
| `Session.RunAuthorized` | src/App.js:73-88 | every request issued in a session is authorised by the catalog |
| `Session.ErrorNeverCleared` | src/App.js:42-98 | once the error line is non-empty it stays non-empty for the rest of the session |
| `Session.SelectionSticks` | src/App.js:30-34 | once an item is selected, some item stays selected, as long as every choice names a catalog id |
| `Session.QrSticks` | src/App.js:89-91 | once a QR payload is published it stays published |
| `Session.NoSubmitNoRequest` | src/App.js:78-88 | a session without a submit click issues no request |
| `Session.StartScanIdempotent` | src/App.js:42-49 | starting a scan twice equals starting it once |
| `Session.ScanResultIdempotent` | src/App.js:51-56 | the same scanned payload delivered twice equals delivering it once |
| `Session.TypeLocationLastWins` | src/App.js:58-60 | the last typed text wins |
| `Session.RejectedSubmitIdempotent` | src/App.js:62-76 | after a rejected submit a second click changes nothing and issues nothing |
| `Session.ConfirmationScanOverwritesDestination` | src/App.js:51-91 | a scan after a successful submit turns scanning off and overwrites the destination; the published payload stays |
| `Session.CapturedAtClick` | src/App.js:84-90 | the payload uses the item and destination captured at the click, even if the field was retyped while the request was in flight |
| `Scenarios.AcceptedSession` | src/App.js:30-91 | choosing the bolt, typing "A1" and submitting with an ok response gives unit "pcs", one request (1, "A1"), payload (bolt, "A1") and scanning on |
| `Scenarios.RejectedSession` | src/App.js:30-76 | choosing the bolt, typing "B9" and submitting sets the disallowed-location message, issues no request and publishes no payload |

## Left out

- Catalog fetch (`src/App.js:16-28`): network I/O. The catalog is the `items` field of the initial state. A failed fetch only logs, which leaves the catalog empty; that case is `Init([])`.
- Submission POST (`src/App.js:79-88`): network I/O. Its result is the `Outcome` parameter. `Complete` treats `NotOk` and `Threw` the same, as the form does; the catch branch's `console.error` (`src/App.js:96`) is dropped.
- Quantity entry, `parseInt` and the number-to-words library (`src/App.js:36-40, 105-107`): third-party and JavaScript numeric parsing. No handler in the model reads them.
- Exact `JSON.stringify` text of the QR payload and the QR image URL (`src/App.js:90, 139`): library serialisation and an external service. The payload is the abstract pair of item and location.
- Rendering, the camera component and `useEffect` mounting (`src/App.js:109-153`): UI plumbing. The scanner's error callback (`src/App.js:101-103`) only logs and is the no-op event `ScanError`.
- Overlapping in-flight submissions: the form does not guard against them, and the model runs events one at a time. `Complete` takes the current state and the captured values separately, so an interleaving could be expressed.
- Workflow.SelectItem: an id absent from the catalog is a precondition. The source throws a TypeError when it reads the unit of `undefined`. This includes the selector's placeholder option (`src/App.js:117`). The update `setSelectedItem(undefined)`, queued just before the throw, is not modelled. That update would clear the selection and leave the unit stale. So the consistency invariant and `SelectionSticks` hold only for sessions whose choices all name catalog ids.
- Loose `==` id comparison (`src/App.js:31`): ids are integers compared by equality.
- Scanner gating (`src/App.js:143-150`): the camera component is mounted only while scanning is on, so its callbacks cannot fire otherwise. The model accepts `Scanned` and `ScanError` in any state. This over-approximation only widens the sessions the session lemmas cover.
- Workflow.ScanResult: the scanner's falsy payloads (`null`, `undefined`, `""`) are all represented by the empty string.
