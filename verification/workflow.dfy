/** The location-assignment form: its state record and the handlers that
    update it. Every handler is a pure function from the state before the
    event to the state after it. */
module Workflow {
  import opened Basics
  import opened Catalog

  // The four user-visible messages, each fixed by the form.
  const NoItemSelected := "Please select an item first."
  const NoDestination := "Please enter a destination location."
  const LocationNotAllowed := "The destination location is not allowed for this item. Please try again."
  const SubmitFailed := "Failed to submit the location. Please try again."

  /** The messages the error line can show; "" is the initial, empty message. */
  predicate KnownError(e: string)
  {
    e == "" || e == NoItemSelected || e == NoDestination || e == LocationNotAllowed || e == SubmitFailed
  }

  /** What the confirmation QR code encodes: the selected item and the location. */
  datatype QrPayload = QrPayload(item: Item, location: string)

  /** The form's state: one field per piece of component state the handlers touch. */
  datatype State = State(
    selected: Option<Item>,      // the chosen catalog entry, if any
    unit: string,                // unit shown next to the quantity
    scanning: bool,              // whether the camera scanner is shown
    error: string,               // the one error line ("" shows nothing)
    destination: string,         // destination location, typed or scanned
    qr: Option<QrPayload>,       // confirmation payload after a successful submit
    items: seq<Item>             // the loaded catalog
  )

  /** The body of the submission request. */
  datatype SubmitBody = SubmitBody(itemId: int, location: string)

  /** What the submit handler has captured once validation passes: the
      selected item and the destination at the moment of the click. */
  datatype Pending = Pending(item: Item, location: string)

  /** How the submission request ended: an ok status, a non-ok status, or a thrown error. */
  datatype Outcome = Ok | NotOk | Threw

  /** A state change together with the request it issued, if any. */
  datatype Transition = Transition(next: State, sent: Option<SubmitBody>)

  /** The request body sent for a captured submission. */
  function Body(p: Pending): (b: SubmitBody)
  {
    SubmitBody(p.item.id, p.location)
  }

  /** The preconditions of a submission stated independently of the
      validator: an item is chosen, the destination is non-empty and it is
      one of the item's allowed locations. */
  predicate Submittable(s: State)
  {
    && s.selected.Some?
    && s.destination != ""
    && s.destination in s.selected.value.allowedLocations
  }

  /** The relations between fields every reachable state keeps. */
  predicate Consistent(s: State)
  {
    && (s.selected.Some? ==> s.unit == s.selected.value.unit && s.selected.value in s.items)
    && (s.selected.None? ==> s.unit == "" && !s.scanning && s.qr.None?)
    && (s.qr.Some? ==> s.qr.value.item in s.items
                       && s.qr.value.location != ""
                       && s.qr.value.location in s.qr.value.item.allowedLocations)
    && KnownError(s.error)
  }

  /** The state right after the catalog has loaded: nothing chosen, nothing typed. */
  function Init(items: seq<Item>): (s: State)
    ensures Consistent(s)
    ensures s.items == items && s.selected.None? && s.destination == "" && s.error == ""
  {
    State(None, "", false, "", "", None, items)
  }

  /** Choosing an item in the selector: the first catalog entry with the id
      becomes the selection and its unit is copied; nothing else changes. */
  function SelectItem(s: State, id: int): (r: State)
    requires HasId(s.items, id)
    ensures r.selected == Some(Find(s.items, id))
    ensures r.selected.Some? && r.selected.value.id == id && r.selected.value in s.items
    ensures r.unit == r.selected.value.unit
    ensures r == s.(selected := r.selected, unit := r.unit)
    ensures UniqueIds(s.items) ==> forall i | 0 <= i < |s.items| && s.items[i].id == id :: r.selected == Some(s.items[i])
  {
    var item := Find(s.items, id);
    assert item in s.items;
    s.(selected := Some(item), unit := item.unit)
  }

  /** "Scan Initial Location": without a selection it reports the missing
      item and leaves scanning as it was; with one it turns the scanner on
      and leaves the error line as it was. */
  function StartScan(s: State): (r: State)
    ensures s.selected.None? ==> r.error == NoItemSelected && r.scanning == s.scanning
    ensures s.selected.Some? ==> r.scanning && r.error == s.error
    ensures r == s.(error := r.error, scanning := r.scanning)
  {
    if s.selected.None? then s.(error := NoItemSelected)
    else s.(scanning := true)
  }

  /** A decoded scan: an empty payload is ignored; any other payload turns
      the scanner off and becomes the destination, whichever scan produced it. */
  function ScanResult(s: State, data: string): (r: State)
    ensures data == "" ==> r == s
    ensures data != "" ==> !r.scanning && r.destination == data
    ensures r == s.(scanning := r.scanning, destination := r.destination)
  {
    if data == "" then s
    else s.(scanning := false, destination := data)
  }

  /** Typing in the destination field overwrites the destination. */
  function TypeLocation(s: State, value: string): (r: State)
    ensures r.destination == value
    ensures r == s.(destination := r.destination)
  {
    s.(destination := value)
  }

  /** The validator of the submit handler. Its three checks run in order and
      the first that fails decides the message; only when all pass does it
      yield the captured item and destination. */
  function Validate(s: State): (r: Result<Pending, string>)
    ensures s.selected.None? ==> r == Failure(NoItemSelected)
    ensures s.selected.Some? && s.destination == "" ==> r == Failure(NoDestination)
    ensures s.selected.Some? && s.destination != "" && s.destination !in s.selected.value.allowedLocations
            ==> r == Failure(LocationNotAllowed)
    ensures r.Success? <==> Submittable(s)
    ensures r.Success? ==> r.value == Pending(s.selected.value, s.destination)
  {
    if s.selected.None? then Failure(NoItemSelected)
    else if s.destination == "" then Failure(NoDestination)
    else if s.destination !in s.selected.value.allowedLocations then Failure(LocationNotAllowed)
    else Success(Pending(s.selected.value, s.destination))
  }

  /** Applying the request's outcome to the state current when it ends. An ok
      response publishes the captured item and location as the QR payload and
      turns the scanner back on without clearing the error; a non-ok status or
      a thrown error only sets the failure message. */
  function Complete(s: State, p: Pending, o: Outcome): (r: State)
    ensures o.Ok? ==> r.qr == Some(QrPayload(p.item, p.location)) && r.scanning && r.error == s.error
    ensures o.Ok? ==> r == s.(qr := r.qr, scanning := r.scanning)
    ensures !o.Ok? ==> r == s.(error := SubmitFailed)
  {
    if o.Ok? then s.(qr := Some(QrPayload(p.item, p.location)), scanning := true)
    else s.(error := SubmitFailed)
  }

  /** The whole submit handler run without interleaving: validate, and when
      validation passes issue exactly one request and apply its outcome. */
  function Submit(s: State, o: Outcome): (t: Transition)
    ensures t.sent.Some? <==> Submittable(s)
    ensures s.selected.None? ==> t == Transition(s.(error := NoItemSelected), None)
    ensures s.selected.Some? && s.destination == "" ==> t == Transition(s.(error := NoDestination), None)
    ensures s.selected.Some? && s.destination != "" && s.destination !in s.selected.value.allowedLocations
            ==> t == Transition(s.(error := LocationNotAllowed), None)
    ensures Submittable(s) ==> t.sent == Some(SubmitBody(s.selected.value.id, s.destination))
    ensures Submittable(s) && o.Ok? ==>
              t.next == s.(qr := Some(QrPayload(s.selected.value, s.destination)), scanning := true)
    ensures Submittable(s) && !o.Ok? ==> t.next == s.(error := SubmitFailed)
  {
    match Validate(s)
    case Failure(msg) => Transition(s.(error := msg), None)
    case Success(p) => Transition(Complete(s, p, o), Some(Body(p)))
  }
}
