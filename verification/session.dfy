/** A session of the form: the user's events applied one after another,
    and the properties that hold of every state and request along the way. */
module Session {
  import opened Basics
  import opened Catalog
  import opened Workflow

  /** The events the form reacts to; ScanError is the scanner's error callback,
      which only logs. */
  datatype Event =
    | Choose(id: int)
    | BeginScan
    | Scanned(data: string)
    | Typed(value: string)
    | Submitted(outcome: Outcome)
    | ScanError

  /** The record of a run: the state reached and every request issued, in order. */
  datatype Trace = Trace(final: State, sent: seq<SubmitBody>)

  /** An event the source can process without failing: a chosen id must come from the catalog. */
  predicate Enabled(items: seq<Item>, e: Event)
  {
    e.Choose? ==> HasId(items, e.id)
  }

  predicate AllEnabled(items: seq<Item>, evs: seq<Event>)
  {
    forall i | 0 <= i < |evs| :: Enabled(items, evs[i])
  }

  /** A request the catalog authorises: some entry carries its id and allows its location. */
  predicate Authorized(items: seq<Item>, b: SubmitBody)
  {
    exists i | 0 <= i < |items| :: items[i].id == b.itemId && b.location in items[i].allowedLocations
  }

  /** Number of submit clicks in a run. */
  function SubmitCount(evs: seq<Event>): (n: nat)
  {
    if |evs| == 0 then 0
    else (if evs[0].Submitted? then 1 else 0) + SubmitCount(evs[1..])
  }

  /** One event. No event changes the catalog; a request goes out exactly
      when the event is a submit click on a submittable state, and it names
      the selected item and the destination. */
  function Step(s: State, e: Event): (t: Transition)
    requires Enabled(s.items, e)
    ensures t.next.items == s.items
    ensures t.sent.Some? <==> e.Submitted? && Submittable(s)
    ensures t.sent.Some? ==> t.sent.value == SubmitBody(s.selected.value.id, s.destination)
    ensures e.ScanError? ==> t.next == s
  {
    match e
    case Choose(id) => Transition(SelectItem(s, id), None)
    case BeginScan => Transition(StartScan(s), None)
    case Scanned(data) => Transition(ScanResult(s, data), None)
    case Typed(value) => Transition(TypeLocation(s, value), None)
    case Submitted(o) => Submit(s, o)
    case ScanError => Transition(s, None)
  }

  /** Events applied left to right; at most one request per submit click. */
  function Run(s: State, evs: seq<Event>): (t: Trace)
    requires AllEnabled(s.items, evs)
    ensures t.final.items == s.items
    ensures |t.sent| <= SubmitCount(evs)
    decreases |evs|
  {
    if |evs| == 0 then Trace(s, [])
    else
      var first := Step(s, evs[0]);
      assert Enabled(s.items, evs[0]);
      var rest := Run(first.next, evs[1..]);
      Trace(rest.final, ToSeq(first.sent) + rest.sent)
  }

  /** Every handler keeps the field relations of a consistent state. */
  lemma StepConsistent(s: State, e: Event)
    requires Consistent(s)
    requires Enabled(s.items, e)
    ensures Consistent(Step(s, e).next)
  {
  }

  /** Every state reached from a consistent state is consistent: the unit
      mirrors the selection, a QR payload names a catalog item and one of its
      allowed locations, and the error line holds one of the form's messages. */
  lemma {:induction false} RunConsistent(s: State, evs: seq<Event>)
    requires Consistent(s)
    requires AllEnabled(s.items, evs)
    ensures Consistent(Run(s, evs).final)
    decreases |evs|
  {
    if |evs| > 0 {
      assert Enabled(s.items, evs[0]);
      StepConsistent(s, evs[0]);
      RunConsistent(Step(s, evs[0]).next, evs[1..]);
    }
  }

  /** A request issued from a consistent state is authorised by the catalog. */
  lemma StepAuthorized(s: State, e: Event)
    requires Consistent(s)
    requires Enabled(s.items, e)
    requires Step(s, e).sent.Some?
    ensures Authorized(s.items, Step(s, e).sent.value)
  {
  }

  /** No request ever leaves the form for an item outside the catalog or a
      location the item does not allow. */
  lemma {:induction false} RunAuthorized(s: State, evs: seq<Event>)
    requires Consistent(s)
    requires AllEnabled(s.items, evs)
    ensures forall k | 0 <= k < |Run(s, evs).sent| :: Authorized(s.items, Run(s, evs).sent[k])
    decreases |evs|
  {
    if |evs| > 0 {
      assert Enabled(s.items, evs[0]);
      var first := Step(s, evs[0]);
      StepConsistent(s, evs[0]);
      RunAuthorized(first.next, evs[1..]);
      if first.sent.Some? {
        StepAuthorized(s, evs[0]);
      }
    }
  }

  /** No handler clears the error line: once a message shows, some message
      keeps showing for the rest of the session. */
  lemma {:induction false} ErrorNeverCleared(s: State, evs: seq<Event>)
    requires AllEnabled(s.items, evs)
    requires s.error != ""
    ensures Run(s, evs).final.error != ""
    decreases |evs|
  {
    if |evs| > 0 {
      assert Enabled(s.items, evs[0]);
      ErrorNeverCleared(Step(s, evs[0]).next, evs[1..]);
    }
  }

  /** While every choice names a catalog id, a selection, once made, is
      never undone; it can only be replaced. */
  lemma {:induction false} SelectionSticks(s: State, evs: seq<Event>)
    requires AllEnabled(s.items, evs)
    requires s.selected.Some?
    ensures Run(s, evs).final.selected.Some?
    decreases |evs|
  {
    if |evs| > 0 {
      assert Enabled(s.items, evs[0]);
      SelectionSticks(Step(s, evs[0]).next, evs[1..]);
    }
  }

  /** A confirmation payload, once published, stays published. */
  lemma {:induction false} QrSticks(s: State, evs: seq<Event>)
    requires AllEnabled(s.items, evs)
    requires s.qr.Some?
    ensures Run(s, evs).final.qr.Some?
    decreases |evs|
  {
    if |evs| > 0 {
      assert Enabled(s.items, evs[0]);
      QrSticks(Step(s, evs[0]).next, evs[1..]);
    }
  }

  /** A session without a submit click issues no request. */
  lemma {:induction false} NoSubmitNoRequest(s: State, evs: seq<Event>)
    requires AllEnabled(s.items, evs)
    requires forall i | 0 <= i < |evs| :: !evs[i].Submitted?
    ensures Run(s, evs).sent == []
    decreases |evs|
  {
    if |evs| > 0 {
      assert Enabled(s.items, evs[0]);
      NoSubmitNoRequest(Step(s, evs[0]).next, evs[1..]);
    }
  }

  /** Pressing "Scan Initial Location" twice is the same as pressing it once. */
  lemma StartScanIdempotent(s: State)
    ensures StartScan(StartScan(s)) == StartScan(s)
  {
  }

  /** Delivering the same scanned payload twice is the same as delivering it once. */
  lemma ScanResultIdempotent(s: State, data: string)
    ensures ScanResult(ScanResult(s, data), data) == ScanResult(s, data)
  {
  }

  /** Typed text replaces whatever the field held: the last keystroke wins. */
  lemma TypeLocationLastWins(s: State, a: string, b: string)
    ensures TypeLocation(TypeLocation(s, a), b) == TypeLocation(s, b)
  {
  }

  /** A rejected submit only sets the message: clicking again, with any
      outcome, changes nothing and again sends nothing. */
  lemma RejectedSubmitIdempotent(s: State, o1: Outcome, o2: Outcome)
    requires !Submittable(s)
    ensures Submit(Submit(s, o1).next, o2) == Submit(s, o1)
  {
  }

  /** The scan that follows a successful submit is handled like any other:
      it switches the scanner off and replaces the destination, keeping the
      published payload. */
  lemma ConfirmationScanOverwritesDestination(s: State, data: string)
    requires Submittable(s)
    requires data != ""
    ensures ScanResult(Submit(s, Ok).next, data).destination == data
    ensures !ScanResult(Submit(s, Ok).next, data).scanning
    ensures ScanResult(Submit(s, Ok).next, data).qr == Some(QrPayload(s.selected.value, s.destination))
  {
  }
  /** The outcome is applied with the item and destination captured at the
      click: a destination typed while the request is in flight does not
      reach the published payload, though it stays in the field. */
  lemma CapturedAtClick(s: State, typed: string)
    requires Submittable(s)
    ensures Validate(s).Success?
    ensures Complete(TypeLocation(s, typed), Validate(s).value, Ok).qr
            == Some(QrPayload(s.selected.value, s.destination))
    ensures Complete(TypeLocation(s, typed), Validate(s).value, Ok).destination == typed
  {
  }
}
