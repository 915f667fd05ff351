/** Two end-to-end sessions on a one-item catalog. */
module Scenarios {
  import opened Basics
  import opened Catalog
  import opened Workflow
  import opened Session

  function Bolt(): (b: Item)
  {
    Item(1, "Bolt", "pcs", ["A1", "A2"])
  }

  /** Choose the bolt, type "A1", submit with an ok response: the unit is
      "pcs", one request for item 1 at "A1" goes out, the payload names the
      bolt and "A1", and the scanner is on for the confirmation scan. */
  lemma {:induction false} AcceptedSession()
    ensures AllEnabled([Bolt()], [Choose(1), Typed("A1"), Submitted(Ok)])
    ensures Run(Init([Bolt()]), [Choose(1), Typed("A1"), Submitted(Ok)]).sent == [SubmitBody(1, "A1")]
    ensures Run(Init([Bolt()]), [Choose(1), Typed("A1"), Submitted(Ok)]).final.unit == "pcs"
    ensures Run(Init([Bolt()]), [Choose(1), Typed("A1"), Submitted(Ok)]).final.qr == Some(QrPayload(Bolt(), "A1"))
    ensures Run(Init([Bolt()]), [Choose(1), Typed("A1"), Submitted(Ok)]).final.scanning
  {
    var evs := [Choose(1), Typed("A1"), Submitted(Ok)];
    var s0 := Init([Bolt()]);
    assert HasId(s0.items, 1) by { assert s0.items[0].id == 1; }
    var s1 := SelectItem(s0, 1);
    assert s1.selected == Some(Bolt());
    var s2 := TypeLocation(s1, "A1");
    assert Submittable(s2) by { assert s2.selected.value.allowedLocations[0] == "A1"; }
    assert evs[1..] == [Typed("A1"), Submitted(Ok)];
    assert evs[1..][1..] == [Submitted(Ok)];
  }

  /** Choose the bolt, type "B9", submit: the disallowed-location message
      shows, no request goes out and no payload is published. */
  lemma {:induction false} RejectedSession(o: Outcome)
    ensures AllEnabled([Bolt()], [Choose(1), Typed("B9"), Submitted(o)])
    ensures Run(Init([Bolt()]), [Choose(1), Typed("B9"), Submitted(o)]).sent == []
    ensures Run(Init([Bolt()]), [Choose(1), Typed("B9"), Submitted(o)]).final.error == LocationNotAllowed
    ensures Run(Init([Bolt()]), [Choose(1), Typed("B9"), Submitted(o)]).final.qr.None?
  {
    var evs := [Choose(1), Typed("B9"), Submitted(o)];
    var s0 := Init([Bolt()]);
    assert HasId(s0.items, 1) by { assert s0.items[0].id == 1; }
    var s1 := SelectItem(s0, 1);
    assert s1.selected == Some(Bolt());
    var s2 := TypeLocation(s1, "B9");
    assert "B9" !in Bolt().allowedLocations by {
      assert "B9"[0] != "A1"[0] && "B9"[0] != "A2"[0];
    }
    assert !Submittable(s2);
    var s3 := Submit(s2, o).next;
    assert s3.error == LocationNotAllowed && s3.qr.None?;
    assert Run(s3, []) == Trace(s3, []);
    assert Run(s2, [Submitted(o)]) == Trace(s3, []);
    assert evs[1..] == [Typed("B9"), Submitted(o)];
    assert Run(s1, evs[1..]) == Trace(s3, []);
  }
}
