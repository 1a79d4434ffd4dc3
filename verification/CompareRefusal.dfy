/** A pair that is turned down while a receipt awaits review, and then forgotten. */
module CompareRefusal {
  import opened Wrappers
  import opened CompareModel
  import opened CompareSafety
  import opened CompareCases

  /** Order and invoice are parsed, one after the other. */
  function Both(): State { Parse(Parse(UploadInvoice(Blank(0, Uploaded), false), Order), Invoice(0)) }

  lemma {:induction false} ToBoth() returns (steps: seq<Step>)
    ensures Trace(Blank(0, Uploaded), steps, Both())
  {
    var s0 := Blank(0, Uploaded);
    var s1 := UploadInvoice(s0, false);
    Then(s0, [], s0, DoUploadInvoice(false));
    steps := [] + [DoUploadInvoice(false)];
    steps := ThenParse(s0, steps, s1, Order);
    steps := ThenParse(s0, steps, Parse(s1, Order), Invoice(0));
  }

  function QueuedJob(): Job { Job(Waiting, 1, 8, map[Order := 4, Invoice(0) := 7]) }

  function InQueue(): State {
    Blank(9, Parsed(3, 4)).(
      invoices := [Parsed(6, 7)], jobs := map[Auto(0, 6) := QueuedJob()],
      log := [Change(Order, 3), Change(Invoice(0), 6)])
  }

  lemma {:induction false} BothIs()
    ensures Both() == InQueue().(now := 7, owed := {Order, Invoice(0)}, jobs := map[])
  {
  }

  lemma {:induction false} PairOfBoth(s: State)
    requires s.order == Parsed(3, 4) && s.invoices == [Parsed(6, 7)] && s.receipts == []
    ensures Version(s, 0) == 6 && Inputs(s, 0) == QueuedJob().inputs
    ensures PairsFor(s, Order) == [Pair(0, 6)] && PairsFor(s, Invoice(0)) == [Pair(0, 6)]
    ensures Deferrals(s, Order) == {} && Deferrals(s, Invoice(0)) == {}
  {
    assert LinkedPairs(s, 1) == [];
  }

  lemma {:induction false} ToInQueue() returns (steps: seq<Step>)
    ensures Trace(Blank(0, Uploaded), steps, InQueue())
  {
    steps := ToBoth();
    BothIs();
    var s0 := Both();
    PairOfBoth(s0);
    PairOfBoth(s0.(now := 8));
    OneJob(s0.(now := 8), Pair(0, 6), 8);
    var s1 := InQueue().(now := 8, owed := {Order});
    assert s0.owed - {Invoice(0)} == {Order};
    assert Enqueue(s0, Invoice(0)) == s1;
    PairOfBoth(s1);
    OneJob(s1.(now := 9), Pair(0, 6), 9);
    assert s1.owed - {Order} == {} && Enqueue(s1, Order) == InQueue();
    Then(Blank(0, Uploaded), steps, s0, DoEnqueue(Invoice(0)));
    steps := steps + [DoEnqueue(Invoice(0))];
    Then(Blank(0, Uploaded), steps, s1, DoEnqueue(Order));
    steps := steps + [DoEnqueue(Order)];
  }

  /** A photo receipt, parsed but not yet confirmed. */
  function Photo(): Doc { Doc(Done, 12, true, None, 13) }

  function Photographed(): State {
    InQueue().(now := 13, receipts := [Photo()], owed := {Receipt(0)}, log := InQueue().log + [Change(Receipt(0), 12)])
  }

  lemma {:induction false} ToPhotographed() returns (steps: seq<Step>)
    ensures Trace(Blank(0, Uploaded), steps, Photographed())
  {
    steps := ToInQueue();
    var s1 := UploadReceipt(InQueue(), true);
    Then(Blank(0, Uploaded), steps, InQueue(), DoUploadReceipt(true));
    steps := steps + [DoUploadReceipt(true)];
    steps := ThenParse(Blank(0, Uploaded), steps, s1, Receipt(0));
    assert Parse(s1, Receipt(0)) == Photographed();
  }

  /** The receipt's enqueue is deferred, the job starts, and `compare` answers with a 400. */
  function TurnedDown(): State { Photographed().(now := 16, owed := {}, deferred := {0}, jobs := map[]) }

  lemma {:induction false} PhotoHolds(s: State)
    requires s.order == Parsed(3, 4) && s.invoices == [Parsed(6, 7)] && s.receipts == [Photo()]
    ensures PairsFor(s, Receipt(0)) == [] && Deferrals(s, Receipt(0)) == {0} && !Accepts(s, 0)
  {
    assert Unsettled(s.receipts[0]);
  }

  lemma {:induction false} ToTurnedDown() returns (steps: seq<Step>)
    ensures Trace(Blank(0, Uploaded), steps, TurnedDown())
  {
    steps := ToPhotographed();
    var s0, j := Photographed(), Auto(0, 6);
    PhotoHolds(s0);
    var s1 := s0.(now := 14, owed := {}, deferred := {0});
    assert Enqueue(s0, Receipt(0)) == s1;
    var s2 := Start(s1, j);
    PhotoHolds(s2);
    assert Without(s2.jobs, j) == map[];
    assert Refuse(s2, j) == TurnedDown();
    Then(Blank(0, Uploaded), steps, s0, DoEnqueue(Receipt(0)));
    steps := steps + [DoEnqueue(Receipt(0))];
    Then(Blank(0, Uploaded), steps, s1, DoStart(j));
    steps := steps + [DoStart(j)];
    Then(Blank(0, Uploaded), steps, s2, DoRefuse(j));
    steps := steps + [DoRefuse(j)];
  }

  function Dropped(): State { TurnedDown().(now := 18, receipts := [Doc(Failed, 18, true, None, 13)]) }

  /**
   * A job that meets a receipt awaiting review is dropped with a 400. The review
   * would have enqueued the pair again; but the receipt is parsed anew and
   * fails, and nothing is left that would compare the pair.
   */
  lemma {:induction false} TurnedDownThenFailed() returns (s0: State, steps: seq<Step>, s: State)
    ensures Initial(s0) && Trace(s0, steps, s) && Lost(s, 0)
    ensures s.jobs == map[] && s.runs == [] && s.owed == {} && s.stamps == map[] && s.abandoned == {}
  {
    s0, s := Blank(0, Uploaded), Dropped();
    steps := ToTurnedDown();
    var s1 := Begin(TurnedDown(), Receipt(0), Processing);
    Then(s0, steps, TurnedDown(), DoBegin(Receipt(0), Processing));
    steps := steps + [DoBegin(Receipt(0), Processing)];
    Then(s0, steps, s1, DoFail(Receipt(0)));
    steps := steps + [DoFail(Receipt(0))];
    assert Fail(s1, Receipt(0)) == s;
  }
}
