/** Three runs of the compare protocol that show where its promises stop. */
module CompareCases {
  import opened Wrappers
  import opened CompareModel
  import opened CompareSafety
  import opened CompareInputs

  lemma {:induction false} Then(s: State, steps: seq<Step>, mid: State, step: Step)
    requires Trace(s, steps, mid) && Enabled(mid, step)
    ensures Trace(s, steps + [step], Apply(mid, step))
    decreases |steps|
  {
    if steps == [] {
      assert [step][1..] == [];
      assert Trace(Apply(s, step), [], Apply(mid, step));
    } else {
      assert (steps + [step])[1..] == steps[1..] + [step];
      Then(Apply(s, steps[0]), steps[1..], mid, step);
    }
  }

  function Blank(now: nat, order: Doc): State {
    State(now, order, [], [], map[], {}, map[], [], {}, {}, [])
  }

  function Parsed(updatedAt: nat, committedAt: nat): Doc { Doc(Done, updatedAt, false, None, committedAt) }

  const Uploaded := Doc(Pending, 0, false, None, 0)

  // ----- both documents parsed while a receipt is pending

  function Begun(): State {
    Blank(4, Doc(Processing, 3, false, None, 0)).(
      invoices := [Doc(Processing, 4, false, None, 0)], receipts := [Doc(Pending, 2, false, None, 0)])
  }

  function BothParsed(now: nat, receipt: Doc): State {
    Blank(now, Parsed(5, 6)).(
      invoices := [Parsed(7, 8)], receipts := [receipt], log := [Change(Order, 5), Change(Invoice(0), 7)])
  }

  /** Deferred for the pending receipt: both enqueue calls are made and add nothing. */
  function Deferred(): State { BothParsed(10, Doc(Pending, 2, false, None, 0)).(deferred := {0}) }

  /** The receipt fails; nothing is left that would enqueue the pair. */
  function Forgotten(): State { BothParsed(11, Doc(Failed, 11, false, None, 0)).(deferred := {0}) }

  /** One invoice and a receipt arrive; the parses of order and invoice start. */
  lemma {:induction false} ToBegun() returns (steps: seq<Step>)
    ensures Trace(Blank(0, Uploaded), steps, Begun())
  {
    var s0 := Blank(0, Uploaded);
    var s1 := UploadInvoice(s0, false);
    var s2 := UploadReceipt(s1, false);
    var s3 := Begin(s2, Order, Processing);
    var s4 := Begin(s3, Invoice(0), Processing);
    Then(s0, [], s0, DoUploadInvoice(false));
    Then(s0, [] + [DoUploadInvoice(false)], s1, DoUploadReceipt(false));
    steps := [] + [DoUploadInvoice(false)] + [DoUploadReceipt(false)];
    Then(s0, steps, s2, DoBegin(Order, Processing));
    steps := steps + [DoBegin(Order, Processing)];
    Then(s0, steps, s3, DoBegin(Invoice(0), Processing));
    steps := steps + [DoBegin(Invoice(0), Processing)];
    assert s4 == Begun();
  }

  function OrderParsed(): State {
    Begun().(now := 6, order := Parsed(5, 6), owed := {Order}, log := [Change(Order, 5)])
  }

  lemma {:induction false} ToOrderParsed() returns (steps: seq<Step>)
    ensures Trace(Blank(0, Uploaded), steps, OrderParsed())
  {
    steps := ToBegun();
    var s1 := Stamp(Begun(), Order);
    Then(Blank(0, Uploaded), steps, Begun(), DoStamp(Order));
    Then(Blank(0, Uploaded), steps + [DoStamp(Order)], s1, DoCommit(Order));
    steps := steps + [DoStamp(Order)] + [DoCommit(Order)];
    assert Commit(s1, Order) == OrderParsed();
  }

  function InvoiceParsed(): State {
    BothParsed(8, Doc(Pending, 2, false, None, 0)).(owed := {Order, Invoice(0)})
  }

  lemma {:induction false} ToInvoiceParsed() returns (steps: seq<Step>)
    ensures Trace(Blank(0, Uploaded), steps, InvoiceParsed())
  {
    steps := ToOrderParsed();
    var d := Invoice(0);
    var s1 := Stamp(OrderParsed(), d);
    Then(Blank(0, Uploaded), steps, OrderParsed(), DoStamp(d));
    Then(Blank(0, Uploaded), steps + [DoStamp(d)], s1, DoCommit(d));
    steps := steps + [DoStamp(d)] + [DoCommit(d)];
    assert Commit(s1, d) == InvoiceParsed();
  }

  lemma {:induction false} ToDeferred() returns (steps: seq<Step>)
    ensures Trace(Blank(0, Uploaded), steps, Deferred())
  {
    steps := ToInvoiceParsed();
    var s0 := InvoiceParsed();
    assert Unsettled(s0.receipts[0]);
    var s1 := Enqueue(s0, Order);
    assert Deferrals(s0, Order) == {0} && s1 == s0.(now := 9, owed := {Invoice(0)}, deferred := {0});
    assert Deferrals(s1, Invoice(0)) == {0};
    Then(Blank(0, Uploaded), steps, s0, DoEnqueue(Order));
    Then(Blank(0, Uploaded), steps + [DoEnqueue(Order)], s1, DoEnqueue(Invoice(0)));
    steps := steps + [DoEnqueue(Order)] + [DoEnqueue(Invoice(0))];
    assert Enqueue(s1, Invoice(0)) == Deferred();
  }

  lemma {:induction false} ToForgotten() returns (steps: seq<Step>)
    ensures Trace(Blank(0, Uploaded), steps, Forgotten())
  {
    steps := ToDeferred();
    Then(Blank(0, Uploaded), steps, Deferred(), DoFail(Receipt(0)));
    steps := steps + [DoFail(Receipt(0))];
    assert Fail(Deferred(), Receipt(0)) == Forgotten();
  }

  /**
   * Deferral can lose a pair: its only receipt was pending when order and
   * invoice were enqueued and then failed, so the pair is comparable with no
   * run, no job, no refusal and no enqueue to come.
   */
  lemma {:induction false} DeferredThenFailed() returns (s0: State, steps: seq<Step>, s: State)
    ensures Initial(s0) && Trace(s0, steps, s)
    ensures Comparable(s, 0) && !Covered(s, 0)
  {
    s0 := Blank(0, Uploaded);
    steps := ToForgotten();
    s := Forgotten();
  }

  // ----- a commit between the reads and the run row

  function FirstRead(): map<DocId, nat> { map[Order := 6, Invoice(0) := 8] }

  function AfterRead(): State {
    Forgotten().(now := 13, jobs := map[Manual(0, 0) := Job(HasRead(0, FirstRead(), 13, 7), 0, 12, map[])])
  }

  lemma {:induction false} FirstReading(s: State)
    requires s == Press(Forgotten(), 0, 0)
    ensures CanRead(s, Manual(0, 0)) && Read(s, Manual(0, 0)) == AfterRead()
  {
    assert Inputs(s, 0) == FirstRead();
    assert s.log[..1] == [Change(Order, 5)] && LastChange(s.log[..1], 0) == 5 && LastChange(s.log, 0) == 7;
  }

  lemma {:induction false} ToAfterRead() returns (steps: seq<Step>)
    ensures Trace(Blank(0, Uploaded), steps, AfterRead())
  {
    steps := ToForgotten();
    var s0, j := Forgotten(), Manual(0, 0);
    var s1 := Press(s0, 0, 0);
    Then(Blank(0, Uploaded), steps, s0, DoPress(0, 0));
    Then(Blank(0, Uploaded), steps + [DoPress(0, 0)], s1, DoRead(j));
    steps := steps + [DoPress(0, 0)] + [DoRead(j)];
    FirstReading(s1);
  }

  function Reparsed(): State {
    AfterRead().(now := 16, order := Parsed(15, 16), owed := {Order}, log := AfterRead().log + [Change(Order, 15)])
  }

  lemma {:induction false} ToReparsed() returns (steps: seq<Step>)
    ensures Trace(Blank(0, Uploaded), steps, Reparsed())
  {
    steps := ToAfterRead();
    var s0 := AfterRead();
    var s1 := Begin(s0, Order, Processing);
    var s2 := Stamp(s1, Order);
    Then(Blank(0, Uploaded), steps, s0, DoBegin(Order, Processing));
    steps := steps + [DoBegin(Order, Processing)];
    Then(Blank(0, Uploaded), steps, s1, DoStamp(Order));
    steps := steps + [DoStamp(Order)];
    Then(Blank(0, Uploaded), steps, s2, DoCommit(Order));
    steps := steps + [DoCommit(Order)];
    assert Commit(s2, Order) == Reparsed();
  }

  function Torn(): State {
    Reparsed().(now := 18, jobs := map[], runs := [Run(0, false, Succeeded, 17, FirstRead(), 13, 7)])
  }

  lemma {:induction false} ToTorn() returns (steps: seq<Step>)
    ensures Trace(Blank(0, Uploaded), steps, Torn())
  {
    steps := ToReparsed();
    var s0, j := Reparsed(), Manual(0, 0);
    var s1 := OpenRow(s0, j);
    Then(Blank(0, Uploaded), steps, s0, DoOpen(j));
    steps := steps + [DoOpen(j)];
    Then(Blank(0, Uploaded), steps, s1, DoSucceed(j));
    steps := steps + [DoSucceed(j)];
    assert Without(s1.jobs, j) == map[];
    assert Succeed(s1, j) == Torn();
  }

  function Settled(): State { Torn().(now := 20, owed := {}, deferred := {}) }

  lemma {:induction false} TornVersion(s: State)
    requires s.order == Parsed(15, 16) && s.invoices == [Parsed(7, 8)]
    requires s.receipts == [Doc(Failed, 11, false, None, 0)]
    ensures Version(s, 0) == 15 && Comparable(s, 0)
    ensures PairsFor(s, Order) == [Pair(0, 15)]
  {
    assert s.receipts[..0] == [];
    assert LinkedPairs(s, 1) == [];
  }

  lemma {:induction false} TornIsFresh(s: State)
    requires s.order == Parsed(15, 16) && s.invoices == [Parsed(7, 8)]
    requires s.receipts == [Doc(Failed, 11, false, None, 0)]
    requires s.runs == Torn().runs
    ensures UpToDate(s, 0)
  {
    TornVersion(s);
    assert s.runs[0].startedAt == 17;
  }

  lemma {:induction false} OneJob(s: State, p: Pair, t: nat)
    ensures AddJobs(s, [p], t) == AddJob(s, p, t)
  {
    assert [p][..0] == [];
  }

  lemma {:induction false} ToSettled() returns (steps: seq<Step>)
    ensures Trace(Blank(0, Uploaded), steps, Settled())
  {
    steps := ToTorn();
    var s0, j := Torn(), Auto(0, 15);
    TornVersion(s0);
    var mid := s0.(now := 19);
    OneJob(mid, Pair(0, 15), 19);
    var s1 := Enqueue(s0, Order);
    assert !Defers(s0.receipts) && Deferrals(s0, Order) == {};
    assert s1.runs == s0.runs && s1.jobs[j].stage.Waiting?;
    TornIsFresh(s1);
    Then(Blank(0, Uploaded), steps, s0, DoEnqueue(Order));
    steps := steps + [DoEnqueue(Order)];
    Then(Blank(0, Uploaded), steps, s1, DoStart(j));
    steps := steps + [DoStart(j)];
    assert Without(s1.jobs, j) == map[];
    assert Start(s1, j) == Settled();
  }

  /**
   * A torn read can pass for fresh: the reads come before the run row and its
   * `started_at`, so a change committed in between is older than the run yet
   * unread. Its own enqueue finds the pair up to date, and nothing is left to
   * compare the new version.
   */
  lemma {:induction false} TornReadPassesForFresh() returns (s0: State, steps: seq<Step>, s: State)
    ensures Initial(s0) && Trace(s0, steps, s)
    ensures Comparable(s, 0) && UpToDate(s, 0) && Latest(s, 0, 0) && s.runs[0].read != Inputs(s, 0)
    ensures s.jobs == map[] && s.owed == {} && s.stamps == map[]
  {
    s0 := Blank(0, Uploaded);
    steps := ToSettled();
    s := Settled();
    TornVersion(s);
    TornIsFresh(s);
    assert Inputs(s, 0)[Order] == 16;
  }

  // ----- a receipt the job was added for fails, and the next add is dropped

  /** The receipt is parsed before order and invoice, so the version is the invoice's stamp. */
  function ReceiptFirst(): State {
    Blank(5, Uploaded).(
      invoices := [Doc(Pending, 1, false, None, 0)], receipts := [Parsed(4, 5)],
      owed := {Receipt(0)}, log := [Change(Receipt(0), 4)])
  }

  lemma {:induction false} ToReceiptFirst() returns (steps: seq<Step>)
    ensures Trace(Blank(0, Uploaded), steps, ReceiptFirst())
  {
    var s0, d := Blank(0, Uploaded), Receipt(0);
    var s1 := UploadInvoice(s0, false);
    var s2 := UploadReceipt(s1, false);
    var s3 := Begin(s2, d, Processing);
    var s4 := Stamp(s3, d);
    Then(s0, [], s0, DoUploadInvoice(false));
    steps := [] + [DoUploadInvoice(false)];
    Then(s0, steps, s1, DoUploadReceipt(false));
    steps := steps + [DoUploadReceipt(false)];
    Then(s0, steps, s2, DoBegin(d, Processing));
    steps := steps + [DoBegin(d, Processing)];
    Then(s0, steps, s3, DoStamp(d));
    steps := steps + [DoStamp(d)];
    Then(s0, steps, s4, DoCommit(d));
    steps := steps + [DoCommit(d)];
    assert Commit(s4, d) == ReceiptFirst();
  }

  /** One document begins, is stamped and is committed. */
  function Parse(s: State, d: DocId): State
    requires Valid(s, d) && d !in s.stamps
  {
    var t := s.now;
    Set(s, d, Get(s, d).(status := Done, updatedAt := t + 2, committedAt := t + 3)).(
      now := t + 3, owed := s.owed + {d}, log := s.log + [Change(d, t + 2)])
  }

  lemma {:induction false} ThenParse(s: State, steps: seq<Step>, mid: State, d: DocId) returns (longer: seq<Step>)
    requires Trace(s, steps, mid) && Valid(mid, d) && d !in mid.stamps
    ensures Trace(s, longer, Parse(mid, d))
  {
    ParseSteps(mid, d);
    var s1 := Begin(mid, d, Processing);
    var s2 := Stamp(s1, d);
    Then(s, steps, mid, DoBegin(d, Processing));
    longer := steps + [DoBegin(d, Processing)];
    Then(s, longer, s1, DoStamp(d));
    longer := longer + [DoStamp(d)];
    Then(s, longer, s2, DoCommit(d));
    longer := longer + [DoCommit(d)];
  }

  lemma {:induction false} ParseSteps(s: State, d: DocId)
    requires Valid(s, d) && d !in s.stamps
    ensures CanBegin(s, d, Processing) && CanStamp(Begin(s, d, Processing), d)
    ensures CanCommit(Stamp(Begin(s, d, Processing), d), d)
    ensures Commit(Stamp(Begin(s, d, Processing), d), d) == Parse(s, d)
  {
    assert Stamp(Begin(s, d, Processing), d).stamps - {d} == s.stamps;
  }

  function AllParsed(): State { Parse(Parse(ReceiptFirst(), Order), Invoice(0)) }

  lemma {:induction false} ToAllParsed() returns (steps: seq<Step>)
    ensures Trace(Blank(0, Uploaded), steps, AllParsed())
  {
    steps := ToReceiptFirst();
    steps := ThenParse(Blank(0, Uploaded), steps, ReceiptFirst(), Order);
    steps := ThenParse(Blank(0, Uploaded), steps, Parse(ReceiptFirst(), Order), Invoice(0));
  }

  function AllThree(): map<DocId, nat> { map[Order := 8, Invoice(0) := 11, Receipt(0) := 5] }

  function Added(): Job { Job(Waiting, 1, 12, AllThree()) }

  function Asking(): State { AllParsed().(now := 12, owed := {Receipt(0), Order}, jobs := map[Auto(0, 10) := Added()]) }

  lemma {:induction false} AllParsedVersion(s: State)
    requires s.order == Parsed(7, 8) && s.invoices == [Parsed(10, 11)]
    requires s.receipts == [Parsed(4, 5)] || s.receipts == [Doc(Failed, 16, false, None, 5)]
    ensures Version(s, 0) == 10 && Comparable(s, 0)
    ensures PairsFor(s, Invoice(0)) == [Pair(0, 10)]
  {
    assert s.receipts[..0] == [];
  }

  lemma {:induction false} AllInputs(s: State)
    requires s.order == Parsed(7, 8) && s.invoices == [Parsed(10, 11)] && s.receipts == [Parsed(4, 5)]
    ensures Accepts(s, 0) && Inputs(s, 0) == AllThree()
  {
  }

  lemma {:induction false} AsksAll()
    ensures Valid(AllParsed(), Invoice(0)) && Enqueue(AllParsed(), Invoice(0)) == Asking()
  {
    var s0, d := AllParsed(), Invoice(0);
    AllParsedVersion(s0);
    AllInputs(s0.(now := 12));
    OneJob(s0.(now := 12), Pair(0, 10), 12);
    assert Deferrals(s0, d) == {} && s0.owed - {d} == {Receipt(0), Order};
  }

  lemma {:induction false} ToAsking() returns (steps: seq<Step>)
    ensures Trace(Blank(0, Uploaded), steps, Asking())
  {
    steps := ToAllParsed();
    AsksAll();
    Then(Blank(0, Uploaded), steps, AllParsed(), DoEnqueue(Invoice(0)));
    steps := steps + [DoEnqueue(Invoice(0))];
  }

  /** The job has read all three documents. */
  function Reading(): State {
    Asking().(now := 14, jobs := map[Auto(0, 10) := Added().(stage := HasRead(0, AllThree(), 14, 10))])
  }

  lemma {:induction false} LastOfThree(log: seq<Change>)
    requires log == [Change(Receipt(0), 4), Change(Order, 7), Change(Invoice(0), 10)]
    ensures LastChange(log, 0) == 10
  {
    assert log[..2][..1] == [Change(Receipt(0), 4)] && log[..2] == [Change(Receipt(0), 4), Change(Order, 7)];
    assert LastChange(log[..2], 0) == 7;
  }

  /** The job has started, but not read. */
  function Started(): State {
    Asking().(now := 13, jobs := map[Auto(0, 10) := Added().(stage := Checked(0))])
  }

  lemma {:induction false} StartsAll()
    ensures CanStart(Asking(), Auto(0, 10)) && Start(Asking(), Auto(0, 10)) == Started()
  {
  }

  lemma {:induction false} ReadsAll()
    ensures CanRead(Started(), Auto(0, 10)) && Read(Started(), Auto(0, 10)) == Reading()
  {
    AllInputs(Started());
    LastOfThree(Started().log);
  }

  lemma {:induction false} ToReading() returns (steps: seq<Step>)
    ensures Trace(Blank(0, Uploaded), steps, Reading())
  {
    steps := ToAsking();
    var j := Auto(0, 10);
    StartsAll();
    ReadsAll();
    Then(Blank(0, Uploaded), steps, Asking(), DoStart(j));
    steps := steps + [DoStart(j)];
    Then(Blank(0, Uploaded), steps, Started(), DoRead(j));
    steps := steps + [DoRead(j)];
  }

  function Dropping(): State { Reading().(now := 16, receipts := [Doc(Failed, 16, false, None, 5)]) }

  lemma {:induction false} ToDropping() returns (steps: seq<Step>)
    ensures Trace(Blank(0, Uploaded), steps, Dropping())
  {
    steps := ToReading();
    var s0 := Blank(0, Uploaded);
    var s1 := Begin(Reading(), Receipt(0), Processing);
    Then(s0, steps, Reading(), DoBegin(Receipt(0), Processing));
    steps := steps + [DoBegin(Receipt(0), Processing)];
    Then(s0, steps, s1, DoFail(Receipt(0)));
    steps := steps + [DoFail(Receipt(0))];
    assert Fail(s1, Receipt(0)) == Dropping();
  }

  /**
   * A receipt that a running job has read is parsed again and fails. The version
   * stays the invoice's, so the next `add` is dropped, and the job goes on with
   * an input that is gone.
   */
  lemma {:induction false} DroppedAddHides() returns (s0: State, steps: seq<Step>, s: State, j: JobId)
    ensures Initial(s0) && Trace(s0, steps, s) && Comparable(s, 0)
    ensures j == Auto(0, Version(s, 0)) && j in s.jobs && s.jobs[j].stage.HasRead?
    ensures s.jobs[j].inputs != Inputs(s, 0) && s.jobs[j].stage.read != Inputs(s, 0)
    ensures Enqueue(s, Invoice(0)).jobs == s.jobs
  {
    s0, s, j := Blank(0, Uploaded), Dropping(), Auto(0, 10);
    steps := ToDropping();
    AllParsedVersion(s);
    assert Receipt(0) !in Inputs(s, 0);
    OneJob(s.(now := 17), Pair(0, 10), 17);
  }

  /** And where it succeeds, the pair is fresh on that reading, with no job left to correct it. */
  lemma {:induction false} DroppedAddEndsFresh(s: State)
    requires s == Enqueue(Dropping(), Invoice(0))
    ensures CanOpen(s, Auto(0, 10)) && CanSucceed(OpenRow(s, Auto(0, 10)), Auto(0, 10))
    ensures var last := Succeed(OpenRow(s, Auto(0, 10)), Auto(0, 10));
      UpToDate(last, 0) && Latest(last, 0, 0) && last.runs[0].read != Inputs(last, 0) && last.jobs == map[]
  {
    var last := Succeed(OpenRow(s, Auto(0, 10)), Auto(0, 10));
    AllParsedVersion(Dropping());
    OneJob(Dropping().(now := 17), Pair(0, 10), 17);
    AllParsedVersion(last);
    assert last.runs[0].startedAt == 18 && last.runs[..0] == [];
    assert Receipt(0) !in Inputs(last, 0);
  }
}
