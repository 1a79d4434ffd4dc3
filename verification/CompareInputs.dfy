/**
 * What a job id and a run say about the inputs: an `add` dropped as a duplicate
 * hides a changed input exactly when a receipt the job was added for has failed
 * since, and a run read what is current exactly when nothing it read has gone
 * and nothing was committed after its reads.
 */
module CompareInputs {
  import opened Wrappers
  import opened CompareModel
  import opened CompareSafety

  // ----- jobs

  /** Inputs not newer than the job are the ones it recorded; no older write is under way. */
  ghost predicate RecordOk(s: State, k: nat, created: nat, inputs: map<DocId, nat>) {
    && (forall d :: Valid(s, d) && Feeds(d, k) && Get(s, d).status.Done? && Get(s, d).updatedAt <= created ==>
          d in inputs && inputs[d] == Get(s, d).committedAt)
    && (forall d :: d in inputs ==> Valid(s, d) && Feeds(d, k))
    && (forall d :: d in s.stamps && Feeds(d, k) ==> s.stamps[d] > created)
  }

  ghost predicate JobRecordsOk(s: State) {
    forall j :: j in s.jobs && j.Auto? ==> RecordOk(s, j.k, s.jobs[j].created, s.jobs[j].inputs)
  }

  // ----- runs

  /** Documents unchanged since the reads are the ones that were read. */
  ghost predicate ReadOk(s: State, k: nat, read: map<DocId, nat>, readAt: nat) {
    && readAt <= s.now
    && (forall d :: Valid(s, d) && Feeds(d, k) && Get(s, d).status.Done? && Get(s, d).committedAt <= readAt ==>
          d in read && read[d] == Get(s, d).committedAt)
    && (forall d :: d in read ==> Valid(s, d) && Feeds(d, k) && read[d] <= readAt)
  }

  ghost predicate ReadsOk(s: State) {
    && (forall i :: 0 <= i < |s.runs| ==> ReadOk(s, s.runs[i].k, s.runs[i].read, s.runs[i].readAt))
    && (forall j :: j in s.jobs && s.jobs[j].stage.HasRead? ==>
          ReadOk(s, j.k, s.jobs[j].stage.read, s.jobs[j].stage.readAt))
  }

  ghost predicate Known(s: State) { Basics(s) && JobRecordsOk(s) && ReadsOk(s) }

  // ----- both survive a change of one document

  /** The changed document is no longer done, or carries a stamp and commit newer than every record. */
  ghost predicate NewWrite(s: State, r: State, d: DocId)
    requires DocMove(s, r, d)
  {
    Get(r, d).status.Done? ==> Get(r, d).committedAt == r.now && d in s.stamps && Get(r, d).updatedAt == s.stamps[d]
  }

  lemma {:induction false} RecordKept(s: State, r: State, d: DocId, k: nat, created: nat, inputs: map<DocId, nat>)
    requires DocMove(s, r, d) && NewWrite(s, r, d) && RecordOk(s, k, created, inputs) && created <= s.now
    ensures RecordOk(r, k, created, inputs)
  {
  }

  lemma {:induction false} ReadKept(s: State, r: State, d: DocId, k: nat, read: map<DocId, nat>, readAt: nat)
    requires DocMove(s, r, d) && NewWrite(s, r, d) && ReadOk(s, k, read, readAt)
    ensures ReadOk(r, k, read, readAt)
  {
  }

  lemma {:induction false} DocMoveKnown(s: State, r: State, d: DocId)
    requires Known(s) && Basics(r) && DocMove(s, r, d) && NewWrite(s, r, d)
    ensures Known(r)
  {
    forall j | j in r.jobs && j.Auto? ensures RecordOk(r, j.k, r.jobs[j].created, r.jobs[j].inputs) {
      assert JobOk(s, j, s.jobs[j]);
      RecordKept(s, r, d, j.k, s.jobs[j].created, s.jobs[j].inputs);
    }
    forall i | 0 <= i < |r.runs| ensures ReadOk(r, r.runs[i].k, r.runs[i].read, r.runs[i].readAt) {
      ReadKept(s, r, d, s.runs[i].k, s.runs[i].read, s.runs[i].readAt);
    }
    forall j | j in r.jobs && r.jobs[j].stage.HasRead?
      ensures ReadOk(r, j.k, r.jobs[j].stage.read, r.jobs[j].stage.readAt)
    {
      ReadKept(s, r, d, j.k, s.jobs[j].stage.read, s.jobs[j].stage.readAt);
    }
  }

  /** Steps that leave documents and writes alone leave the records good. */
  lemma {:induction false} RecordSame(s: State, r: State, k: nat, created: nat, inputs: map<DocId, nat>)
    requires SameDocs(s, r) && r.stamps == s.stamps
    requires RecordOk(s, k, created, inputs)
    ensures RecordOk(r, k, created, inputs)
  {
    assert forall d :: Valid(r, d) <==> Valid(s, d);
    assert forall d :: Valid(s, d) ==> Get(r, d) == Get(s, d);
  }

  lemma {:induction false} ReadSame(s: State, r: State, k: nat, read: map<DocId, nat>, readAt: nat)
    requires SameDocs(s, r) && s.now <= r.now && ReadOk(s, k, read, readAt)
    ensures ReadOk(r, k, read, readAt)
  {
    assert forall d :: Valid(r, d) <==> Valid(s, d);
    assert forall d :: Valid(s, d) ==> Get(r, d) == Get(s, d);
  }

  /** What `compare` reads at one instant is a good read of that instant. */
  lemma {:induction false} FreshRead(s: State, k: nat)
    requires Basics(s) && k < |s.invoices|
    ensures ReadOk(s, k, Inputs(s, k), s.now)
  {
  }

  /** The run holds what the job has read. */
  ghost predicate RunFrom(s: State, j: JobId, run: Run) {
    && j in s.jobs && s.jobs[j].stage.HasRead? && run.k == j.k
    && run.read == s.jobs[j].stage.read && run.readAt == s.jobs[j].stage.readAt
  }

  /** The reads a step's runs and jobs hold come from before, or are made now. */
  ghost predicate ReadsFrom(s: State, r: State) {
    && (forall i :: |s.runs| <= i < |r.runs| ==> exists j :: RunFrom(s, j, r.runs[i]))
    && (forall j :: j in r.jobs && r.jobs[j].stage.HasRead? ==>
          || (j in s.jobs && s.jobs[j].stage == r.jobs[j].stage)
          || (j.k < |s.invoices| && r.jobs[j].stage.read == Inputs(s, j.k) && r.jobs[j].stage.readAt == r.now))
  }

  lemma {:induction false} JobStepReads(s: State, step: Step)
    requires Basics(s) && Enabled(s, step) && JobStep(step) && !step.DoOpen? && !step.DoRead?
    ensures ReadsFrom(s, Apply(s, step))
  {
    match step
    case DoStart(j) =>
    case DoFailJob(j, closeRun) =>
    case _ =>
  }

  lemma {:induction false} ReadReads(s: State, j: JobId)
    requires Basics(s) && CanRead(s, j)
    ensures ReadsFrom(s, Read(s, j))
  {
  }

  lemma {:induction false} OpenReads(s: State, j: JobId)
    requires Basics(s) && CanOpen(s, j)
    ensures ReadsFrom(s, OpenRow(s, j))
  {
    var r := OpenRow(s, j);
    assert RunFrom(s, j, r.runs[|s.runs|]);
  }

  lemma {:induction false} JobMoveKnown(s: State, r: State)
    requires Known(s) && Basics(r) && JobMove(s, r) && ReadsFrom(s, r)
    ensures Known(r)
  {
    forall j | j in r.jobs && j.Auto? ensures RecordOk(r, j.k, r.jobs[j].created, r.jobs[j].inputs) {
      RecordSame(s, r, j.k, s.jobs[j].created, s.jobs[j].inputs);
    }
    JobMoveReads(s, r);
  }

  lemma {:induction false} NewRunRead(s: State, r: State, run: Run)
    requires ReadsOk(s) && JobMove(s, r) && exists j :: RunFrom(s, j, run)
    ensures ReadOk(r, run.k, run.read, run.readAt)
  {
    var j :| RunFrom(s, j, run);
    ReadSame(s, r, j.k, s.jobs[j].stage.read, s.jobs[j].stage.readAt);
  }

  lemma {:induction false} JobMoveReads(s: State, r: State)
    requires Basics(s) && ReadsOk(s) && Basics(r) && JobMove(s, r) && ReadsFrom(s, r)
    ensures ReadsOk(r)
  {
    forall i | 0 <= i < |r.runs| ensures ReadOk(r, r.runs[i].k, r.runs[i].read, r.runs[i].readAt) {
      if i < |s.runs| { ReadSame(s, r, s.runs[i].k, s.runs[i].read, s.runs[i].readAt); }
      else { NewRunRead(s, r, r.runs[i]); }
    }
    forall j | j in r.jobs && r.jobs[j].stage.HasRead?
      ensures ReadOk(r, j.k, r.jobs[j].stage.read, r.jobs[j].stage.readAt)
    {
      if j in s.jobs && s.jobs[j].stage == r.jobs[j].stage {
        ReadSame(s, r, j.k, s.jobs[j].stage.read, s.jobs[j].stage.readAt);
      } else {
        SameInputs(s, r, j.k);
        FreshRead(r, j.k);
      }
    }
  }

  /** A job added now records the inputs of a comparable pair, on which no write is under way. */
  lemma {:induction false} FreshRecord(s: State, k: nat)
    requires Basics(s) && Comparable(s, k)
    ensures RecordOk(s, k, s.now + 1, Inputs(s, k))
  {
    forall d | d in s.stamps ensures !Feeds(d, k) {
      assert StampOk(s, d, s.stamps[d]);
      if d.Receipt? { assert Unsettled(s.receipts[d.i]); }
    }
  }

  lemma {:induction false} EnqueueKnown(s: State, r: State, d: DocId)
    requires Known(s) && Enqueues(s, r, d)
    ensures Known(r)
  {
    EnqueueBasics(s, r, d);
    forall j | j in r.jobs && j.Auto? ensures RecordOk(r, j.k, r.jobs[j].created, r.jobs[j].inputs) {
      if j !in s.jobs {
        assert NewJob(s, r, d, j);
        FreshRecord(s, j.k);
      }
      RecordSame(s, r, j.k, r.jobs[j].created, r.jobs[j].inputs);
    }
    forall i | 0 <= i < |r.runs| ensures ReadOk(r, r.runs[i].k, r.runs[i].read, r.runs[i].readAt) {
      ReadSame(s, r, s.runs[i].k, s.runs[i].read, s.runs[i].readAt);
    }
    forall j | j in r.jobs && r.jobs[j].stage.HasRead?
      ensures ReadOk(r, j.k, r.jobs[j].stage.read, r.jobs[j].stage.readAt)
    {
      ReadSame(s, r, j.k, s.jobs[j].stage.read, s.jobs[j].stage.readAt);
    }
  }

  lemma {:induction false} StampKnown(s: State, d: DocId)
    requires Known(s) && CanStamp(s, d)
    ensures Known(Stamp(s, d))
  {
    var r := Stamp(s, d);
    StampBasics(s, d);
    assert forall x :: Valid(r, x) <==> Valid(s, x);
    forall j | j in r.jobs && j.Auto? ensures RecordOk(r, j.k, r.jobs[j].created, r.jobs[j].inputs) {
      assert JobOk(s, j, s.jobs[j]);
      assert RecordOk(s, j.k, s.jobs[j].created, s.jobs[j].inputs);
    }
    forall i | 0 <= i < |r.runs| ensures ReadOk(r, r.runs[i].k, r.runs[i].read, r.runs[i].readAt) {
      ReadSame(s, r, s.runs[i].k, s.runs[i].read, s.runs[i].readAt);
    }
    forall j | j in r.jobs && r.jobs[j].stage.HasRead?
      ensures ReadOk(r, j.k, r.jobs[j].stage.read, r.jobs[j].stage.readAt)
    {
      ReadSame(s, r, j.k, s.jobs[j].stage.read, s.jobs[j].stage.readAt);
    }
  }

  lemma {:induction false} DocStepKnown(s: State, step: Step)
    requires Known(s) && Enabled(s, step) && (DocStep(step) || step.DoCommit?)
    ensures Known(Apply(s, step))
  {
    StepBasics(s, step);
    if DocStep(step) {
      DocStepMoves(s, step);
      DocMoveKnown(s, Apply(s, step), DocOf(s, step));
    } else {
      CommitMove(s, step.d);
      DocMoveKnown(s, Commit(s, step.d), step.d);
    }
  }

  lemma {:induction false} JobStepKnown(s: State, step: Step)
    requires Known(s) && Enabled(s, step) && JobStep(step)
    ensures Known(Apply(s, step))
  {
    JobStepMoves(s, step);
    JobMoveBasics(s, Apply(s, step));
    if step.DoRead? { ReadReads(s, step.j); }
    else if step.DoOpen? { OpenReads(s, step.j); }
    else { JobStepReads(s, step); }
    JobMoveKnown(s, Apply(s, step));
  }

  lemma {:induction false} StepKnown(s: State, step: Step)
    requires Known(s) && Enabled(s, step)
    ensures Known(Apply(s, step))
  {
    if JobStep(step) { JobStepKnown(s, step); }
    else if step.DoStamp? { StampKnown(s, step.d); }
    else if step.DoEnqueue? { EnqueueShape(s, step.d); EnqueueKnown(s, Apply(s, step), step.d); }
    else { DocStepKnown(s, step); }
  }

  lemma {:induction false} KnownAlong(s: State, steps: seq<Step>, last: State)
    requires Known(s) && Trace(s, steps, last)
    ensures Known(last)
    decreases |steps|
  {
    if steps != [] {
      StepKnown(s, steps[0]);
      KnownAlong(Apply(s, steps[0]), steps[1..], last);
    }
  }

  lemma {:induction false} KnownInitially(s: State)
    requires Initial(s)
    ensures Known(s)
  {
    assert forall d :: Valid(s, d) ==> d == Order;
  }

  // ----- what follows on every run of the system

  /**
   * An `add` the queue drops because it holds the id: the job was added for
   * the inputs of now exactly when no receipt it was added for has failed.
   */
  lemma {:induction false} DroppedAddExactly(s0: State, steps: seq<Step>, s: State, k: nat)
    requires Initial(s0) && Trace(s0, steps, s) && Comparable(s, k)
    requires Auto(k, Version(s, k)) in s.jobs
    ensures var inputs := s.jobs[Auto(k, Version(s, k))].inputs;
      inputs == Inputs(s, k) <==> forall d :: d in inputs && Valid(s, d) ==> !Get(s, d).status.Failed?
  {
    KnownInitially(s0);
    KnownAlong(s0, steps, s);
    var j := Auto(k, Version(s, k));
    assert JobOk(s, j, s.jobs[j]) && RecordOk(s, k, s.jobs[j].created, s.jobs[j].inputs);
    RecordIsInputs(s, k, s.jobs[j].created, s.jobs[j].inputs);
  }

  lemma {:induction false} RecordIsInputs(s: State, k: nat, created: nat, inputs: map<DocId, nat>)
    requires Comparable(s, k) && Version(s, k) <= created && RecordOk(s, k, created, inputs)
    ensures inputs == Inputs(s, k) <==> forall d :: d in inputs && Valid(s, d) ==> !Get(s, d).status.Failed?
  {
    forall d | d in Inputs(s, k) ensures d in inputs && inputs[d] == Inputs(s, k)[d] && !Get(s, d).status.Failed? {
      assert Feeds(d, k);
      assert Get(s, d).updatedAt <= Version(s, k);
    }
    forall d | d in inputs ensures d in Inputs(s, k) <==> !Get(s, d).status.Failed? {
      if d.Receipt? { assert !Unsettled(s.receipts[d.i]); }
    }
  }

  /** The run the freshness check looks at: the succeeded run of the pair that started last. */
  ghost predicate Latest(s: State, k: nat, i: nat) {
    && i < |s.runs| && s.runs[i].k == k && s.runs[i].outcome.Succeeded?
    && LatestStart(s.runs, k) == Some(s.runs[i].startedAt)
  }

  /** Every input in place was committed before the run's reads. */
  ghost predicate ReadLast(s: State, run: Run) {
    forall d :: d in Inputs(s, run.k) && Valid(s, d) ==> Get(s, d).committedAt <= run.readAt
  }

  /** Every document the run read is still parsed. */
  ghost predicate StillParsed(s: State, run: Run) {
    forall d :: d in run.read && Valid(s, d) ==> Get(s, d).status.Done?
  }

  /**
   * Any run of a pair, the one a freshness answer rests on among them: it read
   * the current version of every input, and nothing else, exactly when no
   * input was committed after its reads and none of what it read has gone.
   */
  lemma {:induction false} ReadIsCurrentExactly(s0: State, steps: seq<Step>, s: State, i: nat)
    requires Initial(s0) && Trace(s0, steps, s) && i < |s.runs|
    ensures s.runs[i].read == Inputs(s, s.runs[i].k) <==> ReadLast(s, s.runs[i]) && StillParsed(s, s.runs[i])
  {
    KnownInitially(s0);
    KnownAlong(s0, steps, s);
    var run := s.runs[i];
    assert ReadOk(s, run.k, run.read, run.readAt);
    if ReadLast(s, run) && StillParsed(s, run) { ReadIsInputs(s, run); }
  }

  lemma {:induction false} ReadIsInputs(s: State, run: Run)
    requires ReadOk(s, run.k, run.read, run.readAt) && ReadLast(s, run) && StillParsed(s, run)
    ensures run.read == Inputs(s, run.k)
  {
    forall d | d in Inputs(s, run.k) ensures d in run.read && run.read[d] == Inputs(s, run.k)[d] {
      assert Feeds(d, run.k);
    }
  }
}
