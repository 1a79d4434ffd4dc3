/**
 * The answer cache of one workspace: a version counter in Redis, answers filed
 * under a version, and the atomic commands of concurrent questions, corpus
 * changes and bumps.
 */
module AnswerCache {
  import opened Wrappers

  /**
   * An answer filed under a version, with the corpus changes it was generated
   * from. `clean`: no change it lacks had been bumped when its version was read.
   */
  datatype Entry = Entry(version: nat, reflects: set<nat>, clean: bool)

  /** A version and an answer bound to it while the answer lacked no bumped change. */
  datatype Tag = Tag(version: nat, reflects: set<nat>)

  /** What a version read is for; `captured` is the version a fresh answer will be saved under. */
  datatype Purpose =
    | ForExact
    | ForSemantic
    | ForCapture
    | ForFile(reflects: set<nat>, captured: Option<nat>)

  /**
   * Where a question stands. `seen` are the changes bumped when GET ran,
   * `settled` those bumped when the version read was over.
   */
  datatype Phase =
    | Missing(purpose: Purpose, seen: set<nat>)
    | Have(purpose: Purpose, version: nat, seen: set<nat>, settled: set<nat>)
    | MissedExact
    | MissedSemantic
    | Generated(version: nat, reflects: set<nat>)
    | HitSemantic(reflects: set<nat>)
    | Filed(version: nat, reflects: set<nat>)

  /** A cache hit: what had been bumped when the request read the version, and what the answer knows. */
  datatype Hit = Hit(seen: set<nat>, reflects: set<nat>, clean: bool)

  datatype State = State(
    key: Option<nat>,
    corpus: set<nat>,
    bumped: set<nat>,
    exact: set<Entry>,
    semantic: set<Entry>,
    requests: map<nat, Phase>,
    hits: set<Hit>,
    tags: set<Tag>)

  datatype Step =
    | Change(c: nat)
    | Bump(c: nat)
    | Get(id: nat, purpose: Purpose)
    | Setnx(id: nat)
    | UseExact(id: nat, e: Entry)
    | MissExact(id: nat)
    | UseSemantic(id: nat, e: Entry)
    | MissSemantic(id: nat)
    | Generate(id: nat)
    | File(id: nat)
    | Save(id: nat)
    | Drop(id: nat)

  /** `answer` looks up exactly, then semantically, then captures the version; filing comes after the answer. */
  predicate CanGet(s: State, id: nat, p: Purpose) {
    match p
    case ForExact => id !in s.requests
    case ForSemantic => id in s.requests && s.requests[id].MissedExact?
    case ForCapture => id in s.requests && s.requests[id].MissedSemantic?
    case ForFile(reflects, captured) =>
      id in s.requests
      && s.requests[id] == if captured.Some? then Generated(captured.value, reflects) else HitSemantic(reflects)
  }

  predicate Holds(s: State, id: nat, p: Purpose) {
    id in s.requests && s.requests[id].Have? && s.requests[id].purpose == p
  }

  predicate Enabled(s: State, step: Step) {
    match step
    case Change(c) => c !in s.corpus
    case Bump(c) => c in s.corpus
    case Get(id, p) => CanGet(s, id, p)
    case Setnx(id) => id in s.requests && s.requests[id].Missing?
    case UseExact(id, e) => Holds(s, id, ForExact) && e in s.exact && e.version == s.requests[id].version
    case MissExact(id) => Holds(s, id, ForExact)
    case UseSemantic(id, e) => Holds(s, id, ForSemantic) && e in s.semantic && e.version == s.requests[id].version
    case MissSemantic(id) => Holds(s, id, ForSemantic)
    case Generate(id) => Holds(s, id, ForCapture)
    case File(id) => id in s.requests && s.requests[id].Have? && s.requests[id].purpose.ForFile?
    case Save(id) => id in s.requests && s.requests[id].Filed?
    case Drop(id) => id in s.requests
  }

  function To(s: State, id: nat, phase: Phase): State { s.(requests := s.requests[id := phase]) }

  /** A version is in hand; filing under it is clean unless a bumped change is missing from the answer. */
  function Obtain(s: State, id: nat, p: Purpose, version: nat, seen: set<nat>): State {
    To(s, id, Have(p, version, seen, s.bumped)).(
      tags := if p.ForFile? && s.bumped <= p.reflects then s.tags + {Tag(version, p.reflects)} else s.tags)
  }

  /** INCR: a missing key counts as 0. */
  function Bumped(s: State, c: nat): State {
    s.(key := Some(if s.key.Some? then s.key.value + 1 else 1), bumped := s.bumped + {c})
  }

  function GetVersion(s: State, id: nat, p: Purpose): State {
    if s.key.Some? then Obtain(s, id, p, s.key.value, s.bumped) else To(s, id, Missing(p, s.bumped))
  }

  /** Sets the key to 1 unless someone else has; the answer is 1 either way. */
  function SetIfMissing(s: State, id: nat): State
    requires id in s.requests && s.requests[id].Missing?
  {
    var phase := s.requests[id];
    Obtain(s.(key := if s.key.None? then Some(1) else s.key), id, phase.purpose, 1, phase.seen)
  }

  function Serve(s: State, id: nat, e: Entry): set<Hit>
    requires id in s.requests && s.requests[id].Have?
  {
    s.hits + {Hit(s.requests[id].seen, e.reflects, e.clean)}
  }

  /** `setExact` under the version just read; a fresh answer is saved semantically next. */
  function FileExact(s: State, id: nat): State
    requires Enabled(s, File(id))
  {
    var phase := s.requests[id];
    var p := phase.purpose;
    var filed := s.(exact := s.exact + {Entry(phase.version, p.reflects, phase.settled <= p.reflects)});
    if p.captured.Some? then To(filed, id, Filed(p.captured.value, p.reflects))
    else filed.(requests := Without(s.requests, id))
  }

  /** The answer is made from the corpus as it is after the captured version was read. */
  function GenerateAnswer(s: State, id: nat): State
    requires Enabled(s, Generate(id))
  {
    var v := s.requests[id].version;
    To(s, id, Generated(v, s.corpus)).(tags := s.tags + {Tag(v, s.corpus)})
  }

  function SaveSemantic(s: State, id: nat): State
    requires Enabled(s, Save(id))
  {
    var phase := s.requests[id];
    s.(semantic := s.semantic + {Entry(phase.version, phase.reflects, true)}, requests := Without(s.requests, id))
  }

  function Apply(s: State, step: Step): State
    requires Enabled(s, step)
  {
    match step
    case Change(c) => s.(corpus := s.corpus + {c})
    case Bump(c) => Bumped(s, c)
    case Get(id, p) => GetVersion(s, id, p)
    case Setnx(id) => SetIfMissing(s, id)
    case UseExact(id, e) => s.(hits := Serve(s, id, e), requests := Without(s.requests, id))
    case MissExact(id) => To(s, id, MissedExact)
    case UseSemantic(id, e) => To(s, id, HitSemantic(e.reflects)).(hits := Serve(s, id, e))
    case MissSemantic(id) => To(s, id, MissedSemantic)
    case Generate(id) => GenerateAnswer(s, id)
    case File(id) => FileExact(s, id)
    case Save(id) => SaveSemantic(s, id)
    case Drop(id) => s.(requests := Without(s.requests, id))
  }

  const Empty := State(None, {}, {}, {}, {}, map[], {}, {})

  predicate Trace(s: State, steps: seq<Step>, last: State)
    decreases |steps|
  {
    if steps == [] then last == s
    else Enabled(s, steps[0]) && Trace(Apply(s, steps[0]), steps[1..], last)
  }

  // ----- what every step keeps

  ghost predicate CounterOk(s: State) {
    (if s.key.Some? then s.key.value >= 1 else s.bumped == {}) && s.bumped <= s.corpus
  }

  /** The counter has reached the tag's version, and has passed it if a change the answer lacks is bumped. */
  ghost predicate TagOk(s: State, t: Tag) {
    s.key.Some? && t.version <= s.key.value && (s.bumped <= t.reflects || t.version < s.key.value)
  }

  ghost predicate TagsOk(s: State) { forall t :: t in s.tags ==> TagOk(s, t) }

  /** Every answer tagged with the version a lookup holds knows what was bumped when the lookup began. */
  ghost predicate LookupOk(s: State, version: nat, seen: set<nat>) {
    forall t :: t in s.tags && t.version == version ==> seen <= t.reflects
  }

  ghost predicate PurposeOk(s: State, p: Purpose) {
    p.ForFile? && p.captured.Some? ==> Tag(p.captured.value, p.reflects) in s.tags
  }

  /** The version is read to file a fresh answer. */
  predicate FilesFresh(p: Purpose) { p.ForFile? && p.captured.Some? }

  ghost predicate PhaseOk(s: State, phase: Phase) {
    match phase
    case Missing(p, seen) => seen == {} && PurposeOk(s, p) && !FilesFresh(p)
    case Have(p, v, seen, settled) =>
      && s.key.Some? && v <= s.key.value && seen <= s.bumped && PurposeOk(s, p)
      && LookupOk(s, v, seen) && (p.ForFile? && settled <= p.reflects ==> Tag(v, p.reflects) in s.tags)
      && (FilesFresh(p) && p.captured == Some(v) ==> settled <= p.reflects)
    case Generated(v, reflects) => Tag(v, reflects) in s.tags
    case Filed(v, reflects) => Tag(v, reflects) in s.tags
    case _ => true
  }

  ghost predicate PhasesOk(s: State) { forall id :: id in s.requests ==> PhaseOk(s, s.requests[id]) }

  ghost predicate EntriesOk(s: State) {
    && (forall e :: e in s.semantic ==> e.clean && Tag(e.version, e.reflects) in s.tags)
    && (forall e :: e in s.exact && e.clean ==> Tag(e.version, e.reflects) in s.tags)
  }

  ghost predicate HitsOk(s: State) { forall h :: h in s.hits && h.clean ==> h.seen <= h.reflects }

  ghost predicate Inv(s: State) { CounterOk(s) && TagsOk(s) && PhasesOk(s) && EntriesOk(s) && HitsOk(s) }

  lemma {:induction false} ChangeKeeps(s: State, c: nat)
    requires Inv(s) && Enabled(s, Change(c))
    ensures Inv(Apply(s, Change(c)))
  {
    var r := Apply(s, Change(c));
    forall t | t in r.tags ensures TagOk(r, t) { assert TagOk(s, t); }
    forall id | id in r.requests ensures PhaseOk(r, r.requests[id]) { assert PhaseOk(s, s.requests[id]); }
  }

  /** A bump leaves behind every version bound so far. */
  lemma {:induction false} BumpKeeps(s: State, c: nat)
    requires Inv(s) && Enabled(s, Bump(c))
    ensures Inv(Bumped(s, c))
  {
    var r := Bumped(s, c);
    forall t | t in r.tags ensures TagOk(r, t) { assert TagOk(s, t); }
    forall id | id in r.requests ensures PhaseOk(r, r.requests[id]) { assert PhaseOk(s, s.requests[id]); }
  }

  /** One more tag, of an answer that knows everything bumped: no lookup is misled. */
  lemma {:induction false} TagAdded(s: State, r: State, t: Tag)
    requires Inv(s) && r.tags == s.tags + {t} && s.bumped <= t.reflects && r.bumped == s.bumped
    requires r.key.Some? && t.version <= r.key.value && (s.key.Some? ==> r.key == s.key)
    ensures TagsOk(r) && forall id :: id in s.requests ==> PhaseOk(r, s.requests[id])
  {
    forall x | x in r.tags ensures TagOk(r, x) { if x in s.tags { assert TagOk(s, x); } }
    forall id | id in s.requests ensures PhaseOk(r, s.requests[id]) { assert PhaseOk(s, s.requests[id]); }
  }

  lemma {:induction false} TagsSame(s: State, r: State)
    requires Inv(s) && r.tags == s.tags && r.bumped == s.bumped && (s.key.Some? ==> r.key == s.key)
    ensures TagsOk(r) && forall id :: id in s.requests ==> PhaseOk(r, s.requests[id])
  {
    forall x | x in r.tags ensures TagOk(r, x) { assert TagOk(s, x); }
    forall id | id in s.requests ensures PhaseOk(r, s.requests[id]) { assert PhaseOk(s, s.requests[id]); }
  }

  /** A version of the counter's present or past, with nothing seen that tags of that version lack. */
  lemma {:induction false} ObtainKeeps(s: State, id: nat, p: Purpose, version: nat, seen: set<nat>)
    requires Inv(s) && s.key.Some? && version <= s.key.value && seen <= s.bumped && PurposeOk(s, p)
    requires (seen == {} && !FilesFresh(p)) || version == s.key.value
    ensures Inv(Obtain(s, id, p, version, seen))
  {
    var r := Obtain(s, id, p, version, seen);
    if FilesFresh(p) { assert TagOk(s, Tag(p.captured.value, p.reflects)); }
    if p.ForFile? && s.bumped <= p.reflects { TagAdded(s, r, Tag(version, p.reflects)); } else { TagsSame(s, r); }
    forall t | t in r.tags && t.version == version ensures seen <= t.reflects { assert TagOk(r, t); }
    forall x | x in r.requests ensures PhaseOk(r, r.requests[x]) {
      if x != id { assert PhaseOk(r, s.requests[x]); }
    }
  }

  lemma {:induction false} GetKeeps(s: State, id: nat, p: Purpose)
    requires Inv(s) && CanGet(s, id, p)
    ensures Inv(GetVersion(s, id, p))
  {
    assert PurposeOk(s, p) by { if id in s.requests { assert PhaseOk(s, s.requests[id]); } }
    if FilesFresh(p) { assert TagOk(s, Tag(p.captured.value, p.reflects)); }
    var r := GetVersion(s, id, p);
    if s.key.Some? { ObtainKeeps(s, id, p, s.key.value, s.bumped); } else { TagsSame(s, r); }
  }

  lemma {:induction false} SetnxKeeps(s: State, id: nat)
    requires Inv(s) && id in s.requests && s.requests[id].Missing?
    ensures Inv(SetIfMissing(s, id))
  {
    var phase, mid := s.requests[id], s.(key := if s.key.None? then Some(1) else s.key);
    assert PhaseOk(s, phase);
    TagsSame(s, mid);
    ObtainKeeps(mid, id, phase.purpose, 1, phase.seen);
  }

  /** A lookup's hit on a clean entry knows everything bumped when the lookup began. */
  lemma {:induction false} HitIsFresh(s: State, id: nat, e: Entry)
    requires Inv(s) && id in s.requests && s.requests[id].Have? && e.version == s.requests[id].version
    requires e in s.semantic || e in s.exact
    ensures e.clean ==> s.requests[id].seen <= e.reflects
  {
    assert PhaseOk(s, s.requests[id]);
  }

  lemma {:induction false} UseKeeps(s: State, step: Step)
    requires Inv(s) && Enabled(s, step) && (step.UseExact? || step.UseSemantic?)
    ensures Inv(Apply(s, step))
  {
    var r := Apply(s, step);
    HitIsFresh(s, step.id, step.e);
    TagsSame(s, r);
  }

  lemma {:induction false} GenerateKeeps(s: State, id: nat)
    requires Inv(s) && Enabled(s, Generate(id))
    ensures Inv(GenerateAnswer(s, id))
  {
    var r := GenerateAnswer(s, id);
    assert PhaseOk(s, s.requests[id]);
    TagAdded(s, r, Tag(s.requests[id].version, s.corpus));
  }

  lemma {:induction false} FileKeeps(s: State, id: nat)
    requires Inv(s) && Enabled(s, File(id))
    ensures Inv(FileExact(s, id))
  {
    assert PhaseOk(s, s.requests[id]);
    TagsSame(s, FileExact(s, id));
  }

  lemma {:induction false} SaveKeeps(s: State, id: nat)
    requires Inv(s) && Enabled(s, Save(id))
    ensures Inv(SaveSemantic(s, id))
  {
    assert PhaseOk(s, s.requests[id]);
    TagsSame(s, SaveSemantic(s, id));
  }

  lemma {:induction false} OthersKeep(s: State, step: Step)
    requires Inv(s) && Enabled(s, step) && (step.MissExact? || step.MissSemantic? || step.Drop?)
    ensures Inv(Apply(s, step))
  {
    TagsSame(s, Apply(s, step));
  }

  lemma {:induction false} StepKeeps(s: State, step: Step)
    requires Inv(s) && Enabled(s, step)
    ensures Inv(Apply(s, step))
  {
    match step
    case Change(c) => ChangeKeeps(s, c);
    case Bump(c) => BumpKeeps(s, c);
    case Get(id, p) => GetKeeps(s, id, p);
    case Setnx(id) => SetnxKeeps(s, id);
    case UseExact(_, _) => UseKeeps(s, step);
    case UseSemantic(_, _) => UseKeeps(s, step);
    case Generate(id) => GenerateKeeps(s, id);
    case File(id) => FileKeeps(s, id);
    case Save(id) => SaveKeeps(s, id);
    case _ => OthersKeep(s, step);
  }

  lemma {:induction false} KeptAlong(s: State, steps: seq<Step>, last: State)
    requires Inv(s) && Trace(s, steps, last)
    ensures Inv(last)
    decreases |steps|
  {
    if steps != [] {
      StepKeeps(s, steps[0]);
      KeptAlong(Apply(s, steps[0]), steps[1..], last);
    }
  }

  /**
   * Under any interleaving, from a counter that does not exist yet: an answer
   * served from the semantic cache reflects every corpus change whose bump was
   * over when the request read the version.
   */
  lemma {:induction false} SemanticHitsAreFresh(steps: seq<Step>, s: State, id: nat, e: Entry)
    requires Trace(Empty, steps, s) && Enabled(s, UseSemantic(id, e))
    ensures s.requests[id].seen <= e.reflects
  {
    KeptAlong(Empty, steps, s);
    HitIsFresh(s, id, e);
  }

  /**
   * For the exact cache the same holds of every answer filed clean: no change
   * it lacks was bumped between generating it and reading the version to file it.
   */
  lemma {:induction false} CleanExactHitsAreFresh(steps: seq<Step>, s: State, id: nat, e: Entry)
    requires Trace(Empty, steps, s) && Enabled(s, UseExact(id, e)) && e.clean
    ensures s.requests[id].seen <= e.reflects
  {
    KeptAlong(Empty, steps, s);
    HitIsFresh(s, id, e);
  }

  /**
   * What a caller could compare: a fresh answer is filed clean whenever the
   * version read to file it is the one captured before it was generated.
   */
  lemma {:induction false} SameVersionFilesClean(steps: seq<Step>, s: State, id: nat)
    requires Trace(Empty, steps, s) && Enabled(s, File(id))
    requires s.requests[id].purpose.captured == Some(s.requests[id].version)
    ensures s.requests[id].settled <= s.requests[id].purpose.reflects
    ensures Entry(s.requests[id].version, s.requests[id].purpose.reflects, true) in FileExact(s, id).exact
  {
    KeptAlong(Empty, steps, s);
    assert PhaseOk(s, s.requests[id]);
  }

  // ----- and of no other

  lemma {:induction false} Then(s: State, steps: seq<Step>, mid: State, step: Step)
    requires Trace(s, steps, mid) && Enabled(mid, step)
    ensures Trace(s, steps + [step], Apply(mid, step))
    decreases |steps|
  {
    if steps == [] {
      assert [step][1..] == [] && steps + [step] == [step];
      assert Trace(Apply(s, step), [], Apply(mid, step));
    } else {
      assert (steps + [step])[1..] == steps[1..] + [step];
      Then(Apply(s, steps[0]), steps[1..], mid, step);
    }
  }

  /**
   * An answer about to be filed unclean: as long as nothing else is bumped, the
   * very next request for the question is served an answer without a change
   * whose bump was over when it read the version.
   */
  lemma {:induction false} UncleanIsServedStale(s: State, id: nat, next: nat) returns (e: Entry)
    requires Enabled(s, File(id)) && next !in s.requests
    requires var h := s.requests[id];
      s.key == Some(h.version) && h.settled == s.bumped && !(s.bumped <= h.purpose.reflects)
    ensures var filed := FileExact(s, id);
      && Enabled(filed, Get(next, ForExact))
      && var looked := GetVersion(filed, next, ForExact);
         Enabled(looked, UseExact(next, e)) && !(looked.requests[next].seen <= e.reflects)
  {
    var h := s.requests[id];
    e := Entry(h.version, h.purpose.reflects, h.settled <= h.purpose.reflects);
  }

  /** Such a filing happens: a change is made and bumped while the answer is being generated. */
  lemma {:induction false} BumpDuringGeneration() returns (steps: seq<Step>, s: State)
    ensures Trace(Empty, steps, s) && Enabled(s, File(0))
    ensures var h := s.requests[0];
      s.key == Some(h.version) && h.settled == s.bumped && !(s.bumped <= h.purpose.reflects)
  {
    var s1 := Asked();
    steps := ToAsked();
    var s2 := GenerateAnswer(s1, 0);
    Then(Empty, steps, s1, Generate(0));
    steps := steps + [Generate(0)];
    var s3 := Apply(s2, Change(7));
    Then(Empty, steps, s2, Change(7));
    steps := steps + [Change(7)];
    var s4 := Bumped(s3, 7);
    Then(Empty, steps, s3, Bump(7));
    steps := steps + [Bump(7)];
    s := GetVersion(s4, 0, ForFile({}, Some(1)));
    Then(Empty, steps, s4, Get(0, ForFile({}, Some(1))));
    steps := steps + [Get(0, ForFile({}, Some(1)))];
  }

  /** A question that found nothing cached and has captured version 1. */
  function Asked(): State { Empty.(key := Some(1), requests := map[0 := Have(ForCapture, 1, {}, {})]) }

  /** The counter is there, and the exact lookup found nothing. */
  function Missed(): State { Empty.(key := Some(1), requests := map[0 := MissedExact]) }

  lemma {:induction false} ToMissed() returns (steps: seq<Step>)
    ensures Trace(Empty, steps, Missed())
  {
    var s1 := GetVersion(Empty, 0, ForExact);
    Then(Empty, [], Empty, Get(0, ForExact));
    var s2 := SetIfMissing(s1, 0);
    Then(Empty, [] + [Get(0, ForExact)], s1, Setnx(0));
    steps := [] + [Get(0, ForExact)] + [Setnx(0)];
    Then(Empty, steps, s2, MissExact(0));
    steps := steps + [MissExact(0)];
    assert Apply(s2, MissExact(0)) == Missed();
  }

  lemma {:induction false} ToAsked() returns (steps: seq<Step>)
    ensures Trace(Empty, steps, Asked())
  {
    steps := ToMissed();
    var s4 := GetVersion(Missed(), 0, ForSemantic);
    Then(Empty, steps, Missed(), Get(0, ForSemantic));
    steps := steps + [Get(0, ForSemantic)];
    var s5 := Apply(s4, MissSemantic(0));
    Then(Empty, steps, s4, MissSemantic(0));
    steps := steps + [MissSemantic(0)];
    Then(Empty, steps, s5, Get(0, ForCapture));
    steps := steps + [Get(0, ForCapture)];
    assert GetVersion(s5, 0, ForCapture) == Asked();
  }
}
