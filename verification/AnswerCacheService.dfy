/** The cache service itself: its Redis keys and cache rows, one call at a time. */
module AnswerCacheService {
  import opened Wrappers
  import opened JsText

  datatype Answer = Answer(text: string, sources: seq<string>)

  /** `chat:ans:{workspace}:{version}:{hash of the normalised question}`; hashes do not collide. */
  datatype ExactKey = ExactKey(version: nat, question: string)

  datatype CacheRow = CacheRow(version: nat, vector: nat, answer: Answer, createdAt: int)

  const HOUR_MS := 60 * 60 * 1000

  /** Runs of white space as one blank. */
  function Collapse(s: string): string {
    if s == "" then ""
    else if !IsSpace(s[0]) then [s[0]] + Collapse(s[1..])
    else if |s| > 1 && IsSpace(s[1]) then Collapse(s[1..])
    else " " + Collapse(s[1..])
  }

  function Normalize(message: string): string { Collapse(Lower(Trim(message))) }

  predicate Alive(row: CacheRow, now: int, ttlHours: nat) { row.createdAt > now - ttlHours * HOUR_MS }

  function Unexpired(rows: seq<CacheRow>, now: int, ttlHours: nat): (r: seq<CacheRow>)
    ensures forall row :: row in r <==> row in rows && Alive(row, now, ttlHours)
  {
    if rows == [] then []
    else if Alive(rows[0], now, ttlHours) then [rows[0]] + Unexpired(rows[1..], now, ttlHours)
    else Unexpired(rows[1..], now, ttlHours)
  }

  /** Similarity of two question vectors. */
  type Score = (nat, nat) -> real

  predicate Candidate(row: CacheRow, version: nat, now: int, ttlHours: nat) {
    row.version == version && Alive(row, now, ttlHours)
  }

  /** The candidate nearest to the vector. */
  function Nearest(
    rows: seq<CacheRow>, version: nat, vector: nat, now: int, ttlHours: nat, score: Score): (r: Option<CacheRow>)
    ensures r.None? <==> forall row :: row in rows ==> !Candidate(row, version, now, ttlHours)
    ensures r.Some? ==> r.value in rows && Candidate(r.value, version, now, ttlHours)
    ensures r.Some? ==> forall row :: row in rows && Candidate(row, version, now, ttlHours) ==>
      score(row.vector, vector) <= score(r.value.vector, vector)
  {
    if rows == [] then None
    else
      var rest := Nearest(rows[1..], version, vector, now, ttlHours, score);
      if !Candidate(rows[0], version, now, ttlHours) then rest
      else if rest.Some? && score(rest.value.vector, vector) > score(rows[0].vector, vector) then rest
      else Some(rows[0])
  }

  class CacheService {
    const ttlHours: nat
    const threshold: real
    const score: Score
    var counter: Option<nat>
    var answers: map<ExactKey, Answer>
    var rows: seq<CacheRow>

    constructor (ttlHours: nat, threshold: real, score: Score)
      ensures this.ttlHours == ttlHours && this.threshold == threshold && this.score == score
      ensures counter.None? && answers == map[] && rows == [] && Valid()
    {
      this.ttlHours, this.threshold, this.score := ttlHours, threshold, score;
      counter, answers, rows := None, map[], [];
    }

    /** The version a reader works with; 0 is not a version. */
    function Version(): nat
      reads this
    {
      if counter.Some? && counter.value > 0 then counter.value else 1
    }

    /** Nothing is filed under a version still to come, nor before there is a counter. */
    ghost predicate Valid()
      reads this
    {
      && (counter.Some? ==> counter.value > 0)
      && (forall key :: key in answers ==> counter.Some? && key.version <= counter.value)
      && (forall row :: row in rows ==> counter.Some? && row.version <= counter.value)
    }

    method GetVersion() returns (version: nat)
      modifies this`counter
      ensures version == old(Version()) == Version()
      ensures counter == if old(counter).None? then Some(1) else old(counter)
      ensures old(Valid()) ==> Valid()
    {
      if counter.None? {
        counter := Some(1);
        return 1;
      }
      version := if counter.value > 0 then counter.value else 1;
    }

    /** Hides everything filed so far, also when it creates the counter. */
    method BumpVersion()
      requires Valid()
      modifies this`counter
      ensures Valid()
      ensures forall key :: key in answers ==> key.version < Version()
      ensures forall row :: row in rows ==> row.version < Version()
      ensures counter == Some(if old(counter).Some? then old(counter).value + 1 else 1)
    {
      counter := Some(if counter.Some? then counter.value + 1 else 1);
    }

    method GetExact(message: string) returns (hit: Option<Answer>)
      modifies this`counter
      ensures Version() == old(Version())
      ensures hit.Some? <==> ExactKey(Version(), Normalize(message)) in answers
      ensures hit.Some? ==> hit.value == answers[ExactKey(Version(), Normalize(message))]
    {
      var version := GetVersion();
      var key := ExactKey(version, Normalize(message));
      hit := if key in answers then Some(answers[key]) else None;
    }

    method SetExact(message: string, answer: Answer)
      modifies this`counter, this`answers
      ensures Version() == old(Version())
      ensures answers == old(answers)[ExactKey(Version(), Normalize(message)) := answer]
      ensures old(Valid()) ==> Valid()
    {
      var version := GetVersion();
      answers := answers[ExactKey(version, Normalize(message)) := answer];
    }

    predicate NearEnough(row: CacheRow, vector: nat, now: int)
      reads this
    {
      Candidate(row, Version(), now, ttlHours) && score(row.vector, vector) >= threshold
    }

    /** Near enough, and no candidate nearer. */
    ghost predicate Best(row: CacheRow, vector: nat, now: int)
      reads this
    {
      && row in rows && NearEnough(row, vector, now)
      && forall x :: x in rows && Candidate(x, Version(), now, ttlHours) ==>
           score(x.vector, vector) <= score(row.vector, vector)
    }

    /** A hit is the nearest unexpired row of the current version, if near enough. */
    method GetSemantic(vector: nat, now: int) returns (hit: Option<Answer>)
      modifies this`counter
      ensures Version() == old(Version())
      ensures hit.Some? ==> exists row :: Best(row, vector, now) && row.answer == hit.value
      ensures hit.None? ==> forall row :: row in rows ==> !NearEnough(row, vector, now)
    {
      var version := GetVersion();
      var best := Nearest(rows, version, vector, now, ttlHours, score);
      if best.None? || score(best.value.vector, vector) < threshold { return None; }
      hit := Some(best.value.answer);
    }

    /** Files under the version it is given, not the current one, and drops expired rows. */
    method SaveSemantic(version: nat, vector: nat, answer: Answer, now: int)
      modifies this`rows
      ensures rows == Unexpired(old(rows) + [CacheRow(version, vector, answer, now)], now, ttlHours)
      ensures old(Valid()) && counter.Some? && version <= counter.value ==> Valid()
    {
      rows := rows + [CacheRow(version, vector, answer, now)];
      rows := Unexpired(rows, now, ttlHours);
    }
  }
}
