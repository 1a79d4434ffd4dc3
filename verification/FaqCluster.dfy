/**
 * Greedy clustering of tickets, in place and spliced from the back, and the
 * grouping it computes: each ticket under the earliest seed similar to it.
 */
module FaqCluster {

  /** A ticket is named by its position in the input. */
  datatype Ticket = Ticket(embedding: nat)

  /** Cosine similarity at or above the threshold, of a seed and another ticket. */
  type Similar = (nat, nat) -> bool

  // ----- the grouping

  /** No earlier seed is similar to it. */
  predicate IsSeed(ts: seq<Ticket>, sim: Similar, i: nat)
    requires i < |ts|
    decreases i
  {
    forall j :: 0 <= j < i ==> IsSeed(ts, sim, j) ==> !sim(ts[j].embedding, ts[i].embedding)
  }

  predicate Leads(ts: seq<Ticket>, sim: Similar, j: nat, i: nat)
    requires j <= i < |ts|
  {
    IsSeed(ts, sim, j) && (j == i || sim(ts[j].embedding, ts[i].embedding))
  }

  lemma {:induction false} UnledIsSeed(ts: seq<Ticket>, sim: Similar, j: nat, i: nat)
    requires j <= i < |ts| && (forall x :: 0 <= x < j ==> !Leads(ts, sim, x, i)) && !Leads(ts, sim, j, i)
    ensures j < i
  {
    if j == i {
      forall x | 0 <= x < i && IsSeed(ts, sim, x) ensures !sim(ts[x].embedding, ts[i].embedding) {
        assert !Leads(ts, sim, x, i);
      }
    }
  }

  /** The earliest seed, from `j` on, that the ticket is or is similar to. */
  function LeaderFrom(ts: seq<Ticket>, sim: Similar, j: nat, i: nat): (l: nat)
    requires j <= i < |ts| && forall x :: 0 <= x < j ==> !Leads(ts, sim, x, i)
    ensures j <= l <= i && Leads(ts, sim, l, i) && forall x :: 0 <= x < l ==> !Leads(ts, sim, x, i)
    decreases i - j
  {
    if Leads(ts, sim, j, i) then j
    else
      UnledIsSeed(ts, sim, j, i);
      LeaderFrom(ts, sim, j + 1, i)
  }

  function LeaderOf(ts: seq<Ticket>, sim: Similar, i: nat): (l: nat)
    requires i < |ts|
    ensures l <= i && Leads(ts, sim, l, i) && forall x :: 0 <= x < l ==> !Leads(ts, sim, x, i)
  {
    LeaderFrom(ts, sim, 0, i)
  }

  /** The other members of a seed's group among the first `n` tickets, last first. */
  function Followers(ts: seq<Ticket>, sim: Similar, seed: nat, n: nat): seq<nat>
    requires n <= |ts|
  {
    if n == 0 then []
    else if n - 1 != seed && LeaderOf(ts, sim, n - 1) == seed then [n - 1] + Followers(ts, sim, seed, n - 1)
    else Followers(ts, sim, seed, n - 1)
  }

  function Group(ts: seq<Ticket>, sim: Similar, seed: nat): seq<nat> { [seed] + Followers(ts, sim, seed, |ts|) }

  lemma {:induction false} FollowersExactly(ts: seq<Ticket>, sim: Similar, seed: nat, n: nat)
    requires n <= |ts|
    ensures var f := Followers(ts, sim, seed, n);
      && (forall i :: i in f <==> 0 <= i < n && i != seed && LeaderOf(ts, sim, i) == seed)
      && (forall a :: 0 <= a < |f| ==> f[a] < n)
      && (forall a, b :: 0 <= a < b < |f| ==> f[a] > f[b])
  {
    if n > 0 { FollowersExactly(ts, sim, seed, n - 1); }
  }

  /** The groups of the seeds before `n` that have at least the minimum size, in order. */
  function GroupsBefore(ts: seq<Ticket>, sim: Similar, least: int, n: nat): seq<seq<nat>>
    requires n <= |ts|
  {
    if n == 0 then []
    else
      var rest := GroupsBefore(ts, sim, least, n - 1);
      if IsSeed(ts, sim, n - 1) && |Group(ts, sim, n - 1)| >= least then rest + [Group(ts, sim, n - 1)] else rest
  }

  // ----- the loop computes it

  /** The tickets among the first `n` whose leader is `from` or later, in order. */
  function Unled(ts: seq<Ticket>, sim: Similar, from: nat, n: nat): seq<nat>
    requires n <= |ts|
  {
    if n == 0 then []
    else if LeaderOf(ts, sim, n - 1) >= from then Unled(ts, sim, from, n - 1) + [n - 1]
    else Unled(ts, sim, from, n - 1)
  }

  ghost predicate IsUnled(ts: seq<Ticket>, sim: Similar, from: nat, n: nat, u: seq<nat>)
    requires n <= |ts|
  {
    && (forall i :: i in u <==> 0 <= i < n && LeaderOf(ts, sim, i) >= from)
    && (forall a :: 0 <= a < |u| ==> u[a] < n)
    && (forall a, b :: 0 <= a < b < |u| ==> u[a] < u[b])
  }

  lemma {:induction false} OneMoreUnled(ts: seq<Ticket>, sim: Similar, from: nat, n: nat, u: seq<nat>)
    requires n < |ts| && IsUnled(ts, sim, from, n, u)
    ensures IsUnled(ts, sim, from, n + 1, if LeaderOf(ts, sim, n) >= from then u + [n] else u)
  {
  }

  lemma {:induction false} UnledExactly(ts: seq<Ticket>, sim: Similar, from: nat, n: nat, u: seq<nat>)
    requires n <= |ts| && u == Unled(ts, sim, from, n)
    ensures IsUnled(ts, sim, from, n, u)
  {
    if n > 0 {
      var v := Unled(ts, sim, from, n - 1);
      UnledExactly(ts, sim, from, n - 1, v);
      OneMoreUnled(ts, sim, from, n - 1, v);
    }
  }

  lemma {:induction false} AllUnled(ts: seq<Ticket>, sim: Similar, n: nat)
    requires n <= |ts|
    ensures Unled(ts, sim, 0, n) == seq(n, i => i)
  {
    if n > 0 {
      AllUnled(ts, sim, n - 1);
      assert seq(n, i => i) == seq(n - 1, i => i) + [n - 1];
    }
  }

  /** What one pass over the rest removes and keeps. */
  function Kept(ts: seq<Ticket>, sim: Similar, seed: nat, rest: seq<nat>): seq<nat>
    requires seed < |ts| && forall a :: 0 <= a < |rest| ==> rest[a] < |ts|
  {
    if rest == [] then []
    else if sim(ts[seed].embedding, ts[rest[0]].embedding) then Kept(ts, sim, seed, rest[1..])
    else [rest[0]] + Kept(ts, sim, seed, rest[1..])
  }

  function Taken(ts: seq<Ticket>, sim: Similar, seed: nat, rest: seq<nat>): seq<nat>
    requires seed < |ts| && forall a :: 0 <= a < |rest| ==> rest[a] < |ts|
  {
    if rest == [] then []
    else
      Taken(ts, sim, seed, rest[1..]) + if sim(ts[seed].embedding, ts[rest[0]].embedding) then [rest[0]] else []
  }

  /** The first ticket left is the next seed. */
  lemma {:induction false} NextSeed(ts: seq<Ticket>, sim: Similar, from: nat)
    requires from <= |ts| && Unled(ts, sim, from, |ts|) != []
    ensures var s := Unled(ts, sim, from, |ts|)[0];
      from <= s < |ts| && IsSeed(ts, sim, s) && forall x :: from <= x < s ==> !IsSeed(ts, sim, x)
  {
    var u := Unled(ts, sim, from, |ts|);
    UnledExactly(ts, sim, from, |ts|, Unled(ts, sim, from, |ts|));
    assert u[0] in u;
    forall x | from <= x < |ts| && IsSeed(ts, sim, x) ensures u[0] <= x {
      SeedLeadsItself(ts, sim, x);
      var a :| 0 <= a < |u| && u[a] == x;
    }
    var l := LeaderOf(ts, sim, u[0]);
    assert IsSeed(ts, sim, l);
  }

  lemma {:induction false} SeedLeadsItself(ts: seq<Ticket>, sim: Similar, x: nat)
    requires x < |ts| && IsSeed(ts, sim, x)
    ensures LeaderOf(ts, sim, x) == x
  {
    var l := LeaderOf(ts, sim, x);
    assert IsSeed(ts, sim, l);
  }

  /** Of the tickets left after a seed, it leads exactly those similar to it. */
  lemma {:induction false} LedBySeed(ts: seq<Ticket>, sim: Similar, from: nat, s: nat, i: nat)
    requires from <= s < i < |ts| && IsSeed(ts, sim, s) && forall x :: from <= x < s ==> !IsSeed(ts, sim, x)
    requires LeaderOf(ts, sim, i) >= from
    ensures LeaderOf(ts, sim, i) >= s
    ensures LeaderOf(ts, sim, i) == s <==> sim(ts[s].embedding, ts[i].embedding)
  {
    var l := LeaderOf(ts, sim, i);
    assert IsSeed(ts, sim, l);
    assert Leads(ts, sim, s, i) <==> sim(ts[s].embedding, ts[i].embedding);
  }

  lemma {:induction false} KeptSnoc(ts: seq<Ticket>, sim: Similar, seed: nat, rest: seq<nat>, i: nat)
    requires seed < |ts| && i < |ts| && forall a :: 0 <= a < |rest| ==> rest[a] < |ts|
    ensures Kept(ts, sim, seed, rest + [i])
      == Kept(ts, sim, seed, rest) + if sim(ts[seed].embedding, ts[i].embedding) then [] else [i]
  {
    if rest == [] {
      assert rest + [i] == [i] && [i][1..] == [];
    } else {
      assert (rest + [i])[1..] == rest[1..] + [i];
      KeptSnoc(ts, sim, seed, rest[1..], i);
    }
  }

  lemma {:induction false} TakenSnoc(ts: seq<Ticket>, sim: Similar, seed: nat, rest: seq<nat>, i: nat)
    requires seed < |ts| && i < |ts| && forall a :: 0 <= a < |rest| ==> rest[a] < |ts|
    ensures Taken(ts, sim, seed, rest + [i])
      == (if sim(ts[seed].embedding, ts[i].embedding) then [i] else []) + Taken(ts, sim, seed, rest)
  {
    if rest == [] {
      assert rest + [i] == [i] && [i][1..] == [];
    } else {
      assert (rest + [i])[1..] == rest[1..] + [i];
      TakenSnoc(ts, sim, seed, rest[1..], i);
    }
  }

  /** Up to the seed itself there is nobody else left, and nobody led by it or later. */
  lemma {:induction false} UpToSeed(ts: seq<Ticket>, sim: Similar, from: nat, s: nat, n: nat)
    requires from <= s < |ts| && n <= s && forall x :: from <= x < s ==> !IsSeed(ts, sim, x)
    ensures Unled(ts, sim, from, n) == [] && Unled(ts, sim, s + 1, n) == [] && Followers(ts, sim, s, n) == []
  {
    if n > 0 {
      UpToSeed(ts, sim, from, s, n - 1);
      assert IsSeed(ts, sim, LeaderOf(ts, sim, n - 1));
    }
  }

  /** What one pass over the tickets left among the first `n` does. */
  ghost predicate Passes(ts: seq<Ticket>, sim: Similar, from: nat, s: nat, n: nat)
    requires s < n <= |ts|
  {
    var u := Unled(ts, sim, from, n);
    && u != [] && u[0] == s && (forall a :: 0 <= a < |u| ==> u[a] < |ts|)
    && Kept(ts, sim, s, u[1..]) == Unled(ts, sim, s + 1, n)
    && Taken(ts, sim, s, u[1..]) == Followers(ts, sim, s, n)
  }

  lemma {:induction false} PassStep(ts: seq<Ticket>, sim: Similar, from: nat, s: nat, n: nat)
    requires from <= s && s + 1 < n <= |ts| && IsSeed(ts, sim, s) && forall x :: from <= x < s ==> !IsSeed(ts, sim, x)
    requires Passes(ts, sim, from, s, n - 1)
    ensures Passes(ts, sim, from, s, n)
  {
    var u, i := Unled(ts, sim, from, n - 1), n - 1;
    if LeaderOf(ts, sim, i) >= from {
      LedBySeed(ts, sim, from, s, i);
      KeptSnoc(ts, sim, s, u[1..], i);
      TakenSnoc(ts, sim, s, u[1..], i);
      assert (u + [i])[1..] == u[1..] + [i];
    }
  }

  /** One pass leaves the tickets of later leaders and takes the seed's followers. */
  lemma {:induction false} OnePass(ts: seq<Ticket>, sim: Similar, from: nat, s: nat, n: nat)
    requires from <= s < n <= |ts| && IsSeed(ts, sim, s) && forall x :: from <= x < s ==> !IsSeed(ts, sim, x)
    ensures Passes(ts, sim, from, s, n)
    decreases n
  {
    if n == s + 1 {
      UpToSeed(ts, sim, from, s, s);
      SeedLeadsItself(ts, sim, s);
    } else {
      OnePass(ts, sim, from, s, n - 1);
      PassStep(ts, sim, from, s, n);
    }
  }

  /** Positions that are no seeds add no group. */
  lemma {:induction false} NoSeedsNoGroups(ts: seq<Ticket>, sim: Similar, least: int, from: nat, upto: nat)
    requires from <= upto <= |ts| && forall x :: from <= x < upto ==> !IsSeed(ts, sim, x)
    ensures GroupsBefore(ts, sim, least, upto) == GroupsBefore(ts, sim, least, from)
    decreases upto
  {
    if from < upto { NoSeedsNoGroups(ts, sim, least, from, upto - 1); }
  }

  /** What the outer loop needs of its next seed. */
  lemma {:induction false} SeedTurn(ts: seq<Ticket>, sim: Similar, least: int, from: nat, s: nat)
    requires from <= |ts| && Unled(ts, sim, from, |ts|) != [] && s == Unled(ts, sim, from, |ts|)[0]
    ensures from <= s < |ts| && Passes(ts, sim, from, s, |ts|) && IsSeed(ts, sim, s)
    ensures GroupsBefore(ts, sim, least, s) == GroupsBefore(ts, sim, least, from)
  {
    NextSeed(ts, sim, from);
    OnePass(ts, sim, from, s, |ts|);
    NoSeedsNoGroups(ts, sim, least, from, s);
  }

  /** `remaining` holds the tickets by their position in the input. */
  method Cluster(ts: seq<Ticket>, sim: Similar, least: int) returns (clusters: seq<seq<nat>>)
    ensures clusters == GroupsBefore(ts, sim, least, |ts|)
  {
    var remaining: seq<nat> := seq(|ts|, i => i);
    clusters := [];
    ghost var from := 0;
    AllUnled(ts, sim, |ts|);
    while remaining != []
      invariant from <= |ts| && remaining == Unled(ts, sim, from, |ts|)
      invariant clusters == GroupsBefore(ts, sim, least, from)
      decreases |ts| - from
    {
      var seed := remaining[0];
      SeedTurn(ts, sim, least, from, seed);
      remaining := remaining[1..];
      var taken;
      remaining, taken := SpliceSimilar(ts, sim, seed, remaining);
      if |[seed] + taken| >= least { clusters := clusters + [[seed] + taken]; }
      from := seed + 1;
    }
    LastGroups(ts, sim, least, from);
  }

  /** The inner loop: from the back, similar tickets are spliced out and collected. */
  method SpliceSimilar(ts: seq<Ticket>, sim: Similar, seed: nat, before: seq<nat>)
    returns (remaining: seq<nat>, taken: seq<nat>)
    requires seed < |ts| && forall a :: 0 <= a < |before| ==> before[a] < |ts|
    ensures remaining == Kept(ts, sim, seed, before) && taken == Taken(ts, sim, seed, before)
  {
    remaining, taken := before, [];
    var i := |remaining| - 1;
    while i >= 0
      invariant -1 <= i < |before|
      invariant remaining == before[..i + 1] + Kept(ts, sim, seed, before[i + 1..])
      invariant taken == Taken(ts, sim, seed, before[i + 1..])
    {
      assert before[i..][0] == before[i] && before[i..][1..] == before[i + 1..];
      assert before[..i + 1] == before[..i] + [before[i]];
      assert remaining[i] == before[i];
      if sim(ts[seed].embedding, ts[remaining[i]].embedding) {
        taken := taken + [remaining[i]];
        remaining := remaining[..i] + remaining[i + 1..];
      }
      i := i - 1;
    }
    assert before[0..] == before;
  }

  lemma {:induction false} LastGroups(ts: seq<Ticket>, sim: Similar, least: int, from: nat)
    requires from <= |ts| && Unled(ts, sim, from, |ts|) == []
    ensures GroupsBefore(ts, sim, least, |ts|) == GroupsBefore(ts, sim, least, from)
  {
    UnledExactly(ts, sim, from, |ts|, Unled(ts, sim, from, |ts|));
    forall x | from <= x < |ts| ensures !IsSeed(ts, sim, x) {
      if IsSeed(ts, sim, x) { SeedLeadsItself(ts, sim, x); }
    }
    NoSeedsNoGroups(ts, sim, least, from, |ts|);
  }

  // ----- what the grouping is

  /** Every ticket is in exactly one seed's group: that of the earliest seed it is or is similar to. */
  lemma {:induction false} GroupsPartition(ts: seq<Ticket>, sim: Similar, seed: nat, i: nat)
    requires seed < |ts| && i < |ts| && IsSeed(ts, sim, seed)
    ensures i in Group(ts, sim, seed) <==> LeaderOf(ts, sim, i) == seed
  {
    FollowersExactly(ts, sim, seed, |ts|);
    SeedLeadsItself(ts, sim, seed);
  }

  lemma {:induction false} NoRepeats(ts: seq<Ticket>, sim: Similar, seed: nat)
    requires seed < |ts|
    ensures var g := Group(ts, sim, seed); forall a, b :: 0 <= a < b < |g| ==> g[a] != g[b]
  {
    FollowersExactly(ts, sim, seed, |ts|);
    var f := Followers(ts, sim, seed, |ts|);
    forall a | 0 <= a < |f| ensures f[a] != seed { assert f[a] in f; }
  }

  /** Exactly the groups of at least the minimum size are returned. */
  lemma {:induction false} ReturnedExactly(ts: seq<Ticket>, sim: Similar, least: int, n: nat, g: seq<nat>)
    requires n <= |ts|
    ensures g in GroupsBefore(ts, sim, least, n)
      <==> |g| >= least && exists s :: 0 <= s < n && IsSeed(ts, sim, s) && g == Group(ts, sim, s)
  {
    if n > 0 {
      ReturnedExactly(ts, sim, least, n - 1, g);
    }
  }
}
