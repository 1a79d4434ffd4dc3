/**
 * Which package scripts and repository paths a shell command reaches. Scripts
 * may run each other in circles; a set of scripts already entered, shared by
 * the whole search, is what stops it.
 */
module ScriptResolver {

  predicate NoRepeats(s: seq<string>) {
    forall i, j :: 0 <= i < j < |s| ==> s[i] != s[j]
  }

  /** The elements of `more` that `kept` lacks, behind `kept`: `a += [x for x in b if x not in a]`. */
  function Merge(kept: seq<string>, more: seq<string>): (r: seq<string>)
    ensures forall x :: x in r <==> x in kept || x in more
    ensures NoRepeats(kept) && NoRepeats(more) ==> NoRepeats(r)
    ensures kept <= r
  {
    if more == [] then kept
    else
      var front := Merge(kept, more[..|more| - 1]);
      var last := more[|more| - 1];
      assert more == more[..|more| - 1] + [last];
      if last in kept then front else front + [last]
  }

  /**
   * One package: its scripts, and what the text of a command shows at sight -
   * the paths it names and the scripts it runs, in order, as the regular
   * expressions of the original find them.
   */
  datatype Package = Package(
    scripts: map<string, string>, pathsIn: string -> seq<string>, runsIn: string -> seq<string>) {

    /** `chain` leads from the command through scripts, each running the next. */
    ghost predicate Runs(command: string, chain: seq<string>)
      decreases |chain|
    {
      && chain != []
      && chain[0] in runsIn(command)
      && (|chain| > 1 ==> chain[0] in scripts && Runs(scripts[chain[0]], chain[1..]))
    }

    ghost predicate RunsScript(command: string, name: string) {
      exists chain :: Runs(command, chain) && chain[|chain| - 1] == name
    }

    ghost predicate NamesPath(command: string, path: string) {
      || path in pathsIn(command)
      || exists name :: RunsScript(command, name) && name in scripts && path in pathsIn(scripts[name])
    }

    /** A set of answers that misses nothing: what any script in it shows is in it too. */
    ghost predicate Complete(command: string, names: seq<string>, paths: seq<string>) {
      && Shown(command, |runsIn(command)|, names, paths)
      && forall m :: m in names && m in scripts ==> Shown(scripts[m], |runsIn(scripts[m])|, names, paths)
    }

    /** Every answer is reached from the command. */
    ghost predicate Reached(command: string, names: seq<string>, paths: seq<string>) {
      (forall n :: n in names ==> RunsScript(command, n)) && forall p :: p in paths ==> NamesPath(command, p)
    }

    /** What the command shows at sight, of its scripts the first `k`, is among the answers. */
    ghost predicate Shown(command: string, k: nat, names: seq<string>, paths: seq<string>) {
      && (forall i :: 0 <= i < k && i < |runsIn(command)| ==> runsIn(command)[i] in names)
      && (forall p :: p in pathsIn(command) ==> p in paths)
    }

    /** Each script entered between the two sets has what it shows among the answers. */
    ghost predicate Entered(before: set<string>, after: set<string>, names: seq<string>, paths: seq<string>) {
      forall m :: m in after && m !in before ==>
        m in scripts && Shown(scripts[m], |runsIn(scripts[m])|, names, paths)
    }

    lemma {:induction false} ReachedOne(command: string, name: string, names: seq<string>, paths: seq<string>)
      requires name in runsIn(command) && Reached(command, names, paths)
      ensures Reached(command, names + [name], paths)
    {
      OneStep(command, name);
    }

    lemma {:induction false} ShownMore(
      command: string, k: nat, names: seq<string>, paths: seq<string>, allNames: seq<string>, allPaths: seq<string>)
      requires k < |runsIn(command)| && Shown(command, k, names, paths) && runsIn(command)[k] in allNames
      requires (forall n :: n in names ==> n in allNames) && forall p :: p in paths ==> p in allPaths
      ensures Shown(command, k + 1, allNames, allPaths)
    {
    }

    lemma {:induction false} ReachedThrough(command: string, via: string, names: seq<string>, paths: seq<string>)
      requires via in runsIn(command) && via in scripts && Reached(scripts[via], names, paths)
      ensures Reached(command, names, paths)
    {
      forall n | n in names ensures RunsScript(command, n) { Through(command, via, n); }
      forall p | p in paths ensures NamesPath(command, p) { ThroughPath(command, via, p); }
    }

    lemma {:induction false} BothReached(
      command: string, names: seq<string>, paths: seq<string>, moreNames: seq<string>, morePaths: seq<string>)
      requires Reached(command, names, paths) && Reached(command, moreNames, morePaths)
      ensures Reached(command, Merge(names, moreNames), Merge(paths, morePaths))
    {
    }

    /** What a script entered shows is found by the search that entered it. */
    lemma {:induction false} BothEntered(
      before: set<string>, mid: set<string>, after: set<string>, via: string,
      names: seq<string>, paths: seq<string>, moreNames: seq<string>, morePaths: seq<string>)
      requires via in scripts
      requires Entered(before, mid, names, paths) && Entered(mid + {via}, after, moreNames, morePaths)
      requires Shown(scripts[via], |runsIn(scripts[via])|, moreNames, morePaths)
      ensures Entered(before, after, Merge(names, moreNames), Merge(paths, morePaths))
    {
    }

    lemma {:induction false} OneStep(command: string, name: string)
      requires name in runsIn(command)
      ensures RunsScript(command, name)
    {
      assert Runs(command, [name]) && [name][0] == name;
    }

    lemma {:induction false} Through(command: string, via: string, name: string)
      requires via in runsIn(command) && via in scripts && RunsScript(scripts[via], name)
      ensures RunsScript(command, name)
    {
      var chain :| Runs(scripts[via], chain) && chain[|chain| - 1] == name;
      assert ([via] + chain)[1..] == chain;
      assert Runs(command, [via] + chain);
    }

    lemma {:induction false} ThroughPath(command: string, via: string, path: string)
      requires via in runsIn(command) && via in scripts && NamesPath(scripts[via], path)
      ensures NamesPath(command, path)
    {
      OneStep(command, via);
      if path !in pathsIn(scripts[via]) {
        var name :| RunsScript(scripts[via], name) && name in scripts && path in pathsIn(scripts[name]);
        Through(command, via, name);
      }
    }

    /** A complete set of answers holds every script any chain reaches. */
    lemma {:induction false} ChainStaysInside(
      command: string, names: seq<string>, paths: seq<string>, from: string, chain: seq<string>)
      requires Complete(command, names, paths) && Runs(from, chain)
      requires from == command || exists m :: m in names && m in scripts && scripts[m] == from
      ensures chain[|chain| - 1] in names
      decreases |chain|
    {
      assert chain[0] in names;
      if |chain| > 1 {
        ChainStaysInside(command, names, paths, scripts[chain[0]], chain[1..]);
      }
    }

    /** Complete answers that are all reached are exactly the reachable ones. */
    lemma {:induction false} CompleteIsExact(command: string, names: seq<string>, paths: seq<string>)
      requires Complete(command, names, paths)
      requires forall n :: n in names ==> RunsScript(command, n)
      requires forall p :: p in paths ==> NamesPath(command, p)
      ensures forall n :: n in names <==> RunsScript(command, n)
      ensures forall p :: p in paths <==> NamesPath(command, p)
    {
      forall n | RunsScript(command, n) ensures n in names {
        var chain :| Runs(command, chain) && chain[|chain| - 1] == n;
        ChainStaysInside(command, names, paths, command, chain);
      }
    }
  }

  class Resolver {
    const pkg: Package
    var seen: set<string>

    constructor (pkg: Package)
      ensures this.pkg == pkg && seen == {}
    {
      this.pkg := pkg;
      seen := {};
    }

    /**
     * Scripts entered before the call are not entered again; every script
     * entered during it has all it shows in the answer.
     */
    method ResolveCommand(command: string) returns (paths: seq<string>, names: seq<string>)
      modifies this`seen
      ensures old(seen) <= seen <= old(seen) + pkg.scripts.Keys
      ensures NoRepeats(paths) && NoRepeats(names)
      ensures pkg.Reached(command, names, paths)
      ensures pkg.Shown(command, |pkg.runsIn(command)|, names, paths)
      ensures pkg.Entered(old(seen), seen, names, paths)
      ensures forall n :: n in names && n in pkg.scripts ==> n in seen
      decreases pkg.scripts.Keys - seen
    {
      paths := Distinct(pkg.pathsIn(command));
      names := [];
      var found := pkg.runsIn(command);
      for k := 0 to |found|
        invariant old(seen) <= seen <= old(seen) + pkg.scripts.Keys
        invariant NoRepeats(paths) && NoRepeats(names)
        invariant pkg.Reached(command, names, paths)
        invariant pkg.Shown(command, k, names, paths)
        invariant pkg.Entered(old(seen), seen, names, paths)
        invariant forall n :: n in names && n in pkg.scripts ==> n in seen
      {
        var name := found[k];
        ghost var knownNames, knownPaths := names, paths;
        pkg.ReachedOne(command, name, names, paths);
        if name !in names {
          names := names + [name];
        }
        if name in pkg.scripts && name !in seen {
          ghost var mid := seen;
          seen := seen + {name};
          var subPaths, subNames := ResolveCommand(pkg.scripts[name]);
          pkg.ReachedThrough(command, name, subNames, subPaths);
          pkg.BothReached(command, names, paths, subNames, subPaths);
          pkg.BothEntered(old(seen), mid, seen, name, names, paths, subNames, subPaths);
          paths := Merge(paths, subPaths);
          names := Merge(names, subNames);
        }
        pkg.ShownMore(command, k, knownNames, knownPaths, names, paths);
      }
    }
  }

  /** The elements in order of first occurrence. */
  method Distinct(s: seq<string>) returns (r: seq<string>)
    ensures NoRepeats(r) && forall x :: x in r <==> x in s
  {
    r := [];
    for k := 0 to |s|
      invariant NoRepeats(r) && forall x :: x in r <==> x in s[..k]
    {
      if s[k] !in r { r := r + [s[k]]; }
    }
  }

  /** A search with nothing entered answers exactly what is reachable, without repeats. */
  method Resolve(pkg: Package, command: string) returns (paths: seq<string>, names: seq<string>)
    ensures NoRepeats(paths) && NoRepeats(names)
    ensures forall n :: n in names <==> pkg.RunsScript(command, n)
    ensures forall p :: p in paths <==> pkg.NamesPath(command, p)
  {
    var resolver := new Resolver(pkg);
    paths, names := resolver.ResolveCommand(command);
    pkg.CompleteIsExact(command, names, paths);
  }
}
