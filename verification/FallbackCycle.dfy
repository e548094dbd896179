/** The search for a cycle among the fallback profiles of the configured LLM profiles. */
module FallbackCycle {
  import opened Values

  /** The part of a profile the fallback checks read. */
  datatype Profile = Profile(enabled: bool, fallbacks: seq<string>)

  type Profiles = map<string, Profile>

  /** A fallback from one defined profile to another. */
  predicate Edge(profiles: Profiles, x: string, y: string) {
    x in profiles && y in profiles && y in profiles[x].fallbacks
  }

  predicate Walk(profiles: Profiles, walk: seq<string>) {
    && (forall i :: 0 <= i < |walk| ==> walk[i] in profiles)
    && (forall i, j :: 0 <= i && j == i + 1 < |walk| ==> Edge(profiles, walk[i], walk[j]))
  }

  predicate Distinct(names: seq<string>) {
    forall i, j :: 0 <= i < j < |names| ==> names[i] != names[j]
  }

  predicate Cycle(profiles: Profiles, walk: seq<string>) {
    |walk| >= 2 && walk[0] == walk[|walk| - 1] && Walk(profiles, walk)
  }

  ghost predicate SimpleCycle(profiles: Profiles, walk: seq<string>) {
    Cycle(profiles, walk) && Distinct(walk[1..])
  }

  ghost predicate Acyclic(profiles: Profiles) {
    forall walk :: !Cycle(profiles, walk)
  }

  function Names(stack: seq<string>): set<string> {
    set name | name in stack
  }

  /** The stack is a walk without repetition, and the positions of its names are on record. */
  ghost predicate StackRecorded(profiles: Profiles, stack: seq<string>, positions: map<string, nat>) {
    && Walk(profiles, stack)
    && Distinct(stack)
    && (forall i :: 0 <= i < |stack| ==> stack[i] in positions && positions[stack[i]] == i)
    && (forall name :: name in positions ==> positions[name] < |stack| && stack[positions[name]] == name)
  }

  /** The visited profiles are closed under edges, and along edges the rank drops. */
  ghost predicate Ranked(profiles: Profiles, visited: set<string>, rank: map<string, nat>) {
    && visited <= profiles.Keys
    && rank.Keys == visited
    && (forall x :: x in visited ==> rank[x] < |visited|)
    && (forall x, y :: x in visited && Edge(profiles, x, y) ==> y in visited && rank[y] < rank[x])
  }

  /** The state shared by the recursive visits of one search. */
  class Search {
    const profiles: Profiles
    var visited: set<string>
    var visitingPositions: map<string, nat>
    var stack: seq<string>

    /** The order in which visits finished. */
    ghost var rank: map<string, nat>

    ghost predicate Valid()
      reads this
    {
      && StackRecorded(profiles, stack, visitingPositions)
      && Ranked(profiles, visited, rank)
      && visited !! visitingPositions.Keys
    }

    constructor (profiles: Profiles)
      ensures Valid()
      ensures this.profiles == profiles
      ensures visited == {} && stack == [] && visitingPositions == map[]
    {
      this.profiles := profiles;
      visited, visitingPositions, stack, rank := {}, map[], [], map[];
    }

    /** Visits one profile.  Without a cycle it leaves the stack as it found it and the profile visited. */
    method Visit(name: string) returns (cycle: Option<seq<string>>)
      requires Valid() && name in profiles
      requires stack != [] ==> Edge(profiles, stack[|stack| - 1], name)
      modifies this
      ensures cycle.Some? ==> SimpleCycle(profiles, cycle.value)
      ensures cycle.None? ==>
        && Valid()
        && stack == old(stack)
        && visitingPositions == old(visitingPositions)
        && old(visited) <= visited
        && name in visited
      decreases profiles.Keys - visitingPositions.Keys
    {
      hide Ranked, StackRecorded, SimpleCycle, Handled;
      if name in visited {
        return None;
      }
      if name in visitingPositions {
        StackClosesCycle(profiles, stack, visitingPositions, name);
        return Some(stack[visitingPositions[name]..] + [name]);
      }

      PushRecorded(profiles, stack, visitingPositions, name);
      visitingPositions := visitingPositions[name := |stack|];
      stack := stack + [name];

      var fallbacks := profiles[name].fallbacks;
      NoneHandled(profiles, fallbacks, visited);
      for i := 0 to |fallbacks|
        invariant Valid() && stack == old(stack) + [name]
        invariant visitingPositions == old(visitingPositions)[name := |old(stack)|]
        invariant old(visited) <= visited
        invariant Handled(profiles, fallbacks, i, visited)
      {
        ghost var before := visited;
        if fallbacks[i] in profiles {
          cycle := Visit(fallbacks[i]);
          if cycle.Some? {
            return;
          }
        }
        OneMoreHandled(profiles, fallbacks, i, before, visited);
      }

      PopRestores(old(stack), old(visitingPositions), name);
      FinishRanked(profiles, visited, rank, name);
      stack := stack[..|stack| - 1];
      visitingPositions := visitingPositions - {name};
      rank := rank[name := |visited|];
      visited := visited + {name};
      return None;
    }
  }

  /** Of the first `n` fallbacks, those that are defined profiles are visited. */
  ghost predicate Handled(profiles: Profiles, fallbacks: seq<string>, n: nat, visited: set<string>)
    requires n <= |fallbacks|
  {
    forall i :: 0 <= i < n && fallbacks[i] in profiles ==> fallbacks[i] in visited
  }

  lemma NoneHandled(profiles: Profiles, fallbacks: seq<string>, visited: set<string>)
    ensures Handled(profiles, fallbacks, 0, visited)
  {
  }

  lemma OneMoreHandled(profiles: Profiles, fallbacks: seq<string>, n: nat, before: set<string>, visited: set<string>)
    requires n < |fallbacks| && Handled(profiles, fallbacks, n, before) && before <= visited
    requires fallbacks[n] in profiles ==> fallbacks[n] in visited
    ensures Handled(profiles, fallbacks, n + 1, visited)
  {
  }

  lemma PushRecorded(profiles: Profiles, stack: seq<string>, positions: map<string, nat>, name: string)
    requires StackRecorded(profiles, stack, positions)
    requires name in profiles && name !in positions
    requires stack != [] ==> Edge(profiles, stack[|stack| - 1], name)
    ensures StackRecorded(profiles, stack + [name], positions[name := |stack|])
    ensures profiles.Keys - positions[name := |stack|].Keys < profiles.Keys - positions.Keys
  {
    assert name in profiles.Keys - positions.Keys;
    WalkExtends(profiles, stack, name);
  }

  lemma WalkExtends(profiles: Profiles, walk: seq<string>, name: string)
    requires Walk(profiles, walk) && name in profiles
    requires walk != [] ==> Edge(profiles, walk[|walk| - 1], name)
    ensures Walk(profiles, walk + [name])
  {
  }

  lemma PopRestores(outer: seq<string>, positions: map<string, nat>, name: string)
    requires name !in positions
    ensures (outer + [name])[..|outer|] == outer
    ensures positions[name := |outer|] - {name} == positions
  {
  }

  lemma FinishRanked(profiles: Profiles, visited: set<string>, rank: map<string, nat>, name: string)
    requires Ranked(profiles, visited, rank)
    requires name in profiles && name !in visited
    requires Handled(profiles, profiles[name].fallbacks, |profiles[name].fallbacks|, visited)
    ensures Ranked(profiles, visited + {name}, rank[name := |visited|])
  {
  }

  /** Coming back to a profile on the stack closes a simple cycle. */
  lemma StackClosesCycle(profiles: Profiles, stack: seq<string>, positions: map<string, nat>, name: string)
    requires StackRecorded(profiles, stack, positions) && name in positions
    requires stack != [] ==> Edge(profiles, stack[|stack| - 1], name)
    ensures positions[name] < |stack|
    ensures SimpleCycle(profiles, stack[positions[name]..] + [name])
  {
    var start := positions[name];
    var cycle := stack[start..] + [name];
    forall i, j | 0 <= i && j == i + 1 < |cycle| ensures Edge(profiles, cycle[i], cycle[j]) {
      assert Edge(profiles, stack[start + i], if j < |cycle| - 1 then stack[start + j] else name);
    }
  }

  /** The whole search: a genuine simple cycle if there is any cycle at all, and None otherwise. */
  method FindFallbackCycle(profiles: Profiles) returns (cycle: Option<seq<string>>)
    ensures cycle.Some? ==> SimpleCycle(profiles, cycle.value)
    ensures cycle.None? <==> Acyclic(profiles)
  {
    var search := new Search(profiles);
    var rest := profiles.Keys;
    while rest != {}
      invariant search.Valid() && search.profiles == profiles && search.stack == []
      invariant rest <= profiles.Keys && profiles.Keys - rest <= search.visited
      decreases |rest|
    {
      var name :| name in rest;
      cycle := search.Visit(name);
      if cycle.Some? {
        return;
      }
      rest := rest - {name};
    }
    RankedIsAcyclic(profiles, search.rank);
    return None;
  }

  lemma RankedIsAcyclic(profiles: Profiles, rank: map<string, nat>)
    requires rank.Keys == profiles.Keys
    requires forall x, y :: Edge(profiles, x, y) ==> rank[y] < rank[x]
    ensures Acyclic(profiles)
  {
    forall walk | Cycle(profiles, walk) ensures false {
      RankDrops(profiles, rank, walk, 0, |walk| - 1);
    }
  }

  lemma {:induction false} RankDrops(profiles: Profiles, rank: map<string, nat>, walk: seq<string>, i: nat, j: nat)
    requires rank.Keys == profiles.Keys
    requires forall x, y :: Edge(profiles, x, y) ==> rank[y] < rank[x]
    requires Walk(profiles, walk) && i < j < |walk|
    ensures rank[walk[j]] < rank[walk[i]]
    decreases j
  {
    assert Edge(profiles, walk[j - 1], walk[j]);
    if i < j - 1 {
      RankDrops(profiles, rank, walk, i, j - 1);
    }
  }

  // ---------- what the absence of a cycle means for a caller ----------

  /** No fallback cycle: exactly the configurations in which following fallbacks always stops, after at
      most as many profiles as are configured. */
  lemma AcyclicIffWalksBounded(profiles: Profiles)
    ensures Acyclic(profiles) <==> forall walk :: Walk(profiles, walk) ==> |walk| <= |profiles|
  {
    if Acyclic(profiles) {
      forall walk | Walk(profiles, walk) ensures |walk| <= |profiles| {
        AcyclicWalkDistinct(profiles, walk);
        DistinctFits(walk, profiles.Keys);
      }
    } else {
      var cycle :| Cycle(profiles, cycle);
      var long := Around(cycle, 0, |profiles| + 1);
      AroundIsWalk(profiles, cycle, 0, |profiles| + 1);
      assert Walk(profiles, long) && |long| > |profiles|;
    }
  }

  /** Without a cycle no walk meets a profile twice. */
  lemma AcyclicWalkDistinct(profiles: Profiles, walk: seq<string>)
    requires Acyclic(profiles) && Walk(profiles, walk)
    ensures Distinct(walk)
  {
    forall i, j | 0 <= i < j < |walk| ensures walk[i] != walk[j] {
      if walk[i] == walk[j] {
        var loop := walk[i..j + 1];
        assert forall k, l :: 0 <= k && l == k + 1 < |loop| ==>
          loop[k] == walk[i + k] && loop[l] == walk[i + l] && Edge(profiles, walk[i + k], walk[i + l]);
        assert Cycle(profiles, loop);
        assert false;
      }
    }
  }

  lemma {:induction false} DistinctFits(names: seq<string>, pool: set<string>)
    requires Distinct(names) && Names(names) <= pool
    ensures |names| <= |pool|
  {
    if names != [] {
      assert names[0] in Names(names);
      assert forall name :: name in names[1..] ==> name in names;
      DistinctFits(names[1..], pool - {names[0]});
    }
  }

  /** A walk of any length that goes round and round a cycle, starting at position `at`. */
  function Around(cycle: seq<string>, at: nat, n: nat): (walk: seq<string>)
    requires at < |cycle| - 1
    ensures |walk| == n && (n > 0 ==> walk[0] == cycle[at])
    decreases n
  {
    if n == 0 then []
    else [cycle[at]] + Around(cycle, if at + 1 == |cycle| - 1 then 0 else at + 1, n - 1)
  }

  lemma {:induction false} AroundIsWalk(profiles: Profiles, cycle: seq<string>, at: nat, n: nat)
    requires Cycle(profiles, cycle) && at < |cycle| - 1
    ensures Walk(profiles, Around(cycle, at, n))
    decreases n
  {
    if n > 0 {
      var next := if at + 1 == |cycle| - 1 then 0 else at + 1;
      AroundIsWalk(profiles, cycle, next, n - 1);
      assert Edge(profiles, cycle[at], cycle[at + 1]) && cycle[at + 1] == cycle[next];
    }
  }

  // ---------- the fallback checks of the configuration validation ----------

  datatype Problem =
    | UnknownFallback(profile: string, fallback: string)
    | DisabledFallback(profile: string, fallback: string)
    | CycleFound(cycle: seq<string>)

  /** The error list the validators append to. */
  class ErrorList {
    var items: seq<Problem>

    constructor ()
      ensures items == []
    {
      items := [];
    }

    method Append(problem: Problem)
      modifies this
      ensures items == old(items) + [problem]
    {
      items := items + [problem];
    }
  }

  /** The complaint one fallback entry of one profile earns, if any. */
  function FallbackProblem(profiles: Profiles, name: string, fallback: string): Option<Problem>
    requires name in profiles
  {
    if fallback !in profiles then Some(UnknownFallback(name, fallback))
    else if profiles[name].enabled && !profiles[fallback].enabled then Some(DisabledFallback(name, fallback))
    else None
  }

  /** The problem is really there. */
  ghost predicate Justified(profiles: Profiles, problem: Problem) {
    match problem
    case CycleFound(cycle) => SimpleCycle(profiles, cycle)
    case UnknownFallback(name, fallback) =>
      name in profiles && fallback in profiles[name].fallbacks && fallback !in profiles
    case DisabledFallback(name, fallback) =>
      Edge(profiles, name, fallback) && profiles[name].enabled && !profiles[fallback].enabled
  }

  /** Every complaint about the fallbacks of `name` is among `found`. */
  ghost predicate AllReported(profiles: Profiles, name: string, fallbacks: seq<string>, found: seq<Problem>)
    requires name in profiles
  {
    forall fallback | fallback in fallbacks ::
      FallbackProblem(profiles, name, fallback).Some? ==> FallbackProblem(profiles, name, fallback).value in found
  }

  /** Fallbacks are defined, enabled where their profile is, and lead round no cycle. */
  ghost predicate SoundFallbacks(profiles: Profiles) {
    && Acyclic(profiles)
    && forall name | name in profiles :: AllReported(profiles, name, profiles[name].fallbacks, [])
  }

  /** Checks the fallbacks of every profile and then the graph.  The list grows by `found`: only genuine
      problems, all those of single entries, and a cycle whenever there is one. */
  method ValidateFallbacks(profiles: Profiles, errors: ErrorList) returns (ghost found: seq<Problem>)
    modifies errors
    ensures errors.items == old(errors.items) + found
    ensures forall problem :: problem in found ==> Justified(profiles, problem)
    ensures forall name :: name in profiles ==> AllReported(profiles, name, profiles[name].fallbacks, found)
    ensures Acyclic(profiles) <==> forall problem :: problem in found ==> !problem.CycleFound?
    ensures found == [] <==> SoundFallbacks(profiles)
  {
    found := [];
    var rest := profiles.Keys;
    while rest != {}
      invariant rest <= profiles.Keys
      invariant errors.items == old(errors.items) + found
      invariant forall problem :: problem in found ==> Justified(profiles, problem) && !problem.CycleFound?
      invariant forall name :: name in profiles.Keys - rest ==>
        AllReported(profiles, name, profiles[name].fallbacks, found)
      decreases |rest|
    {
      var name :| name in rest;
      var fallbacks := profiles[name].fallbacks;
      for i := 0 to |fallbacks|
        invariant errors.items == old(errors.items) + found
        invariant forall problem :: problem in found ==> Justified(profiles, problem) && !problem.CycleFound?
        invariant forall other :: other in profiles.Keys - rest ==>
          AllReported(profiles, other, profiles[other].fallbacks, found)
        invariant AllReported(profiles, name, fallbacks[..i], found)
      {
        var problem := FallbackProblem(profiles, name, fallbacks[i]);
        if problem.Some? {
          errors.Append(problem.value);
          found := found + [problem.value];
        }
        assert fallbacks[..i + 1] == fallbacks[..i] + [fallbacks[i]];
      }
      assert fallbacks[..|fallbacks|] == fallbacks;
      rest := rest - {name};
    }
    var cycle := FindFallbackCycle(profiles);
    if cycle.Some? {
      errors.Append(CycleFound(cycle.value));
      found := found + [CycleFound(cycle.value)];
      assert found[|found| - 1] == CycleFound(cycle.value);
    }
    FoundNothingIffSound(profiles, found);
  }

  lemma FoundNothingIffSound(profiles: Profiles, found: seq<Problem>)
    requires forall problem :: problem in found ==> Justified(profiles, problem)
    requires forall name :: name in profiles ==> AllReported(profiles, name, profiles[name].fallbacks, found)
    requires Acyclic(profiles) <==> forall problem :: problem in found ==> !problem.CycleFound?
    ensures found == [] <==> SoundFallbacks(profiles)
  {
    if found != [] {
      var problem := found[0];
      assert Justified(profiles, problem);
      if !problem.CycleFound? {
        assert FallbackProblem(profiles, problem.profile, problem.fallback).Some?;
        assert !AllReported(profiles, problem.profile, profiles[problem.profile].fallbacks, []);
      }
    }
  }

  /** In a configuration without fallback errors, fallbacks followed from an enabled profile reach only
      enabled, defined profiles, meet none of them twice and stop. */
  lemma {:induction false} SoundFallbacksServe(profiles: Profiles, walk: seq<string>)
    requires SoundFallbacks(profiles)
    requires walk != [] && walk[0] in profiles && profiles[walk[0]].enabled
    requires forall i, j :: 0 <= i && j == i + 1 < |walk| && walk[i] in profiles ==>
      walk[j] in profiles[walk[i]].fallbacks
    ensures Walk(profiles, walk) && Distinct(walk) && |walk| <= |profiles|
    ensures forall name :: name in walk ==> profiles[name].enabled
  {
    for n := 1 to |walk|
      invariant forall i :: 0 <= i < n ==> walk[i] in profiles && profiles[walk[i]].enabled
    {
      assert AllReported(profiles, walk[n - 1], profiles[walk[n - 1]].fallbacks, []);
      assert walk[n] in profiles[walk[n - 1]].fallbacks;
      assert FallbackProblem(profiles, walk[n - 1], walk[n]).None?;
    }
    AcyclicWalkDistinct(profiles, walk);
    AcyclicIffWalksBounded(profiles);
  }
}
