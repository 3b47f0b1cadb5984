/**
  The least-loaded dispatcher: the scan that picks a worker, conservation of the load counters
  under any interleaving of spawns and completions, and how balanced spawning keeps them.
 */
module IocPool {

  const INT_MAX: int := 0x7FFF_FFFF

  // ---------------------------------------------------------------- what the scan picks

  /** The first worker of least load. */
  ghost predicate IsFirstLeast(loads: seq<int>, i: nat) {
    && i < |loads|
    && (forall j :: 0 <= j < |loads| ==> loads[i] <= loads[j])
    && (forall j :: 0 <= j < i ==> loads[i] < loads[j])
  }

  function SpawnOn(loads: seq<int>, i: nat): seq<int>
    requires i < |loads|
  {
    loads[i := loads[i] + 1]
  }

  /** How many tasks of worker `j` finish before the k-th read of a scan is over. */
  function SoFar(finish: (nat, nat) -> nat, k: nat, j: nat): nat {
    if k == 0 then 0 else SoFar(finish, k - 1, j) + finish(k - 1, j)
  }

  lemma {:induction false} SoFarGrows(finish: (nat, nat) -> nat, k: nat, l: nat, j: nat)
    requires k <= l
    ensures SoFar(finish, k, j) <= SoFar(finish, l, j)
  {
    if k < l {
      SoFarGrows(finish, k, l - 1, j);
    }
  }

  /** With nothing finishing meanwhile, a scan reads the loads as they are. */
  lemma {:induction false} NothingFinishes(finish: (nat, nat) -> nat, k: nat, j: nat)
    requires forall a: nat, b: nat :: finish(a, b) == 0
    ensures SoFar(finish, k, j) == 0
  {
    if k > 0 {
      NothingFinishes(finish, k - 1, j);
    }
  }

  /** The loads once `k` reads are over, none spawned. */
  function Elapse(start: seq<int>, finish: (nat, nat) -> nat, k: nat): seq<int> {
    seq(|start|, j requires 0 <= j < |start| => start[j] - SoFar(finish, k, j))
  }

  function Minus(loads: seq<int>, finish: (nat, nat) -> nat, k: nat): seq<int> {
    seq(|loads|, j requires 0 <= j < |loads| => loads[j] - finish(k, j))
  }

  lemma ElapseOn(start: seq<int>, finish: (nat, nat) -> nat, k: nat)
    ensures Minus(Elapse(start, finish, k), finish, k) == Elapse(start, finish, k + 1)
  {
  }

  /** What the first `k` reads saw. */
  ghost predicate SeenOf(start: seq<int>, finish: (nat, nat) -> nat, k: nat, seen: seq<int>) {
    |seen| == k <= |start| && forall j :: 0 <= j < k ==> seen[j] == start[j] - SoFar(finish, j + 1, j)
  }

  lemma SeenNext(start: seq<int>, finish: (nat, nat) -> nat, k: nat, seen: seq<int>, load: int)
    requires k < |start| && SeenOf(start, finish, k, seen) && load == Elapse(start, finish, k + 1)[k]
    ensures SeenOf(start, finish, k + 1, seen + [load])
  {
  }

  /** `found` is the first least load of those seen, or none was below INT_MAX. */
  ghost predicate LeastSoFar(seen: seq<int>, least: int, found: int) {
    && -1 <= found < |seen|
    && (found == -1 ==> least == INT_MAX && forall j :: 0 <= j < |seen| ==> seen[j] >= INT_MAX)
    && (found >= 0 ==> least == seen[found] < INT_MAX && IsFirstLeast(seen, found))
  }

  lemma LeastNext(seen: seq<int>, least: int, found: int, load: int)
    requires LeastSoFar(seen, least, found)
    ensures LeastSoFar(seen + [load], if load < least then load else least, if load < least then |seen| else found)
  {
  }

  lemma SomeSelected(start: seq<int>, finish: (nat, nat) -> nat, seen: seq<int>, least: int, found: int)
    requires SeenOf(start, finish, |start|, seen) && LeastSoFar(seen, least, found)
    requires exists i :: 0 <= i < |start| && start[i] < INT_MAX
    ensures found >= 0
  {
    var i :| 0 <= i < |start| && start[i] < INT_MAX;
    assert seen[i] < INT_MAX;
  }

  /** The least of the loads seen, each in its turn, is by then no more than any load was at the start. */
  lemma SelectedIsLow(start: seq<int>, finish: (nat, nat) -> nat, seen: seq<int>, i: nat)
    requires SeenOf(start, finish, |start|, seen) && IsFirstLeast(seen, i)
    ensures forall j :: 0 <= j < |start| ==> Elapse(start, finish, |start| + 1)[i] <= start[j]
  {
    SoFarGrows(finish, i + 1, |start| + 1, i);
    assert Elapse(start, finish, |start| + 1)[i] <= seen[i];
    assert forall j :: 0 <= j < |start| ==> seen[j] <= start[j];
  }

  class Pool {
    /** active_tasks of each worker. */
    var loads: array<int>

    constructor (size: nat)
      ensures fresh(loads) && loads.Length == size && forall i :: 0 <= i < size ==> loads[i] == 0
    {
      loads := new int[size](_ => 0);
    }

    /** Completion handlers before the k-th read of a scan: worker `j` finishes `finish(k, j)` tasks. */
    method Completions(finish: (nat, nat) -> nat, k: nat)
      modifies loads
      ensures loads[..] == Minus(old(loads[..]), finish, k)
    {
      var j := 0;
      while j < loads.Length
        invariant 0 <= j <= loads.Length
        invariant forall i :: 0 <= i < j ==> loads[i] == old(loads[i]) - finish(k, i)
        invariant forall i :: j <= i < loads.Length ==> loads[i] == old(loads[i])
      {
        loads[j] := loads[j] - finish(k, j);
        j := j + 1;
      }
    }

    /** fetch_add on the load of worker `i`. */
    method Add(i: nat)
      requires i < loads.Length
      modifies loads
      ensures loads[..] == SpawnOn(old(loads[..]), i)
    {
      loads[i] := loads[i] + 1;
    }

    /** The scan; tasks go on finishing before each read, and `seen` is what the reads return. */
    method Scan(finish: (nat, nat) -> nat) returns (least: int, found: int, ghost seen: seq<int>)
      modifies loads
      ensures loads[..] == Elapse(old(loads[..]), finish, loads.Length)
      ensures SeenOf(old(loads[..]), finish, loads.Length, seen) && LeastSoFar(seen, least, found)
    {
      var w := 0;
      least, found, seen := INT_MAX, -1, [];
      ghost var start := loads[..];
      while w < loads.Length
        invariant 0 <= w <= loads.Length
        invariant loads[..] == Elapse(start, finish, w)
        invariant SeenOf(start, finish, w, seen) && LeastSoFar(seen, least, found)
      {
        Completions(finish, w);
        ElapseOn(start, finish, w);
        var load := loads[w];
        SeenNext(start, finish, w, seen, load);
        LeastNext(seen, least, found, load);
        seen := seen + [load];
        if load < least {
          least, found := load, w;
        }
        w := w + 1;
      }
    }

    /**
      spawn. Needs a worker below INT_MAX, or nothing is selected (with no workers at all in
      particular). Tasks go on finishing meanwhile, `finish(k, j)` of worker `j` before the k-th
      read; `seen` is what the scan reads. The worker selected is the first least one of those,
      and ends at most one above the least load there was at the start.
     */
    method Spawn(finish: (nat, nat) -> nat) returns (selected: nat, ghost seen: seq<int>)
      requires exists i :: 0 <= i < |loads[..]| && loads[..][i] < INT_MAX
      modifies loads
      ensures SeenOf(old(loads[..]), finish, loads.Length, seen) && IsFirstLeast(seen, selected)
      ensures loads[..] == SpawnOn(Elapse(old(loads[..]), finish, loads.Length + 1), selected)
      ensures forall j :: 0 <= j < loads.Length ==> loads[..][selected] <= old(loads[..])[j] + 1
    {
      ghost var start := loads[..];
      var least, found;
      least, found, seen := Scan(finish);
      SomeSelected(start, finish, seen, least, found);
      selected := found;
      Completions(finish, loads.Length);
      ElapseOn(start, finish, loads.Length);
      SelectedIsLow(start, finish, seen, selected);
      Add(selected);
    }

    /** The completion handler of a task of worker `i`. */
    method Finish(i: nat)
      requires i < loads.Length
      modifies loads
      ensures loads[..] == old(loads[..])[i := old(loads[i]) - 1]
    {
      loads[i] := loads[i] - 1;
    }
  }

  // ---------------------------------------------------------------- conservation

  function Sum(s: seq<int>): int {
    if s == [] then 0 else s[0] + Sum(s[1..])
  }

  lemma {:induction false} SumUpdate(s: seq<int>, i: nat, v: int)
    requires i < |s|
    ensures Sum(s[i := v]) == Sum(s) - s[i] + v
  {
    if i == 0 {
      assert s[i := v][1..] == s[1..];
    } else {
      assert s[i := v][1..] == s[1..][i - 1 := v];
      SumUpdate(s[1..], i - 1, v);
    }
  }

  /** Whichever worker a scan racing with completions selects. */
  datatype Event = Spawned(worker: nat) | Finished(worker: nat)

  function Count(es: seq<Event>, spawned: bool): int {
    if es == [] then 0 else (if es[0].Spawned? == spawned then 1 else 0) + Count(es[1..], spawned)
  }

  ghost predicate Path(loads: seq<int>, es: seq<Event>, end: seq<int>)
    decreases |es|
  {
    if es == [] then loads == end
    else
      && es[0].worker < |loads|
      && Path(loads[es[0].worker := loads[es[0].worker] + (if es[0].Spawned? then 1 else -1)], es[1..], end)
  }

  /** The loads always sum to tasks spawned minus tasks finished. */
  lemma {:induction false} LoadIsConserved(loads: seq<int>, es: seq<Event>, end: seq<int>)
    requires Path(loads, es, end)
    ensures Sum(end) == Sum(loads) + Count(es, true) - Count(es, false)
    decreases |es|
  {
    if es != [] {
      var (w, e) := (es[0].worker, es[0]);
      var next := loads[w := loads[w] + (if e.Spawned? then 1 else -1)];
      SumUpdate(loads, w, next[w]);
      LoadIsConserved(next, es[1..], end);
    }
  }

  // ---------------------------------------------------------------- balance

  /** Spawns only, each on a least-loaded worker. */
  ghost predicate Spawns(loads: seq<int>, picks: seq<nat>, end: seq<int>)
    decreases |picks|
  {
    if picks == [] then loads == end
    else IsFirstLeast(loads, picks[0]) && Spawns(SpawnOn(loads, picks[0]), picks[1..], end)
  }

  predicate SpreadWithin(loads: seq<int>, d: int) {
    forall i, j :: 0 <= i < |loads| && 0 <= j < |loads| ==> loads[i] - loads[j] <= d
  }

  /** Spawning never widens the spread beyond one task or what it already was. */
  lemma {:induction false} SpreadNeverGrows(loads: seq<int>, picks: seq<nat>, end: seq<int>, d: int)
    requires Spawns(loads, picks, end) && SpreadWithin(loads, d) && d >= 1
    ensures SpreadWithin(end, d)
    decreases |picks|
  {
    if picks != [] {
      SpreadNeverGrows(SpawnOn(loads, picks[0]), picks[1..], end, d);
    }
  }

  /** Tasks missing for every worker to reach `cap`. */
  function Deficit(loads: seq<int>, cap: int): int {
    |loads| * cap - Sum(loads)
  }

  lemma {:induction false} NoDeficitMeansLevel(loads: seq<int>, cap: int)
    requires forall i :: 0 <= i < |loads| ==> loads[i] <= cap
    ensures Deficit(loads, cap) >= 0
    ensures Deficit(loads, cap) == 0 ==> forall i :: 0 <= i < |loads| ==> loads[i] == cap
  {
    if loads != [] {
      NoDeficitMeansLevel(loads[1..], cap);
      assert |loads| * cap == |loads[1..]| * cap + cap;
      assert forall i :: 1 <= i < |loads| ==> loads[i] == loads[1..][i - 1];
    }
  }

  /** Enough spawns level any imbalance: as many as bring every worker up to the busiest. */
  lemma {:induction false} SpawnsLevel(loads: seq<int>, picks: seq<nat>, end: seq<int>, cap: int)
    requires Spawns(loads, picks, end) && |picks| >= Deficit(loads, cap)
    requires forall i :: 0 <= i < |loads| ==> loads[i] <= cap
    ensures SpreadWithin(end, 1)
    decreases |picks|
  {
    NoDeficitMeansLevel(loads, cap);
    if Deficit(loads, cap) == 0 {
      SpreadNeverGrows(loads, picks, end, 1);
    } else {
      assert picks != [];
      var next := SpawnOn(loads, picks[0]);
      SumUpdate(loads, picks[0], next[picks[0]]);
      if loads[picks[0]] == cap {
        assert forall i :: 0 <= i < |loads| ==> loads[i] == cap;
        LevelHasNoDeficit(loads, cap);
        assert false;
      }
      SpawnsLevel(next, picks[1..], end, cap);
    }
  }

  lemma {:induction false} LevelHasNoDeficit(loads: seq<int>, cap: int)
    requires forall i :: 0 <= i < |loads| ==> loads[i] == cap
    ensures Deficit(loads, cap) == 0
  {
    if loads != [] {
      LevelHasNoDeficit(loads[1..], cap);
      assert |loads| * cap == |loads[1..]| * cap + cap;
    }
  }
}
