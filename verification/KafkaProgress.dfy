/**
  A running member that owns the partition can always make progress: whatever its lane and its
  worker hold, some continuation handles any given unhandled message and has its commit accepted.
 */
module KafkaProgress {
  import opened KafkaGroup
  import opened KafkaProofs

  ghost predicate Ordinary(es: seq<Event>) {
    forall i :: 0 <= i < |es| ==> !(es[i].Rebalanced? && es[i].kind.OtherError?)
  }

  /** An ordinary continuation from `g` to `h`. */
  ghost predicate Leads(g: Group, es: seq<Event>, h: Group) {
    Path(g, es, h) && Ordinary(es)
  }

  lemma {:induction false} PathJoins(g: Group, a: seq<Event>, h: Group, b: seq<Event>, k: Group)
    requires Path(g, a, h) && Path(h, b, k)
    ensures Path(g, a + b, k)
    decreases |a|
  {
    if a == [] {
      assert a + b == b;
    } else {
      PathJoins(Step(g, a[0]), a[1..], h, b, k);
      assert (a + b)[1..] == a[1..] + b;
    }
  }

  /** One more event at the front of a continuation. */
  lemma Prepend(g: Group, e: Event, es: seq<Event>, h: Group)
    requires Enabled(g, e) && !(e.Rebalanced? && e.kind.OtherError?) && Leads(Step(g, e), es, h)
    ensures Leads(g, [e] + es, h)
  {
    assert ([e] + es)[1..] == es;
  }

  lemma {:induction false} Least(s: set<int>, position: int) returns (o: int)
    requires exists x :: x in s && x >= position
    ensures IsNext(s, position, o)
    decreases s
  {
    o :| o in s && o >= position;
    var smaller := set x | x in s && position <= x < o;
    assert forall x :: x in s && position <= x < o ==> x in smaller;
    if smaller != {} {
      var y :| y in smaller;
      assert o !in smaller && smaller < s;
      var least := Least(smaller, position);
      forall x | x in s && x >= position
        ensures x >= least
      {
        if x < o { assert x in smaller; }
      }
      o := least;
    }
  }

  lemma LeadsKeeps(g: Group, es: seq<Event>, h: Group)
    requires Inv(g) && Leads(g, es, h)
    ensures Inv(h)
  {
    OrdinaryRebalancesAreHarmless(g, es, h);
    PathKeeps(g, es, h);
  }

  lemma LeadsJoins(g: Group, a: seq<Event>, h: Group, b: seq<Event>, k: Group)
    requires Leads(g, a, h) && Leads(h, b, k)
    ensures Leads(g, a + b, k)
  {
    PathJoins(g, a, h, b, k);
  }

  lemma One(g: Group, e: Event)
    requires Enabled(g, e) && !(e.Rebalanced? && e.kind.OtherError?)
    ensures Leads(g, [e], Step(g, e))
  {
    assert [e][1..] == [];
  }

  // ---------------------------------------------------------------- the job in the worker's hand

  function Rank(w: Worker): nat {
    match w
    case Idle => 0
    case Stopped(_) => 0
    case Checked(_) => 1
    case Returned(_) => 2
    case Attempting(_) => 3
    case Popped(_) => 4
    case Backoff(_) => 4
  }

  /** A member at work on a job. */
  predicate Busy(g: Group, c: nat) {
    c in g.members && g.members[c].running && !g.members[c].worker.Idle? && !g.members[c].worker.Stopped?
  }

  /** The group after the job at hand is handled and its commit accepted. */
  function Finished(g: Group, c: nat): Group
    requires Busy(g, c)
  {
    var (m, o) := (g.members[c], g.members[c].worker.job.offset);
    With(g, c, m.(worker := Idle, done := m.done + [o])).(handled := g.handled + {o}, sent := g.sent + {o + 1})
  }

  /** The next step of a worker whose handler succeeds and whose commit is accepted. */
  function Onward(w: Worker, c: nat): Event
    requires !w.Idle? && !w.Stopped?
  {
    match w
    case Popped(_) => LoopCheck(c)
    case Backoff(_) => LoopCheck(c)
    case Attempting(_) => HandlerReturn(c, true)
    case Returned(_) => PostCheck(c)
    case Checked(_) => CommitCall(c, true)
  }

  lemma OnwardStep(g: Group, c: nat)
    requires Busy(g, c) && g.members[c].worker.job.generation == g.members[c].generation
    requires g.members[c].worker.Returned? || g.members[c].worker.Checked? ==> g.members[c].worker.job.offset in g.handled
    ensures var e := Onward(g.members[c].worker, c);
            && Enabled(g, e)
            && (if g.members[c].worker.Checked? then Step(g, e) == Finished(g, c)
                else
                  var h := Step(g, e);
                  && Busy(h, c) && Rank(h.members[c].worker) < Rank(g.members[c].worker)
                  && h.members[c] == g.members[c].(worker := h.members[c].worker)
                  && h.members[c].worker.job == g.members[c].worker.job
                  && (h.members[c].worker.Returned? || h.members[c].worker.Checked? ==> h.members[c].worker.job.offset in h.handled)
                  && Finished(h, c) == Finished(g, c))
  {
    var (m, e) := (g.members[c], Onward(g.members[c].worker, c));
    var (h, o) := (Step(g, e), m.worker.job.offset);
    if m.worker.Checked? {
      assert g.handled + {o} == g.handled;
    } else {
      assert h.members == g.members[c := m.(worker := h.members[c].worker)];
      assert h.handled + {o} == g.handled + {o};
    }
  }

  /** A job of the current generation is seen through, from wherever its worker stands. */
  lemma {:induction false} HandFinishes(g: Group, c: nat) returns (es: seq<Event>)
    requires Busy(g, c) && g.members[c].worker.job.generation == g.members[c].generation
    requires g.members[c].worker.Returned? || g.members[c].worker.Checked? ==> g.members[c].worker.job.offset in g.handled
    ensures Leads(g, es, Finished(g, c))
    decreases Rank(g.members[c].worker)
  {
    OnwardStep(g, c);
    var e := Onward(g.members[c].worker, c);
    if g.members[c].worker.Checked? {
      One(g, e);
      es := [e];
    } else {
      var rest := HandFinishes(Step(g, e), c);
      Prepend(g, e, rest, Finished(g, c));
      es := [e] + rest;
    }
  }

  /** Only the worker of `c` has moved, to idle; its commit value may have been sent. */
  ghost predicate Dropped(g: Group, c: nat, h: Group)
    requires c in g.members
  {
    h == With(g, c, g.members[c].(worker := Idle)).(sent := h.sent)
  }

  function DropRank(w: Worker): nat {
    match w
    case Idle => 0
    case Stopped(_) => 0
    case Checked(_) => 2
    case Attempting(_) => 2
    case _ => 1
  }

  /** A stale job is dropped, from wherever its worker stands. */
  lemma {:induction false} StaleIsDropped(g: Group, c: nat) returns (es: seq<Event>, h: Group)
    requires Busy(g, c) && g.members[c].worker.job.generation != g.members[c].generation
    ensures Leads(g, es, h) && Dropped(g, c, h)
    decreases DropRank(g.members[c].worker)
  {
    var m := g.members[c];
    var e := match m.worker
      case Popped(_) => LoopCheck(c)
      case Backoff(_) => LoopCheck(c)
      case Attempting(_) => HandlerReturn(c, false)
      case Returned(_) => PostCheck(c)
      case Checked(_) => CommitCall(c, false);
    var next := Step(g, e);
    if m.worker.Attempting? || m.worker.Checked? {
      assert next == With(g, c, m.(worker := Backoff(m.worker.job))).(sent := next.sent);
      var rest;
      rest, h := StaleIsDropped(next, c);
      assert Dropped(g, c, h);
      Prepend(g, e, rest, h);
      es := [e] + rest;
    } else {
      h := next;
      assert h == With(g, c, m.(worker := Idle));
      One(g, e);
      es := [e];
    }
  }

  // ---------------------------------------------------------------- any message

  /** Message `x` waits for member `c`, which runs and owns the partition. */
  ghost predicate Awaits(g: Group, c: nat, x: int) {
    Inv(g) && c in g.members && g.members[c].running && g.members[c].owns && x in g.log && x !in g.handled
  }

  function Unfetched(g: Group, c: nat): set<int>
    requires c in g.members
  {
    set y | y in g.log && y >= g.members[c].position
  }

  function HandRank(g: Group, c: nat): nat
    requires c in g.members
  {
    if g.members[c].worker.Idle? then 0 else 1
  }

  /** The lane fetches the next message of the log. */
  lemma LaneFetches(g: Group, c: nat, x: int) returns (e: Event)
    requires Awaits(g, c, x) && g.members[c].worker.Idle? && g.members[c].jobs == []
    ensures Enabled(g, e) && e.Deliver? && Awaits(Step(g, e), c, x)
    ensures Unfetched(Step(g, e), c) < Unfetched(g, c)
  {
    var m := g.members[c];
    assert LaneInv(g, m) && Outstanding(m) == [];
    assert x >= m.position;
    var o := Least(g.log, m.position);
    e := Deliver(c, o);
    StepKeeps(g, e);
    assert o in Unfetched(g, c) && o !in Unfetched(Step(g, e), c);
  }

  lemma LanePops(g: Group, c: nat, x: int)
    requires Awaits(g, c, x) && g.members[c].worker.Idle? && g.members[c].jobs != []
    ensures Enabled(g, Pop(c)) && Awaits(Step(g, Pop(c)), c, x)
    ensures Step(g, Pop(c)).members[c] == g.members[c].(worker := Popped(g.members[c].jobs[0]), jobs := g.members[c].jobs[1..])
    ensures Step(g, Pop(c)).log == g.log
  {
    StepKeeps(g, Pop(c));
  }

  /** The hand is emptied: its job is done, or dropped if stale. */
  lemma HandEmpties(g: Group, c: nat, x: int) returns (es: seq<Event>, h: Group)
    requires Awaits(g, c, x) && !g.members[c].worker.Idle?
    ensures Leads(g, es, h) && Inv(h) && c in h.members && h.log == g.log && h.members[c].worker.Idle?
    ensures h.members[c].jobs == g.members[c].jobs && h.members[c].position == g.members[c].position
    ensures Awaits(h, c, x) || (x in h.handled && Among(h.members[c].done, x))
  {
    var m := g.members[c];
    assert WorkerInv(g, m);
    if m.worker.job.generation == m.generation {
      es := HandFinishes(g, c);
      h := Finished(g, c);
      LeadsKeeps(g, es, h);
      if m.worker.job.offset == x {
        assert h.members[c].done[|m.done|] == x;
      }
    } else {
      es, h := StaleIsDropped(g, c);
      LeadsKeeps(g, es, h);
    }
  }

  /** Nearer to handling everything the member has fetched or may fetch. */
  ghost predicate Nearer(h: Group, g: Group, c: nat)
    requires c in g.members && c in h.members
  {
    || Unfetched(h, c) < Unfetched(g, c)
    || (Unfetched(h, c) == Unfetched(g, c) &&
          (|h.members[c].jobs| < |g.members[c].jobs|
           || (|h.members[c].jobs| == |g.members[c].jobs| && HandRank(h, c) < HandRank(g, c))))
  }

  lemma MovesOn(g: Group, c: nat, x: int) returns (es: seq<Event>, h: Group)
    requires Awaits(g, c, x)
    ensures Leads(g, es, h) && Inv(h) && c in h.members
    ensures (Awaits(h, c, x) && Nearer(h, g, c)) || (x in h.handled && Among(h.members[c].done, x))
  {
    if !g.members[c].worker.Idle? {
      es, h := HandEmpties(g, c, x);
      assert Unfetched(h, c) == Unfetched(g, c);
    } else if g.members[c].jobs == [] {
      var e := LaneFetches(g, c, x);
      One(g, e);
      es, h := [e], Step(g, e);
    } else {
      LanePops(g, c, x);
      One(g, Pop(c));
      es, h := [Pop(c)], Step(g, Pop(c));
      assert Unfetched(h, c) == Unfetched(g, c);
    }
  }

  /**
    Progress: from any state the group can be in, a member that runs and owns the partition can
    go on to handle any message not handled yet and have its commit accepted.
   */
  lemma {:induction false} CanProgress(g: Group, c: nat, x: int) returns (es: seq<Event>, h: Group)
    requires Awaits(g, c, x)
    ensures Leads(g, es, h) && Inv(h)
    ensures x in h.handled && c in h.members && Among(h.members[c].done, x)
    decreases Unfetched(g, c), |g.members[c].jobs|, HandRank(g, c)
  {
    es, h := MovesOn(g, c, x);
    if x !in h.handled {
      var mid, rest := h, [];
      rest, h := CanProgress(mid, c, x);
      LeadsJoins(g, es, mid, rest, h);
      es := es + rest;
    }
  }
}
