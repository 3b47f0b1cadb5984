/**
  At-least-once consumption and causal order over every run of a consumer group whose
  rebalances lose nothing. The branch of rebalance_cb that may is the business of KafkaLoss.
 */
module KafkaProofs {
  import opened KafkaGroup

  // ---------------------------------------------------------------- jobs of one generation

  lemma {:induction false} CurrentAppend(jobs: seq<Job>, job: Job, generation: nat)
    ensures Current(jobs + [job], generation) ==
            Current(jobs, generation) + (if job.generation == generation then [job.offset] else [])
  {
    if jobs == [] {
      assert [job][1..] == [];
    } else {
      assert (jobs + [job])[1..] == jobs[1..] + [job];
      CurrentAppend(jobs[1..], job, generation);
    }
  }

  /** A new generation makes every queued job stale. */
  lemma {:induction false} CurrentStale(jobs: seq<Job>, generation: nat)
    requires forall i :: 0 <= i < |jobs| ==> jobs[i].generation < generation
    ensures Current(jobs, generation) == []
  {
    if jobs != [] {
      CurrentStale(jobs[1..], generation);
    }
  }

  // ---------------------------------------------------------------- others are unaffected

  ghost predicate Grows(g: Group, h: Group) {
    && g.log <= h.log && g.handled <= h.handled && g.end <= h.end
    && (forall x :: x in h.log && x !in g.log ==> x >= g.end)
  }

  lemma HandledBelowGrows(g: Group, h: Group, offset: int)
    requires Grows(g, h) && HandledBelow(g, offset) && offset <= g.end
    ensures HandledBelow(h, offset)
  {
  }

  lemma MemberGrows(g: Group, h: Group, m: Member)
    requires Grows(g, h) && WorkerInv(g, m) && LaneInv(g, m)
    requires forall x :: x in g.log ==> 0 <= x < g.end
    ensures WorkerInv(h, m) && LaneInv(h, m)
  {
    if !m.worker.Idle? && HandledBelow(g, m.worker.job.offset) {
      HandledBelowGrows(g, h, m.worker.job.offset);
    }
  }

  lemma OthersGrow(g: Group, h: Group, c: nat)
    requires Inv(g) && Grows(g, h)
    requires forall d :: d in h.members && d != c ==> d in g.members && h.members[d] == g.members[d]
    ensures forall d :: d in h.members && d != c ==> WorkerInv(h, h.members[d]) && LaneInv(h, h.members[d])
  {
    forall d | d in h.members && d != c
      ensures WorkerInv(h, h.members[d]) && LaneInv(h, h.members[d])
    {
      MemberGrows(g, h, g.members[d]);
    }
  }

  // ---------------------------------------------------------------- the member that moved

  /** A rebalance is harmless unless it keeps an assignment over messages it makes stale. */
  ghost predicate Harmless(g: Group, m: Member, kind: Rebalance) {
    kind.OtherError? && m.owns ==> HandledBelow(g, m.position)
  }

  /** Wherever consumption restarts, nothing unhandled is below. */
  lemma ResumeIsSafe(g: Group, start: int)
    requires Inv(g) && (start == 0 || start in g.landed)
    ensures HandledBelow(g, start) && start <= g.end
  {
  }

  lemma RebalancingKeeps(g: Group, m: Member, kind: Rebalance)
    requires Inv(g) && WorkerInv(g, m) && LaneInv(g, m) && Harmless(g, m, kind)
    requires kind.Assign? && kind.has ==> kind.start == 0 || kind.start in g.landed
    ensures WorkerInv(g, Rebalancing(m, kind)) && LaneInv(g, Rebalancing(m, kind))
  {
    var n := Rebalancing(m, kind);
    CurrentStale(m.jobs, n.generation);
    if kind.Assign? && kind.has {
      ResumeIsSafe(g, kind.start);
    }
  }

  lemma AscendingAppend(all: seq<int>, bound: int, x: int)
    requires AscendingBelow(all, bound) && x >= bound
    ensures AscendingBelow(all + [x], x + 1)
  {
  }

  lemma AmongAppend(all: seq<int>, last: int, x: int)
    requires Among(all, x) || x == last
    ensures Among(all + [last], x)
  {
    if x == last {
      assert (all + [last])[|all|] == x;
    } else {
      var i :| 0 <= i < |all| && all[i] == x;
      assert (all + [last])[i] == x;
    }
  }

  lemma PushCovers(g: Group, position: int, all: seq<int>, offset: int)
    requires IsNext(g.log, position, offset)
    requires forall x :: x in g.log && x < position ==> x in g.handled || Among(all, x)
    ensures forall x :: x in g.log && x < offset + 1 ==> x in g.handled || Among(all + [offset], x)
  {
    forall x | x in g.log && x < offset + 1 && x !in g.handled
      ensures Among(all + [offset], x)
    {
      AmongAppend(all, offset, x);
    }
  }

  lemma SeqAssoc<T>(a: seq<T>, b: seq<T>, c: seq<T>)
    ensures a + (b + c) == (a + b) + c
  {
  }

  lemma PushKeeps(g: Group, m: Member, offset: int)
    requires Inv(g) && WorkerInv(g, m) && LaneInv(g, m)
    requires m.owns && IsNext(g.log, m.position, offset)
    ensures WorkerInv(g, Push(m, offset)) && LaneInv(g, Push(m, offset))
  {
    var (n, all) := (Push(m, offset), Outstanding(m));
    CurrentAppend(m.jobs, Job(offset, m.generation), m.generation);
    SeqAssoc(InHand(m), Current(m.jobs, m.generation), [offset]);
    assert Outstanding(n) == all + [offset];
    AscendingAppend(all, m.position, offset);
    PushCovers(g, m.position, all, offset);
    SeqAssoc(m.done, all, [offset]);
    AscendingAppend(m.delivered, m.position, offset);
  }

  lemma PopKeeps(g: Group, m: Member)
    requires WorkerInv(g, m) && LaneInv(g, m) && m.worker.Idle? && m.jobs != []
    ensures var n := m.(worker := Popped(m.jobs[0]), jobs := m.jobs[1..]);
            WorkerInv(g, n) && LaneInv(g, n)
  {
    var n := m.(worker := Popped(m.jobs[0]), jobs := m.jobs[1..]);
    assert Outstanding(n) == Outstanding(m);
  }

  /** The job in the worker's hand is the oldest outstanding one, so all below is handled. */
  lemma HeadIsNext(g: Group, m: Member)
    requires LaneInv(g, m) && !m.worker.Idle? && m.worker.job.generation == m.generation
    ensures HandledBelow(g, m.worker.job.offset)
  {
    var o := m.worker.job.offset;
    assert Outstanding(m)[0] == o;
    forall x | x in g.log && x < o
      ensures x in g.handled
    {
      assert !Among(Outstanding(m), x);
    }
  }

  lemma RecheckKeeps(g: Group, m: Member, proceed: Worker)
    requires WorkerInv(g, m) && LaneInv(g, m)
    requires m.worker.Popped? || m.worker.Backoff? ==> proceed == Attempting(m.worker.job)
    requires m.worker.Returned? ==> proceed == Checked(m.worker.job)
    requires m.worker.Popped? || m.worker.Backoff? || m.worker.Returned?
    ensures WorkerInv(g, Recheck(m, m.worker.job, proceed)) && LaneInv(g, Recheck(m, m.worker.job, proceed))
  {
    var n := Recheck(m, m.worker.job, proceed);
    if m.worker.job.generation == m.generation {
      HeadIsNext(g, m);
    }
    assert Outstanding(n) == Outstanding(m);
  }

  lemma AmongTail(s: seq<int>, x: int)
    requires Among(s, x) && x != s[0]
    ensures Among(s[1..], x)
  {
    var i :| 0 <= i < |s| && s[i] == x;
    assert s[1..][i - 1] == x;
  }

  lemma FinishCovers(g: Group, owns: bool, position: int, all: seq<int>)
    requires all != [] && all[0] in g.handled
    requires owns ==> forall x :: x in g.log && x < position ==> x in g.handled || Among(all, x)
    ensures owns ==> forall x :: x in g.log && x < position ==> x in g.handled || Among(all[1..], x)
  {
    if owns {
      forall x | x in g.log && x < position && x !in g.handled
        ensures Among(all[1..], x)
      {
        AmongTail(all, x);
      }
    }
  }

  lemma AscendingTail(all: seq<int>, bound: int)
    requires all != [] && AscendingBelow(all, bound)
    ensures AscendingBelow(all[1..], bound)
  {
  }

  lemma DoneGrows(g: Group, done: seq<int>, o: int)
    requires o in g.handled && forall i :: 0 <= i < |done| ==> done[i] in g.handled
    ensures forall i :: 0 <= i < |done + [o]| ==> (done + [o])[i] in g.handled
  {
  }

  /** The job of the current generation at the worker's hand is done and its commit accepted. */
  lemma FinishKeeps(g: Group, m: Member, n: Member)
    requires WorkerInv(g, m) && LaneInv(g, m) && m.worker.Checked? && m.worker.job.generation == m.generation
    requires n == Committed(m, m.worker.job, true)
    ensures LaneInv(g, n)
  {
    var o, all, tail := m.worker.job.offset, Outstanding(m), Current(m.jobs, m.generation);
    assert InHand(m) == [o] && InHand(n) == [];
    assert all == [o] + tail;
    assert all[1..] == tail;
    assert Outstanding(n) == tail;
    AscendingTail(all, m.position);
    SeqAssoc(m.done, [o], tail);
    DoneGrows(g, m.done, o);
    FinishCovers(g, m.owns, m.position, all);
  }

  lemma CommittedKeeps(g: Group, m: Member, accepted: bool)
    requires WorkerInv(g, m) && LaneInv(g, m) && m.worker.Checked?
    ensures WorkerInv(g, Committed(m, m.worker.job, accepted)) && LaneInv(g, Committed(m, m.worker.job, accepted))
  {
    if accepted && m.worker.job.generation == m.generation {
      FinishKeeps(g, m, Committed(m, m.worker.job, accepted));
    } else {
      assert Outstanding(Committed(m, m.worker.job, accepted)) == Outstanding(m);
    }
  }

  lemma HandlerReturnKeeps(g: Group, h: Group, m: Member, ok: bool)
    requires WorkerInv(h, m) && LaneInv(h, m) && m.worker.Attempting?
    requires ok ==> m.worker.job.offset in h.handled
    ensures var n := m.(worker := if ok then Returned(m.worker.job) else Backoff(m.worker.job));
            WorkerInv(h, n) && LaneInv(h, n)
  {
    var n := m.(worker := if ok then Returned(m.worker.job) else Backoff(m.worker.job));
    assert Outstanding(n) == Outstanding(m);
  }

  // ---------------------------------------------------------------- every step

  ghost predicate HarmlessEvent(g: Group, e: Event) {
    e.Rebalanced? && e.c in g.members ==> Harmless(g, g.members[e.c], e.kind)
  }

  function Actor(e: Event): nat {
    match e
    case Append(_) => 0
    case Join(c) => c
    case Rebalanced(c, _) => c
    case Deliver(c, _) => c
    case Pop(c) => c
    case LoopCheck(c) => c
    case HandlerReturn(c, _) => c
    case PostCheck(c) => c
    case CommitCall(c, _) => c
    case Land(_) => 0
    case Shutdown(c) => c
  }

  lemma SharedGrows(g: Group, e: Event)
    requires Enabled(g, e)
    ensures Grows(g, Step(g, e))
  {
  }

  lemma OthersSpared(g: Group, e: Event)
    requires Enabled(g, e)
    ensures forall d :: d in Step(g, e).members && d != Actor(e) ==>
              d in g.members && Step(g, e).members[d] == g.members[d]
  {
  }

  lemma StepGrows(g: Group, e: Event)
    requires Enabled(g, e)
    ensures Grows(g, Step(g, e))
    ensures forall d :: d in Step(g, e).members && d != Actor(e) ==>
              d in g.members && Step(g, e).members[d] == g.members[d]
  {
    SharedGrows(g, e);
    OthersSpared(g, e);
  }

  /** The acting member's lane, judged before the shared state has grown. */
  lemma ActorKeepsLocally(g: Group, e: Event, m: Member) returns (n: Member)
    requires Inv(g) && Enabled(g, e) && HarmlessEvent(g, e) && !e.HandlerReturn?
    requires Actor(e) in g.members && m == g.members[Actor(e)] && WorkerInv(g, m) && LaneInv(g, m)
    ensures n == Step(g, e).members[Actor(e)]
    ensures !e.CommitCall? ==> WorkerInv(g, n) && LaneInv(g, n)
    ensures e.CommitCall? ==> m.worker.Checked? && n == Committed(m, m.worker.job, e.accepted)
  {
    n := Step(g, e).members[Actor(e)];
    match e {
      case Rebalanced(_, kind) =>
        assert n == Rebalancing(m, kind);
        RebalancingKeeps(g, m, kind);
      case Deliver(_, offset) =>
        assert n == Push(m, offset);
        PushKeeps(g, m, offset);
      case Pop(_) =>
        assert n == m.(worker := Popped(m.jobs[0]), jobs := m.jobs[1..]);
        PopKeeps(g, m);
      case LoopCheck(_) =>
        assert n == Recheck(m, m.worker.job, Attempting(m.worker.job));
        RecheckKeeps(g, m, Attempting(m.worker.job));
      case PostCheck(_) =>
        assert n == Recheck(m, m.worker.job, Checked(m.worker.job));
        RecheckKeeps(g, m, Checked(m.worker.job));
      case _ =>
    }
  }

  lemma ActorKeeps(g: Group, e: Event)
    requires Inv(g) && Enabled(g, e) && HarmlessEvent(g, e)
    ensures var (h, c) := (Step(g, e), Actor(e));
            c in h.members ==> WorkerInv(h, h.members[c]) && LaneInv(h, h.members[c])
  {
    var (h, c) := (Step(g, e), Actor(e));
    StepGrows(g, e);
    if c in g.members {
      var m := g.members[c];
      MemberGrows(g, h, m);
      if e.HandlerReturn? {
        HandlerReturnKeeps(g, h, m, e.ok);
      } else {
        var n := ActorKeepsLocally(g, e, m);
        if e.CommitCall? {
          CommittedKeeps(h, m, e.accepted);
        } else {
          MemberGrows(g, h, n);
        }
      }
    }
  }

  /** A checked job's commit value covers handled messages only. */
  lemma CommitValueSafe(g: Group, m: Member)
    requires WorkerInv(g, m) && m.worker.Checked?
    ensures HandledBelow(g, m.worker.job.offset + 1)
  {
  }

  lemma CommitsStaySafe(g: Group, e: Event)
    requires Inv(g) && Enabled(g, e)
    ensures CommitsSafe(Step(g, e))
  {
    var h := Step(g, e);
    StepGrows(g, e);
    if e.CommitCall? {
      CommitValueSafe(g, g.members[e.c]);
    }
    forall v | v in h.sent
      ensures HandledBelow(h, v)
    {
      if v in g.sent {
        HandledBelowGrows(g, h, v);
      }
    }
  }

  lemma SharedKeeps(g: Group, e: Event)
    requires Inv(g) && Enabled(g, e)
    ensures var h := Step(g, e);
            && 0 <= h.end && (forall x :: x in h.log ==> 0 <= x < h.end)
            && h.landed <= h.sent && (forall v :: v in h.sent ==> v <= h.end)
  {
    if e.CommitCall? {
      assert WorkerInv(g, g.members[e.c]);
    }
  }

  lemma StepKeeps(g: Group, e: Event)
    requires Inv(g) && Enabled(g, e) && HarmlessEvent(g, e)
    ensures Inv(Step(g, e))
  {
    StepGrows(g, e);
    SharedKeeps(g, e);
    ActorKeeps(g, e);
    OthersGrow(g, Step(g, e), Actor(e));
    CommitsStaySafe(g, e);
  }

  /** A run every rebalance of which is harmless where it happens. */
  ghost predicate HarmlessPath(g: Group, es: seq<Event>, h: Group)
    decreases |es|
  {
    if es == [] then g == h
    else Enabled(g, es[0]) && HarmlessEvent(g, es[0]) && HarmlessPath(Step(g, es[0]), es[1..], h)
  }

  lemma {:induction false} PathKeeps(g: Group, es: seq<Event>, h: Group)
    requires Inv(g) && HarmlessPath(g, es, h)
    ensures Inv(h) && Grows(g, h)
    decreases |es|
  {
    if es != [] {
      StepKeeps(g, es[0]);
      StepGrows(g, es[0]);
      PathKeeps(Step(g, es[0]), es[1..], h);
    }
  }

  // ---------------------------------------------------------------- theorems

  /** Assignments and revocations are always harmless. */
  lemma OrdinaryRebalancesAreHarmless(g: Group, es: seq<Event>, h: Group)
    requires Path(g, es, h) && forall i :: 0 <= i < |es| ==> !(es[i].Rebalanced? && es[i].kind.OtherError?)
    ensures HarmlessPath(g, es, h)
    decreases |es|
  {
    if es != [] {
      OrdinaryRebalancesAreHarmless(Step(g, es[0]), es[1..], h);
    }
  }

  /**
    At least once. After any run of a group, every value ever sent for commit, however late,
    lost or reordered, and every position consumption may restart from, is at most the first
    offset never handled: an unhandled message is always at or above any resume position.
   */
  lemma AtLeastOnce(g: Group, es: seq<Event>, h: Group, x: int)
    requires Init(g) && HarmlessPath(g, es, h)
    requires x in h.log && x !in h.handled
    ensures forall v :: v in h.sent || v in h.landed ==> v <= x
  {
    PathKeeps(g, es, h);
    forall v | v in h.sent || v in h.landed
      ensures v <= x
    {
      assert v in h.sent && HandledBelow(h, v);
    }
  }

  /**
    Causal order. Whenever the handler runs on a message, every lower offset of the partition
    has been handled at least once, by whichever member and in whichever generation; and the
    lower offsets its own generation received are exactly those whose commits were accepted.
   */
  lemma CausalOrder(g: Group, es: seq<Event>, h: Group, c: nat)
    requires Init(g) && HarmlessPath(g, es, h)
    requires c in h.members && h.members[c].worker.Attempting?
    ensures var (m, o) := (h.members[c], h.members[c].worker.job.offset);
            && HandledBelow(h, o)
            && (m.worker.job.generation == m.generation ==>
                  && |m.done| < |m.delivered| && m.delivered[..|m.done|] == m.done && m.delivered[|m.done|] == o
                  && (forall i :: 0 <= i < |m.delivered| ==> (m.delivered[i] < o <==> i < |m.done|))
                  && forall i :: 0 <= i < |m.done| ==> m.done[i] in h.handled)
  {
    PathKeeps(g, es, h);
    var m := h.members[c];
    assert WorkerInv(h, m) && LaneInv(h, m);
    assert m.delivered == m.done + Outstanding(m);
  }

  // ---------------------------------------------------------------- after a commit

  lemma {:induction false} HandledStays(g: Group, es: seq<Event>, h: Group)
    requires Path(g, es, h)
    ensures g.handled <= h.handled
    decreases |es|
  {
    if es != [] {
      SharedGrows(g, es[0]);
      HandledStays(Step(g, es[0]), es[1..], h);
    }
  }

  /** What a generation received lies above `o`, and so does all it has still to fetch. */
  ghost predicate Beyond(m: Member, o: int) {
    m.position > o && forall i :: 0 <= i < |m.delivered| ==> m.delivered[i] > o
  }

  lemma StepStaysBeyond(g: Group, e: Event, d: nat, o: int)
    requires Enabled(g, e) && d in g.members && Beyond(g.members[d], o)
    ensures d in Step(g, e).members && g.members[d].generation <= Step(g, e).members[d].generation
    ensures Step(g, e).members[d].generation == g.members[d].generation ==> Beyond(Step(g, e).members[d], o)
  {
    OthersSpared(g, e);
  }

  lemma {:induction false} GenerationsGrow(g: Group, es: seq<Event>, h: Group, d: nat)
    requires Path(g, es, h) && d in g.members
    ensures d in h.members && g.members[d].generation <= h.members[d].generation
    decreases |es|
  {
    if es != [] {
      OthersSpared(g, es[0]);
      GenerationsGrow(Step(g, es[0]), es[1..], h, d);
    }
  }

  lemma {:induction false} StaysBeyond(g: Group, es: seq<Event>, h: Group, d: nat, o: int)
    requires Path(g, es, h) && d in g.members && Beyond(g.members[d], o)
    ensures d in h.members && (h.members[d].generation == g.members[d].generation ==> Beyond(h.members[d], o))
    decreases |es|
  {
    if es != [] {
      var next := Step(g, es[0]);
      StepStaysBeyond(g, es[0], d, o);
      GenerationsGrow(next, es[1..], h, d);
      if next.members[d].generation == g.members[d].generation {
        StaysBeyond(next, es[1..], h, d, o);
      }
    }
  }

  /** From the assignment of a position on, a generation receives nothing below it. */
  lemma RestartsBeyond(h: Group, d: nat, start: int, fs: seq<Event>, k: Group, o: int)
    requires Enabled(h, Rebalanced(d, Assign(true, start))) && start > o
    requires Path(Step(h, Rebalanced(d, Assign(true, start))), fs, k)
    ensures d in k.members
    ensures k.members[d].generation == h.members[d].generation + 1 ==> Beyond(k.members[d], o)
  {
    var again := Step(h, Rebalanced(d, Assign(true, start)));
    assert again.members[d] == Rebalancing(h.members[d], Assign(true, start));
    assert Beyond(again.members[d], o);
    StaysBeyond(again, fs, k, d, o);
  }

  lemma HandledForGood(g: Group, c: nat, accepted: bool, es: seq<Event>, h: Group)
    requires Inv(g) && Enabled(g, CommitCall(c, accepted)) && Path(Step(g, CommitCall(c, accepted)), es, h)
    ensures g.members[c].worker.job.offset in h.handled
  {
    assert WorkerInv(g, g.members[c]);
    SharedGrows(g, CommitCall(c, accepted));
    HandledStays(Step(g, CommitCall(c, accepted)), es, h);
  }

  /**
    A commit ends redelivery. Member `c` passes the value of message `o` to commitAsync, in any
    run; whatever follows, `o` has been handled, and when a member is assigned the partition
    from that value or a higher one, nothing it receives in that generation is at or below `o`.
   */
  lemma CommitAdvances(g: Group, c: nat, accepted: bool, es: seq<Event>, h: Group,
                       d: nat, start: int, fs: seq<Event>, k: Group)
    requires Inv(g) && Enabled(g, CommitCall(c, accepted))
    requires Path(Step(g, CommitCall(c, accepted)), es, h)
    requires Enabled(h, Rebalanced(d, Assign(true, start))) && start >= g.members[c].worker.job.offset + 1
    requires Path(Step(h, Rebalanced(d, Assign(true, start))), fs, k)
    ensures d in k.members && g.members[c].worker.job.offset in h.handled
    ensures k.members[d].generation == h.members[d].generation + 1 ==>
              && (forall i :: 0 <= i < |k.members[d].delivered| ==> k.members[d].delivered[i] > g.members[c].worker.job.offset)
              && (forall next :: Enabled(k, Deliver(d, next)) ==> next > g.members[c].worker.job.offset)
  {
    HandledForGood(g, c, accepted, es, h);
    RestartsBeyond(h, d, start, fs, k, g.members[c].worker.job.offset);
  }
}
