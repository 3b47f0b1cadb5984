/**
  The histories of a group, told from the events of a run: what was handled, sent and landed, which
  commits a generation had accepted, how long a worker keeps its job, and what it may still do
  once that job is stale or the member shut down.
 */
module KafkaHistory {
  import opened KafkaGroup
  import opened KafkaProofs

  // ---------------------------------------------------------------- what the events say

  /** The offset member `c` works on at an event of its own. */
  function AtWork(g: Group, c: nat): int {
    if c in g.members && !g.members[c].worker.Idle? then g.members[c].worker.job.offset else -1
  }

  predicate AtCurrent(g: Group, c: nat) {
    c in g.members && !g.members[c].worker.Idle? && g.members[c].worker.job.generation == g.members[c].generation
  }

  /** Somewhere on the path the handler returned successfully for this offset. */
  ghost predicate EverHandled(g: Group, es: seq<Event>, x: int)
    decreases |es|
  {
    && es != [] && Enabled(g, es[0])
    && ((es[0].HandlerReturn? && es[0].ok && AtWork(g, es[0].c) == x) || EverHandled(Step(g, es[0]), es[1..], x))
  }

  /** Somewhere on the path commitAsync was called for the message just below this value. */
  ghost predicate EverSent(g: Group, es: seq<Event>, v: int)
    decreases |es|
  {
    && es != [] && Enabled(g, es[0])
    && ((es[0].CommitCall? && AtWork(g, es[0].c) + 1 == v) || EverSent(Step(g, es[0]), es[1..], v))
  }

  /** Offsets whose commit calls were accepted from member `c` since its generation began, in order. */
  ghost function AcceptedSince(g: Group, es: seq<Event>, c: nat, before: seq<int>): seq<int>
    decreases |es|
  {
    if es == [] || !Enabled(g, es[0]) then before
    else
      AcceptedSince(Step(g, es[0]), es[1..], c,
                    if (es[0].Rebalanced? || es[0].Join?) && es[0].c == c then []
                    else if es[0] == CommitCall(c, true) && AtCurrent(g, c) then before + [AtWork(g, c)]
                    else before)
  }

  /** Offsets delivered to member `c` since its generation began, in order. */
  ghost function ReceivedSince(g: Group, es: seq<Event>, c: nat, before: seq<int>): seq<int>
    decreases |es|
  {
    if es == [] || !Enabled(g, es[0]) then before
    else
      ReceivedSince(Step(g, es[0]), es[1..], c,
                    if (es[0].Rebalanced? || es[0].Join?) && es[0].c == c then []
                    else if es[0].Deliver? && es[0].c == c then before + [es[0].offset]
                    else before)
  }

  function Done(g: Group, c: nat): seq<int> {
    if c in g.members then g.members[c].done else []
  }

  function Delivered(g: Group, c: nat): seq<int> {
    if c in g.members then g.members[c].delivered else []
  }

  // ---------------------------------------------------------------- the histories are those

  lemma SharedStep(g: Group, e: Event)
    requires Enabled(g, e)
    ensures var h := Step(g, e);
            && h.handled == g.handled + (if e.HandlerReturn? && e.ok then {AtWork(g, e.c)} else {})
            && h.sent == g.sent + (if e.CommitCall? then {AtWork(g, e.c) + 1} else {})
            && h.landed == g.landed + (if e.Land? then {e.value} else {})
            && h.log == g.log + (if e.Append? then {e.offset} else {})
  {
  }

  lemma {:induction false} HandledIsTrue(g: Group, es: seq<Event>, h: Group, x: int)
    requires Path(g, es, h)
    ensures x in h.handled <==> x in g.handled || EverHandled(g, es, x)
    decreases |es|
  {
    if es != [] {
      SharedStep(g, es[0]);
      HandledIsTrue(Step(g, es[0]), es[1..], h, x);
    }
  }

  lemma {:induction false} SentIsTrue(g: Group, es: seq<Event>, h: Group, v: int)
    requires Path(g, es, h)
    ensures v in h.sent <==> v in g.sent || EverSent(g, es, v)
    decreases |es|
  {
    if es != [] {
      SharedStep(g, es[0]);
      SentIsTrue(Step(g, es[0]), es[1..], h, v);
    }
  }

  lemma {:induction false} LandedIsTrue(g: Group, es: seq<Event>, h: Group, v: int)
    requires Path(g, es, h)
    ensures v in h.landed <==> v in g.landed || Land(v) in es
    decreases |es|
  {
    if es != [] {
      SharedStep(g, es[0]);
      LandedIsTrue(Step(g, es[0]), es[1..], h, v);
      assert es == [es[0]] + es[1..];
    }
  }

  lemma LaneStep(g: Group, e: Event, c: nat)
    requires Enabled(g, e)
    ensures Done(Step(g, e), c) ==
              if (e.Rebalanced? || e.Join?) && e.c == c then []
              else if e == CommitCall(c, true) && AtCurrent(g, c) then Done(g, c) + [AtWork(g, c)]
              else Done(g, c)
    ensures Delivered(Step(g, e), c) ==
              if (e.Rebalanced? || e.Join?) && e.c == c then []
              else if e.Deliver? && e.c == c then Delivered(g, c) + [e.offset]
              else Delivered(g, c)
  {
  }

  lemma {:induction false} DoneIsTrue(g: Group, es: seq<Event>, h: Group, c: nat)
    requires Path(g, es, h)
    ensures Done(h, c) == AcceptedSince(g, es, c, Done(g, c))
    decreases |es|
  {
    if es != [] {
      LaneStep(g, es[0], c);
      DoneIsTrue(Step(g, es[0]), es[1..], h, c);
    }
  }

  lemma {:induction false} DeliveredIsTrue(g: Group, es: seq<Event>, h: Group, c: nat)
    requires Path(g, es, h)
    ensures Delivered(h, c) == ReceivedSince(g, es, c, Delivered(g, c))
    decreases |es|
  {
    if es != [] {
      LaneStep(g, es[0], c);
      DeliveredIsTrue(Step(g, es[0]), es[1..], h, c);
    }
  }

  lemma {:induction false} HarmlessIsPath(g: Group, es: seq<Event>, h: Group)
    requires HarmlessPath(g, es, h)
    ensures Path(g, es, h)
    decreases |es|
  {
    if es != [] {
      HarmlessIsPath(Step(g, es[0]), es[1..], h);
    }
  }

  /**
    At least once, told from events alone: after any run whose rebalances lose nothing, the handler
    has returned successfully for every offset of the log below any value passed to commitAsync.
   */
  lemma HandledBeforeCommitted(g: Group, es: seq<Event>, h: Group, x: int, v: int)
    requires Init(g) && HarmlessPath(g, es, h)
    requires x in h.log && EverSent(g, es, v) && x < v
    ensures EverHandled(g, es, x)
  {
    HarmlessIsPath(g, es, h);
    SentIsTrue(g, es, h, v);
    HandledIsTrue(g, es, h, x);
    if x !in h.handled {
      AtLeastOnce(g, es, h, x);
      assert false;
    }
  }

  /**
    Causal order, told from events alone: when the handler runs on a message of the current
    generation, it has returned successfully for every lower offset of the log, and what this
    generation received is the messages whose commit calls were accepted, in order, then this
    message, then higher ones.
   */
  lemma ReceivedInOrder(g: Group, es: seq<Event>, h: Group, c: nat)
    requires Init(g) && HarmlessPath(g, es, h)
    requires c in h.members && h.members[c].worker.Attempting? && AtCurrent(h, c)
    ensures var (accepted, received) := (AcceptedSince(g, es, c, []), ReceivedSince(g, es, c, []));
            && accepted + [AtWork(h, c)] <= received
            && (forall x :: x in h.log && x < AtWork(h, c) ==> EverHandled(g, es, x))
            && (forall i :: |accepted| < i < |received| ==> received[i] > AtWork(h, c))
  {
    HarmlessIsPath(g, es, h);
    DoneIsTrue(g, es, h, c);
    DeliveredIsTrue(g, es, h, c);
    CausalOrder(g, es, h, c);
    var m := h.members[c];
    assert m.delivered == m.delivered[..|m.done|] + m.delivered[|m.done|..];
    assert m.done + [AtWork(h, c)] == m.delivered[..|m.done| + 1];
    forall x | x in h.log && x < AtWork(h, c)
      ensures EverHandled(g, es, x)
    {
      HandledIsTrue(g, es, h, x);
    }
    PathKeeps(g, es, h);
    assert LaneInv(h, m);
  }

  // ---------------------------------------------------------------- a worker and its job

  /** A refused commit or a failing handler puts the same job back for another attempt, and nothing is done. */
  lemma RefusedIsRetried(g: Group, c: nat)
    requires c in g.members && (g.members[c].worker.Checked? || g.members[c].worker.Attempting?)
    ensures var m := g.members[c];
            var e := if m.worker.Checked? then CommitCall(c, false) else HandlerReturn(c, false);
            && Enabled(g, e)
            && Step(g, e).members == g.members[c := m.(worker := Backoff(m.worker.job))]
            && Step(g, e).handled == g.handled
  {
  }

  /** Member `c` is at work on this job, which is current. */
  predicate WorksOn(g: Group, c: nat, job: Job) {
    && c in g.members && g.members[c].running && AtCurrent(g, c)
    && g.members[c].worker.job == job && !g.members[c].worker.Stopped?
  }

  predicate Releases(e: Event, c: nat) {
    (e.Rebalanced? && e.c == c) || e == Shutdown(c) || e == CommitCall(c, true)
  }

  lemma JobStepKeeps(g: Group, e: Event, c: nat, job: Job)
    requires Enabled(g, e) && WorksOn(g, c, job) && !Releases(e, c)
    ensures WorksOn(Step(g, e), c, job)
  {
  }

  /**
    A job is left only for an accepted commit, a rebalance or a shutdown: through any number of
    failing handlers and refused commits the worker stays with it and takes no other.
   */
  lemma {:induction false} JobIsKept(g: Group, es: seq<Event>, h: Group, c: nat, job: Job)
    requires Path(g, es, h) && WorksOn(g, c, job) && forall i :: 0 <= i < |es| ==> !Releases(es[i], c)
    ensures WorksOn(h, c, job)
    decreases |es|
  {
    if es != [] {
      JobStepKeeps(g, es[0], c, job);
      JobIsKept(Step(g, es[0]), es[1..], h, c, job);
    }
  }

  /** Completed handler calls and commit calls of a member on a path. */
  function Handlings(es: seq<Event>, c: nat): nat {
    if es == [] then 0 else (if es[0].HandlerReturn? && es[0].c == c then 1 else 0) + Handlings(es[1..], c)
  }

  function Commits(es: seq<Event>, c: nat): nat {
    if es == [] then 0 else (if es[0].CommitCall? && es[0].c == c then 1 else 0) + Commits(es[1..], c)
  }

  /** The worker is idle, its job is stale, or the member has been shut down. */
  predicate WindsDown(m: Member) {
    m.worker.Idle? || !m.running || m.worker.job.generation < m.generation
  }

  function Underway(m: Member): (nat, nat) {
    (if m.worker.Attempting? then 1 else 0, if m.worker.Checked? then 1 else 0)
  }

  /** The actor of an event other than these two neither completes nor begins a call. */
  lemma RestingStep(g: Group, e: Event, c: nat)
    requires Enabled(g, e) && c in g.members && WindsDown(g.members[c]) && Actor(e) == c
    requires e.Rebalanced? || e.Deliver? || e.Shutdown? || e.LoopCheck? || e.PostCheck?
    ensures c in Step(g, e).members && WindsDown(Step(g, e).members[c])
    ensures var (before, after) := (Underway(g.members[c]), Underway(Step(g, e).members[c]));
            after.0 <= before.0 && after.1 <= before.1
  {
  }

  lemma WindingStep(g: Group, e: Event, c: nat)
    requires Enabled(g, e) && c in g.members && WindsDown(g.members[c]) && e != Pop(c)
    ensures c in Step(g, e).members && WindsDown(Step(g, e).members[c])
    ensures var (before, after) := (Underway(g.members[c]), Underway(Step(g, e).members[c]));
            && after.0 + Handlings([e], c) <= before.0 && after.1 + Commits([e], c) <= before.1
  {
    assert Handlings([e], c) == (if e.HandlerReturn? && e.c == c then 1 else 0) + Handlings([e][1..], c);
    assert Commits([e], c) == (if e.CommitCall? && e.c == c then 1 else 0) + Commits([e][1..], c);
    OthersSpared(g, e);
    if (e.Rebalanced? || e.Deliver? || e.Shutdown? || e.LoopCheck? || e.PostCheck?) && e.c == c {
      RestingStep(g, e, c);
    }
  }

  /** Once a job is stale or the member shut down, at most the call under way completes. */
  lemma {:induction false} NothingNewIsBegun(g: Group, es: seq<Event>, h: Group, c: nat)
    requires Path(g, es, h) && c in g.members && WindsDown(g.members[c])
    requires forall i :: 0 <= i < |es| ==> es[i] != Pop(c)
    ensures Handlings(es, c) <= Underway(g.members[c]).0 && Commits(es, c) <= Underway(g.members[c]).1
    decreases |es|
  {
    if es != [] {
      WindingStep(g, es[0], c);
      assert [es[0]][1..] == [];
      NothingNewIsBegun(Step(g, es[0]), es[1..], h, c);
    }
  }

  lemma {:induction false} NoneTakenAfterShutdown(g: Group, es: seq<Event>, h: Group, c: nat)
    requires Path(g, es, h) && c in g.members && !g.members[c].running
    ensures forall i :: 0 <= i < |es| ==> es[i] != Pop(c)
    decreases |es|
  {
    if es != [] {
      OthersSpared(g, es[0]);
      NoneTakenAfterShutdown(Step(g, es[0]), es[1..], h, c);
    }
  }

  /** After shutdown a member completes at most one handler call and one commit call more. */
  lemma ShutdownStops(g: Group, es: seq<Event>, h: Group, c: nat)
    requires Enabled(g, Shutdown(c)) && Path(Step(g, Shutdown(c)), es, h)
    ensures Handlings(es, c) + Commits(es, c) <= 1
  {
    var stopped := Step(g, Shutdown(c));
    NoneTakenAfterShutdown(stopped, es, h, c);
    NothingNewIsBegun(stopped, es, h, c);
  }

  /** After a rebalance, until it takes another job, it completes at most the call under way. */
  lemma RebalanceStops(g: Group, kind: Rebalance, es: seq<Event>, h: Group, c: nat)
    requires Inv(g) && Enabled(g, Rebalanced(c, kind)) && Path(Step(g, Rebalanced(c, kind)), es, h)
    requires forall i :: 0 <= i < |es| ==> es[i] != Pop(c)
    ensures Handlings(es, c) + Commits(es, c) <= 1
  {
    assert WorkerInv(g, g.members[c]);
    NothingNewIsBegun(Step(g, Rebalanced(c, kind)), es, h, c);
  }
}
