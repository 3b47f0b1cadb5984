/**
  The consumer object: lanes filled by the poll thread, emptied by the workers, and the 128/64
  pause and resume calls that keep them bounded; then one lane of it over whole runs.
 */
module Backpressure {
  import K = KafkaGroup

  const HIGH: nat := 128
  const LOW: nat := 64

  type Topar = (string, int)

  /** PartitionLane, without its worker. */
  datatype Lane = Lane(jobs: seq<K.Job>, paused: bool, pauseGeneration: nat)

  const NEWLANE := Lane([], false, 0)

  datatype Call = NoCall | PauseCall | ResumeCall

  /** The flag as updateBackpressure reads it: a flag from an older generation is cleared first. */
  function Refreshed(lane: Lane, generation: nat): Lane {
    if lane.pauseGeneration == generation then lane else lane.(pauseGeneration := generation, paused := false)
  }

  function CallFor(lane: Lane): Call {
    if !lane.paused && |lane.jobs| >= HIGH then PauseCall
    else if lane.paused && |lane.jobs| <= LOW then ResumeCall
    else NoCall
  }

  /** One lane's turn in updateBackpressure; `ok` is how the client answers the call made. */
  function UpdateLane(lane: Lane, generation: nat, ok: bool): (r: Lane)
    ensures r.pauseGeneration == generation && r.jobs == lane.jobs
  {
    var now := Refreshed(lane, generation);
    match CallFor(now)
    case NoCall => now
    case PauseCall => if ok then now.(paused := true) else now
    case ResumeCall => if ok then now.(paused := false) else now
  }

  /** What that call does to the client's own pause state of the partition. */
  function UpdateHeld(lane: Lane, generation: nat, ok: bool, owned: bool, held: bool): bool {
    match CallFor(Refreshed(lane, generation))
    case NoCall => held
    case PauseCall => if ok && owned then true else held
    case ResumeCall => if ok then false else held
  }

  /** The lane is paused in this generation, so that its flag counts. */
  predicate PausedNow(lane: Lane, generation: nat) {
    lane.paused && lane.pauseGeneration == generation
  }

  /** The law of the two thresholds: full pauses, at most half full resumes, between them nothing changes. */
  predicate Hysteresis(before: bool, jobs: nat, answered: bool, after: bool) {
    after <==> if !answered then before else jobs >= 128 || (jobs > 64 && before)
  }

  /** An update follows that law, at the flag, and at the client of an assigned partition that agrees with it. */
  lemma UpdateFollowsLaw(lane: Lane, generation: nat, ok: bool, held: bool)
    ensures Hysteresis(PausedNow(lane, generation), |lane.jobs|, ok, UpdateLane(lane, generation, ok).paused)
    ensures held == PausedNow(lane, generation) ==>
              Hysteresis(held, |lane.jobs|, ok, UpdateHeld(lane, generation, ok, true, held))
  {
  }

  function Enqueue(lane: Lane, offset: int, generation: nat): Lane {
    lane.(jobs := lane.jobs + [K.Job(offset, generation)])
  }

  // ---------------------------------------------------------------- the object

  class KafkaConsumer {
    var generation: nat
    var lanes: map<Topar, Lane>
    /** The client's own state: partitions assigned, and those of them it has paused. */
    var owned: set<Topar>
    var held: set<Topar>

    /** The flag of every assigned lane is the client's real pause state, once refreshed. */
    ghost predicate Coherent()
      reads this
    {
      && held <= owned
      && (forall p :: p in held ==> p in lanes)
      && (forall p :: p in lanes ==> lanes[p].pauseGeneration <= generation)
      && (forall p :: p in owned && p in lanes ==>
            (p in held <==> Refreshed(lanes[p], generation).paused))
    }

    constructor ()
      ensures generation == 0 && lanes == map[] && owned == {} && held == {} && Coherent()
    {
      generation, lanes, owned, held := 0, map[], {}, {};
    }

    /** rebalance_cb; an error code other than the usual two reaches neither client call. */
    method RebalanceCb(kind: K.Rebalance, partitions: set<Topar>)
      requires Coherent()
      modifies this`generation, this`owned, this`held
      ensures generation == old(generation) + 1
      ensures owned == (if kind.Assign? then partitions else if kind.Revoke? then {} else old(owned))
      ensures held == if kind.OtherError? then old(held) else {}
      ensures Coherent() <==> !kind.OtherError? || old(held) == {}
    {
      generation := generation + 1;
      if kind.Assign? {
        owned, held := partitions, {};
      } else if kind.Revoke? {
        owned, held := {}, {};
      }
      assert forall p :: p in lanes ==> !Refreshed(lanes[p], generation).paused;
      assert forall p :: p in held ==> p in lanes && p in owned;
      assert held != {} ==> exists p :: p in held;
    }

    method ConsumeMsg(p: Topar, offset: int)
      requires Coherent() && p in owned && p !in held
      modifies this`lanes
      ensures lanes == old(lanes)[p := Enqueue(if p in old(lanes) then old(lanes)[p] else NEWLANE, offset, generation)]
      ensures lanes[p].jobs == (if p in old(lanes) then old(lanes)[p].jobs else []) + [K.Job(offset, generation)]
      ensures Coherent()
    {
      if p !in lanes {
        lanes := lanes[p := NEWLANE];
      }
      lanes := lanes[p := lanes[p].(jobs := lanes[p].jobs + [K.Job(offset, generation)])];
    }

    /** The worker takes the oldest job, if there is one. */
    method TakeJob(p: Topar) returns (job: seq<K.Job>)
      requires Coherent() && p in lanes
      modifies this`lanes
      ensures p in lanes && lanes == old(lanes)[p := lanes[p]]
      ensures job + lanes[p].jobs == old(lanes[p].jobs) && |job| <= 1
      ensures job == [] <==> old(lanes[p].jobs) == []
      ensures lanes[p] == old(lanes[p]).(jobs := lanes[p].jobs)
      ensures Coherent()
    {
      job := [];
      if lanes[p].jobs != [] {
        job := [lanes[p].jobs[0]];
        lanes := lanes[p := lanes[p].(jobs := lanes[p].jobs[1..])];
      }
    }

    /** One lane's turn in updateBackpressure. */
    method Turn(p: Topar, answer: bool)
      requires p in lanes && held <= owned
      modifies this`lanes, this`held
      ensures lanes == old(lanes)[p := UpdateLane(old(lanes)[p], generation, answer)]
      ensures held == if UpdateHeld(old(lanes)[p], generation, answer, p in owned, p in old(held))
                      then old(held) + {p} else old(held) - {p}
      ensures held <= owned
      ensures lanes[p].jobs == old(lanes)[p].jobs && lanes[p].pauseGeneration == generation
      ensures Hysteresis(PausedNow(old(lanes)[p], generation), |lanes[p].jobs|, answer, lanes[p].paused)
      ensures p in owned && (p in old(held) <==> PausedNow(old(lanes)[p], generation)) ==>
                Hysteresis(p in old(held), |lanes[p].jobs|, answer, p in held)
    {
      var lane := lanes[p];
      if lane.pauseGeneration != generation {
        lane := lane.(pauseGeneration := generation, paused := false);
      }
      if !lane.paused && |lane.jobs| >= HIGH {
        if answer {
          held := if p in owned then held + {p} else held;
          lane := lane.(paused := true);
        }
      } else if lane.paused && |lane.jobs| <= LOW {
        if answer {
          held := held - {p};
          lane := lane.(paused := false);
        }
      }
      lanes := lanes[p := lane];
    }

    /**
      updateBackpressure: every lane has its turn, whatever the client answers, and afterwards
      the flag of each assigned lane equals the client's pause state. Where the client answers,
      a partition with 128 jobs is held, one with at most 64 is not, and any other stays.
     */
    method UpdateBackpressure(answers: Topar -> bool)
      requires Coherent()
      modifies this`lanes, this`held
      ensures lanes.Keys == old(lanes.Keys)
      ensures forall p :: p in lanes ==> lanes[p] == UpdateLane(old(lanes)[p], generation, answers(p))
      ensures forall p :: p in lanes && p in owned ==>
                (p in held <==> UpdateHeld(old(lanes)[p], generation, answers(p), true, p in old(held)))
      ensures forall p :: p in lanes && p in owned ==> (p in held <==> lanes[p].paused)
      ensures forall p :: p in lanes && p in owned ==>
                && lanes[p].jobs == old(lanes)[p].jobs
                && Hysteresis(p in old(held), |lanes[p].jobs|, answers(p), p in held)
      ensures Coherent()
    {
      var todo := lanes.Keys;
      while todo != {}
        invariant todo <= lanes.Keys == old(lanes.Keys)
        invariant forall p :: p in lanes ==>
                    lanes[p] == if p in todo then old(lanes)[p] else UpdateLane(old(lanes)[p], generation, answers(p))
        invariant forall p :: p in lanes && p in owned ==>
                    (p in held <==> if p in todo then p in old(held)
                                    else UpdateHeld(old(lanes)[p], generation, answers(p), true, p in old(held)))
        invariant held <= owned && forall p :: p in held ==> p in lanes
        decreases todo
      {
        var p :| p in todo;
        todo := todo - {p};
        Turn(p, answers(p));
      }
    }
  }

  // ---------------------------------------------------------------- one lane over a run

  datatype Poll = Updating | Consuming(rebalanced: bool)

  /** One lane, its partition's place at the client, the poll thread, and the counts of a run. */
  datatype Run = Run(lane: Lane, owned: bool, held: bool, generation: nat, poll: Poll,
                     rebalancedPolls: nat, failedPauses: nat, pops: nat, resumes: nat)

  const FRESHRUN := Run(NEWLANE, false, false, 0, Updating, 0, 0, 0, 0)

  datatype Event = Update(ok: bool) | Callback(kind: K.Rebalance) | ConsumeReturn(offset: int, mine: bool) | Take

  predicate Enabled(r: Run, e: Event) {
    match e
    case Update(_) => r.poll.Updating?
    case Callback(_) => r.poll.Consuming?
    case ConsumeReturn(_, mine) => r.poll.Consuming? && (mine ==> r.owned && !r.held)
    case Take => r.lane.jobs != []
  }

  function Step(r: Run, e: Event): Run
    requires Enabled(r, e)
  {
    match e
    case Update(ok) =>
      var call := CallFor(Refreshed(r.lane, r.generation));
      r.(lane := UpdateLane(r.lane, r.generation, ok),
         held := UpdateHeld(r.lane, r.generation, ok, r.owned, r.held),
         poll := Consuming(false),
         failedPauses := if call.PauseCall? && !ok then r.failedPauses + 1 else r.failedPauses,
         resumes := if call.ResumeCall? && ok then r.resumes + 1 else r.resumes)
    case Callback(kind) =>
      r.(generation := r.generation + 1,
         owned := match kind case Assign(has, _) => has case Revoke => false case OtherError => r.owned,
         held := kind.OtherError? && r.held,
         poll := Consuming(true),
         rebalancedPolls := if r.poll.rebalanced then r.rebalancedPolls else r.rebalancedPolls + 1)
    case ConsumeReturn(offset, mine) =>
      r.(poll := Updating, lane := if mine then Enqueue(r.lane, offset, r.generation) else r.lane)
    case Take => r.(lane := r.lane.(jobs := r.lane.jobs[1..]), pops := r.pops + 1)
  }

  function Excess(r: Run): nat {
    r.rebalancedPolls + r.failedPauses
  }

  ghost predicate Inv(r: Run) {
    && r.lane.pauseGeneration <= r.generation
    && (r.owned && r.lane.paused && r.lane.pauseGeneration == r.generation ==> r.held)
    && |r.lane.jobs| <= HIGH + Excess(r)
    && (r.poll.Consuming? && (r.poll.rebalanced || (r.owned && !r.held)) ==> |r.lane.jobs| < HIGH + Excess(r))
    && LOW * r.resumes <= r.pops
    && (r.lane.paused ==> LOW * r.resumes + HIGH - |r.lane.jobs| <= r.pops)
  }

  lemma StepKeeps(r: Run, e: Event)
    requires Inv(r) && Enabled(r, e)
    ensures Inv(Step(r, e))
  {
  }

  ghost predicate Path(r: Run, es: seq<Event>, t: Run)
    decreases |es|
  {
    if es == [] then r == t else Enabled(r, es[0]) && Path(Step(r, es[0]), es[1..], t)
  }

  lemma {:induction false} PathKeeps(r: Run, es: seq<Event>, t: Run)
    requires Inv(r) && Path(r, es, t)
    ensures Inv(t)
    decreases |es|
  {
    if es != [] {
      StepKeeps(r, es[0]);
      PathKeeps(Step(r, es[0]), es[1..], t);
    }
  }

  // ---------------------------------------------------------------- counts and contents, from events

  function Takes(es: seq<Event>): nat {
    if es == [] then 0 else (if es[0].Take? then 1 else 0) + Takes(es[1..])
  }

  /** Polls in which at least one rebalance callback ran. */
  function RebalancedPolls(r: Run, es: seq<Event>): nat
    decreases |es|
  {
    if es == [] || !Enabled(r, es[0]) then 0
    else (if es[0].Callback? && r.poll == Consuming(false) then 1 else 0) + RebalancedPolls(Step(r, es[0]), es[1..])
  }

  /** Pause calls the client refused: a full, unpaused lane at an update it does not answer. */
  function RefusedPauses(r: Run, es: seq<Event>): nat
    decreases |es|
  {
    if es == [] || !Enabled(r, es[0]) then 0
    else
      (if es[0] == Update(false) && |r.lane.jobs| >= 128 && !PausedNow(r.lane, r.generation) then 1 else 0)
      + RefusedPauses(Step(r, es[0]), es[1..])
  }

  /** Successful resumes: a paused lane at most half full at an update the client answers. */
  function Resumes(r: Run, es: seq<Event>): nat
    decreases |es|
  {
    if es == [] || !Enabled(r, es[0]) then 0
    else
      (if es[0] == Update(true) && |r.lane.jobs| <= 64 && PausedNow(r.lane, r.generation) then 1 else 0)
      + Resumes(Step(r, es[0]), es[1..])
  }

  /** The jobs fetched for the lane, in order, each with the generation it was fetched in. */
  function FetchedJobs(r: Run, es: seq<Event>): seq<K.Job>
    decreases |es|
  {
    if es == [] || !Enabled(r, es[0]) then []
    else
      (if es[0].ConsumeReturn? && es[0].mine then [K.Job(es[0].offset, r.generation)] else [])
      + FetchedJobs(Step(r, es[0]), es[1..])
  }

  /** Whether the partition is assigned after these events. */
  function OwnedAfter(before: bool, es: seq<Event>): bool
    decreases |es|
  {
    if es == [] then before
    else
      OwnedAfter(match es[0]
                 case Callback(Assign(has, _)) => has
                 case Callback(Revoke) => false
                 case _ => before, es[1..])
  }

  lemma {:induction false} CountsAreTrue(r: Run, es: seq<Event>, t: Run)
    requires Path(r, es, t)
    ensures t.pops == r.pops + Takes(es) && t.resumes == r.resumes + Resumes(r, es)
    ensures t.rebalancedPolls == r.rebalancedPolls + RebalancedPolls(r, es)
    ensures t.failedPauses == r.failedPauses + RefusedPauses(r, es)
    ensures t.owned == OwnedAfter(r.owned, es)
    decreases |es|
  {
    if es != [] {
      CountsAreTrue(Step(r, es[0]), es[1..], t);
    }
  }

  lemma JobsStep(r: Run, e: Event)
    requires Enabled(r, e)
    ensures e.Take? ==> r.lane.jobs == [r.lane.jobs[0]] + Step(r, e).lane.jobs
    ensures !e.Take? ==>
              Step(r, e).lane.jobs
              == r.lane.jobs + (if e.ConsumeReturn? && e.mine then [K.Job(e.offset, r.generation)] else [])
  {
  }

  /** A lane is first in, first out: what was in it and came is what was taken and is left, in order. */
  lemma {:induction false} LaneIsFifo(r: Run, es: seq<Event>, t: Run)
    requires Path(r, es, t)
    ensures Takes(es) <= |r.lane.jobs + FetchedJobs(r, es)|
    ensures t.lane.jobs == (r.lane.jobs + FetchedJobs(r, es))[Takes(es)..]
    decreases |es|
  {
    if es != [] {
      var next := Step(r, es[0]);
      JobsStep(r, es[0]);
      LaneIsFifo(next, es[1..], t);
      var (all, rest) := (r.lane.jobs + FetchedJobs(r, es), next.lane.jobs + FetchedJobs(next, es[1..]));
      if es[0].Take? {
        assert all == [r.lane.jobs[0]] + rest;
      } else {
        assert all == rest;
      }
    }
  }

  /**
    Over any run a lane holds at most 128 jobs, plus one for each poll during which a rebalance
    ran, plus one for each pause call the client refused.
   */
  lemma LaneIsBounded(es: seq<Event>, t: Run)
    requires Path(FRESHRUN, es, t)
    ensures |t.lane.jobs| <= 128 + RebalancedPolls(FRESHRUN, es) + RefusedPauses(FRESHRUN, es)
  {
    PathKeeps(FRESHRUN, es, t);
    CountsAreTrue(FRESHRUN, es, t);
  }

  /** Hysteresis is amortised: each successful resume is paid for by 64 jobs the worker took. */
  lemma ResumesArePaidFor(es: seq<Event>, t: Run)
    requires Path(FRESHRUN, es, t)
    ensures 64 * Resumes(FRESHRUN, es) <= Takes(es)
  {
    PathKeeps(FRESHRUN, es, t);
    CountsAreTrue(FRESHRUN, es, t);
  }

  // ---------------------------------------------------------------- flag and client

  /** The two states of a pause, the consumer's once refreshed and the client's, agree. */
  predicate Agrees(r: Run) {
    r.owned ==> (r.held <==> Refreshed(r.lane, r.generation).paused)
  }

  /** What updateBackpressure is for: the flag of an assigned lane is the client's pause state. */
  predicate FlagExact(r: Run) {
    r.owned ==> (r.held <==> r.lane.paused)
  }

  /**
    One update, exactly: the flag is right after it if and only if it was right before, or the
    lane still holds 128 jobs and the client answers the repeated pause.
   */
  lemma UpdateExactIff(r: Run, ok: bool)
    requires Inv(r) && r.poll.Updating? && (r.held ==> r.owned)
    ensures FlagExact(Step(r, Update(ok))) <==> Agrees(r) || (|r.lane.jobs| >= HIGH && ok)
    ensures Agrees(Step(r, Update(ok))) <==> FlagExact(Step(r, Update(ok)))
  {
  }

  /**
    Whether the partition has been orphaned in its pause: a callback with another error code
    found it paused, no assignment or revocation has come since, and no update has since been
    able to repeat the pause. Told from callbacks, job counts and answers, not from the flag.
   */
  predicate Orphaned(before: bool, r: Run, e: Event) {
    match e
    case Callback(kind) => kind.OtherError? && (before || r.held)
    case Update(ok) => before && !(|r.lane.jobs| >= HIGH && ok)
    case _ => before
  }

  /** After every update of the run the flag is right. */
  ghost predicate ExactThroughout(r: Run, es: seq<Event>)
    decreases |es|
  {
    es != [] && Enabled(r, es[0]) ==>
      (es[0].Update? ==> FlagExact(Step(r, es[0]))) && ExactThroughout(Step(r, es[0]), es[1..])
  }

  /** Every update that finds the partition orphaned also finds 128 jobs and a willing client. */
  ghost predicate OrphansRecover(orphaned: bool, r: Run, es: seq<Event>)
    decreases |es|
  {
    es != [] && Enabled(r, es[0]) ==>
      && (es[0].Update? && orphaned ==> |r.lane.jobs| >= HIGH && es[0].ok)
      && OrphansRecover(Orphaned(orphaned, r, es[0]), Step(r, es[0]), es[1..])
  }

  lemma OrphanedMeans(orphaned: bool, r: Run, e: Event)
    requires Inv(r) && Enabled(r, e) && (r.held ==> r.owned) && (orphaned <==> !Agrees(r))
    ensures var t := Step(r, e);
            Inv(t) && (t.held ==> t.owned) && (Orphaned(orphaned, r, e) <==> !Agrees(t))
  {
  }

  lemma {:induction false} ExactIffOrphansRecover(orphaned: bool, r: Run, es: seq<Event>)
    requires Inv(r) && (r.held ==> r.owned) && (orphaned <==> !Agrees(r))
    ensures ExactThroughout(r, es) <==> OrphansRecover(orphaned, r, es)
    decreases |es|
  {
    if es != [] && Enabled(r, es[0]) {
      OrphanedMeans(orphaned, r, es[0]);
      if es[0].Update? {
        UpdateExactIff(r, es[0].ok);
      }
      ExactIffOrphansRecover(Orphaned(orphaned, r, es[0]), Step(r, es[0]), es[1..]);
    }
  }

  /**
    Over any run from the start: after every update the flag equals the client's pause state
    if and only if every update that finds the partition orphaned by an odd callback also finds
    at least 128 jobs queued and has its pause call answered.
   */
  lemma FlagIsRightIff(es: seq<Event>, t: Run)
    requires Path(FRESHRUN, es, t)
    ensures ExactThroughout(FRESHRUN, es) <==> OrphansRecover(false, FRESHRUN, es)
  {
    ExactIffOrphansRecover(false, FRESHRUN, es);
  }

  /** No callback with another error code finds the partition paused. */
  ghost predicate NoneOrphaned(r: Run, es: seq<Event>)
    decreases |es|
  {
    es != [] && Enabled(r, es[0]) ==>
      (es[0] == Callback(K.OtherError) ==> !r.held) && NoneOrphaned(Step(r, es[0]), es[1..])
  }

  /** In particular the flag is right throughout when odd callbacks only meet unpaused lanes. */
  lemma {:induction false} FlagIsRight(r: Run, es: seq<Event>, t: Run)
    requires Inv(r) && Agrees(r) && (r.held ==> r.owned) && Path(r, es, t) && NoneOrphaned(r, es)
    ensures Agrees(t) && ExactThroughout(r, es)
    decreases |es|
  {
    if es != [] {
      OrphanedMeans(false, r, es[0]);
      if es[0].Update? {
        UpdateExactIff(r, es[0].ok);
      }
      FlagIsRight(Step(r, es[0]), es[1..], t);
    }
  }

  // ---------------------------------------------------------------- a pause comes to an end

  /** An event of the worker and of the poll thread only: nothing rebalances and nothing is fetched. */
  predicate Drains(e: Event) {
    e.Take? || e == Update(true) || (e.ConsumeReturn? && !e.mine)
  }

  /**
    A paused partition is resumed: from any state in which flag and client agree on a pause, the
    worker taking jobs and the next update that the client answers leave it fetched again.
   */
  lemma {:induction false} PausedIsResumed(r: Run) returns (es: seq<Event>, t: Run)
    requires r.owned && r.held && Agrees(r)
    ensures Path(r, es, t) && forall i :: 0 <= i < |es| ==> Drains(es[i])
    ensures t.owned && !t.held && !t.lane.paused
    decreases |r.lane.jobs|, r.poll.Consuming?
  {
    var e := if |r.lane.jobs| > 64 then Take else if r.poll.Consuming? then ConsumeReturn(0, false) else Update(true);
    var next, rest := Step(r, e), [];
    if e.Update? {
      t := next;
    } else {
      rest, t := PausedIsResumed(next);
    }
    es := [e] + rest;
    assert es[1..] == rest;
  }

  /** And a full lane is paused at once, when the client answers. */
  lemma FullIsPaused(r: Run)
    requires r.owned && r.poll.Updating? && |r.lane.jobs| >= 128 && Agrees(r)
    ensures Step(r, Update(true)).held && Step(r, Update(true)).lane.paused
  {
  }

  // ---------------------------------------------------------------- a run that strands a lane

  /** The disagreement does not heal: without another rebalance the partition stays paused. */
  predicate Stuck(r: Run) {
    r.owned && r.held && !Refreshed(r.lane, r.generation).paused && |r.lane.jobs| < HIGH
  }

  lemma {:induction false} StuckStays(r: Run, es: seq<Event>, t: Run)
    requires Stuck(r) && Path(r, es, t) && forall i :: 0 <= i < |es| ==> !es[i].Callback?
    ensures Stuck(t) && |t.lane.jobs| <= |r.lane.jobs|
    decreases |es|
  {
    if es != [] {
      StuckStays(Step(r, es[0]), es[1..], t);
    }
  }

  lemma OddCallbackStrands(r: Run)
    requires r.owned && r.held && r.poll.Consuming? && |r.lane.jobs| < HIGH
    requires r.lane.pauseGeneration <= r.generation
    ensures Stuck(Step(r, Callback(K.OtherError)))
  {
  }

  lemma {:induction false} PathJoins(r: Run, a: seq<Event>, s: Run, b: seq<Event>, t: Run)
    requires Path(r, a, s) && Path(s, b, t)
    ensures Path(r, a + b, t)
    decreases |a|
  {
    if a == [] {
      assert a + b == b;
    } else {
      PathJoins(Step(r, a[0]), a[1..], s, b, t);
      assert (a + b)[1..] == a[1..] + b;
    }
  }

  lemma Then(r: Run, es: seq<Event>, s: Run, e: Event) returns (longer: seq<Event>)
    requires Path(r, es, s) && Enabled(s, e)
    ensures longer == es + [e] && Path(r, longer, Step(s, e))
  {
    longer := es + [e];
    assert [e][1..] == [];
    PathJoins(r, es, s, [e], Step(s, e));
  }

  /** Assigned, then one message per poll until the lane holds `n` of them. */
  lemma {:induction false} Fills(n: nat) returns (es: seq<Event>, r: Run)
    requires n <= HIGH
    ensures Path(FRESHRUN, es, r)
    ensures r.owned && !r.held && !r.lane.paused && |r.lane.jobs| == n
    ensures r.generation == 1 && r.lane.pauseGeneration <= 1
    ensures r.poll.Updating? <==> n > 0
    ensures r.poll.Consuming? ==> r.poll.rebalanced
  {
    if n == 0 {
      var up, assign := Update(true), Callback(K.Assign(true, 0));
      es := Then(FRESHRUN, [], FRESHRUN, up);
      es := Then(FRESHRUN, es, Step(FRESHRUN, up), assign);
      r := Step(Step(FRESHRUN, up), assign);
    } else {
      es, r := Fills(n - 1);
      if n > 1 {
        es := Then(FRESHRUN, es, r, Update(true));
        r := Step(r, Update(true));
      }
      es := Then(FRESHRUN, es, r, ConsumeReturn(n, true));
      r := Step(r, ConsumeReturn(n, true));
    }
  }

  /**
    From the start: 128 messages fetched, the pause, one job taken, the odd callback, and after
    the next update the flag is wrong and the partition stuck.
   */
  lemma StrandIsReachable() returns (es: seq<Event>, t: Run)
    ensures Path(FRESHRUN, es, t) && Stuck(t) && t.poll == Consuming(false) && !FlagExact(t)
  {
    var filled;
    es, filled := Fills(HIGH);
    var paused := Step(filled, Update(true));
    es := Then(FRESHRUN, es, filled, Update(true));
    assert paused.held && paused.lane.paused;
    var taken := Step(paused, Take);
    es := Then(FRESHRUN, es, paused, Take);
    var odd := Callback(K.OtherError);
    OddCallbackStrands(taken);
    var orphan := Step(taken, odd);
    es := Then(FRESHRUN, es, taken, odd);
    var polled := Step(orphan, ConsumeReturn(0, false));
    es := Then(FRESHRUN, es, orphan, ConsumeReturn(0, false));
    t := Step(polled, Update(true));
    es := Then(FRESHRUN, es, polled, Update(true));
  }
}
