/**
  One Kafka partition as a consumer group sees it: the log, the commits, and for each member
  the FIFO lane and worker KafkaConsumer keeps for that partition. A member's other partitions
  reach this one only through its shared generation counter and its running flag.
 */
module KafkaGroup {

  datatype Job = Job(offset: int, generation: nat)

  /** processPartition: which await the lane's worker stands at, and with which job. */
  datatype Worker =
    | Idle
    | Popped(job: Job)        // before the retry loop's test
    | Attempting(job: Job)    // handler invoked
    | Returned(job: Job)      // handler succeeded, generation not yet re-checked
    | Checked(job: Job)       // about to call commitAsync
    | Backoff(job: Job)       // waiting a second before the loop's test
    | Stopped(job: Job)       // left the loops because the consumer shut down

  /**
    `delivered` and `done` are the history of the current generation: offsets received, and
    offsets whose commit call was accepted.
   */
  datatype Member = Member(generation: nat, running: bool, owns: bool, position: int,
                           jobs: seq<Job>, worker: Worker, delivered: seq<int>, done: seq<int>)

  const NEWCOMER := Member(0, true, false, 0, [], Idle, [], [])

  /**
    `handled` holds the offsets the handler completed at least once, `sent` every value ever
    passed to commitAsync, `landed` those the broker has ever stored.
   */
  datatype Group = Group(log: set<int>, end: int, handled: set<int>, sent: set<int>, landed: set<int>,
                         members: map<nat, Member>)

  datatype Rebalance = Assign(has: bool, start: int) | Revoke | OtherError

  datatype Event =
    | Append(offset: int)
    | Join(c: nat)
    | Rebalanced(c: nat, kind: Rebalance)
    | Deliver(c: nat, offset: int)
    | Pop(c: nat)
    | LoopCheck(c: nat)
    | HandlerReturn(c: nat, ok: bool)
    | PostCheck(c: nat)
    | CommitCall(c: nat, accepted: bool)
    | Land(value: int)
    | Shutdown(c: nat)

  /** The offset is the next one of the log at or after the fetch position. */
  ghost predicate IsNext(log: set<int>, position: int, offset: int) {
    offset in log && offset >= position && forall x :: x in log && x >= position ==> x >= offset
  }

  ghost predicate Enabled(g: Group, e: Event) {
    match e
    case Append(offset) => offset >= g.end
    case Join(c) => c !in g.members
    case Land(value) => value in g.sent
    case Rebalanced(c, kind) => c in g.members && (kind.Assign? && kind.has ==> kind.start == 0 || kind.start in g.landed)
    case Deliver(c, offset) => c in g.members && g.members[c].owns && IsNext(g.log, g.members[c].position, offset)
    case Pop(c) => c in g.members && g.members[c].running && g.members[c].worker.Idle? && g.members[c].jobs != []
    case LoopCheck(c) => c in g.members && (g.members[c].worker.Popped? || g.members[c].worker.Backoff?)
    case HandlerReturn(c, _) => c in g.members && g.members[c].worker.Attempting?
    case PostCheck(c) => c in g.members && g.members[c].worker.Returned?
    case CommitCall(c, _) => c in g.members && g.members[c].worker.Checked?
    case Shutdown(c) => c in g.members
  }

  /** rebalance_cb: the generation moves first; then only an assignment or a revocation acts. */
  function Rebalancing(m: Member, kind: Rebalance): Member {
    var n := m.(generation := m.generation + 1, delivered := [], done := []);
    match kind
    case Assign(has, start) => n.(owns := has, position := if has then start else m.position)
    case Revoke => n.(owns := false)
    case OtherError => n
  }

  /** consumeMsg: the job carries the generation read at the push. */
  function Push(m: Member, offset: int): Member {
    m.(jobs := m.jobs + [Job(offset, m.generation)], position := offset + 1, delivered := m.delivered + [offset])
  }

  /** Leaving the retry loop without completing the job. */
  function Abandon(m: Member, job: Job): Member {
    m.(worker := if m.running then Idle else Stopped(job))
  }

  function Recheck(m: Member, job: Job, proceed: Worker): Member {
    if m.running && job.generation == m.generation then m.(worker := proceed) else Abandon(m, job)
  }

  function Committed(m: Member, job: Job, accepted: bool): Member {
    if !accepted then m.(worker := Backoff(job))
    else m.(worker := Idle, done := if job.generation == m.generation then m.done + [job.offset] else m.done)
  }

  function With(g: Group, c: nat, m: Member): Group {
    g.(members := g.members[c := m])
  }

  ghost function Step(g: Group, e: Event): Group
    requires Enabled(g, e)
  {
    match e
    case Append(offset) => g.(log := g.log + {offset}, end := offset + 1)
    case Join(c) => With(g, c, NEWCOMER)
    case Land(value) => g.(landed := g.landed + {value})
    case Rebalanced(c, kind) => With(g, c, Rebalancing(g.members[c], kind))
    case Deliver(c, offset) => With(g, c, Push(g.members[c], offset))
    case Pop(c) => With(g, c, g.members[c].(worker := Popped(g.members[c].jobs[0]), jobs := g.members[c].jobs[1..]))
    case LoopCheck(c) => With(g, c, Recheck(g.members[c], g.members[c].worker.job, Attempting(g.members[c].worker.job)))
    case HandlerReturn(c, ok) =>
      var job := g.members[c].worker.job;
      if ok then With(g, c, g.members[c].(worker := Returned(job))).(handled := g.handled + {job.offset})
      else With(g, c, g.members[c].(worker := Backoff(job)))
    case PostCheck(c) => With(g, c, Recheck(g.members[c], g.members[c].worker.job, Checked(g.members[c].worker.job)))
    case CommitCall(c, accepted) =>
      var job := g.members[c].worker.job;
      With(g, c, Committed(g.members[c], job, accepted)).(sent := g.sent + {job.offset + 1})
    case Shutdown(c) => With(g, c, g.members[c].(running := false))
  }

  ghost predicate Init(g: Group) {
    && g.end >= 0 && (forall x :: x in g.log ==> 0 <= x < g.end)
    && g == Group(g.log, g.end, {}, {}, {}, map[])
  }

  /** `h` is reached from `g` by these events, in this order. */
  ghost predicate Path(g: Group, es: seq<Event>, h: Group)
    decreases |es|
  {
    if es == [] then g == h else Enabled(g, es[0]) && Path(Step(g, es[0]), es[1..], h)
  }

  // ---------------------------------------------------------------- safety and its invariant

  /** Everything below an offset has been handled at least once. */
  ghost predicate HandledBelow(g: Group, offset: int) {
    forall x :: x in g.log && x < offset ==> x in g.handled
  }

  /** No value ever sent for commit steps over an unhandled message. */
  ghost predicate CommitsSafe(g: Group) {
    forall v :: v in g.sent ==> HandledBelow(g, v)
  }

  /** Offsets of the queued jobs of one generation, in queue order. */
  function Current(jobs: seq<Job>, generation: nat): (r: seq<int>)
    ensures |r| <= |jobs|
  {
    if jobs == [] then []
    else if jobs[0].generation == generation then [jobs[0].offset] + Current(jobs[1..], generation)
    else Current(jobs[1..], generation)
  }

  function InHand(m: Member): seq<int> {
    if m.worker.Idle? || m.worker.job.generation != m.generation then [] else [m.worker.job.offset]
  }

  /** What this generation received and has not finished, in order. */
  function Outstanding(m: Member): seq<int> {
    InHand(m) + Current(m.jobs, m.generation)
  }

  ghost predicate AscendingBelow(s: seq<int>, bound: int) {
    && (forall i, j :: 0 <= i < j < |s| ==> s[i] < s[j])
    && (forall i :: 0 <= i < |s| ==> s[i] < bound)
  }

  ghost predicate Among(s: seq<int>, x: int) {
    exists i :: 0 <= i < |s| && s[i] == x
  }

  /** The worker's own evidence about its job, whatever has become of the generation since. */
  ghost predicate WorkerInv(g: Group, m: Member) {
    !m.worker.Idle? ==>
      && m.worker.job.generation <= m.generation && m.worker.job.offset in g.log
      && (m.worker.Attempting? || m.worker.Backoff? || m.worker.Returned? || m.worker.Checked? ==>
            HandledBelow(g, m.worker.job.offset))
      && (m.worker.Returned? || m.worker.Checked? ==> m.worker.job.offset in g.handled)
      && (m.worker.Stopped? ==> !m.running)
  }

  ghost predicate LaneInv(g: Group, m: Member) {
    && m.position <= g.end
    && (forall i :: 0 <= i < |m.jobs| ==> m.jobs[i].generation <= m.generation && m.jobs[i].offset in g.log)
    && AscendingBelow(Outstanding(m), m.position)
    && (!m.owns ==> Outstanding(m) == [])
    && (m.owns ==> forall x :: x in g.log && x < m.position ==> x in g.handled || Among(Outstanding(m), x))
    && m.delivered == m.done + Outstanding(m) && AscendingBelow(m.delivered, m.position)
    && (forall i :: 0 <= i < |m.done| ==> m.done[i] in g.handled)
  }

  ghost predicate Inv(g: Group) {
    && 0 <= g.end && (forall x :: x in g.log ==> 0 <= x < g.end)
    && CommitsSafe(g) && g.landed <= g.sent && (forall v :: v in g.sent ==> v <= g.end)
    && (forall c :: c in g.members ==> WorkerInv(g, g.members[c]) && LaneInv(g, g.members[c]))
  }
}
