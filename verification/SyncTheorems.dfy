/**
  Theorems about whole runs of the offline-sync protocol, and about any sequence of sessions.
 */
module SyncTheorems {
  import opened Messages
  import opened Session
  import opened SyncProtocol
  import opened SyncProofs

  /** A run of one session: its states, and the event between each two. */
  datatype Run = Run(states: seq<State>, events: seq<Event>)
  {
    ghost predicate Valid() {
      && |states| == |events| + 1 && Init(states[0])
      && forall k {:trigger events[k]} :: 0 <= k < |events| ==>
           WellFormed(states[k]) && Enabled(states[k], events[k]) && states[k + 1] == Step(states[k], events[k])
    }

    function Last(): State
      requires states != []
    {
      states[|states| - 1]
    }
  }

  lemma {:induction false} Reachable(r: Run, k: nat)
    requires r.Valid() && k < |r.states|
    ensures Inv(r.states[k])
  {
    if k == 0 {
      InitInv(r.states[0]);
    } else {
      Reachable(r, k - 1);
      var e := r.events[k - 1];
      assert r.states[(k - 1) + 1] == Step(r.states[k - 1], e);
      StepKeeps(r.states[k - 1], e);
    }
  }

  // ---------------------------------------------------------------- what one step never undoes

  lemma WriteContinues(st: State, f: Frame)
    requires SessionInv(st.ses) && WellFormed(st)
    ensures Continues(st.ses, QueuedWrite(st.ses, f))
    ensures Continues(st.ses, AsyncSend(st.ses, f))
    ensures Continues(st.ses, OnDisconnect(st.ses))
  {
    QueuedWriteKeeps(st.ses, f);
    DisconnectKeeps(st.ses);
  }

  lemma FailContinues(st: State, silent: bool)
    requires SessionInv(st.ses) && WellFormed(st)
    ensures Continues(st.ses, Fail(st, silent).ses)
  {
    WriteContinues(st, SyncError);
  }

  lemma NextItemContinues(st: State, after: Seq64, page: seq<Message>, i: nat)
    requires SessionInv(st.ses) && WellFormed(st) && i <= |page| && page != []
    ensures Continues(st.ses, NextItem(st, after, page, i).ses)
  {
    FailContinues(st, false);
  }

  lemma RegisterContinues(s: Session, id: string, seqNo: int)
    requires SessionInv(s) && !s.disconnected
    ensures Continues(s, RegisterAndSend(s, id, seqNo))
  {
    QueuedWriteKeeps(s.(pending := s.pending[id := seqNo]), Offline(id));
  }

  lemma FetchResumeContinues(st: State)
    requires SessionInv(st.ses) && WellFormed(st) && st.sync.Fetched?
    ensures Continues(st.ses, Step(st, FetchResume).ses)
  {
    var r := st.sync.reply;
    if r.Page? && r.messages == [] {
      WriteContinues(st, SyncDone);
    } else if r.Page? && |r.messages| <= BATCH {
      NextItemContinues(st, st.sync.after, r.messages, 0);
    } else {
      FailContinues(st, false);
    }
  }

  lemma GateReturnContinues(st: State, commitOk: bool, silent: bool)
    requires SessionInv(st.ses) && WellFormed(st) && st.sync.Leaving?
    ensures Continues(st.ses, Step(st, GateReturn(commitOk, silent)).ses)
  {
    if st.sync.ok && commitOk {
      NextItemContinues(st, st.sync.after, st.sync.page, st.sync.i + 1);
    } else {
      FailContinues(st, silent);
    }
  }

  lemma ActionContinues(st: State)
    requires SessionInv(st.ses) && WellFormed(st) && st.sync.Admitted?
    ensures Continues(st.ses, Step(st, ActionRun).ses)
  {
    if !st.ses.disconnected {
      var m := st.sync.page[st.sync.i];
      RegisterContinues(st.ses, m.id, m.seqNo);
    }
  }

  lemma WaitContinues(st: State)
    requires SessionInv(st.ses) && WellFormed(st) && st.sync.Parked?
    ensures Continues(st.ses, Step(st, TimerResume).ses)
  {
    DisconnectKeeps(st.ses.(timer := NoTimer));
  }

  lemma AckContinues(st: State, e: Event)
    requires WellFormed(st) && Enabled(st, e) && IsAckEvent(e)
    ensures Continues(st.ses, Step(st, e).ses)
  {
  }

  lemma ScanStepContinues(st: State, e: Event)
    requires SessionInv(st.ses) && WellFormed(st) && Enabled(st, e)
    requires !IsSessionEvent(e) && !IsAckEvent(e)
    ensures Continues(st.ses, Step(st, e).ses)
  {
    match e {
      case PreAuthAbort => DisconnectKeeps(st.ses);
      case Announce(tag) => WriteContinues(st, Other(tag));
      case FetchResume => FetchResumeContinues(st);
      case GateReturn(commitOk, silent) => GateReturnContinues(st, commitOk, silent);
      case ActionRun => ActionContinues(st);
      case TimerResume => WaitContinues(st);
      case _ =>
    }
  }

  lemma StepContinues(st: State, e: Event)
    requires SessionInv(st.ses) && Roles(st) && Enabled(st, e)
    ensures Continues(st.ses, Step(st, e).ses)
  {
    if IsSessionEvent(e) {
      SessionEventMoves(st, e);
    } else if IsAckEvent(e) {
      AckContinues(st, e);
    } else {
      ScanStepContinues(st, e);
    }
  }

  lemma StepGrowsReceipts(st: State, e: Event)
    requires WellFormed(st) && Enabled(st, e)
    ensures st.world.receipts <= Step(st, e).world.receipts
    ensures st.world.cancelled <= Step(st, e).world.cancelled
    ensures st.reading ==> Step(st, e).reading || !Scanning(st.sync)
  {
  }

  lemma ContinuesOn(a: Session, b: Session, c: Session)
    requires Continues(a, b) && Continues(b, c)
    ensures Continues(a, c)
  {
  }

  lemma RunStepContinues(r: Run, k: nat)
    requires r.Valid() && k < |r.events|
    ensures Continues(r.states[k].ses, r.states[k + 1].ses)
    ensures r.states[k].world.receipts <= r.states[k + 1].world.receipts
  {
    Reachable(r, k);
    var e := r.events[k];
    StepContinues(r.states[k], e);
    StepGrowsReceipts(r.states[k], e);
  }

  lemma {:induction false} RunContinues(r: Run, i: nat, j: nat)
    requires r.Valid() && i <= j < |r.states|
    ensures Continues(r.states[i].ses, r.states[j].ses)
    ensures r.states[i].world.receipts <= r.states[j].world.receipts
  {
    if i < j {
      RunContinues(r, i, j - 1);
      RunStepContinues(r, j - 1);
      ContinuesOn(r.states[i].ses, r.states[j - 1].ses, r.states[j].ses);
    }
  }

  // ---------------------------------------------------------------- session safety

  /**
    No lost wake-up: at any moment of any run a waiter's timer is armed exactly while something is
    pending, and never is more than one page outstanding.
   */
  lemma NoLostWakeUp(r: Run, k: nat)
    requires r.Valid() && k < |r.states|
    ensures var st := r.states[k];
            && (st.sync.Parked? <==> !st.ses.timer.NoTimer?)
            && (st.ses.timer.Armed? <==> st.sync.Parked? && st.ses.pending != map[])
            && (st.ses.timer.Armed? ==> !st.ses.disconnected)
            && (st.sync.Fetching? ==> st.ses.disconnected || st.ses.pending == map[])
            && |st.ses.pending| <= 50
  {
    Reachable(r, k);
  }

  lemma AdmittedIsInPlace(r: Run, k: nat)
    requires r.Valid() && k < |r.states| && r.states[k].sync.Admitted?
    ensures WellFormed(r.states[k]) && Addressed(r.states[k])
  {
    Reachable(r, k);
  }

  /** Whatever the store returns, only this account's own messages are offered, in order. */
  lemma OffersAreAddressed(r: Run, k: nat)
    requires r.Valid() && k < |r.states| && r.states[k].sync.Admitted?
    ensures var (st, s) := (r.states[k], r.states[k].sync);
            && s.i < |s.page| && s.page[s.i].seqNo > (if s.i == 0 then s.after else s.page[s.i - 1].seqNo)
            && var m := s.page[s.i];
               && st.ses.account != 0 && m.recvId == st.ses.account && m.sendId != 0 && m.id != ""
               && !m.isGroup && m.sessionType == 1
  {
    AdmittedIsInPlace(r, k);
  }

  /** A message whose receipt any session has seen stored is not admitted again by this one. */
  lemma AcknowledgedIsNotReoffered(r: Run, id: string, i: nat, k: nat)
    requires r.Valid() && i <= k < |r.events| && id in r.states[i].world.receipts
    requires var s := r.states[k].sync; s.AtGate? && s.i < |s.page| && s.page[s.i].id == id
    ensures !r.states[k + 1].sync.Admitted?
  {
    RunContinues(r, i, k);
    Reachable(r, k);
    var e := r.events[k];
    GateStep(r.states[k], e);
  }

  lemma GateStep(st: State, e: Event)
    requires WellFormed(st) && Enabled(st, e) && st.sync.AtGate?
    ensures e.GateDecide? || Step(st, e).sync == st.sync
    ensures Step(st, e).sync.Admitted? ==> st.world.Admits(st.sync.page[st.sync.i].id)
  {
  }

  /** One write at a time; what is written is, in order, what was accepted. */
  lemma WritesAreSerialised(r: Run, k: nat)
    requires r.Valid() && k < |r.states|
    ensures var ses := r.states[k].ses;
            && ses.inFlight <= 1
            && (ses.drain.Writing? ==> ses.inFlight == 1 && !r.states[k].sync.DirectWriting?)
            && ses.written <= ses.accepted
            && ses.accepted == ses.written + (if ses.drain.Holding? then [ses.drain.frame] else []) + ses.queue
            && (ses.drain.Waiting? ==> ses.queue == [] && !ses.disconnected)
            && |ses.accepted| - |ses.written| <= 257
            && |ses.queue| <= 256
  {
    Reachable(r, k);
    SerialisedMeans(r.states[k].ses);
  }

  lemma SerialisedMeans(s: Session)
    requires Serialised(s)
    ensures s.written <= s.accepted && |s.accepted| - |s.written| <= QUEUE_CAPACITY + 1
  {
    assert s.accepted == s.written + (Held(s.drain) + s.queue);
  }

  /**
    Once disconnected, a session stays so: it accepts nothing more, nothing is pending again,
    and however many paths reach the cleanup it has unregistered once (never before login).
   */
  lemma DisconnectIsFinal(r: Run, i: nat, j: nat)
    requires r.Valid() && i <= j < |r.states| && r.states[i].ses.disconnected
    ensures var (s, t) := (r.states[i].ses, r.states[j].ses);
            && t.disconnected && t.accepted == s.accepted && t.pending == map[] && !t.timer.Armed?
            && !t.drain.Waiting?
            && t.unregistrations == (if t.account != 0 then 1 else 0)
  {
    Reachable(r, j);
    RunContinues(r, i, j);
  }

  /** A session reports at most one verdict on its synchronisation, never both. */
  lemma AtMostOneVerdict(r: Run, k: nat)
    requires r.Valid() && k < |r.states|
    ensures Verdicts(r.states[k].ses.accepted) <= 1
    ensures !(SyncDone in r.states[k].ses.accepted && SyncError in r.states[k].ses.accepted)
  {
    Reachable(r, k);
    if SyncDone in r.states[k].ses.accepted && SyncError in r.states[k].ses.accepted {
      BothVerdictsCount(r.states[k].ses.accepted);
      assert false;
    }
  }

  lemma {:induction false} OneVerdictCounts(fs: seq<Frame>)
    requires SyncDone in fs || SyncError in fs
    ensures Verdicts(fs) >= 1
  {
    var front, last := fs[..|fs| - 1], fs[|fs| - 1];
    assert fs == front + [last];
    if !last.SyncDone? && !last.SyncError? {
      OneVerdictCounts(front);
    }
  }

  lemma {:induction false} BothVerdictsCount(fs: seq<Frame>)
    requires SyncDone in fs && SyncError in fs
    ensures Verdicts(fs) >= 2
  {
    var front, last := fs[..|fs| - 1], fs[|fs| - 1];
    assert fs == front + [last];
    if last.SyncDone? || last.SyncError? {
      OneVerdictCounts(front);
    } else {
      BothVerdictsCount(front);
    }
  }

  // ---------------------------------------------------------------- the meaning of completion

  /** The scan of this run begins with state `k`. */
  ghost predicate ScanStarts(r: Run, k: nat) {
    0 < k < |r.states| && !r.states[k - 1].reading && r.states[k].reading
  }

  /** The candidate is in the store, unchanged and unobjectionable to the gate, over a stretch. */
  ghost predicate Deliverable(r: Run, m: Message, i: nat, j: nat) {
    forall k :: i <= k <= j && k < |r.states| ==>
      && m.id in r.states[k].world.candidates && r.states[k].world.candidates[m.id] == m
      && m.id !in r.states[k].world.blocked && m.id !in r.states[k].world.cancelled
  }

  lemma HistoryStep(st: State, e: Event)
    requires WellFormed(st) && Enabled(st, e) && st.reading && !st.sync.Announcing?
    ensures var t := Step(st, e);
            && t.reading
            && (!e.Block? ==> t.tainted == st.tainted)
            && (e.Block? ==> t.tainted == st.tainted + t.world.blocked)
            && (!e.Candidates? ==> t.stable == st.stable)
            && (e.Candidates? ==> forall id :: id in st.stable && id in st.world.candidates && id in e.candidates ==>
                  (e.candidates[id] == st.world.candidates[id] ==> id in t.stable))
  {
  }

  lemma DeliverableStep(st: State, e: Event, id: string)
    requires WellFormed(st) && Enabled(st, e) && st.reading && !st.sync.Announcing?
    requires id in st.stable && id !in st.tainted
    requires var t := Step(st, e);
             && id in st.world.candidates && id in t.world.candidates
             && t.world.candidates[id] == st.world.candidates[id] && id !in t.world.blocked
    ensures Step(st, e).reading && id in Step(st, e).stable && id !in Step(st, e).tainted
  {
    HistoryStep(st, e);
  }

  lemma ScanStartStep(st: State, e: Event)
    requires WellFormed(st) && Enabled(st, e) && !st.reading && Step(st, e).reading
    ensures e.Announce? && Step(st, e).sync == Fetching(0)
    ensures Step(st, e).stable == Step(st, e).world.candidates.Keys
    ensures Step(st, e).tainted == Step(st, e).world.blocked
  {
  }

  lemma ReadingMeans(r: Run, k: nat)
    requires r.Valid() && k < |r.states|
    ensures WellFormed(r.states[k]) && (r.states[k].reading ==> !r.states[k].sync.Announcing?)
  {
    Reachable(r, k);
  }

  /** The history variables mean what they say. */
  lemma {:induction false} DeliverableIsStable(r: Run, m: Message, start: nat, k: nat)
    requires r.Valid() && ScanStarts(r, start) && start <= k < |r.states|
    requires Deliverable(r, m, start, k)
    ensures r.states[k].reading && m.id in r.states[k].stable && m.id !in r.states[k].tainted
  {
    ReadingMeans(r, k - 1);
    var (st, e) := (r.states[k - 1], r.events[k - 1]);
    if k == start {
      ScanStartStep(st, e);
    } else {
      assert Deliverable(r, m, start, k - 1);
      DeliverableIsStable(r, m, start, k - 1);
      DeliverableStep(st, e, m.id);
    }
  }

  /**
    Completed sync is sound. In every interleaving of paging, early, duplicate or out-of-order
    acknowledgements, pushes, timer expiry and disconnects: once the completion frame has been
    enqueued, every candidate that was deliverable throughout the scan has a stored receipt.
   */
  lemma CompletedSyncIsSound(r: Run, m: Message, start: nat, k: nat)
    requires r.Valid() && ScanStarts(r, start) && start <= k < |r.states|
    requires Deliverable(r, m, start, k) && m.seqNo > 0
    requires SyncDone in r.states[k].ses.accepted
    ensures m.id in r.states[k].world.receipts
  {
    Reachable(r, k);
    DeliverableIsStable(r, m, start, k);
  }

  /**
    The cursor never passes an unreceipted message: while the session is connected and about to
    fetch, every deliverable candidate at or below the cursor has its receipt, whatever higher
    sequence numbers were acknowledged first.
   */
  lemma CursorNeverSkips(r: Run, m: Message, start: nat, k: nat)
    requires r.Valid() && ScanStarts(r, start) && start <= k < |r.states|
    requires Deliverable(r, m, start, k)
    requires r.states[k].sync.Fetching? && !r.states[k].ses.disconnected
    requires 0 < m.seqNo <= r.states[k].sync.after
    ensures m.id in r.states[k].world.receipts
  {
    Reachable(r, k);
    DeliverableIsStable(r, m, start, k);
  }

  // ---------------------------------------------------------------- any number of sessions

  /**
    Sessions of one account, one after another or overlapping (a replaced session keeps
    running), over one receipt table: `store` is the table at successive instants, and state `k`
    of session `n` is seen at instant `times[n][k]`. Receipts are never deleted.
   */
  ghost predicate History(rs: seq<Run>, times: seq<seq<nat>>, store: seq<set<string>>) {
    && |times| == |rs|
    && (forall i {:trigger store[i + 1]} :: 0 <= i && i + 1 < |store| ==> store[i] <= store[i + 1])
    && (forall n :: 0 <= n < |rs| ==> rs[n].Valid() && |times[n]| == |rs[n].states|)
    && (forall n, k :: 0 <= n < |rs| && 0 <= k < |times[n]| ==>
          times[n][k] < |store| && rs[n].states[k].world.receipts == store[times[n][k]])
  }

  lemma {:induction false} ReceiptsOutlive(store: seq<set<string>>, i: nat, j: nat)
    requires forall k {:trigger store[k + 1]} :: 0 <= k && k + 1 < |store| ==> store[k] <= store[k + 1]
    requires i <= j < |store|
    ensures store[i] <= store[j]
  {
    if i < j {
      ReceiptsOutlive(store, i, j - 1);
      var k := j - 1;
      assert store[k] <= store[k + 1];
    }
  }

  /**
    Recovery. However many sessions there are and wherever each is cut off: once one of them has
    completed, or merely moved its cursor past a candidate deliverable since its scan began,
    every session sees that candidate's receipt from that instant on. So a message without a
    receipt is still ahead of every cursor, and no session has reported completion over it.
   */
  lemma RecoveryNeverSkips(rs: seq<Run>, times: seq<seq<nat>>, store: seq<set<string>>, m: Message,
                           a: nat, start: nat, i: nat, b: nat, j: nat)
    requires History(rs, times, store) && a < |rs| && b < |rs|
    requires i < |rs[a].states| && j < |rs[b].states| && times[a][i] <= times[b][j]
    requires ScanStarts(rs[a], start) && start <= i && Deliverable(rs[a], m, start, i) && m.seqNo > 0
    requires var st := rs[a].states[i];
             SyncDone in st.ses.accepted || (st.sync.Fetching? && !st.ses.disconnected && m.seqNo <= st.sync.after)
    ensures m.id in rs[b].states[j].world.receipts
  {
    if SyncDone in rs[a].states[i].ses.accepted {
      CompletedSyncIsSound(rs[a], m, start, i);
    } else {
      CursorNeverSkips(rs[a], m, start, i);
    }
    ReceiptsOutlive(store, times[a][i], times[b][j]);
  }
}
