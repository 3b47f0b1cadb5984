/**
  What a step of a session does to everything outside the scan, told from its event alone: the
  frame it enqueues, whether it closes the session or the socket, what it leaves pending and
  which receipt it stores; and what follows over whole runs.
 */
module SyncEffects {
  import opened Messages
  import opened Session
  import opened SyncProtocol
  import opened SyncProofs
  import opened SyncTheorems

  // ---------------------------------------------------------------- what an event calls for

  /** The message is the account's, above the cursor and above the message before it. */
  predicate InPlace(account: nat, after: int, page: seq<Message>, i: nat)
    requires i < |page|
  {
    IsSingleMessageFor(account, page[i]) && page[i].seqNo > (if i == 0 then after else page[i - 1].seqNo)
  }

  /** The scan meets what it may not pass over: a failed or overlong fetch, a failed gate, a message out of place. */
  predicate Fails(st: State, e: Event) {
    match e
    case FetchResume =>
      && st.sync.Fetched?
      && (st.sync.reply.Throws? || |st.sync.reply.messages| > 50
          || (st.sync.reply.messages != [] && !InPlace(st.ses.account, st.sync.after, st.sync.reply.messages, 0)))
    case GateReturn(commitOk, _) =>
      && st.sync.Leaving?
      && (!st.sync.ok || !commitOk
          || (st.sync.i + 1 < |st.sync.page| && !InPlace(st.ses.account, st.sync.after, st.sync.page, st.sync.i + 1)))
    case _ => false
  }

  /** The failure carries an empty text, so that it is not reported. */
  predicate Unreported(st: State, e: Event) {
    e.GateReturn? && e.silent && st.sync.Leaving? && !(st.sync.ok && e.commitOk)
  }

  /** The frame a connected session owes its client on an event. */
  function Owes(st: State, e: Event): seq<Frame> {
    if Fails(st, e) then (if Unreported(st, e) then [] else [SyncError])
    else match e
      case Announce(tag) => [Other(tag)]
      case ReadReply(tag) => [Other(tag)]
      case Push(tag) => [Other(tag)]
      case ActionRun => if st.sync.Admitted? && st.sync.i < |st.sync.page| then [Offline(st.sync.page[st.sync.i].id)] else []
      case FetchResume => if st.sync.Fetched? && st.sync.reply == Page([]) then [SyncDone] else []
      case _ => []
  }

  /** The write queue exists and the drain is waiting or fewer than 256 frames are buffered. */
  predicate HasRoom(s: Session) {
    !s.drain.NoQueue? && (s.drain.Waiting? || |s.queue| < 256)
  }

  /** What closes a connected session. */
  predicate Closes(st: State, e: Event) {
    || e.Disconnect? || e.PreAuthAbort? || e == DrainEnd(false)
    || (e.TimerResume? && st.ses.pending != map[])
    || (Owes(st, e) != [] && !HasRoom(st.ses) && !e.Push?)
  }

  // ---------------------------------------------------------------- one step

  lemma QueuedWriteEffect(s: Session, f: Frame)
    requires !s.disconnected
    ensures var t := QueuedWrite(s, f);
            if HasRoom(s) then t.accepted == s.accepted + [f] && !t.disconnected && t.pending == s.pending
            else t.accepted == s.accepted && t.disconnected && t.pending == map[]
  {
  }

  /** The effects of a step on the log, the connection and the pending map. */
  ghost predicate Effects(st: State, e: Event, t: State) {
    && (t.ses.disconnected <==> st.ses.disconnected || Closes(st, e))
    && t.ses.accepted == st.ses.accepted + (if st.ses.disconnected || !HasRoom(st.ses) then [] else Owes(st, e))
    && t.ses.pending ==
         (if t.ses.disconnected then map[]
          else if e.ActionRun? && st.sync.Admitted? && st.sync.i < |st.sync.page|
          then st.ses.pending[st.sync.page[st.sync.i].id := st.sync.page[st.sync.i].seqNo]
          else if e.AckResume? && st.ack.Served? && st.ack.ok && st.ack.ids != [] then st.ses.pending - {st.ack.ids[0]}
          else st.ses.pending)
  }

  lemma FailEffects(st: State, e: Event, silent: bool)
    requires WellFormed(st) && SessionInv(st.ses) && (e.FetchResume? || e.GateReturn?)
    requires Fails(st, e) && (silent <==> Unreported(st, e))
    ensures Effects(st, e, Fail(st, silent))
  {
    if !st.ses.disconnected { QueuedWriteEffect(st.ses, SyncError); }
  }

  lemma NextItemEffects(st: State, e: Event, after: Seq64, page: seq<Message>, i: nat)
    requires WellFormed(st) && SessionInv(st.ses) && page != [] && i <= |page|
    requires (e.FetchResume? && !Unreported(st, e)) || (e.GateReturn? && !Unreported(st, e))
    requires Fails(st, e) <==> i < |page| && !InPlace(st.ses.account, after, page, i)
    requires Owes(st, e) == if Fails(st, e) then [SyncError] else []
    ensures Effects(st, e, NextItem(st, after, page, i))
  {
    if !st.ses.disconnected && Fails(st, e) { FailEffects(st, e, false); }
  }

  lemma FetchResumeEffects(st: State)
    requires WellFormed(st) && SessionInv(st.ses) && st.sync.Fetched?
    ensures Effects(st, FetchResume, Step(st, FetchResume))
  {
    var r := st.sync.reply;
    if r.Throws? || (!st.ses.disconnected && |r.messages| > 50) {
      FailEffects(st, FetchResume, false);
    } else if !st.ses.disconnected && r.messages == [] {
      QueuedWriteEffect(st.ses, SyncDone);
    } else if !st.ses.disconnected {
      NextItemEffects(st, FetchResume, st.sync.after, r.messages, 0);
    }
  }

  lemma GateReturnEffects(st: State, commitOk: bool, silent: bool)
    requires WellFormed(st) && SessionInv(st.ses) && st.sync.Leaving?
    ensures Effects(st, GateReturn(commitOk, silent), Step(st, GateReturn(commitOk, silent)))
  {
    var e := GateReturn(commitOk, silent);
    if st.sync.ok && commitOk {
      assert Step(st, e) == NextItem(st, st.sync.after, st.sync.page, st.sync.i + 1);
      NextItemEffects(st, e, st.sync.after, st.sync.page, st.sync.i + 1);
    } else {
      assert Step(st, e) == Fail(st, silent);
      FailEffects(st, e, silent);
    }
  }

  lemma ActionEffects(st: State)
    requires WellFormed(st) && SessionInv(st.ses) && st.sync.Admitted?
    ensures Effects(st, ActionRun, Step(st, ActionRun))
  {
    var m := st.sync.page[st.sync.i];
    if !st.ses.disconnected {
      QueuedWriteEffect(st.ses.(pending := st.ses.pending[m.id := m.seqNo]), Offline(m.id));
    }
  }

  lemma WriteEffects(st: State, e: Event)
    requires WellFormed(st) && SessionInv(st.ses) && Enabled(st, e) && (e.Announce? || e.ReadReply? || e.Push?)
    ensures Effects(st, e, Step(st, e))
  {
    var f := Owes(st, e)[0];
    if !st.ses.disconnected { QueuedWriteEffect(st.ses, f); }
  }

  lemma TimerEffects(st: State)
    requires WellFormed(st) && SessionInv(st.ses) && st.sync.Parked?
    ensures Effects(st, TimerResume, Step(st, TimerResume))
  {
  }

  lemma DrainEffects(st: State, e: Event)
    requires WellFormed(st) && SessionInv(st.ses) && Enabled(st, e) && (e.DrainStart? || e.DrainBegin? || e.DrainEnd?)
    ensures Effects(st, e, Step(st, e))
  {
  }

  lemma AckEffects(st: State)
    requires WellFormed(st) && SessionInv(st.ses) && st.ack.Served?
    ensures Effects(st, AckResume, Step(st, AckResume))
  {
    if st.ack.ok && st.ack.ids[0] !in st.ses.pending {
      assert st.ses.pending - {st.ack.ids[0]} == st.ses.pending;
    }
  }

  predicate IsQuietEvent(e: Event) {
    || IsWorldEvent(e) || e.BeginDirectWrite? || e.EndDirectWrite? || e.PreAuthAbort? || e.AuthOk?
    || e.FetchServe? || e.GateDecide? || e.AckRead? || e.AckServe? || e.AckRetry? || e.Disconnect?
  }

  lemma QuietSession(st: State, e: Event)
    requires WellFormed(st) && Enabled(st, e) && IsQuietEvent(e)
    ensures var (s, t) := (st.ses, Step(st, e).ses);
            if e.PreAuthAbort? || e.Disconnect? then t == OnDisconnect(s)
            else t.disconnected == s.disconnected && t.accepted == s.accepted && t.pending == s.pending
  {
  }

  lemma QuietEffects(st: State, e: Event)
    requires WellFormed(st) && SessionInv(st.ses) && Enabled(st, e) && IsQuietEvent(e)
    ensures Effects(st, e, Step(st, e))
  {
    QuietSession(st, e);
    assert Owes(st, e) == [] && !Fails(st, e);
  }

  lemma StepEffects(st: State, e: Event)
    requires WellFormed(st) && SessionInv(st.ses) && Enabled(st, e)
    ensures Effects(st, e, Step(st, e))
  {
    if IsQuietEvent(e) {
      QuietEffects(st, e);
    } else {
      match e {
        case FetchResume => FetchResumeEffects(st);
        case GateReturn(commitOk, silent) => GateReturnEffects(st, commitOk, silent);
        case ActionRun => ActionEffects(st);
        case Announce(_) => WriteEffects(st, e);
        case ReadReply(_) => WriteEffects(st, e);
        case Push(_) => WriteEffects(st, e);
        case TimerResume => TimerEffects(st);
        case AckResume => AckEffects(st);
        case DrainStart => DrainEffects(st, e);
        case DrainBegin => DrainEffects(st, e);
        case DrainEnd(_) => DrainEffects(st, e);
      }
    }
  }

  // ---------------------------------------------------------------- every step of every run

  /**
    At every step of every run: a connected session with room enqueues exactly the frame the event
    calls for, and otherwise nothing; it closes exactly for the listed causes; and a message is
    pending from its delivery to its acknowledgement, or to the end of the session.
   */
  lemma EffectsAreExact(r: Run, k: nat)
    requires r.Valid() && k < |r.events|
    ensures Effects(r.states[k], r.events[k], r.states[k + 1])
  {
    Reachable(r, k);
    var e := r.events[k];
    StepEffects(r.states[k], e);
  }

  lemma NothingPendsAtFirst(r: Run)
    requires r.Valid()
    ensures r.states[0].ses.pending == map[] && r.states[0].ses.accepted == []
  {
  }

  /** A message waiting for its acknowledgement has had its frame enqueued. */
  lemma {:induction false} PendingWasSent(r: Run, k: nat, id: string)
    requires r.Valid() && k < |r.states| && id in r.states[k].ses.pending
    ensures Offline(id) in r.states[k].ses.accepted
  {
    if k == 0 {
      NothingPendsAtFirst(r);
    } else {
      EffectsAreExact(r, k - 1);
      PendingKeepsSent(r.states[k - 1], r.events[k - 1], r.states[k], id);
      if id in r.states[k - 1].ses.pending {
        PendingWasSent(r, k - 1, id);
      }
    }
  }

  lemma PendingKeepsSent(st: State, e: Event, t: State, id: string)
    requires Effects(st, e, t) && id in t.ses.pending
    ensures id in st.ses.pending || Offline(id) in t.ses.accepted
    ensures Offline(id) in st.ses.accepted ==> Offline(id) in t.ses.accepted
  {
  }

  // ---------------------------------------------------------------- the gate

  lemma GateStepIsExact(st: State, fails: bool)
    requires WellFormed(st) && st.sync.AtGate?
    ensures var (s, t, id) := (st.sync, Step(st, GateDecide(fails)).sync, st.sync.page[st.sync.i].id);
            t == if !fails && id !in st.world.blocked && id !in st.world.cancelled && id !in st.world.receipts
                 then Admitted(s.after, s.page, s.i) else Leaving(s.after, s.page, s.i, !fails)
  {
  }

  /** Some gate of the run let this message through, and it was admissible when the gate looked. */
  ghost predicate LetThrough(r: Run, k: nat, id: string) {
    exists j {:trigger r.events[j]} :: 0 <= j < k && k <= |r.events| && |r.states| == |r.events| + 1 &&
      r.events[j] == GateDecide(false) && WasAdmissible(r.states[j], id)
  }

  ghost predicate WasAdmissible(st: State, id: string) {
    && st.sync.AtGate? && st.sync.i < |st.sync.page| && st.sync.page[st.sync.i].id == id
    && InPlace(st.ses.account, st.sync.after, st.sync.page, st.sync.i)
    && id !in st.world.blocked && id !in st.world.cancelled && id !in st.world.receipts
  }

  lemma OnlyGatesAdmit(st: State, e: Event)
    requires WellFormed(st) && Enabled(st, e) && Step(st, e).sync.Admitted? && !st.sync.Admitted?
    ensures e.GateDecide? && st.sync.AtGate?
  {
  }

  lemma EntersAdmitted(st: State, e: Event)
    requires WellFormed(st) && Addressed(st) && Enabled(st, e) && Step(st, e).sync.Admitted? && !st.sync.Admitted?
    ensures e == GateDecide(false)
    ensures var s := Step(st, e).sync; s.i < |s.page| && WasAdmissible(st, s.page[s.i].id)
  {
    OnlyGatesAdmit(st, e);
    GateStepIsExact(st, e.fails);
  }

  lemma StaysAdmitted(st: State, e: Event)
    requires WellFormed(st) && Enabled(st, e) && st.sync.Admitted? && Step(st, e).sync.Admitted?
    ensures Step(st, e).sync == st.sync
  {
  }

  lemma {:induction false} AdmittedWasLetThrough(r: Run, k: nat)
    requires r.Valid() && k < |r.states| && r.states[k].sync.Admitted?
    ensures var s := r.states[k].sync; s.i < |s.page| && LetThrough(r, k, s.page[s.i].id)
  {
    if k > 0 {
      Reachable(r, k - 1);
      var (st, e) := (r.states[k - 1], r.events[k - 1]);
      if st.sync.Admitted? {
        StaysAdmitted(st, e);
        AdmittedWasLetThrough(r, k - 1);
      } else {
        EntersAdmitted(st, e);
        assert r.events[k - 1] == GateDecide(false);
      }
    }
  }

  /**
    Nothing is delivered unless the gate let it through: a message's frame in the log goes back to
    a gate that looked when the message was in place, not blocked, not cancelled, and had no receipt.
   */
  lemma {:induction false} OfflineWasLetThrough(r: Run, k: nat, id: string)
    requires r.Valid() && k < |r.states| && Offline(id) in r.states[k].ses.accepted
    ensures LetThrough(r, k, id)
  {
    if k > 0 {
      EffectsAreExact(r, k - 1);
      if Offline(id) in r.states[k - 1].ses.accepted {
        OfflineWasLetThrough(r, k - 1, id);
      } else {
        AdmittedWasLetThrough(r, k - 1);
      }
    }
  }

  // ---------------------------------------------------------------- failures and closing

  lemma FailureFinishes(st: State, e: Event)
    requires WellFormed(st) && Enabled(st, e) && Fails(st, e)
    ensures Step(st, e).sync.Finished?
  {
  }

  lemma FinishedStays(st: State, e: Event)
    requires WellFormed(st) && Enabled(st, e) && st.sync.Finished?
    ensures Step(st, e).sync.Finished?
  {
  }

  /** The scan is over without success, and SYNC_ERROR is enqueued if it is due and the session connected. */
  ghost predicate FailedScan(t: State, due: bool) {
    && t.sync.Finished? && SyncDone !in t.ses.accepted
    && (due && !t.ses.disconnected ==> SyncError in t.ses.accepted)
  }

  lemma ScanningIsUndone(r: Run, k: nat)
    requires r.Valid() && k < |r.states|
    ensures !r.states[k].sync.Finished? ==> SyncDone !in r.states[k].ses.accepted
  {
    Reachable(r, k);
  }

  lemma FailureFails(r: Run, k: nat)
    requires r.Valid() && k < |r.events| && Fails(r.states[k], r.events[k])
    ensures FailedScan(r.states[k + 1], !Unreported(r.states[k], r.events[k]))
  {
    EffectsAreExact(r, k);
    ScanningIsUndone(r, k);
    FailureFinishes(r.states[k], r.events[k]);
  }

  lemma FailedStays(r: Run, k: nat, due: bool)
    requires r.Valid() && k < |r.events| && FailedScan(r.states[k], due)
    ensures FailedScan(r.states[k + 1], due)
  {
    EffectsAreExact(r, k);
    var e := r.events[k];
    FinishedStays(r.states[k], e);
    FinishedOwes(r.states[k], e);
  }

  lemma FinishedOwes(st: State, e: Event)
    requires st.sync.Finished?
    ensures SyncDone !in Owes(st, e)
  {
  }

  /**
    A failed scan is final and reported: from then on it fetches nothing, never enqueues the
    completion frame, and while connected has enqueued SYNC_ERROR unless the failure had no text.
   */
  lemma {:induction false} FailureIsFinal(r: Run, i: nat, k: nat)
    requires r.Valid() && i < k < |r.states| && Fails(r.states[i], r.events[i])
    ensures FailedScan(r.states[k], !Unreported(r.states[i], r.events[i]))
  {
    if k == i + 1 {
      FailureFails(r, i);
    } else {
      FailureIsFinal(r, i, k - 1);
      FailedStays(r, k - 1, !Unreported(r.states[i], r.events[i]));
    }
  }

  lemma ClosedStepsStop(st: State, e: Event)
    requires WellFormed(st) && Enabled(st, e) && st.ses.disconnected
    ensures var t := Step(st, e); t.sync == st.sync || !(t.sync.Fetching? || t.sync.AtGate? || t.sync.Parked?)
  {
  }

  /** Once closed, a session asks for no further page, takes up no further message and waits no more. */
  lemma ScanStopsWhenClosed(r: Run, i: nat, k: nat)
    requires r.Valid() && i <= k < |r.events| && r.states[i].ses.disconnected
    ensures var (s, t) := (r.states[k].sync, r.states[k + 1].sync);
            t == s || !(t.Fetching? || t.AtGate? || t.Parked?)
  {
    RunContinues(r, i, k);
    Reachable(r, k);
    var e := r.events[k];
    ClosedStepsStop(r.states[k], e);
  }

  // ---------------------------------------------------------------- where the scan goes

  /** After the last message of a page: on to what lies above it, or waiting for its acknowledgements. */
  predicate PageOver(st: State, after: Seq64, page: seq<Message>, t: Sync) {
    page != [] && t == if st.ses.pending == map[] then Fetching(page[|page| - 1].seqNo) else Parked(after, page)
  }

  lemma FetchMoves(st: State, e: Event)
    requires WellFormed(st) && Enabled(st, e) && (e.FetchServe? || e.FetchResume?)
    requires !st.ses.disconnected && !Fails(st, e)
    ensures var (s, t) := (st.sync, Step(st, e).sync);
            if e.FetchServe? then t == Fetched(s.after, e.reply)
            else t == if s.reply.messages == [] then Finished else AtGate(s.after, s.reply.messages, 0)
  {
  }

  lemma GateMoves(st: State, e: Event)
    requires WellFormed(st) && Enabled(st, e) && (e.ActionRun? || e.GateReturn?)
    requires !st.ses.disconnected && !Fails(st, e)
    ensures var (s, t) := (st.sync, Step(st, e));
            if e.ActionRun? then t.sync == Leaving(s.after, s.page, s.i, !t.ses.disconnected)
            else if s.i + 1 < |s.page| then t.sync == AtGate(s.after, s.page, s.i + 1)
            else PageOver(st, s.after, s.page, t.sync)
  {
  }

  lemma WaitMoves(st: State)
    requires WellFormed(st) && st.sync.Parked? && !st.ses.disconnected
    ensures Step(st, TimerResume).sync ==
              if st.ses.pending == map[] then Fetching(st.sync.page[|st.sync.page| - 1].seqNo) else Finished
  {
  }

  /** The highest number the scan has come to. */
  function Mark(sync: Sync): int {
    match sync
    case Fetching(after) => after
    case Fetched(after, _) => after
    case AtGate(after, page, i) => if i < |page| then page[i].seqNo else after
    case Admitted(after, page, i) => if i < |page| then page[i].seqNo else after
    case Leaving(after, page, i, _) => if i < |page| then page[i].seqNo else after
    case Parked(after, page) => if page == [] then after else page[|page| - 1].seqNo
    case _ => 0
  }

  lemma NextItemMarks(st: State, after: Seq64, page: seq<Message>, i: nat, mark: int)
    requires WellFormed(st) && page != [] && i <= |page|
    requires mark == if i == 0 then after else page[i - 1].seqNo
    ensures var t := NextItem(st, after, page, i).sync;
            Scanning(t) ==> Mark(t) >= mark && (t.AtGate? ==> Mark(t) > mark)
  {
  }

  lemma MarkGrows(st: State, e: Event)
    requires WellFormed(st) && Enabled(st, e) && Scanning(st.sync) && Scanning(Step(st, e).sync)
    ensures Mark(Step(st, e).sync) >= Mark(st.sync)
    ensures Step(st, e).sync.AtGate? && Step(st, e).sync != st.sync ==> Mark(Step(st, e).sync) > Mark(st.sync)
    ensures e.GateDecide? ==> !Step(st, e).sync.AtGate?
  {
    if e.FetchResume? && st.sync.reply.Page? && st.sync.reply.messages != [] {
      NextItemMarks(st, st.sync.after, st.sync.reply.messages, 0, st.sync.after);
    } else if e.GateReturn? && st.sync.ok && e.commitOk {
      NextItemMarks(st, st.sync.after, st.sync.page, st.sync.i + 1, st.sync.page[st.sync.i].seqNo);
    }
  }

  lemma ScanResumesNot(st: State, e: Event)
    requires WellFormed(st) && Enabled(st, e) && st.reading && !st.sync.Announcing? && !Scanning(st.sync)
    requires !st.sync.PreAuth?
    ensures !Scanning(Step(st, e).sync)
  {
  }

  lemma MarkStep(r: Run, k: nat)
    requires r.Valid() && k < |r.events| && Scanning(r.states[k].sync) && Scanning(r.states[k + 1].sync)
    ensures var (s, t) := (r.states[k].sync, r.states[k + 1].sync);
            && Mark(t) >= Mark(s) && (t.AtGate? && t != s ==> Mark(t) > Mark(s))
            && (r.events[k].GateDecide? ==> !t.AtGate?)
  {
    var e := r.events[k];
    MarkGrows(r.states[k], e);
  }

  lemma ScanWasOn(r: Run, i: nat, k: nat)
    requires r.Valid() && i <= k < |r.events| && r.states[i].sync.AtGate? && Scanning(r.states[k + 1].sync)
    ensures Scanning(r.states[k].sync)
  {
    StaysReading(r, i, k);
    if !Scanning(r.states[k].sync) {
      var e := r.events[k];
      ScanResumesNot(r.states[k], e);
    }
  }

  lemma DecidesAtGate(r: Run, k: nat)
    requires r.Valid() && k < |r.events| && r.events[k].GateDecide?
    ensures r.states[k].sync.AtGate?
  {
  }

  /** Having passed a mark, a scan that is still on is at or above it, and at a gate strictly above. */
  lemma {:induction false} MarksAscend(r: Run, i: nat, k: nat)
    requires r.Valid() && i < k < |r.states| && r.events[i].GateDecide? && Scanning(r.states[k].sync)
    ensures Mark(r.states[k].sync) >= Mark(r.states[i].sync)
    ensures r.states[k].sync.AtGate? ==> Mark(r.states[k].sync) > Mark(r.states[i].sync)
  {
    DecidesAtGate(r, i);
    ScanWasOn(r, i, k - 1);
    MarkStep(r, k - 1);
    if k > i + 1 {
      MarksAscend(r, i, k - 1);
    }
  }

  lemma {:induction false} StaysReading(r: Run, i: nat, k: nat)
    requires r.Valid() && i <= k < |r.states| && r.states[i].sync.AtGate?
    ensures r.states[k].reading && !r.states[k].sync.Announcing? && !r.states[k].sync.PreAuth?
  {
    Reachable(r, k);
    if k > i {
      StaysReading(r, i, k - 1);
      StepKeepsReading(r.states[k - 1], r.events[k - 1]);
    }
  }

  lemma StepKeepsReading(st: State, e: Event)
    requires WellFormed(st) && Enabled(st, e) && st.reading && !st.sync.Announcing?
    ensures Step(st, e).reading
  {
  }

  /**
    Each message is brought to the gate at most once in a session, and in order: of two decisions
    the later one is about a higher number, across pages, waits and acknowledgements.
   */
  lemma EachIsOfferedOnce(r: Run, i: nat, k: nat)
    requires r.Valid() && i < k < |r.events| && r.events[i].GateDecide? && r.events[k].GateDecide?
    ensures var (s, t) := (r.states[i].sync, r.states[k].sync);
            s.AtGate? && t.AtGate? && s.i < |s.page| && t.i < |t.page| && s.page[s.i].seqNo < t.page[t.i].seqNo
  {
    MarksAscend(r, i, k);
  }

  // ---------------------------------------------------------------- acknowledgements

  /** Receipts are stored for the events that say so, and the socket closes on a second refusal only. */
  lemma ReceiptsAreExact(st: State, e: Event)
    requires WellFormed(st) && Enabled(st, e)
    ensures var t := Step(st, e);
            && t.world.receipts == st.world.receipts +
                 (if e.Receipt? then {e.id}
                  else if e.AckServe? && (e.verdict.Stored? || e.verdict == Refused(true)) then {st.ack.ids[0]} else {})
            && (t.wire <==> st.wire && !(e.AckResume? && !st.ack.ok && st.ack.attempt > 0))
  {
  }

  /** Between two instants the first of these ids was persisted: its call returned without an error. */
  ghost predicate Persisted(r: Run, i: nat, k: nat, id: string) {
    exists j {:trigger r.events[j]} :: i <= j < k && k <= |r.events| && |r.states| == |r.events| + 1 &&
      r.events[j].AckServe? && !r.events[j].verdict.Refused?
      && r.states[j].ack.Calling? && r.states[j].ack.ids != [] && r.states[j].ack.ids[0] == id
  }

  /** The call for the first of these ids was refused, on the given attempt. */
  ghost predicate RefusedOn(r: Run, i: nat, k: nat, ids: seq<string>, attempt: nat) {
    exists j {:trigger r.events[j]} :: i <= j < k && k <= |r.events| && |r.states| == |r.events| + 1 &&
      r.events[j].AckServe? && r.events[j].verdict.Refused? && r.states[j].ack == Calling(ids, attempt)
  }

  /** How far the coroutine that read `ids` at event `i` has come: `n` are persisted. */
  ghost predicate Story(r: Run, i: nat, k: nat, ids: seq<string>, n: nat)
    requires k < |r.states|
  {
    && n <= |ids| && (forall m :: 0 <= m < n ==> Persisted(r, i, k, ids[m]))
    && match r.states[k].ack
       case AckIdle => n == |ids| || (RefusedOn(r, i, k, ids[n..], 0) && RefusedOn(r, i, k, ids[n..], 1) && !r.states[k].wire)
       case Calling(rest, attempt) =>
         n < |ids| && rest == ids[n..] && attempt <= 1 && (attempt == 1 ==> RefusedOn(r, i, k, rest, 0))
       case Served(rest, attempt, ok) =>
         && n < |ids| && rest == ids[n..] && attempt <= 1 && (attempt == 1 ==> RefusedOn(r, i, k, rest, 0))
         && (if ok then Persisted(r, i, k, ids[n]) else RefusedOn(r, i, k, rest, attempt))
       case Pausing(rest) => n < |ids| && rest == ids[n..] && RefusedOn(r, i, k, rest, 0)
  }

  /** Where an event takes the ACK coroutine. */
  lemma AckGoes(st: State, e: Event)
    requires WellFormed(st) && Enabled(st, e)
    ensures var (a, b) := (st.ack, Step(st, e).ack);
            match e
            case AckRead(ids) => a.AckIdle? && b == Calling(ids, 0)
            case AckServe(v) => a.Calling? && b == Served(a.ids, a.attempt, !v.Refused?)
            case AckResume =>
              && a.Served?
              && b == (if a.ok then (if |a.ids| > 1 then Calling(a.ids[1..], 0) else AckIdle)
                       else if a.attempt == 0 then Pausing(a.ids) else AckIdle)
            case AckRetry => a.Pausing? && b == Calling(a.ids, 1)
            case _ => b == a
  {
  }

  lemma StoryLater(r: Run, i: nat, k: nat)
    requires r.Valid() && k < |r.events|
    ensures forall id :: Persisted(r, i, k, id) ==> Persisted(r, i, k + 1, id)
    ensures forall ids, a :: RefusedOn(r, i, k, ids, a) ==> RefusedOn(r, i, k + 1, ids, a)
  {
  }

  /** The story at an unchanged place of the coroutine. */
  lemma StoryWaits(r: Run, i: nat, k: nat, ids: seq<string>, n: nat)
    requires r.Valid() && i < k < |r.events| && Story(r, i, k, ids, n)
    requires r.states[k + 1].ack == r.states[k].ack && (r.states[k + 1].wire ==> r.states[k].wire)
    ensures Story(r, i, k + 1, ids, n)
  {
    StoryLater(r, i, k);
  }

  lemma StoryServes(r: Run, i: nat, k: nat, ids: seq<string>, n: nat)
    requires r.Valid() && i < k < |r.events| && r.events[k].AckServe? && Story(r, i, k, ids, n)
    requires var (a, v) := (r.states[k].ack, r.events[k].verdict);
             a.Calling? && r.states[k + 1].ack == Served(a.ids, a.attempt, !v.Refused?)
    ensures Story(r, i, k + 1, ids, n)
  {
    StoryLater(r, i, k);
    if r.events[k].verdict.Refused? {
      assert RefusedOn(r, i, k + 1, ids[n..], r.states[k].ack.attempt);
    } else {
      assert Persisted(r, i, k + 1, ids[n]);
    }
  }

  lemma StoryResumes(r: Run, i: nat, k: nat, ids: seq<string>, n: nat)
    requires r.Valid() && i < k < |r.events| && Story(r, i, k, ids, n) && r.states[k].ack.Served?
    requires var (a, b) := (r.states[k].ack, r.states[k + 1].ack);
             b == (if a.ok then (if |a.ids| > 1 then Calling(a.ids[1..], 0) else AckIdle)
                   else if a.attempt == 0 then Pausing(a.ids) else AckIdle)
    requires !r.states[k].ack.ok && r.states[k].ack.attempt > 0 ==> !r.states[k + 1].wire
    ensures Story(r, i, k + 1, ids, if r.states[k].ack.ok then n + 1 else n)
  {
    StoryLater(r, i, k);
    if r.states[k].ack.ok { assert ids[n..][1..] == ids[n + 1..]; }
  }

  lemma StoryGoesOn(r: Run, i: nat, k: nat, ids: seq<string>, n: nat) returns (m: nat)
    requires r.Valid() && i < k < |r.events| && !r.events[k].AckRead? && Story(r, i, k, ids, n)
    ensures Story(r, i, k + 1, ids, m)
  {
    var (st, e) := (r.states[k], r.events[k]);
    AckGoes(st, e);
    ReceiptsAreExact(st, e);
    m := n;
    if e.AckServe? {
      StoryServes(r, i, k, ids, n);
    } else if e.AckResume? {
      StoryResumes(r, i, k, ids, n);
      m := if st.ack.ok then n + 1 else n;
    } else if e.AckRetry? {
      StoryLater(r, i, k);
    } else {
      StoryWaits(r, i, k, ids, n);
    }
  }

  lemma {:induction false} AckStory(r: Run, i: nat, k: nat, ids: seq<string>) returns (n: nat)
    requires r.Valid() && i < k < |r.states| && r.events[i] == AckRead(ids)
    requires forall j :: i < j < k ==> !r.events[j].AckRead?
    ensures Story(r, i, k, ids, n)
  {
    if k == i + 1 {
      n := 0;
      var (st, e) := (r.states[i], r.events[i]);
      AckGoes(st, e);
      assert ids[0..] == ids;
    } else {
      n := AckStory(r, i, k - 1, ids);
      n := StoryGoesOn(r, i, k - 1, ids, n);
    }
  }

  /**
    Every acknowledgement read is seen through: when the coroutine is done with a list of ids,
    either each of them was persisted, or each before some id was and that one was refused twice,
    and then the socket has been closed.
   */
  lemma AcksAreServed(r: Run, i: nat, k: nat, ids: seq<string>) returns (n: nat)
    requires r.Valid() && i < k < |r.states| && r.events[i] == AckRead(ids)
    requires forall j :: i < j < k ==> !r.events[j].AckRead?
    requires r.states[k].ack.AckIdle?
    ensures n <= |ids| && forall m :: 0 <= m < n ==> Persisted(r, i, k, ids[m])
    ensures n < |ids| ==> RefusedOn(r, i, k, ids[n..], 0) && RefusedOn(r, i, k, ids[n..], 1) && !r.states[k].wire
  {
    n := AckStory(r, i, k, ids);
  }
}
