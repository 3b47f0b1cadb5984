/**
  What every reachable state of the offline-sync protocol satisfies, event by event. The
  theorems about whole runs are in SyncTheorems.
 */
module SyncProofs {
  import opened Messages
  import opened Session
  import opened SyncProtocol

  // ---------------------------------------------------------------- the invariant

  predicate Scanning(sync: Sync) {
    sync.Fetching? || sync.Fetched? || sync.AtGate? || sync.Admitted? || sync.Leaving? || sync.Parked?
  }

  /** Which coroutine may be where, before and after authentication. */
  ghost predicate Roles(st: State) {
    && WellFormed(st) && st.world.Ok()
    && (st.ses.drain.NoQueue? ==>
          && (st.sync.PreAuth? || st.sync.DirectWriting? || st.sync.Finished?)
          && (st.ses.inFlight == 1 <==> st.sync.DirectWriting?))
    && (st.sync.PreAuth? || st.sync.DirectWriting? ==> st.ses.drain.NoQueue? && !st.ses.disconnected)
    && (Scanning(st.sync) ==> st.reading)
    && (st.reading ==> !st.ses.drain.NoQueue? && (Scanning(st.sync) || st.sync.Finished?))
  }

  /** Only a message of this account, above the cursor, is ever brought to the gate. */
  ghost predicate Addressed(st: State)
    requires WellFormed(st)
  {
    match st.sync
    case AtGate(after, page, i) => IsSingleMessageFor(st.ses.account, page[i]) && page[i].seqNo > Prev(after, page, i)
    case Admitted(after, page, i) => IsSingleMessageFor(st.ses.account, page[i]) && page[i].seqNo > Prev(after, page, i)
    case _ => true
  }

  /** No lost wake-up: an uncancelled waiter has something to wait for. */
  ghost predicate Waiter(st: State) {
    && (!st.ses.timer.NoTimer? <==> st.sync.Parked?)
    && (st.ses.timer.Armed? ==> st.ses.pending != map[] && !st.ses.disconnected)
    && (st.ses.timer.Cancelled? ==> st.ses.pending == map[])
  }

  /** How many of the pages' messages may be unacknowledged at each place. */
  predicate Bounded(st: State) {
    && |st.ses.pending| <= BATCH
    && (match st.sync
        case PreAuth => st.ses.pending == map[]
        case DirectWriting => st.ses.pending == map[]
        case Announcing => st.ses.pending == map[]
        case Fetching(_) => st.ses.pending == map[]
        case Fetched(_, _) => st.ses.pending == map[]
        case AtGate(_, page, i) => |st.ses.pending| <= i < |page| <= BATCH
        case Admitted(_, page, i) => |st.ses.pending| <= i < |page| <= BATCH
        case Leaving(_, page, i, _) => |st.ses.pending| <= i + 1 <= |page| <= BATCH
        case Parked(_, page) => true
        case Finished => true)
  }

  function Verdicts(fs: seq<Frame>): nat {
    if fs == [] then 0
    else Verdicts(fs[..|fs| - 1]) + (if fs[|fs| - 1].SyncDone? || fs[|fs| - 1].SyncError? then 1 else 0)
  }

  ghost predicate OneVerdict(st: State) {
    Verdicts(st.ses.accepted) <= 1 && (!st.sync.Finished? ==> Verdicts(st.ses.accepted) == 0)
  }

  /** Nothing more is owed for this candidate. */
  predicate Settled(st: State, id: string) {
    id in st.world.receipts || id in st.world.cancelled || id in st.tainted
  }

  /** Every stable candidate up to a sequence number is settled or still pending. */
  ghost predicate Covered(st: State, upto: int) {
    forall id :: id in st.stable && id in st.world.candidates && 0 < st.world.candidates[id].seqNo <= upto ==>
      Settled(st, id) || id in st.ses.pending
  }

  ghost predicate AllSettled(st: State) {
    forall id :: id in st.stable && id in st.world.candidates && 0 < st.world.candidates[id].seqNo ==> Settled(st, id)
  }

  /** The page in hand misses no stable candidate between its cursor and its last message. */
  ghost predicate PageGood(st: State, after: int, page: seq<Message>) {
    && |page| <= BATCH && Ascending(page)
    && (forall i :: 0 <= i < |page| ==> page[i].seqNo > after)
    && (forall id :: id in st.stable && id in st.world.candidates && st.world.candidates[id].seqNo > after ==>
          Holds(page, st.world.candidates[id])
          || (page != [] && st.world.candidates[id].seqNo > page[|page| - 1].seqNo))
  }

  /** How far the scan has come and what that is worth while the session is connected. */
  ghost predicate Progress(st: State)
    requires WellFormed(st)
  {
    match st.sync
    case Fetching(after) => Covered(st, after)
    case Fetched(after, r) => Covered(st, after) && (r.Page? ==> PageGood(st, after, r.messages))
    case AtGate(after, page, i) => PageGood(st, after, page) && Covered(st, Prev(after, page, i))
    case Admitted(after, page, i) => PageGood(st, after, page) && Covered(st, Prev(after, page, i))
    case Leaving(after, page, i, ok) => PageGood(st, after, page) && (ok ==> Covered(st, page[i].seqNo))
    case Parked(after, page) => Covered(st, page[|page| - 1].seqNo)
    case _ => true
  }

  /** The history variables and the ACK coroutine's evidence. */
  ghost predicate Honest(st: State)
    requires WellFormed(st)
  {
    && st.stable <= st.world.candidates.Keys
    && st.world.blocked <= st.tainted + (if st.reading then {} else st.world.blocked)
    && (st.ack.Served? && st.ack.ok ==> st.ack.ids[0] !in st.stable || Settled(st, st.ack.ids[0]))
  }

  /** Where everything stands. */
  ghost predicate Standing(st: State) {
    && SessionInv(st.ses) && Roles(st) && Waiter(st) && Bounded(st) && OneVerdict(st) && Addressed(st)
    && (!st.ack.AckIdle? ==> st.reading)
    && (SyncDone in st.ses.accepted ==> st.sync.Finished?)
  }

  /** What that is worth to the recipient. */
  ghost predicate Meaning(st: State)
    requires WellFormed(st)
  {
    && Honest(st)
    && (!st.ses.disconnected ==> Progress(st))
    && (SyncDone in st.ses.accepted ==> AllSettled(st))
  }

  ghost predicate Inv(st: State) {
    Standing(st) && Meaning(st)
  }

  // ---------------------------------------------------------------- small facts

  lemma MapGrows<V>(m: map<string, V>, k: string, v: V)
    ensures |m[k := v]| <= |m| + 1
  {
    var n := m[k := v];
    assert n.Keys == m.Keys + {k};
    assert |n.Keys| == |n| && |m.Keys| == |m|;
  }

  lemma MapShrinks<V>(m: map<string, V>, k: string)
    ensures |m - {k}| <= |m|
  {
    assert (m - {k}).Keys == m.Keys - {k};
    assert |(m - {k}).Keys| == |m - {k}| && |m.Keys| == |m|;
    assert |m.Keys - {k}| <= |m.Keys|;
  }

  lemma VerdictsAppend(fs: seq<Frame>, f: Frame)
    ensures Verdicts(fs + [f]) == Verdicts(fs) + (if f.SyncDone? || f.SyncError? then 1 else 0)
    ensures SyncDone in fs + [f] <==> SyncDone in fs || f == SyncDone
  {
    assert (fs + [f])[..|fs|] == fs;
  }

  /** Only an accepted frame changes the log of accepted frames. */
  lemma QueuedWriteLogs(s: Session, f: Frame)
    ensures QueuedWrite(s, f).accepted == if CanAccept(s) then s.accepted + [f] else s.accepted
    ensures QueuedWrite(s, f).pending == if CanAccept(s) || s.disconnected then s.pending else map[]
    ensures CanAccept(s) ==> QueuedWrite(s, f).timer == s.timer
    ensures QueuedWrite(s, f).account == s.account
    ensures QueuedWrite(s, f).inFlight == s.inFlight
    ensures Verdicts(QueuedWrite(s, f).accepted) <= Verdicts(s.accepted) + (if f.SyncDone? || f.SyncError? then 1 else 0)
    ensures f != SyncDone ==> (SyncDone in QueuedWrite(s, f).accepted <==> SyncDone in s.accepted)
    ensures QueuedWrite(s, f).drain.NoQueue? <==> s.drain.NoQueue?
    ensures QueuedWrite(s, f).drain.Writing? <==> s.drain.Writing?
  {
    VerdictsAppend(s.accepted, f);
  }

  // ---------------------------------------------------------------- changes beside the scan

  /** Stable candidates are unchanged, and whatever was settled still is. */
  ghost predicate KeepsHistory(st: State, t: State) {
    && t.stable <= st.stable
    && (forall id :: id in t.stable && id in t.world.candidates ==>
          id in st.world.candidates && t.world.candidates[id] == st.world.candidates[id])
    && (forall id :: id in t.stable && Settled(st, id) ==> Settled(t, id))
  }

  ghost predicate KeepsPending(st: State, t: State) {
    forall id :: id in t.stable && id in st.ses.pending ==> id in t.ses.pending || Settled(t, id)
  }

  /** The scan stands where it stood, and while connected nothing it relies on was lost. */
  ghost predicate Beside(st: State, t: State) {
    && t.sync == st.sync && KeepsHistory(st, t)
    && (!t.ses.disconnected ==> !st.ses.disconnected && KeepsPending(st, t))
    && (SyncDone in t.ses.accepted ==> SyncDone in st.ses.accepted)
  }

  lemma CoverStays(st: State, t: State, upto: int)
    requires KeepsHistory(st, t) && KeepsPending(st, t) && Covered(st, upto)
    ensures Covered(t, upto)
  {
  }

  lemma PageStays(st: State, t: State, after: int, page: seq<Message>)
    requires KeepsHistory(st, t) && PageGood(st, after, page)
    ensures PageGood(t, after, page)
  {
  }

  lemma ProgressStays(st: State, t: State)
    requires WellFormed(st) && WellFormed(t) && t.sync == st.sync
    requires KeepsHistory(st, t) && KeepsPending(st, t) && Progress(st)
    ensures Progress(t)
  {
    match st.sync {
      case Fetching(after) => CoverStays(st, t, after);
      case Fetched(after, r) =>
        CoverStays(st, t, after);
        if r.Page? { PageStays(st, t, after, r.messages); }
      case AtGate(after, page, i) =>
        CoverStays(st, t, Prev(after, page, i));
        PageStays(st, t, after, page);
      case Admitted(after, page, i) =>
        CoverStays(st, t, Prev(after, page, i));
        PageStays(st, t, after, page);
      case Leaving(after, page, i, ok) =>
        if ok { CoverStays(st, t, page[i].seqNo); }
        PageStays(st, t, after, page);
      case Parked(after, page) => CoverStays(st, t, page[|page| - 1].seqNo);
      case _ =>
    }
  }

  lemma BesideMeans(st: State, t: State)
    requires WellFormed(st) && WellFormed(t) && Meaning(st) && Honest(t) && Beside(st, t)
    ensures Meaning(t)
  {
    if !t.ses.disconnected { ProgressStays(st, t); }
  }

  // ---------------------------------------------------------------- the world moves

  /** The candidates, receipts and refusals changed; the session did not. */
  ghost predicate WorldMoved(st: State, t: State) {
    && t == st.(world := t.world, stable := t.stable, tainted := t.tainted)
    && t.stable <= st.stable && st.tainted <= t.tainted
    && st.world.receipts <= t.world.receipts && st.world.cancelled <= t.world.cancelled
    && t.world.blocked <= st.world.blocked + t.tainted
    && (forall id :: id in t.stable ==>
          id in t.world.candidates && (id in st.world.candidates ==> t.world.candidates[id] == st.world.candidates[id]))
    && t.world.Ok()
  }

  lemma WorldStands(st: State, t: State)
    requires Standing(st) && WorldMoved(st, t)
    ensures Standing(t)
  {
  }

  lemma WorldHonest(st: State, t: State)
    requires WellFormed(st) && Honest(st) && WorldMoved(st, t)
    ensures Honest(t) && Beside(st, t)
  {
  }

  lemma WorldKeeps(st: State, t: State)
    requires Inv(st) && WorldMoved(st, t)
    ensures Inv(t)
  {
    WorldStands(st, t);
    WorldHonest(st, t);
    BesideMeans(st, t);
  }

  predicate IsWorldEvent(e: Event) {
    e.Candidates? || e.Receipt? || e.Cancel? || e.Block?
  }

  lemma WorldEventMoves(st: State, e: Event)
    requires WellFormed(st) && st.world.Ok() && Honest(st) && Enabled(st, e) && IsWorldEvent(e)
    ensures WorldMoved(st, Step(st, e))
  {
  }

  lemma WorldEventKeeps(st: State, e: Event)
    requires Inv(st) && Enabled(st, e) && IsWorldEvent(e)
    ensures Inv(Step(st, e))
  {
    WorldEventMoves(st, e);
    WorldKeeps(st, Step(st, e));
  }

  // ---------------------------------------------------------------- frames from elsewhere

  /** The session's queue, drain or connection changed. */
  ghost predicate Moved(s: Session, t: Session) {
    && SessionInv(t) && Continues(s, t)
    && t.account == s.account
    && (t.drain.NoQueue? <==> s.drain.NoQueue?)
    && (t.drain.NoQueue? ==> t.inFlight == s.inFlight && t.disconnected == s.disconnected)
    && (t.disconnected || (t.pending == s.pending && t.timer == s.timer))
    && (t.pending == s.pending || t.pending == map[])
    && (t.timer.NoTimer? <==> s.timer.NoTimer?)
    && Verdicts(t.accepted) == Verdicts(s.accepted)
    && (SyncDone in t.accepted ==> SyncDone in s.accepted)
  }

  lemma SessionStands(st: State, ses: Session)
    requires Standing(st) && Moved(st.ses, ses)
    ensures Standing(st.(ses := ses))
  {
  }

  lemma SessionMoveKeeps(st: State, ses: Session)
    requires Inv(st) && Moved(st.ses, ses)
    ensures Inv(st.(ses := ses))
  {
    SessionStands(st, ses);
    BesideMeans(st, st.(ses := ses));
  }

  lemma OtherFrameMoves(s: Session, tag: nat)
    requires SessionInv(s)
    ensures !s.drain.NoQueue? ==> Moved(s, QueuedWrite(s, Other(tag)))
    ensures Moved(s, AsyncSend(s, Other(tag)))
  {
    QueuedWriteKeeps(s, Other(tag));
    VerdictsAppend(s.accepted, Other(tag));
    QueuedWriteLogs(s, Other(tag));
  }

  lemma DrainMoves(s: Session, ok: bool)
    requires SessionInv(s)
    ensures s.drain.Starting? ==> Moved(s, DrainLoop(s))
    ensures s.drain.Holding? ==> Moved(s, DrainWrite(s))
    ensures s.drain.Writing? ==> Moved(s, DrainWritten(s, ok))
  {
    DrainKeeps(s, ok);
    if s.drain.Starting? {
      DrainLoopKeeps(s);
      assert s.(inFlight := 0) == s;
    }
  }

  predicate IsSessionEvent(e: Event) {
    e.Push? || e.ReadReply? || e.Disconnect? || e.DrainStart? || e.DrainBegin? || e.DrainEnd?
  }

  lemma SessionEventMoves(st: State, e: Event)
    requires SessionInv(st.ses) && Roles(st) && Enabled(st, e) && IsSessionEvent(e)
    ensures Step(st, e) == st.(ses := Step(st, e).ses) && Moved(st.ses, Step(st, e).ses)
  {
    match e {
      case Push(tag) => OtherFrameMoves(st.ses, tag);
      case ReadReply(tag) => OtherFrameMoves(st.ses, tag);
      case Disconnect => DisconnectKeeps(st.ses);
      case DrainEnd(ok) => DrainMoves(st.ses, ok);
      case _ => DrainMoves(st.ses, true);
    }
  }

  lemma SessionEventKeeps(st: State, e: Event)
    requires Inv(st) && Enabled(st, e) && IsSessionEvent(e)
    ensures Inv(Step(st, e))
  {
    SessionEventMoves(st, e);
    SessionMoveKeeps(st, Step(st, e).ses);
  }

  // ---------------------------------------------------------------- before the scan

  predicate IsLoginEvent(e: Event) {
    e.BeginDirectWrite? || e.EndDirectWrite? || e.PreAuthAbort? || e.AuthOk? || e.Announce?
  }

  lemma AnnounceStands(st: State, tag: nat)
    requires Standing(st) && st.sync.Announcing?
    ensures Standing(Step(st, Announce(tag)))
  {
    QueuedWriteKeeps(st.ses, Other(tag));
    QueuedWriteLogs(st.ses, Other(tag));
  }

  lemma AnnounceMeans(st: State, tag: nat)
    requires WellFormed(st) && Meaning(st) && st.sync.Announcing? && st.ack.AckIdle?
    requires SyncDone !in st.ses.accepted
    ensures var t := Step(st, Announce(tag)); WellFormed(t) ==> Meaning(t)
  {
    QueuedWriteLogs(st.ses, Other(tag));
    var t := Step(st, Announce(tag));
    assert t.sync.Fetching? ==> Covered(t, 0);
    assert Honest(t);
  }

  lemma LoginEventKeeps(st: State, e: Event)
    requires Inv(st) && Enabled(st, e) && IsLoginEvent(e)
    ensures Inv(Step(st, e))
  {
    match e {
      case Announce(tag) =>
        AnnounceStands(st, tag);
        AnnounceMeans(st, tag);
      case _ =>
    }
  }

  // ---------------------------------------------------------------- acknowledgements

  lemma AcknowledgeStands(st: State, id: string)
    requires Standing(st)
    ensures Standing(st.(ses := Acknowledge(st.ses, id)))
  {
    MapShrinks(st.ses.pending, id);
  }

  lemma AcknowledgeKeeps(st: State, id: string)
    requires Inv(st) && (id !in st.stable || Settled(st, id))
    ensures Inv(st.(ses := Acknowledge(st.ses, id)))
  {
    AcknowledgeStands(st, id);
    BesideMeans(st, st.(ses := Acknowledge(st.ses, id)));
  }

  /** Where the ACK coroutine stands matters to nothing else. */
  lemma AckMoves(st: State, ack: Ack, wire: bool)
    requires Inv(st) && st.reading && (ack.AckIdle? || ack.ids != [])
    requires ack.Served? && ack.ok ==> ack.ids[0] !in st.stable || Settled(st, ack.ids[0])
    ensures Inv(st.(ack := ack, wire := wire))
  {
    AckStands(st, ack, wire);
    BesideMeans(st, st.(ack := ack, wire := wire));
  }

  lemma AckStands(st: State, ack: Ack, wire: bool)
    requires Standing(st) && st.reading && (ack.AckIdle? || ack.ids != [])
    ensures Standing(st.(ack := ack, wire := wire))
  {
  }

  lemma AckResumeKeeps(st: State)
    requires Inv(st) && st.ack.Served?
    ensures Inv(Step(st, AckResume))
  {
    var t := Step(st, AckResume);
    if st.ack.ok {
      AcknowledgeKeeps(st, st.ack.ids[0]);
      AckMoves(st.(ses := Acknowledge(st.ses, st.ack.ids[0])), t.ack, t.wire);
    } else {
      AckMoves(st, t.ack, t.wire);
    }
  }

  lemma ReceiptMoves(st: State, id: string)
    requires WellFormed(st) && st.world.Ok() && Honest(st)
    ensures WorldMoved(st, StoreReceipt(st, id))
  {
  }

  lemma AckServeKeeps(st: State, v: Verdict)
    requires Inv(st) && Enabled(st, AckServe(v))
    ensures Inv(Step(st, AckServe(v)))
  {
    var id := st.ack.ids[0];
    var stored := v.Stored? || (v.Refused? && v.stored);
    if stored {
      ReceiptMoves(st, id);
      WorldKeeps(st, StoreReceipt(st, id));
    }
    var mid := if stored then StoreReceipt(st, id) else st;
    assert v.Refused? || id !in mid.stable || Settled(mid, id);
    AckMoves(mid, Served(st.ack.ids, st.ack.attempt, !v.Refused?), mid.wire);
  }

  predicate IsAckEvent(e: Event) {
    e.AckRead? || e.AckServe? || e.AckResume? || e.AckRetry?
  }

  lemma AckEventKeeps(st: State, e: Event)
    requires Inv(st) && Enabled(st, e) && IsAckEvent(e)
    ensures Inv(Step(st, e))
  {
    match e {
      case AckRead(ids) => AckMoves(st, Calling(ids, 0), st.wire);
      case AckServe(v) => AckServeKeeps(st, v);
      case AckResume => AckResumeKeeps(st);
      case AckRetry => AckMoves(st, Calling(st.ack.ids, 1), st.wire);
    }
  }

  // ---------------------------------------------------------------- the scan

  /** The scan is under way, nothing is parked and nothing has been reported. */
  ghost predicate UnderWay(st: State) {
    && SessionInv(st.ses) && Roles(st) && OneVerdict(st) && |st.ses.pending| <= BATCH
    && Scanning(st.sync) && st.ses.timer.NoTimer? && SyncDone !in st.ses.accepted
  }

  lemma ScanIsUnderWay(st: State)
    requires Standing(st) && Scanning(st.sync) && !st.sync.Parked?
    ensures UnderWay(st)
  {
  }

  /** The scan may stand anywhere its own conditions hold. */
  lemma StandsAt(st: State, sync: Sync)
    requires UnderWay(st) && Scanning(sync) && !sync.Parked?
    requires WellFormed(st.(sync := sync)) && Bounded(st.(sync := sync)) && Addressed(st.(sync := sync))
    ensures Standing(st.(sync := sync))
  {
  }

  lemma MeansAt(st: State, sync: Sync)
    requires WellFormed(st) && WellFormed(st.(sync := sync)) && Honest(st) && SyncDone !in st.ses.accepted
    requires !st.ses.disconnected ==> Progress(st.(sync := sync))
    ensures Meaning(st.(sync := sync))
  {
  }

  lemma StopKeeps(st: State)
    requires UnderWay(st) && Honest(st)
    ensures Inv(st.(sync := Finished))
  {
  }

  lemma FailKeeps(st: State, silent: bool)
    requires UnderWay(st) && Honest(st)
    ensures Inv(Fail(st, silent))
  {
    if st.ses.disconnected || silent {
      StopKeeps(st);
    } else {
      ReportStands(st, SyncError);
      ReportMeans(st, SyncError);
    }
  }

  /** The scan ends with a verdict, or with the disconnect a refused frame forces. */
  lemma ReportStands(st: State, f: Frame)
    requires UnderWay(st)
    ensures Standing(st.(sync := Finished, ses := QueuedWrite(st.ses, f)))
  {
    QueuedWriteKeeps(st.ses, f);
    QueuedWriteLogs(st.ses, f);
  }

  lemma ReportMeans(st: State, f: Frame)
    requires WellFormed(st) && Honest(st) && SyncDone !in st.ses.accepted && (f == SyncDone ==> AllSettled(st))
    ensures var t := st.(sync := Finished, ses := QueuedWrite(st.ses, f)); WellFormed(t) ==> Meaning(t)
  {
    QueuedWriteLogs(st.ses, f);
  }

  /** Reaching the end of a page extends the cover to its last message. */
  lemma CoverAdvances(st: State, after: Seq64, page: seq<Message>, i: nat)
    requires i < |page| && PageGood(st, after, page) && Covered(st, Prev(after, page, i))
    requires forall id :: id in st.stable && id in st.world.candidates && st.world.candidates[id] == page[i] ==>
               Settled(st, id) || id in st.ses.pending
    ensures Covered(st, page[i].seqNo)
  {
    forall id | id in st.stable && id in st.world.candidates && 0 < st.world.candidates[id].seqNo <= page[i].seqNo
      ensures Settled(st, id) || id in st.ses.pending
    {
      var m := st.world.candidates[id];
      if m.seqNo > Prev(after, page, i) {
        assert Holds(page, m);
        var j :| 0 <= j < |page| && page[j] == m;
        assert j == i;
      }
    }
  }

  /** Between two messages of a page. */
  ghost predicate MidPage(st: State, after: Seq64, page: seq<Message>, i: nat) {
    && UnderWay(st) && Honest(st)
    && page != [] && i <= |page| <= BATCH && |st.ses.pending| <= i
    && (!st.ses.disconnected ==> PageGood(st, after, page) && Covered(st, Prev(after, page, i)))
  }

  lemma EnterGateKeeps(st: State, after: Seq64, page: seq<Message>, i: nat)
    requires MidPage(st, after, page, i) && i < |page|
    requires IsSingleMessageFor(st.ses.account, page[i]) && page[i].seqNo > Prev(after, page, i)
    ensures Inv(st.(sync := AtGate(after, page, i)))
  {
    StandsAt(st, AtGate(after, page, i));
    GateMeans(st, after, page, i);
  }

  lemma GateMeans(st: State, after: Seq64, page: seq<Message>, i: nat)
    requires MidPage(st, after, page, i) && i < |page|
    ensures Meaning(st.(sync := AtGate(after, page, i)))
  {
    var t := st.(sync := AtGate(after, page, i));
    assert KeepsHistory(st, t);
    if !st.ses.disconnected {
      CoverStays(st, t, Prev(after, page, i));
      PageStays(st, t, after, page);
    }
    MeansAt(st, AtGate(after, page, i));
  }

  lemma NextPageKeeps(st: State, after: Seq64, page: seq<Message>)
    requires MidPage(st, after, page, |page|) && st.ses.pending == map[]
    ensures Inv(st.(sync := Fetching(page[|page| - 1].seqNo)))
  {
    var next := page[|page| - 1].seqNo;
    var t := st.(sync := Fetching(next));
    StandsAt(st, Fetching(next));
    assert KeepsHistory(st, t);
    if !st.ses.disconnected { CoverStays(st, t, next); }
    MeansAt(st, Fetching(next));
  }

  lemma ParkStands(st: State, after: Seq64, page: seq<Message>)
    requires UnderWay(st) && page != [] && st.ses.pending != map[] && !st.ses.disconnected
    ensures Standing(st.(sync := Parked(after, page), ses := BeginWait(st.ses)))
  {
  }

  lemma ParkKeeps(st: State, after: Seq64, page: seq<Message>)
    requires MidPage(st, after, page, |page|) && st.ses.pending != map[] && !st.ses.disconnected
    ensures Inv(st.(sync := Parked(after, page), ses := BeginWait(st.ses)))
  {
    var t := st.(sync := Parked(after, page), ses := BeginWait(st.ses));
    ParkStands(st, after, page);
    assert KeepsHistory(st, t);
    CoverStays(st, t, page[|page| - 1].seqNo);
  }

  lemma NextItemKeeps(st: State, after: Seq64, page: seq<Message>, i: nat)
    requires MidPage(st, after, page, i)
    ensures Inv(NextItem(st, after, page, i))
  {
    if st.ses.disconnected {
      StopKeeps(st);
    } else if i < |page| {
      if IsSingleMessageFor(st.ses.account, page[i]) && page[i].seqNo > Prev(after, page, i) {
        EnterGateKeeps(st, after, page, i);
      } else {
        FailKeeps(st, false);
      }
    } else if st.ses.pending == map[] {
      NextPageKeeps(st, after, page);
    } else {
      ParkKeeps(st, after, page);
    }
  }

  lemma ScanFails(st: State, silent: bool)
    requires Inv(st) && Scanning(st.sync) && !st.sync.Parked?
    ensures Inv(Fail(st, silent))
  {
    ScanIsUnderWay(st);
    FailKeeps(st, silent);
  }

  lemma ServedPageGood(st: State, t: State, after: int, page: seq<Message>)
    requires KeepsHistory(st, t) && PageOf(st.world.candidates, after, page)
    ensures PageGood(t, after, page)
  {
  }

  lemma FetchServeKeeps(st: State, r: Reply)
    requires Inv(st) && Enabled(st, FetchServe(r))
    ensures Inv(Step(st, FetchServe(r)))
  {
    var (after, next) := (st.sync.after, Fetched(st.sync.after, r));
    var t := st.(sync := next);
    ScanIsUnderWay(st);
    StandsAt(st, next);
    assert KeepsHistory(st, t);
    if r.Page? { ServedPageGood(st, t, after, r.messages); }
    if !st.ses.disconnected { CoverStays(st, t, after); }
    MeansAt(st, next);
  }

  /** With nothing above the cursor and nothing pending, nothing is owed. */
  lemma EmptyPageSettles(st: State, after: int)
    requires PageGood(st, after, []) && Covered(st, after) && st.ses.pending == map[]
    ensures AllSettled(st)
  {
    forall id | id in st.stable && id in st.world.candidates && 0 < st.world.candidates[id].seqNo
      ensures Settled(st, id)
    {
      assert !Holds([], st.world.candidates[id]);
    }
  }

  lemma CompleteKeeps(st: State)
    requires Inv(st) && st.sync.Fetched? && st.sync.reply == Page([]) && !st.ses.disconnected
    ensures AllSettled(st) && Inv(Step(st, FetchResume))
  {
    EmptyPageSettles(st, st.sync.after);
    ScanIsUnderWay(st);
    ReportStands(st, SyncDone);
    ReportMeans(st, SyncDone);
  }

  lemma FetchResumeKeeps(st: State)
    requires Inv(st) && st.sync.Fetched?
    ensures Inv(Step(st, FetchResume))
  {
    var (r, t) := (st.sync.reply, Step(st, FetchResume));
    if r.Throws? || (!st.ses.disconnected && |r.messages| > BATCH) {
      assert t == Fail(st, false);
      ScanFails(st, false);
    } else if st.ses.disconnected {
      ScanIsUnderWay(st);
      StopKeeps(st);
    } else if r.messages == [] {
      CompleteKeeps(st);
    } else {
      assert t == NextItem(st, st.sync.after, r.messages, 0);
      PageBegins(st);
    }
  }

  lemma PageBegins(st: State)
    requires Inv(st) && st.sync.Fetched? && st.sync.reply.Page? && !st.ses.disconnected
    requires 0 < |st.sync.reply.messages| <= BATCH
    ensures Inv(NextItem(st, st.sync.after, st.sync.reply.messages, 0))
  {
    ScanIsUnderWay(st);
    NextItemKeeps(st, st.sync.after, st.sync.reply.messages, 0);
  }

  predicate PastGate(s: Sync, t: Sync)
    requires s.AtGate?
  {
    t == Admitted(s.after, s.page, s.i) || (t.Leaving? && t == Leaving(s.after, s.page, s.i, t.ok))
  }

  /** A candidate the gate refuses, after looking, needs nothing more. */
  lemma RefusedIsSettled(st: State)
    requires WellFormed(st) && st.world.Ok() && Honest(st) && st.reading && st.sync.AtGate? && Progress(st)
    requires !st.world.Admits(st.sync.page[st.sync.i].id)
    ensures Covered(st, st.sync.page[st.sync.i].seqNo)
  {
    var (after, page, i) := (st.sync.after, st.sync.page, st.sync.i);
    assert Settled(st, page[i].id);
    forall id | id in st.stable && id in st.world.candidates && st.world.candidates[id] == page[i]
      ensures Settled(st, id)
    {
      assert st.world.candidates[id].id == id;
    }
    CoverAdvances(st, after, page, i);
  }

  lemma PassGateMeans(st: State, sync: Sync)
    requires WellFormed(st) && Meaning(st) && st.sync.AtGate? && SyncDone !in st.ses.accepted
    requires PastGate(st.sync, sync)
    requires sync.Leaving? && sync.ok && !st.ses.disconnected ==> Covered(st, st.sync.page[st.sync.i].seqNo)
    ensures Meaning(st.(sync := sync))
  {
    var (after, page, i, t) := (st.sync.after, st.sync.page, st.sync.i, st.(sync := sync));
    assert KeepsHistory(st, t);
    if !st.ses.disconnected {
      PageStays(st, t, after, page);
      CoverStays(st, t, Prev(after, page, i));
      if sync.Leaving? && sync.ok { CoverStays(st, t, page[i].seqNo); }
    }
    MeansAt(st, sync);
  }

  lemma GateDecideKeeps(st: State, fails: bool)
    requires Inv(st) && st.sync.AtGate?
    ensures Inv(Step(st, GateDecide(fails)))
  {
    if !st.ses.disconnected && !fails && !st.world.Admits(st.sync.page[st.sync.i].id) {
      RefusedIsSettled(st);
    }
    var t := Step(st, GateDecide(fails));
    assert t == st.(sync := t.sync) && PastGate(st.sync, t.sync);
    ScanIsUnderWay(st);
    StandsAt(st, t.sync);
    PassGateMeans(st, t.sync);
  }

  /** Registering the page's i-th message covers it. */
  lemma RegisterCovers(st: State, ses: Session)
    requires WellFormed(st) && st.world.Ok() && st.sync.Admitted? && Progress(st)
    requires var m := st.sync.page[st.sync.i]; ses.pending == st.ses.pending[m.id := m.seqNo]
    ensures PageGood(st.(ses := ses), st.sync.after, st.sync.page)
    ensures Covered(st.(ses := ses), st.sync.page[st.sync.i].seqNo)
  {
    var (page, i, t) := (st.sync.page, st.sync.i, st.(ses := ses));
    forall id | id in t.stable && id in t.world.candidates && t.world.candidates[id] == page[i]
      ensures id in ses.pending
    {
      assert t.world.candidates[id].id == id;
    }
    CoverAdvances(t, st.sync.after, page, i);
  }

  /** The session after registering and enqueuing, or after the disconnect a full queue forces. */
  ghost predicate Registered(s: Session, t: Session, id: string, seqNo: int) {
    && SessionInv(t) && t.account == s.account && |t.pending| <= |s.pending| + 1
    && (t.disconnected ==> t.pending == map[])
    && (!t.disconnected ==> t.pending == s.pending[id := seqNo])
    && (s.timer.NoTimer? ==> t.timer.NoTimer?)
    && (t.drain.NoQueue? <==> s.drain.NoQueue?)
    && Verdicts(t.accepted) == Verdicts(s.accepted)
    && (SyncDone in t.accepted ==> SyncDone in s.accepted)
  }

  lemma RegisterAndSendRegisters(s: Session, id: string, seqNo: int)
    requires SessionInv(s) && !s.disconnected
    ensures Registered(s, RegisterAndSend(s, id, seqNo), id, seqNo)
  {
    var registered := s.(pending := s.pending[id := seqNo]);
    MapGrows(s.pending, id, seqNo);
    VerdictsAppend(s.accepted, Offline(id));
    QueuedWriteKeeps(registered, Offline(id));
    QueuedWriteLogs(registered, Offline(id));
  }

  lemma LeaveGateStands(st: State, ses: Session)
    requires Standing(st) && st.sync.Admitted? && !st.ses.disconnected
    requires var m := st.sync.page[st.sync.i]; Registered(st.ses, ses, m.id, m.seqNo)
    ensures Standing(st.(ses := ses, sync := Leaving(st.sync.after, st.sync.page, st.sync.i, !ses.disconnected)))
  {
  }

  lemma LeaveGateMeans(st: State, ses: Session)
    requires WellFormed(st) && st.world.Ok() && Meaning(st) && st.sync.Admitted? && !st.ses.disconnected
    requires SyncDone !in ses.accepted && (ses.drain.Writing? ==> ses.inFlight > 0)
    requires var m := st.sync.page[st.sync.i]; !ses.disconnected ==> ses.pending == st.ses.pending[m.id := m.seqNo]
    ensures Meaning(st.(ses := ses, sync := Leaving(st.sync.after, st.sync.page, st.sync.i, !ses.disconnected)))
  {
    var (after, page, i) := (st.sync.after, st.sync.page, st.sync.i);
    var (mid, t) := (st.(ses := ses), st.(ses := ses, sync := Leaving(after, page, i, !ses.disconnected)));
    if !ses.disconnected {
      RegisterCovers(st, ses);
      assert KeepsHistory(mid, t);
      PageStays(mid, t, after, page);
      CoverStays(mid, t, page[i].seqNo);
    }
  }

  lemma ActionRunKeeps(st: State)
    requires Inv(st) && st.sync.Admitted?
    ensures Inv(Step(st, ActionRun))
  {
    var m := st.sync.page[st.sync.i];
    if st.ses.disconnected {
      var next := Leaving(st.sync.after, st.sync.page, st.sync.i, false);
      ScanIsUnderWay(st);
      StandsAt(st, next);
      MeansAt(st, next);
      assert Step(st, ActionRun) == st.(sync := next);
    } else {
      var ses := RegisterAndSend(st.ses, m.id, m.seqNo);
      RegisterAndSendRegisters(st.ses, m.id, m.seqNo);
      LeaveGateStands(st, ses);
      LeaveGateMeans(st, ses);
      assert Step(st, ActionRun)
          == st.(ses := ses, sync := Leaving(st.sync.after, st.sync.page, st.sync.i, !ses.disconnected));
    }
  }

  lemma LeavingIsMidPage(st: State)
    requires Inv(st) && st.sync.Leaving? && st.sync.ok
    ensures MidPage(st, st.sync.after, st.sync.page, st.sync.i + 1)
  {
    ScanIsUnderWay(st);
  }

  lemma PageGoesOn(st: State)
    requires Inv(st) && st.sync.Leaving? && st.sync.ok
    ensures Inv(NextItem(st, st.sync.after, st.sync.page, st.sync.i + 1))
  {
    LeavingIsMidPage(st);
    NextItemKeeps(st, st.sync.after, st.sync.page, st.sync.i + 1);
  }

  lemma GateReturnKeeps(st: State, commitOk: bool, silent: bool)
    requires Inv(st) && st.sync.Leaving?
    ensures Inv(Step(st, GateReturn(commitOk, silent)))
  {
    var t := Step(st, GateReturn(commitOk, silent));
    if st.sync.ok && commitOk {
      assert t == NextItem(st, st.sync.after, st.sync.page, st.sync.i + 1);
      PageGoesOn(st);
    } else {
      assert t == Fail(st, silent);
      ScanFails(st, silent);
    }
  }

  lemma WaitStands(st: State)
    requires Standing(st) && st.sync.Parked?
    ensures Standing(ResumeWait(st, st.sync.page))
  {
    DisconnectKeeps(st.ses.(timer := NoTimer));
  }

  lemma WaitMeans(st: State)
    requires WellFormed(st) && Meaning(st) && st.sync.Parked? && SyncDone !in st.ses.accepted
    ensures var t := ResumeWait(st, st.sync.page); WellFormed(t) ==> Meaning(t)
  {
    var t := ResumeWait(st, st.sync.page);
    assert KeepsHistory(st, t);
    if !t.ses.disconnected {
      CoverStays(st, t, st.sync.page[|st.sync.page| - 1].seqNo);
    }
  }

  lemma TimerResumeKeeps(st: State)
    requires Inv(st) && st.sync.Parked?
    ensures Inv(Step(st, TimerResume))
  {
    assert Step(st, TimerResume) == ResumeWait(st, st.sync.page);
    WaitStands(st);
    WaitMeans(st);
  }

  lemma ScanEventKeeps(st: State, e: Event)
    requires Inv(st) && Enabled(st, e)
    requires !IsWorldEvent(e) && !IsSessionEvent(e) && !IsLoginEvent(e) && !IsAckEvent(e)
    ensures Inv(Step(st, e))
  {
    match e {
      case FetchServe(r) => FetchServeKeeps(st, r);
      case FetchResume => FetchResumeKeeps(st);
      case GateDecide(fails) => GateDecideKeeps(st, fails);
      case ActionRun => ActionRunKeeps(st);
      case GateReturn(commitOk, silent) => GateReturnKeeps(st, commitOk, silent);
      case TimerResume => TimerResumeKeeps(st);
    }
  }

  lemma StepKeeps(st: State, e: Event)
    requires Inv(st) && Enabled(st, e)
    ensures Inv(Step(st, e))
  {
    if IsWorldEvent(e) { WorldEventKeeps(st, e); }
    else if IsSessionEvent(e) { SessionEventKeeps(st, e); }
    else if IsLoginEvent(e) { LoginEventKeeps(st, e); }
    else if IsAckEvent(e) { AckEventKeeps(st, e); }
    else { ScanEventKeeps(st, e); }
  }

  lemma InitInv(st: State)
    requires Init(st)
    ensures Inv(st)
  {
  }
}
