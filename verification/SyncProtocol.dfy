/**
  The offline-sync protocol of one session: the authentication tail, the paging coroutine, the
  ACK coroutine, the write drain, pushes and disconnects, interleaved with the message store.
  Each event is one stretch of code between two awaits on the session executor, or one
  change of the world outside it.
 */
module SyncProtocol {
  import opened Messages
  import opened Session
  import OfflineScan

  const BATCH: nat := OfflineScan.BATCH

  // ---------------------------------------------------------------- the world

  /**
    The recipient's stored candidates and what the gate consults about them. `receipts` and
    `cancelled` (outbox state 3) only grow; `blocked` stands for every other refusal of
    WithFriendMessage: friendship, deletion watermark, uncommitted body.
   */
  datatype World = World(candidates: map<string, Message>, receipts: set<string>,
                         cancelled: set<string>, blocked: set<string>)
  {
    /** Ids are keys and a recipient's sequence numbers are unique. */
    ghost predicate Ok() {
      && (forall id :: id in candidates ==> candidates[id].id == id)
      && (forall a, b :: a in candidates && b in candidates && candidates[a].seqNo == candidates[b].seqNo ==> a == b)
    }

    /** The verdict of WithFriendMessage with requireUndelivered set. */
    predicate Admits(id: string) {
      id !in blocked && id !in cancelled && id !in receipts
    }
  }

  ghost predicate Holds(page: seq<Message>, m: Message) {
    exists i :: 0 <= i < |page| && page[i] == m
  }

  /** A page GetMsgsBySeqFromMongo may return: the lowest candidates above the cursor, ascending. */
  ghost predicate PageOf(candidates: map<string, Message>, after: int, page: seq<Message>) {
    && |page| <= BATCH && Ascending(page)
    && (forall i :: 0 <= i < |page| ==>
          page[i].seqNo > after && page[i].id in candidates && candidates[page[i].id] == page[i])
    && (forall id :: id in candidates && candidates[id].seqNo > after ==>
          Holds(page, candidates[id]) || (|page| == BATCH && candidates[id].seqNo > page[BATCH - 1].seqNo))
  }

  // ---------------------------------------------------------------- the coroutines

  datatype Reply = Page(messages: seq<Message>) | Throws

  /** handleAuth from the first frame to its end, with the scan it drives. */
  datatype Sync =
    | PreAuth
    | DirectWriting
    | Announcing
    | Fetching(after: Seq64)
    | Fetched(after: Seq64, reply: Reply)
    | AtGate(after: Seq64, page: seq<Message>, i: nat)
    | Admitted(after: Seq64, page: seq<Message>, i: nat)
    | Leaving(after: Seq64, page: seq<Message>, i: nat, ok: bool)
    | Parked(after: Seq64, page: seq<Message>)
    | Finished

  /** handleAck: the ids still to persist and the attempt on the first of them. */
  datatype Ack =
    | AckIdle
    | Calling(ids: seq<string>, attempt: nat)
    | Served(ids: seq<string>, attempt: nat, ok: bool)
    | Pausing(ids: seq<string>)

  /**
    `stable` is the history of candidates present, unchanged, since the scan began; `tainted`
    of ids the gate would have refused for a `blocked` reason at some moment since. `wire` falls
    when handleAck closes the socket; frames read in before may still be served afterwards.
   */
  datatype State = State(world: World, stable: set<string>, tainted: set<string>,
                         ses: Session, sync: Sync, ack: Ack, reading: bool, wire: bool)

  /** How QueueMessageAck ends: receipt stored, nothing to store, or an error seen by the caller. */
  datatype Verdict = Stored | Moot | Refused(stored: bool)

  datatype Event =
    | Candidates(candidates: map<string, Message>)
    | Receipt(id: string)
    | Cancel(id: string)
    | Block(refused: set<string>)
    | BeginDirectWrite | EndDirectWrite | PreAuthAbort
    | AuthOk(account: nat)
    | Announce(tag: nat)
    | FetchServe(reply: Reply)
    | FetchResume
    | GateDecide(fails: bool)
    | ActionRun
    | GateReturn(commitOk: bool, silent: bool)
    | TimerResume
    | AckRead(ids: seq<string>)
    | AckServe(verdict: Verdict)
    | AckResume | AckRetry
    | ReadReply(tag: nat)
    | Push(tag: nat)
    | Disconnect
    | DrainStart | DrainBegin | DrainEnd(ok: bool)

  /** Positions inside pages and id lists that every step may rely on. */
  predicate WellFormed(st: State) {
    && (match st.sync
        case AtGate(_, page, i) => i < |page|
        case Admitted(_, page, i) => i < |page|
        case Leaving(_, page, i, _) => i < |page|
        case Parked(_, page) => page != []
        case _ => true)
    && (st.ack.AckIdle? || st.ack.ids != [])
    && (st.ses.drain.Writing? ==> st.ses.inFlight > 0)
    && (st.sync.DirectWriting? ==> st.ses.inFlight > 0)
  }

  ghost predicate Enabled(st: State, e: Event)
    requires WellFormed(st)
  {
    match e
    case Candidates(c) => World(c, {}, {}, {}).Ok()
    case Receipt(_) => true
    case Cancel(_) => true
    case Block(_) => true
    case BeginDirectWrite => st.sync.PreAuth?
    case EndDirectWrite => st.sync.DirectWriting?
    case PreAuthAbort => st.sync.PreAuth?
    case AuthOk(account) => st.sync.PreAuth? && account != 0
    case Announce(_) => st.sync.Announcing?
    case FetchServe(r) => st.sync.Fetching? && (r.Page? ==> PageOf(st.world.candidates, st.sync.after, r.messages))
    case FetchResume => st.sync.Fetched?
    case GateDecide(_) => st.sync.AtGate?
    case ActionRun => st.sync.Admitted?
    case GateReturn(_, _) => st.sync.Leaving?
    case TimerResume => st.sync.Parked?
    case AckRead(ids) => st.reading && st.ack.AckIdle? && ids != []
    case AckServe(v) => st.ack.Calling? &&
      (v.Moot? ==> st.ack.ids[0] in st.world.cancelled || st.ack.ids[0] !in st.world.candidates)
    case AckResume => st.ack.Served?
    case AckRetry => st.ack.Pausing?
    case ReadReply(_) => st.reading && st.ack.AckIdle?
    case Push(_) => true
    case Disconnect => !st.ses.drain.NoQueue?
    case DrainStart => st.ses.drain.Starting?
    case DrainBegin => st.ses.drain.Holding?
    case DrainEnd(_) => st.ses.drain.Writing?
  }

  /** An exception leaves the scan: report SYNC_ERROR unless disconnected (or the text is empty). */
  function Fail(st: State, silent: bool): State {
    if st.ses.disconnected || silent then st.(sync := Finished)
    else st.(sync := Finished, ses := QueuedWrite(st.ses, SyncError))
  }

  function Prev(after: Seq64, page: seq<Message>, i: nat): Seq64
    requires i <= |page|
  {
    if i == 0 then after else page[i - 1].seqNo
  }

  /** The rest of a page from index `i`, up to the next await. */
  function NextItem(st: State, after: Seq64, page: seq<Message>, i: nat): State
    requires i <= |page| && page != []
  {
    if st.ses.disconnected then st.(sync := Finished)
    else if i < |page| then
      if !IsSingleMessageFor(st.ses.account, page[i]) || page[i].seqNo <= Prev(after, page, i)
      then Fail(st, false)
      else st.(sync := AtGate(after, page, i))
    else if st.ses.pending == map[] then st.(sync := Fetching(page[|page| - 1].seqNo))
    else st.(sync := Parked(after, page), ses := BeginWait(st.ses))
  }

  function ResumeFetch(st: State, after: Seq64, reply: Reply): State {
    if reply.Throws? then Fail(st, false)
    else if st.ses.disconnected then st.(sync := Finished)
    else if reply.messages == [] then st.(sync := Finished, ses := QueuedWrite(st.ses, SyncDone))
    else if |reply.messages| > BATCH then Fail(st, false)
    else NextItem(st, after, reply.messages, 0)
  }

  /** waitOfflineBatch after its timer completes, expired or cancelled. */
  function ResumeWait(st: State, page: seq<Message>): State
    requires page != []
  {
    var ses := EndWait(st.ses);
    st.(ses := ses, sync := if ses.disconnected then Finished else Fetching(page[|page| - 1].seqNo))
  }

  function ResumeAck(st: State, ids: seq<string>, attempt: nat, ok: bool): State
    requires ids != []
  {
    if ok then st.(ses := Acknowledge(st.ses, ids[0]),
                   ack := if |ids| > 1 then Calling(ids[1..], 0) else AckIdle)
    else if attempt == 0 then st.(ack := Pausing(ids))
    else st.(ack := AckIdle, wire := false)
  }

  function StoreReceipt(st: State, id: string): State {
    st.(world := st.world.(receipts := st.world.receipts + {id}))
  }

  ghost function Step(st: State, e: Event): State
    requires WellFormed(st) && Enabled(st, e)
  {
    match e
    case Candidates(c) =>
      st.(world := st.world.(candidates := c),
          stable := set id | id in st.stable && id in c && id in st.world.candidates && c[id] == st.world.candidates[id])
    case Receipt(id) => StoreReceipt(st, id)
    case Cancel(id) => st.(world := st.world.(cancelled := st.world.cancelled + {id}))
    case Block(ids) => st.(world := st.world.(blocked := ids), tainted := st.tainted + ids)
    case BeginDirectWrite => st.(sync := DirectWriting, ses := st.ses.(inFlight := st.ses.inFlight + 1))
    case EndDirectWrite => st.(sync := Finished, ses := st.ses.(inFlight := st.ses.inFlight - 1))
    case PreAuthAbort => st.(sync := Finished, ses := OnDisconnect(st.ses))
    case AuthOk(account) => st.(sync := Announcing, ses := Authenticate(st.ses, account))
    case Announce(tag) =>
      var ses := QueuedWrite(st.ses, Other(tag));
      if ses.disconnected then st.(sync := Finished, ses := ses)
      else st.(sync := Fetching(0), ses := ses, reading := true,
               stable := st.world.candidates.Keys, tainted := st.world.blocked)
    case FetchServe(r) => st.(sync := Fetched(st.sync.after, r))
    case FetchResume => ResumeFetch(st, st.sync.after, st.sync.reply)
    case GateDecide(fails) =>
      if fails then st.(sync := Leaving(st.sync.after, st.sync.page, st.sync.i, false))
      else if st.world.Admits(st.sync.page[st.sync.i].id) then st.(sync := Admitted(st.sync.after, st.sync.page, st.sync.i))
      else st.(sync := Leaving(st.sync.after, st.sync.page, st.sync.i, true))
    case ActionRun =>
      var m := st.sync.page[st.sync.i];
      var ses := if st.ses.disconnected then st.ses else RegisterAndSend(st.ses, m.id, m.seqNo);
      st.(ses := ses, sync := Leaving(st.sync.after, st.sync.page, st.sync.i, !ses.disconnected))
    case GateReturn(commitOk, silent) =>
      if st.sync.ok && commitOk then NextItem(st, st.sync.after, st.sync.page, st.sync.i + 1) else Fail(st, silent)
    case TimerResume => ResumeWait(st, st.sync.page)
    case AckRead(ids) => st.(ack := Calling(ids, 0))
    case AckServe(v) =>
      var stored := v.Stored? || (v.Refused? && v.stored);
      (if stored then StoreReceipt(st, st.ack.ids[0]) else st).(ack := Served(st.ack.ids, st.ack.attempt, !v.Refused?))
    case AckResume => ResumeAck(st, st.ack.ids, st.ack.attempt, st.ack.ok)
    case AckRetry => st.(ack := Calling(st.ack.ids, 1))
    case ReadReply(tag) => st.(ses := QueuedWrite(st.ses, Other(tag)))
    case Push(tag) => st.(ses := AsyncSend(st.ses, Other(tag)))
    case Disconnect => st.(ses := OnDisconnect(st.ses))
    case DrainStart => st.(ses := DrainLoop(st.ses))
    case DrainBegin => st.(ses := DrainWrite(st.ses))
    case DrainEnd(ok) => st.(ses := DrainWritten(st.ses, ok))
  }

  /** A session just accepted, over any store. */
  ghost predicate Init(st: State) {
    st.world.Ok() && st == State(st.world, {}, {}, FRESH, PreAuth, AckIdle, false, true)
  }
}
