/**
  The state one WSSession owns and the uninterrupted stretches of code that change it.
  `Session` is the value of that state with its logs; `WSSession` is the object whose fields
  the code updates, each method proved to take the value where the function says.
 */
module Session {

  const QUEUE_CAPACITY: nat := 256

  /** Frames by what the protocol needs to know of them; 209 frames are the two sync verdicts. */
  datatype Frame = Offline(id: string) | SyncDone | SyncError | Other(tag: nat)

  /** batch_ack_timer_: absent, armed, or cancelled with the waiter not yet resumed. */
  datatype Timer = NoTimer | Armed | Cancelled

  /** doDrainWriteQueue: where the one coroutine that writes frames stands. */
  datatype Drain = NoQueue | Starting | Waiting | Holding(frame: Frame) | Writing(frame: Frame) | Stopped

  /** `accepted` and `written` log every frame the queue took and every write begun from it. */
  datatype Session = Session(
    account: nat,
    disconnected: bool,
    pending: map<string, int>,
    timer: Timer,
    drain: Drain,
    queue: seq<Frame>,
    accepted: seq<Frame>,
    written: seq<Frame>,
    inFlight: nat,
    unregistrations: nat)

  const FRESH := Session(0, false, map[], NoTimer, NoQueue, [], [], [], 0, 0)

  /** onDisconnect up to its first await. */
  function OnDisconnect(s: Session): Session {
    if s.disconnected then s
    else s.(disconnected := true,
            timer := if s.timer.Armed? then Cancelled else s.timer,
            pending := map[],
            drain := if s.drain.Waiting? then Stopped else s.drain,
            unregistrations := if s.account == 0 then s.unregistrations else s.unregistrations + 1)
  }

  predicate CanAccept(s: Session) {
    !s.disconnected && !s.drain.NoQueue? && (s.drain.Waiting? || |s.queue| < QUEUE_CAPACITY)
  }

  /** A successful try_send: a waiting receiver takes the frame, otherwise it is buffered. */
  function Accept(s: Session, f: Frame): Session
    requires CanAccept(s)
  {
    if s.drain.Waiting? then s.(drain := Holding(f), accepted := s.accepted + [f])
    else s.(queue := s.queue + [f], accepted := s.accepted + [f])
  }

  /** queuedWrite: a refused frame closes the session (and the caller gets an exception). */
  function QueuedWrite(s: Session, f: Frame): Session {
    if CanAccept(s) then Accept(s, f) else OnDisconnect(s)
  }

  /** The handler asyncSend posts; a refusal spawns a later onDisconnect. */
  function AsyncSend(s: Session, f: Frame): Session {
    if CanAccept(s) then Accept(s, f) else s
  }

  /** startWriteQueue, in the stretch that sets the account and registers the session. */
  function Authenticate(s: Session, account: nat): Session {
    s.(account := account, drain := Starting)
  }

  /** The head of the drain loop: stop, take a buffered frame, or wait for one. */
  function DrainLoop(s: Session): Session {
    if s.disconnected then s.(drain := Stopped)
    else if s.queue == [] then s.(drain := Waiting)
    else s.(drain := Holding(s.queue[0]), queue := s.queue[1..])
  }

  function DrainWrite(s: Session): Session
    requires s.drain.Holding?
  {
    s.(drain := Writing(s.drain.frame), written := s.written + [s.drain.frame], inFlight := s.inFlight + 1)
  }

  function DrainWritten(s: Session, ok: bool): Session
    requires s.drain.Writing? && s.inFlight > 0
  {
    var done := s.(inFlight := s.inFlight - 1);
    if ok then DrainLoop(done) else OnDisconnect(done.(drain := Stopped))
  }

  /** deliverOfflineMessage's action: register, then enqueue. */
  function RegisterAndSend(s: Session, id: string, seqNo: int): Session
    requires !s.disconnected
  {
    QueuedWrite(s.(pending := s.pending[id := seqNo]), Offline(id))
  }

  /** handleAck after a persisted acknowledgement of `id`. */
  function Acknowledge(s: Session, id: string): Session {
    if id !in s.pending then s
    else
      var rest := s.pending - {id};
      s.(pending := rest, timer := if rest == map[] && s.timer.Armed? then Cancelled else s.timer)
  }

  /** waitOfflineBatch up to its wait: park only with something to wait for. */
  function BeginWait(s: Session): Session {
    if s.disconnected || s.pending == map[] then s else s.(timer := Armed)
  }

  /** waitOfflineBatch once the timer completes, expired or cancelled. */
  function EndWait(s: Session): Session {
    var woken := s.(timer := NoTimer);
    if woken.disconnected || woken.pending == map[] then woken else OnDisconnect(woken)
  }

  function AcknowledgeAll(s: Session, ids: seq<string>): Session {
    if ids == [] then s else Acknowledge(AcknowledgeAll(s, ids[..|ids| - 1]), ids[|ids| - 1])
  }

  // ---------------------------------------------------------------- what every stretch keeps

  function Held(d: Drain): seq<Frame> {
    if d.Holding? then [d.frame] else []
  }

  /**
    Writes are serialised: accepted frames are, in order, those whose write has begun, the one
    the drain holds and those still buffered; at most one write is outstanding.
   */
  ghost predicate Serialised(s: Session) {
    && s.accepted == s.written + Held(s.drain) + s.queue
    && |s.queue| <= QUEUE_CAPACITY
    && (s.drain.Waiting? ==> s.queue == [] && !s.disconnected)
    && (s.drain.NoQueue? || s.drain.Starting? ==> s.written == [])
    && (s.drain.NoQueue? ==> s.queue == [])
    && s.inFlight <= 1
    && (!s.drain.NoQueue? ==> (s.inFlight == 1 <==> s.drain.Writing?))
  }

  /** Disconnection is final: nothing stays pending, and it unregistered exactly once. */
  ghost predicate Closed(s: Session) {
    && (s.disconnected ==> s.pending == map[] && !s.timer.Armed?)
    && (s.drain.Stopped? ==> s.disconnected)
    && s.unregistrations == (if s.disconnected && s.account != 0 then 1 else 0)
    && (s.drain.NoQueue? <==> s.account == 0)
  }

  ghost predicate SessionInv(s: Session) {
    Serialised(s) && Closed(s)
  }

  /** One stretch never undoes a disconnect, rewrites a log, or accepts after closing. */
  ghost predicate Continues(s: Session, t: Session) {
    && (s.disconnected ==> t.disconnected && t.accepted == s.accepted)
    && s.accepted <= t.accepted && s.written <= t.written
    && s.unregistrations <= t.unregistrations
  }

  lemma DisconnectKeeps(s: Session)
    requires SessionInv(s)
    ensures SessionInv(OnDisconnect(s)) && Continues(s, OnDisconnect(s))
    ensures OnDisconnect(s).disconnected && OnDisconnect(s).pending == map[]
    ensures OnDisconnect(OnDisconnect(s)) == OnDisconnect(s)
  {
  }

  lemma AcceptKeeps(s: Session, f: Frame)
    requires SessionInv(s) && CanAccept(s)
    ensures SessionInv(Accept(s, f)) && Continues(s, Accept(s, f))
  {
    var w := s.written + Held(s.drain);
    assert (w + s.queue) + [f] == w + (s.queue + [f]);
  }

  lemma QueuedWriteKeeps(s: Session, f: Frame)
    requires SessionInv(s)
    ensures SessionInv(QueuedWrite(s, f)) && Continues(s, QueuedWrite(s, f))
    ensures !QueuedWrite(s, f).disconnected <==> CanAccept(s)
  {
    if CanAccept(s) { AcceptKeeps(s, f); } else { DisconnectKeeps(s); }
  }

  lemma DrainLoopKeeps(s: Session)
    requires SessionInv(s) && (s.drain.Starting? || s.drain.Writing?)
    ensures var t := DrainLoop(s.(inFlight := 0)); SessionInv(t) && Continues(s, t)
  {
    if !s.disconnected && s.queue != [] {
      assert [s.queue[0]] + s.queue[1..] == s.queue;
    }
  }

  lemma DrainKeeps(s: Session, ok: bool)
    requires SessionInv(s)
    ensures s.drain.Holding? ==> SessionInv(DrainWrite(s)) && Continues(s, DrainWrite(s))
    ensures s.drain.Writing? ==> SessionInv(DrainWritten(s, ok)) && Continues(s, DrainWritten(s, ok))
  {
    if s.drain.Writing? {
      if ok { DrainLoopKeeps(s); }
    }
  }

  // ---------------------------------------------------------------- the object

  class WSSession {
    var account: nat
    var disconnected: bool
    var pending: map<string, int>
    var timer: Timer
    var drain: Drain
    var queue: seq<Frame>
    var inFlight: nat
    ghost var accepted: seq<Frame>
    ghost var written: seq<Frame>
    ghost var unregistrations: nat

    ghost function View(): Session
      reads this
    {
      Session(account, disconnected, pending, timer, drain, queue, accepted, written, inFlight, unregistrations)
    }

    constructor ()
      ensures View() == FRESH
    {
      account, disconnected, pending, timer := 0, false, map[], NoTimer;
      drain, queue, inFlight := NoQueue, [], 0;
      accepted, written, unregistrations := [], [], 0;
    }

    method Disconnect()
      modifies this
      ensures View() == OnDisconnect(old(View()))
      ensures disconnected && (!old(disconnected) ==> pending == map[] && !timer.Armed? && !drain.Waiting?)
    {
      if disconnected {
        return;
      }
      disconnected := true;
      if timer.Armed? {
        timer := Cancelled;
      }
      pending := map[];
      if drain.Waiting? {
        drain := Stopped;
      }
      if account == 0 {
        return;
      }
      unregistrations := unregistrations + 1;
    }

    /** channel::try_send on an open queue. */
    method TrySend(f: Frame) returns (ok: bool)
      requires !disconnected && !drain.NoQueue?
      modifies this
      ensures ok == CanAccept(old(View()))
      ensures View() == if ok then Accept(old(View()), f) else old(View())
    {
      if drain.Waiting? {
        drain := Holding(f);
      } else if |queue| < QUEUE_CAPACITY {
        queue := queue + [f];
      } else {
        return false;
      }
      accepted := accepted + [f];
      return true;
    }

    method Send(f: Frame) returns (ok: bool)
      modifies this
      ensures ok == CanAccept(old(View()))
      ensures View() == QueuedWrite(old(View()), f)
      ensures if ok then accepted == old(accepted) + [f] && !disconnected else accepted == old(accepted) && disconnected
    {
      ok := false;
      if !disconnected && !drain.NoQueue? {
        ok := TrySend(f);
      }
      if !ok {
        Disconnect();
      }
    }

    method Post(f: Frame) returns (mustClose: bool)
      modifies this
      ensures View() == AsyncSend(old(View()), f)
      ensures mustClose == (!old(disconnected) && !CanAccept(old(View())))
      ensures accepted == if old(disconnected) || mustClose then old(accepted) else old(accepted) + [f]
    {
      if disconnected {
        return false;
      }
      var ok := false;
      if !drain.NoQueue? {
        ok := TrySend(f);
      }
      return !ok;
    }

    method NextFrame()
      modifies this
      ensures View() == DrainLoop(old(View()))
    {
      if disconnected {
        drain := Stopped;
      } else if queue == [] {
        drain := Waiting;
      } else {
        drain, queue := Holding(queue[0]), queue[1..];
      }
    }

    method DeliverOffline(id: string, seqNo: int) returns (ok: bool)
      modifies this
      ensures View() == if old(disconnected) then old(View()) else RegisterAndSend(old(View()), id, seqNo)
      ensures if ok then !disconnected && id in pending && accepted == old(accepted) + [Offline(id)]
              else disconnected && (old(disconnected) || pending == map[])
    {
      if disconnected {
        return false;
      }
      pending := pending[id := seqNo];
      ok := Send(Offline(id));
    }

    method BeginBatchWait() returns (parked: bool)
      modifies this`timer
      ensures View() == BeginWait(old(View()))
      ensures parked <==> !disconnected && pending != map[]
    {
      if disconnected || pending == map[] {
        return false;
      }
      timer := Armed;
      return true;
    }

    /** However the wait ended, afterwards the session is closed or nothing is owed. */
    method EndBatchWait()
      modifies this
      ensures View() == EndWait(old(View()))
      ensures disconnected || pending == map[]
    {
      timer := NoTimer;
      if disconnected || pending == map[] {
        return;
      }
      Disconnect();
    }

    method BeginWrite()
      requires drain.Holding?
      modifies this`drain, this`inFlight, this`written
      ensures View() == DrainWrite(old(View()))
    {
      written := written + [drain.frame];
      drain, inFlight := Writing(drain.frame), inFlight + 1;
    }

    method EndWrite(ok: bool)
      requires drain.Writing? && inFlight > 0
      modifies this
      ensures View() == DrainWritten(old(View()), ok)
      ensures disconnected <==> old(disconnected) || !ok
    {
      inFlight := inFlight - 1;
      if ok {
        NextFrame();
      } else {
        drain := Stopped;
        Disconnect();
      }
    }

    /**
      handleAck: each id gets at most two persistence attempts, `persisted(i, attempt)` being
      what AckMsg answers; a twice-refused id closes the socket and ends the loop. Exactly the
      ids before the first such one are acknowledged.
     */
    method HandleAck(ids: seq<string>, persisted: (nat, nat) -> bool) returns (n: nat, closed: bool)
      modifies this`pending, this`timer
      ensures n <= |ids| && closed == (n < |ids|)
      ensures forall i: nat :: i < n ==> persisted(i, 0) || persisted(i, 1)
      ensures closed ==> !persisted(n, 0) && !persisted(n, 1)
      ensures View() == AcknowledgeAll(old(View()), ids[..n])
    {
      n := 0;
      while n < |ids|
        invariant n <= |ids|
        invariant forall i: nat :: i < n ==> persisted(i, 0) || persisted(i, 1)
        invariant View() == AcknowledgeAll(old(View()), ids[..n])
      {
        var stored, attempt := false, 0;
        while attempt < 2 && !stored
          invariant 0 <= attempt <= 2
          invariant stored ==> persisted(n, 0) || persisted(n, 1)
          invariant !stored ==> forall a: nat :: a < attempt ==> !persisted(n, a)
        {
          stored := persisted(n, attempt);
          attempt := attempt + 1;
        }
        if !stored {
          return n, true;
        }
        if ids[n] in pending {
          pending := pending - {ids[n]};
          if pending == map[] && timer.Armed? {
            timer := Cancelled;
          }
        }
        assert ids[..n + 1][..n] == ids[..n];
        n := n + 1;
      }
      closed := false;
    }
  }

  /** What a run of acknowledgements leaves pending, and when it wakes the waiter. */
  lemma {:induction false} AcknowledgeAllMeans(s: Session, ids: seq<string>)
    requires s.timer.Armed? ==> s.pending != map[]
    ensures var t := AcknowledgeAll(s, ids);
            && t.pending == s.pending - (set id | id in ids)
            && t == s.(pending := t.pending, timer := t.timer)
            && t.timer == (if s.timer.Armed? && t.pending == map[] then Cancelled else s.timer)
  {
    if ids != [] {
      var front, last := ids[..|ids| - 1], ids[|ids| - 1];
      AcknowledgeAllMeans(s, front);
      assert ids == front + [last];
      assert (set id | id in ids) == (set id | id in front) + {last};
    }
  }
}
