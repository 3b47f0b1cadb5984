/**
  Completion is within reach: from any connected moment of a scan, and whatever the store holds,
  some continuation reports the synchronisation complete unless a misaddressed candidate or a
  failure already in hand stands in the way; then, over that store, none does.
 */
module SyncProgress {
  import opened Messages
  import opened Session
  import opened SyncProtocol
  import opened SyncProofs
  import opened SyncTheorems

  ghost predicate Path(st: State, es: seq<Event>, t: State)
    decreases |es|
  {
    if es == [] then st == t
    else WellFormed(st) && Enabled(st, es[0]) && Path(Step(st, es[0]), es[1..], t)
  }

  /** Over a store whose candidates stay as they are. */
  ghost predicate Fixed(es: seq<Event>) {
    forall i :: 0 <= i < |es| ==> !es[i].Candidates?
  }

  /** Steps in which nothing fails and the store changes by stored receipts only. */
  predicate Smooth(e: Event) {
    match e
    case FetchServe(r) => r.Page?
    case GateDecide(fails) => !fails
    case GateReturn(commitOk, _) => commitOk
    case AckServe(v) => v.Stored?
    case DrainEnd(ok) => ok
    case _ => e.FetchResume? || e.ActionRun? || e.TimerResume? || e.AckRead? || e.AckResume? || e.AckRetry?
              || e.DrainStart? || e.DrainBegin?
  }

  ghost predicate AllSmooth(es: seq<Event>) {
    forall i :: 0 <= i < |es| ==> Smooth(es[i])
  }

  // ---------------------------------------------------------------- what can stop a scan

  ghost predicate AllFor(owner: nat, candidates: map<string, Message>, after: int) {
    forall id :: id in candidates && candidates[id].seqNo > after ==> IsSingleMessageFor(owner, candidates[id])
  }

  ghost predicate RestFor(owner: nat, page: seq<Message>, i: nat) {
    forall j :: i <= j < |page| ==> IsSingleMessageFor(owner, page[j])
  }

  /** The rest of the page in hand, and every candidate above it, is addressed to the account. */
  ghost predicate PageClear(st: State, page: seq<Message>, i: nat)
    requires page != []
  {
    && RestFor(st.ses.account, page, i)
    && AllFor(st.ses.account, st.world.candidates, page[|page| - 1].seqNo)
  }

  /** Nothing the scan holds or has yet to fetch makes it fail. */
  ghost predicate Clear(st: State)
    requires WellFormed(st)
  {
    match st.sync
    case Fetching(after) => AllFor(st.ses.account, st.world.candidates, after)
    case Fetched(_, r) => r.Page? && (r.messages == [] || PageClear(st, r.messages, 0))
    case AtGate(_, page, i) => PageClear(st, page, i + 1)
    case Admitted(_, page, i) => PageClear(st, page, i + 1)
    case Leaving(_, page, i, ok) => ok && PageClear(st, page, i + 1)
    case Parked(_, page) => PageClear(st, page, |page|)
    case _ => true
  }

  /** The second refusal of an acknowledgement is in, and the socket about to be closed. */
  predicate Condemned(ack: Ack) {
    ack.Served? && !ack.ok && ack.attempt > 0
  }

  /** The scan is on, the session connected, its socket open and not about to be closed. */
  ghost predicate Live(st: State) {
    Inv(st) && Scanning(st.sync) && !st.ses.disconnected && st.wire && !Condemned(st.ack)
  }

  ghost predicate Healthy(st: State) {
    Live(st) && Clear(st)
  }

  // ---------------------------------------------------------------- the distance to the end

  function Above(candidates: map<string, Message>, after: int): set<string> {
    set id | id in candidates && candidates[id].seqNo > after
  }

  /** The cursor of the next fetch. */
  function Target(sync: Sync): int {
    match sync
    case Fetching(after) => after
    case Fetched(after, Page(page)) => if page == [] then after else page[|page| - 1].seqNo
    case AtGate(after, page, _) => if page == [] then after else page[|page| - 1].seqNo
    case Admitted(after, page, _) => if page == [] then after else page[|page| - 1].seqNo
    case Leaving(after, page, _, _) => if page == [] then after else page[|page| - 1].seqNo
    case Parked(after, page) => if page == [] then after else page[|page| - 1].seqNo
    case _ => 0
  }

  function Ahead(st: State): nat {
    |Above(st.world.candidates, Target(st.sync))|
  }

  function Left(page: seq<Message>, i: nat): nat {
    if i < |page| then 4 * (|page| - i) else 0
  }

  function Phase(sync: Sync): nat {
    match sync
    case Fetching(_) => 1
    case Parked(_, _) => 2
    case Fetched(_, Page(page)) => if page == [] then 0 else Left(page, 0) + 3
    case AtGate(_, page, i) => Left(page, i) + 2
    case Admitted(_, page, i) => Left(page, i) + 1
    case Leaving(_, page, i, _) => Left(page, i)
    case _ => 0
  }

  function AckRank(ack: Ack): nat {
    match ack
    case AckIdle => 0
    case Calling(ids, _) => 4 * |ids| + 1
    case Served(ids, _, ok) => 4 * |ids| + (if ok then 0 else 3)
    case Pausing(ids) => 4 * |ids| + 2
  }

  function FlushRank(s: Session): nat {
    3 * |s.queue| + (if s.drain.Holding? then 2 else if s.drain.Writing? || s.drain.Starting? then 1 else 0)
  }

  /** Closer to the end, in the order of these ranks. */
  predicate Closer(t: State, st: State) {
    || Ahead(t) < Ahead(st)
    || (Ahead(t) == Ahead(st) && Phase(t.sync) < Phase(st.sync))
    || (Ahead(t) == Ahead(st) && t.sync == st.sync &&
          (|t.ses.pending| < |st.ses.pending|
           || (t.ses.pending == st.ses.pending &&
                 (AckRank(t.ack) < AckRank(st.ack)
                  || (t.ack == st.ack && FlushRank(t.ses) < FlushRank(st.ses))))))
  }

  // ---------------------------------------------------------------- a page to serve

  lemma {:induction false} Lowest(candidates: map<string, Message>, ids: set<string>) returns (low: string)
    requires ids != {} && ids <= candidates.Keys
    ensures low in ids && forall id :: id in ids ==> candidates[low].seqNo <= candidates[id].seqNo
    decreases ids
  {
    var first :| first in ids;
    low := first;
    var others := ids - {first};
    if others != {} {
      var next := Lowest(candidates, others);
      if candidates[next].seqNo < candidates[first].seqNo { low := next; }
    }
    assert forall id :: id in ids ==> id == first || id in others;
  }

  /** The `n` lowest candidates above the cursor, or all there are. */
  ghost predicate LowestOf(candidates: map<string, Message>, after: int, n: nat, page: seq<Message>) {
    && |page| <= n && Ascending(page)
    && (forall i :: 0 <= i < |page| ==>
          page[i].seqNo > after && page[i].id in candidates && candidates[page[i].id] == page[i])
    && (forall id :: id in candidates && candidates[id].seqNo > after ==>
          Holds(page, candidates[id])
          || (|page| == n && (n > 0 ==> candidates[id].seqNo > page[n - 1].seqNo)))
  }

  lemma HoldsMore(page: seq<Message>, m: Message, x: Message)
    requires Holds(page, x) || x == m
    ensures Holds(page + [m], x)
  {
    if x == m {
      assert (page + [m])[|page|] == x;
    } else {
      var i :| 0 <= i < |page| && page[i] == x;
      assert (page + [m])[i] == x;
    }
  }

  lemma PageExtends(c: map<string, Message>, after: int, front: seq<Message>, low: string)
    requires World(c, {}, {}, {}).Ok() && LowestOf(c, after, |front|, front) && low in c
    requires forall i :: 0 <= i < |front| ==> front[i].seqNo < c[low].seqNo
    requires c[low].seqNo > after
    requires forall id :: id in c && c[id].seqNo > after && !Holds(front, c[id]) ==> c[low].seqNo <= c[id].seqNo
    ensures LowestOf(c, after, |front| + 1, front + [c[low]])
  {
    var page := front + [c[low]];
    forall id | id in c && c[id].seqNo > after
      ensures Holds(page, c[id]) || c[id].seqNo > c[low].seqNo
    {
      if Holds(front, c[id]) || id == low { HoldsMore(front, c[low], c[id]); }
    }
  }

  lemma PageIsAll(c: map<string, Message>, after: int, page: seq<Message>, n: nat)
    requires LowestOf(c, after, |page|, page)
    requires Above(c, if page == [] then after else page[|page| - 1].seqNo) == {}
    ensures LowestOf(c, after, n + |page|, page)
  {
    var last := if page == [] then after else page[|page| - 1].seqNo;
    forall id | id in c && c[id].seqNo > after
      ensures Holds(page, c[id])
    {
      assert id !in Above(c, last);
    }
  }

  lemma {:induction false} LowestPage(w: World, after: int, n: nat) returns (page: seq<Message>)
    requires w.Ok()
    ensures LowestOf(w.candidates, after, n, page)
  {
    page := [];
    if n > 0 {
      var c := w.candidates;
      page := LowestPage(w, after, n - 1);
      var last := if page == [] then after else page[|page| - 1].seqNo;
      if |page| == n - 1 && Above(c, last) == {} {
        PageIsAll(c, after, page, 1);
      } else if |page| == n - 1 {
        var low := Lowest(c, Above(c, last));
        assert forall id :: id in c && c[id].seqNo > last ==> id in Above(c, last);
        PageExtends(c, after, page, low);
        page := page + [c[low]];
      }
    }
  }

  lemma PageToServe(w: World, after: int) returns (page: seq<Message>)
    requires w.Ok()
    ensures PageOf(w.candidates, after, page)
  {
    page := LowestPage(w, after, BATCH);
  }

  // ---------------------------------------------------------------- one step closer

  lemma FewerAhead(c: map<string, Message>, id: string, low: int, high: int)
    requires id in c && low < c[id].seqNo <= high
    ensures |Above(c, high)| < |Above(c, low)|
  {
    assert id in Above(c, low) && id !in Above(c, high);
    assert Above(c, high) <= Above(c, low) - {id};
    SubsetSize(Above(c, high), Above(c, low) - {id});
  }

  lemma {:induction false} SubsetSize(a: set<string>, b: set<string>)
    requires a <= b
    ensures |a| <= |b|
    decreases a
  {
    if a != {} {
      var x :| x in a;
      SubsetSize(a - {x}, b - {x});
    }
  }

  /** The page in hand ascends from its cursor. */
  ghost predicate PageInHand(sync: Sync) {
    match sync
    case Fetched(after, Page(page)) => Ascends(after, page)
    case AtGate(after, page, _) => Ascends(after, page)
    case Admitted(after, page, _) => Ascends(after, page)
    case Leaving(after, page, _, _) => Ascends(after, page)
    case _ => true
  }

  ghost predicate Ascends(after: int, page: seq<Message>) {
    |page| <= BATCH && Ascending(page) && forall i :: 0 <= i < |page| ==> page[i].seqNo > after
  }

  /** The part of `Healthy` beside the invariant. */
  ghost predicate Good(st: State) {
    && WellFormed(st) && Scanning(st.sync) && !st.ses.disconnected && st.wire && !Condemned(st.ack) && Clear(st)
  }

  /** What the next step of a healthy state relies on. */
  ghost predicate Ready(st: State) {
    && Good(st) && st.world.Ok() && st.reading && PageInHand(st.sync)
    && !st.ses.drain.NoQueue? && !st.ses.drain.Stopped?
  }

  lemma HealthyIsReady(st: State)
    requires Healthy(st)
    ensures Ready(st)
  {
  }

  lemma StaysHealthy(st: State, e: Event)
    requires Healthy(st) && Enabled(st, e) && Good(Step(st, e))
    ensures Healthy(Step(st, e))
  {
    StepKeeps(st, e);
  }

  /** A step that neither fails nor meets a misaddressed message, and brings the end closer. */
  ghost predicate Forward(st: State, e: Event)
    requires WellFormed(st)
  {
    Enabled(st, e) && Smooth(e) && Good(Step(st, e)) && Closer(Step(st, e), st)
  }

  lemma ServedIsClear(st: State, page: seq<Message>)
    requires Ready(st) && st.sync.Fetching? && PageOf(st.world.candidates, st.sync.after, page) && page != []
    ensures PageClear(st, page, 0) && page[|page| - 1].seqNo > st.sync.after
  {
    var last := page[|page| - 1];
    assert last.seqNo > st.sync.after;
  }

  lemma FetchAdvances(st: State) returns (e: Event)
    requires Ready(st) && st.sync.Fetching?
    ensures Forward(st, e)
  {
    var after := st.sync.after;
    var page := PageToServe(st.world, after);
    e := FetchServe(Page(page));
    assert Step(st, e) == st.(sync := Fetched(after, Page(page)));
    if page != [] {
      var last := page[|page| - 1];
      ServedIsClear(st, page);
      FewerAhead(st.world.candidates, last.id, after, last.seqNo);
    }
  }

  lemma PageAdvances(st: State)
    requires Ready(st) && st.sync.Fetched? && st.sync.reply != Page([])
    ensures Forward(st, FetchResume)
  {
    var (after, page) := (st.sync.after, st.sync.reply.messages);
    assert page[0].seqNo > after && IsSingleMessageFor(st.ses.account, page[0]);
    assert Step(st, FetchResume) == st.(sync := AtGate(after, page, 0));
  }

  lemma GateAdvances(st: State)
    requires Ready(st) && st.sync.AtGate?
    ensures Forward(st, GateDecide(false))
  {
    var (after, page, i, t) := (st.sync.after, st.sync.page, st.sync.i, Step(st, GateDecide(false)));
    if st.world.Admits(page[i].id) {
      assert t == st.(sync := Admitted(after, page, i));
    } else {
      assert t == st.(sync := Leaving(after, page, i, true));
    }
  }

  lemma ActionAdvances(st: State)
    requires Ready(st) && st.sync.Admitted? && CanAccept(st.ses)
    ensures Forward(st, ActionRun)
  {
    var (after, page, i, t) := (st.sync.after, st.sync.page, st.sync.i, Step(st, ActionRun));
    assert t == st.(ses := t.ses, sync := Leaving(after, page, i, true));
    assert !t.ses.disconnected && t.ses.account == st.ses.account;
  }

  lemma NextMessage(st: State)
    requires Ready(st) && st.sync.Leaving? && st.sync.i + 1 < |st.sync.page|
    ensures Forward(st, GateReturn(true, false))
  {
    var (after, page, i) := (st.sync.after, st.sync.page, st.sync.i);
    assert page[i].seqNo < page[i + 1].seqNo && IsSingleMessageFor(st.ses.account, page[i + 1]);
    assert Step(st, GateReturn(true, false)) == st.(sync := AtGate(after, page, i + 1));
  }

  lemma PageEnds(st: State)
    requires Ready(st) && st.sync.Leaving? && st.sync.i + 1 == |st.sync.page|
    ensures Forward(st, GateReturn(true, false))
  {
    var (after, page, t) := (st.sync.after, st.sync.page, Step(st, GateReturn(true, false)));
    assert if st.ses.pending == map[] then t == st.(sync := Fetching(page[|page| - 1].seqNo))
           else t == st.(sync := Parked(after, page), ses := st.ses.(timer := Armed));
  }

  lemma LeaveAdvances(st: State)
    requires Ready(st) && st.sync.Leaving?
    ensures Forward(st, GateReturn(true, false))
  {
    if st.sync.i + 1 < |st.sync.page| { NextMessage(st); } else { PageEnds(st); }
  }

  lemma WaitAdvances(st: State)
    requires Ready(st) && st.sync.Parked? && st.ses.pending == map[]
    ensures Forward(st, TimerResume)
  {
    var page := st.sync.page;
    assert Step(st, TimerResume) == st.(ses := st.ses.(timer := NoTimer), sync := Fetching(page[|page| - 1].seqNo));
  }

  lemma FlushAdvances(st: State) returns (e: Event)
    requires Ready(st) && !CanAccept(st.ses)
    ensures Forward(st, e)
  {
    e := match st.ses.drain
      case Starting => DrainStart
      case Holding(_) => DrainBegin
      case _ => DrainEnd(true);
    var t := Step(st, e);
    assert t == st.(ses := t.ses) && !t.ses.disconnected;
    assert t.ses.pending == st.ses.pending && t.ses.account == st.ses.account;
  }

  lemma FewerOwed(s: Session, id: string)
    ensures Acknowledge(s, id).pending == s.pending || |Acknowledge(s, id).pending| < |s.pending|
    ensures id in s.pending ==> |Acknowledge(s, id).pending| < |s.pending|
  {
    if id in s.pending {
      var rest := s.pending - {id};
      assert s.pending.Keys == rest.Keys + {id} && id !in rest.Keys;
      assert |rest| == |rest.Keys| && |s.pending| == |s.pending.Keys|;
    }
  }

  lemma ServeAdvances(st: State)
    requires Ready(st) && st.sync.Parked? && st.ack.Calling?
    ensures Forward(st, AckServe(Stored))
  {
    var t := Step(st, AckServe(Stored));
    assert t == StoreReceipt(st, st.ack.ids[0]).(ack := Served(st.ack.ids, st.ack.attempt, true));
    assert t.world.candidates == st.world.candidates;
  }

  lemma ResumeAdvances(st: State)
    requires Ready(st) && st.sync.Parked? && st.ack.Served?
    ensures Forward(st, AckResume)
  {
    var t := Step(st, AckResume);
    assert t == st.(ses := t.ses, ack := t.ack) && t.ses.account == st.ses.account;
    FewerOwed(st.ses, st.ack.ids[0]);
  }

  lemma RetryAdvances(st: State)
    requires Ready(st) && st.sync.Parked? && st.ack.Pausing?
    ensures Forward(st, AckRetry)
  {
    assert Step(st, AckRetry) == st.(ack := Calling(st.ack.ids, 1));
  }

  lemma One(st: State, e: Event)
    requires WellFormed(st) && Enabled(st, e)
    ensures Path(st, [e], Step(st, e))
  {
    assert [e][1..] == [];
  }

  lemma {:induction false} PathJoins(st: State, a: seq<Event>, mid: State, b: seq<Event>, t: State)
    requires Path(st, a, mid) && Path(mid, b, t)
    ensures Path(st, a + b, t)
    decreases |a|
  {
    if a == [] {
      assert a + b == b;
    } else {
      PathJoins(Step(st, a[0]), a[1..], mid, b, t);
      assert (a + b)[1..] == a[1..] + b;
    }
  }

  lemma ResumeOne(st: State, id: string) returns (t: State)
    requires Healthy(st) && st.sync.Parked? && st.ack == Served([id], 0, true)
    ensures Path(st, [AckResume], t) && Healthy(t)
    ensures t == st.(ses := Acknowledge(st.ses, id), ack := AckIdle)
  {
    HealthyIsReady(st);
    ResumeAdvances(st);
    t := Step(st, AckResume);
    StaysHealthy(st, AckResume);
    One(st, AckResume);
  }

  lemma ServeOne(st: State, id: string) returns (t: State)
    requires Healthy(st) && st.sync.Parked? && st.ack == Calling([id], 0)
    ensures Path(st, [AckServe(Stored), AckResume], t) && Healthy(t)
    ensures t == StoreReceipt(st, id).(ses := Acknowledge(st.ses, id), ack := AckIdle)
  {
    HealthyIsReady(st);
    ServeAdvances(st);
    var mid := Step(st, AckServe(Stored));
    StaysHealthy(st, AckServe(Stored));
    One(st, AckServe(Stored));
    t := ResumeOne(mid, id);
    PathJoins(st, [AckServe(Stored)], mid, [AckResume], t);
    assert [AckServe(Stored)] + [AckResume] == [AckServe(Stored), AckResume];
  }

  lemma AckOneCloser(st: State, id: string, t: State)
    requires id in st.ses.pending && st.ack.AckIdle?
    requires t == StoreReceipt(st, id).(ses := Acknowledge(st.ses, id))
    ensures Closer(t, st)
  {
    FewerOwed(st.ses, id);
    assert t.sync == st.sync && t.world.candidates == st.world.candidates;
  }

  /** The client's acknowledgement of one message is read, and the call for it begins. */
  lemma ReadOne(st: State, id: string) returns (mid: State)
    requires Healthy(st) && st.sync.Parked? && st.ack.AckIdle?
    ensures Path(st, [AckRead([id])], mid) && Healthy(mid) && mid == st.(ack := Calling([id], 0))
  {
    HealthyIsReady(st);
    mid := Step(st, AckRead([id]));
    assert mid == st.(ack := Calling([id], 0));
    StaysHealthy(st, AckRead([id]));
    One(st, AckRead([id]));
  }

  /** The client acknowledges one pending message. */
  lemma AckOneAdvances(st: State, id: string) returns (es: seq<Event>, t: State)
    requires Healthy(st) && st.sync.Parked? && st.ack.AckIdle? && id in st.ses.pending
    ensures Path(st, es, t) && AllSmooth(es) && Healthy(t)
    ensures t == StoreReceipt(st, id).(ses := Acknowledge(st.ses, id))
  {
    var mid := ReadOne(st, id);
    t := ServeOne(mid, id);
    PathJoins(st, [AckRead([id])], mid, [AckServe(Stored), AckResume], t);
    es := [AckRead([id])] + [AckServe(Stored), AckResume];
  }

  /** Some single step forward, unless the client has yet to acknowledge or the last frame is due. */
  lemma StepForward(st: State) returns (e: Event)
    requires Ready(st)
    requires !(st.sync.Fetched? && st.sync.reply == Page([]) && CanAccept(st.ses))
    requires !(st.sync.Parked? && st.ack.AckIdle? && st.ses.pending != map[])
    ensures Forward(st, e)
  {
    if (st.sync.Admitted? || (st.sync.Fetched? && st.sync.reply == Page([]))) && !CanAccept(st.ses) {
      e := FlushAdvances(st);
    } else {
      match st.sync {
        case Fetching(_) => e := FetchAdvances(st);
        case Fetched(_, _) => e := FetchResume; PageAdvances(st);
        case AtGate(_, _, _) => e := GateDecide(false); GateAdvances(st);
        case Admitted(_, _, _) => e := ActionRun; ActionAdvances(st);
        case Leaving(_, _, _, _) => e := GateReturn(true, false); LeaveAdvances(st);
        case Parked(_, _) =>
          if st.ses.pending == map[] {
            e := TimerResume;
            WaitAdvances(st);
          } else {
            match st.ack {
              case Calling(_, _) => e := AckServe(Stored); ServeAdvances(st);
              case Served(_, _, _) => e := AckResume; ResumeAdvances(st);
              case Pausing(_) => e := AckRetry; RetryAdvances(st);
            }
          }
      }
    }
  }

  /** Wherever the scan stands, short of its last frame, it can come closer to its end. */
  lemma Advances(st: State) returns (es: seq<Event>, t: State)
    requires Healthy(st) && !(st.sync.Fetched? && st.sync.reply == Page([]) && CanAccept(st.ses))
    ensures Path(st, es, t) && AllSmooth(es) && Healthy(t) && Closer(t, st)
  {
    if st.sync.Parked? && st.ack.AckIdle? && st.ses.pending != map[] {
      var id :| id in st.ses.pending;
      es, t := AckOneAdvances(st, id);
      AckOneCloser(st, id, t);
    } else {
      HealthyIsReady(st);
      var e := StepForward(st);
      t := Step(st, e);
      StaysHealthy(st, e);
      One(st, e);
      es := [e];
    }
  }

  lemma LastFrame(st: State) returns (t: State)
    requires Healthy(st) && st.sync.Fetched? && st.sync.reply == Page([]) && CanAccept(st.ses)
    ensures Path(st, [FetchResume], t) && SyncDone in t.ses.accepted
  {
    t := Step(st, FetchResume);
    One(st, FetchResume);
    assert t.ses == Accept(st.ses, SyncDone);
    VerdictsAppend(st.ses.accepted, SyncDone);
  }

  /** From any healthy moment of any scan, some smooth continuation enqueues the completion frame. */
  lemma {:induction false} Completes(st: State) returns (es: seq<Event>, t: State)
    requires Healthy(st)
    ensures Path(st, es, t) && AllSmooth(es) && SyncDone in t.ses.accepted
    decreases Ahead(st), Phase(st.sync), |st.ses.pending|, AckRank(st.ack), FlushRank(st.ses)
  {
    if st.sync.Fetched? && st.sync.reply == Page([]) && CanAccept(st.ses) {
      t := LastFrame(st);
      es := [FetchResume];
    } else {
      var mid, rest;
      es, mid := Advances(st);
      rest, t := Completes(mid);
      PathJoins(st, es, mid, rest, t);
      es := es + rest;
    }
  }

  // ---------------------------------------------------------------- every accepted frame can be written

  /** What the drain does next when its write, if any, succeeds. */
  function Drained(s: Session): Session
    requires s.drain.Starting? || s.drain.Holding? || (s.drain.Writing? && s.inFlight > 0)
  {
    match s.drain
    case Starting => DrainLoop(s)
    case Holding(_) => DrainWrite(s)
    case Writing(_) => DrainWritten(s, true)
  }

  function DrainEvent(d: Drain): Event {
    match d
    case Starting => DrainStart
    case Holding(_) => DrainBegin
    case _ => DrainEnd(true)
  }

  lemma DrainNearer(s: Session)
    requires SessionInv(s) && !s.disconnected && !s.drain.NoQueue? && !s.drain.Waiting?
    requires s.drain.Writing? ==> s.inFlight > 0
    ensures s.drain.Starting? || s.drain.Holding? || s.drain.Writing?
    ensures var t := Drained(s);
            && SessionInv(t) && !t.disconnected && !t.drain.NoQueue? && (t.drain.Writing? ==> t.inFlight > 0)
            && t.accepted == s.accepted && t.pending == s.pending && FlushRank(t) < FlushRank(s)
  {
    DrainMoves(s, true);
    assert Drained(s).accepted == s.accepted;
  }

  lemma DrainStep(st: State)
    requires WellFormed(st) && (st.ses.drain.Starting? || st.ses.drain.Holding? || st.ses.drain.Writing?)
    ensures Enabled(st, DrainEvent(st.ses.drain)) && Smooth(DrainEvent(st.ses.drain))
    ensures Step(st, DrainEvent(st.ses.drain)) == st.(ses := Drained(st.ses))
  {
  }

  /** While nothing closes the session, the drain can write every accepted frame, in order, and then waits. */
  lemma {:induction false} AllIsWritten(st: State) returns (es: seq<Event>, t: State)
    requires WellFormed(st) && SessionInv(st.ses) && !st.ses.disconnected
    requires !st.ses.drain.NoQueue? && !st.sync.DirectWriting?
    ensures Path(st, es, t) && AllSmooth(es) && t == st.(ses := t.ses)
    ensures !t.ses.disconnected && t.ses.pending == st.ses.pending
    ensures t.ses.written == t.ses.accepted == st.ses.accepted && t.ses.drain.Waiting?
    decreases FlushRank(st.ses)
  {
    if st.ses.drain.Waiting? {
      es, t := [], st;
      assert st.ses.written + [] + [] == st.ses.written;
    } else {
      DrainNearer(st.ses);
      DrainStep(st);
      var e := DrainEvent(st.ses.drain);
      var mid, rest := st.(ses := Drained(st.ses)), [];
      rest, t := AllIsWritten(mid);
      One(st, e);
      PathJoins(st, [e], mid, rest, t);
      es := [e] + rest;
    }
  }

  // ---------------------------------------------------------------- when completion is out of reach

  /** The scan has failed or is bound to. */
  ghost predicate Hopeless(st: State)
    requires WellFormed(st)
  {
    && SyncDone !in st.ses.accepted
    && (st.ses.disconnected || st.sync.Finished? || (Scanning(st.sync) && !Clear(st)))
  }

  predicate IsScanEvent(e: Event) {
    e.FetchServe? || e.FetchResume? || e.GateDecide? || e.ActionRun? || e.GateReturn? || e.TimerResume?
  }

  lemma OthersLeaveScan(st: State, e: Event)
    requires SessionInv(st.ses) && Roles(st) && Enabled(st, e) && !e.Candidates? && !IsScanEvent(e)
    requires st.sync.Finished? || Scanning(st.sync)
    ensures var t := Step(st, e);
            && t.sync == st.sync && t.world.candidates == st.world.candidates
            && t.ses.account == st.ses.account
            && (SyncDone in t.ses.accepted ==> SyncDone in st.ses.accepted)
  {
    if IsSessionEvent(e) { SessionEventMoves(st, e); }
  }

  lemma NoDoneAppended(s: Session, f: Frame)
    requires f != SyncDone && SyncDone !in s.accepted
    ensures SyncDone !in QueuedWrite(s, f).accepted
  {
    QueuedWriteLogs(s, f);
  }

  lemma NextItemHopeless(st: State, page: seq<Message>, after: Seq64, i: nat)
    requires WellFormed(st) && page != [] && i <= |page| && SyncDone !in st.ses.accepted
    requires !PageClear(st, page, i)
    ensures var t := NextItem(st, after, page, i); WellFormed(t) ==> Hopeless(t)
  {
    NoDoneAppended(st.ses, SyncError);
  }

  lemma FailHopeless(st: State, silent: bool)
    requires WellFormed(st) && SyncDone !in st.ses.accepted
    ensures var t := Fail(st, silent); WellFormed(t) ==> Hopeless(t)
  {
    NoDoneAppended(st.ses, SyncError);
  }

  lemma ServedHopeless(st: State, page: seq<Message>)
    requires WellFormed(st) && st.sync.Fetching? && !Clear(st) && PageOf(st.world.candidates, st.sync.after, page)
    ensures page != [] && !PageClear(st, page, 0)
  {
    var c := st.world.candidates;
    var id :| id in c && c[id].seqNo > st.sync.after && !IsSingleMessageFor(st.ses.account, c[id]);
    if Holds(page, c[id]) {
      var i :| 0 <= i < |page| && page[i] == c[id];
      assert !RestFor(st.ses.account, page, 0);
    } else {
      assert !AllFor(st.ses.account, c, page[|page| - 1].seqNo);
    }
  }

  lemma FetchHopeless(st: State, r: Reply)
    requires WellFormed(st) && st.sync.Fetching? && !Clear(st) && SyncDone !in st.ses.accepted
    requires Enabled(st, FetchServe(r))
    ensures Hopeless(Step(st, FetchServe(r)))
  {
    var t := Step(st, FetchServe(r));
    assert t == st.(sync := Fetched(st.sync.after, r));
    if r.Page? {
      ServedHopeless(st, r.messages);
      assert !PageClear(t, r.messages, 0);
    }
  }

  lemma ResumeHopeless(st: State)
    requires WellFormed(st) && st.sync.Fetched? && !Clear(st) && SyncDone !in st.ses.accepted
    ensures WellFormed(Step(st, FetchResume)) ==> Hopeless(Step(st, FetchResume))
  {
    FailHopeless(st, false);
    if st.sync.reply.Page? {
      NextItemHopeless(st, st.sync.reply.messages, st.sync.after, 0);
    }
  }

  lemma GateHopeless(st: State, fails: bool)
    requires WellFormed(st) && st.sync.AtGate? && !Clear(st) && SyncDone !in st.ses.accepted
    ensures Hopeless(Step(st, GateDecide(fails)))
  {
    var t := Step(st, GateDecide(fails));
    assert t == st.(sync := t.sync) && PastGate(st.sync, t.sync);
    assert !PageClear(t, st.sync.page, st.sync.i + 1);
  }

  lemma ActionHopeless(st: State)
    requires WellFormed(st) && st.sync.Admitted? && !Clear(st) && SyncDone !in st.ses.accepted
    ensures WellFormed(Step(st, ActionRun)) ==> Hopeless(Step(st, ActionRun))
  {
    var (m, t) := (st.sync.page[st.sync.i], Step(st, ActionRun));
    NoDoneAppended(st.ses.(pending := st.ses.pending[m.id := m.seqNo]), Offline(m.id));
    assert t.ses.disconnected || t.ses.account == st.ses.account;
  }

  lemma ReturnHopeless(st: State, commitOk: bool, silent: bool)
    requires WellFormed(st) && st.sync.Leaving? && !Clear(st) && SyncDone !in st.ses.accepted
    ensures var t := Step(st, GateReturn(commitOk, silent)); WellFormed(t) ==> Hopeless(t)
  {
    var t := Step(st, GateReturn(commitOk, silent));
    if st.sync.ok && commitOk {
      assert t == NextItem(st, st.sync.after, st.sync.page, st.sync.i + 1);
      NextItemHopeless(st, st.sync.page, st.sync.after, st.sync.i + 1);
    } else {
      assert t == Fail(st, silent);
      FailHopeless(st, silent);
    }
  }

  lemma WaitHopeless(st: State)
    requires WellFormed(st) && st.sync.Parked? && !Clear(st) && SyncDone !in st.ses.accepted
    ensures WellFormed(Step(st, TimerResume)) ==> Hopeless(Step(st, TimerResume))
  {
    var t := Step(st, TimerResume);
    assert t == ResumeWait(st, st.sync.page);
    assert t.ses.accepted == st.ses.accepted;
  }

  lemma ScanHopeless(st: State, e: Event)
    requires WellFormed(st) && Enabled(st, e) && IsScanEvent(e)
    requires Scanning(st.sync) && !Clear(st) && SyncDone !in st.ses.accepted
    ensures WellFormed(Step(st, e)) ==> Hopeless(Step(st, e))
  {
    match e {
      case FetchServe(r) => FetchHopeless(st, r);
      case FetchResume => ResumeHopeless(st);
      case GateDecide(fails) => GateHopeless(st, fails);
      case ActionRun => ActionHopeless(st);
      case GateReturn(commitOk, silent) => ReturnHopeless(st, commitOk, silent);
      case TimerResume => WaitHopeless(st);
    }
  }

  lemma HopelessStep(st: State, e: Event)
    requires SessionInv(st.ses) && Roles(st) && Enabled(st, e) && !e.Candidates? && Hopeless(st)
    ensures WellFormed(Step(st, e)) ==> Hopeless(Step(st, e))
  {
    if st.ses.disconnected {
      StepContinues(st, e);
    } else if IsScanEvent(e) {
      ScanHopeless(st, e);
    } else {
      OthersLeaveScan(st, e);
    }
  }

  lemma HopelessStays(st: State, e: Event)
    requires Inv(st) && Enabled(st, e) && !e.Candidates? && Hopeless(st)
    ensures Inv(Step(st, e)) && Hopeless(Step(st, e))
  {
    StepKeeps(st, e);
    HopelessStep(st, e);
  }

  lemma {:induction false} HopelessThroughout(st: State, es: seq<Event>, t: State)
    requires Inv(st) && Hopeless(st) && Path(st, es, t) && Fixed(es)
    ensures SyncDone !in t.ses.accepted
    decreases |es|
  {
    if es != [] {
      HopelessStays(st, es[0]);
      HopelessThroughout(Step(st, es[0]), es[1..], t);
    }
  }

  lemma SmoothIsFixed(es: seq<Event>)
    requires AllSmooth(es)
    ensures Fixed(es)
  {
  }

  /** Some continuation over the store as it is, whatever else happens in it, completes. */
  ghost predicate CanComplete(st: State) {
    exists es, t :: Path(st, es, t) && Fixed(es) && SyncDone in t.ses.accepted
  }

  lemma SomeCompletes(st: State)
    requires Healthy(st)
    ensures CanComplete(st)
  {
    var es, t := Completes(st);
    SmoothIsFixed(es);
  }

  lemma NoneCompletes(st: State)
    requires Live(st) && !Clear(st)
    ensures !CanComplete(st)
  {
    assert Hopeless(st);
    forall es, t | Path(st, es, t) && Fixed(es)
      ensures SyncDone !in t.ses.accepted
    {
      HopelessThroughout(st, es, t);
    }
  }

  /**
    Completion is within reach exactly when nothing misaddressed is ahead. At any connected
    moment of any scan with the socket open, over the candidates the store then holds: some
    continuation, whatever else happens in it, enqueues the completion frame if and only if no
    failure is in hand and the rest of the page and all candidates above it are addressed to
    the account.
   */
  lemma CompletesIff(st: State)
    requires Live(st)
    ensures CanComplete(st) <==> Clear(st)
  {
    if Clear(st) { SomeCompletes(st); } else { NoneCompletes(st); }
  }

  // ---------------------------------------------------------------- from login to completion

  predicate SameStore(w: World, v: World) {
    w.candidates == v.candidates && w.blocked == v.blocked && w.cancelled == v.cancelled
  }

  lemma SmoothKeepsStore(st: State, e: Event)
    requires WellFormed(st) && Enabled(st, e) && Smooth(e)
    ensures SameStore(Step(st, e).world, st.world)
  {
  }

  lemma OneMore(r: Run, e: Event) returns (q: Run)
    requires r.Valid() && WellFormed(r.Last()) && Enabled(r.Last(), e)
    ensures q.Valid() && q.states == r.states + [Step(r.Last(), e)]
  {
    q := Run(r.states + [Step(r.Last(), e)], r.events + [e]);
    var n := |r.events|;
    forall k | 0 <= k < |q.events|
      ensures WellFormed(q.states[k]) && Enabled(q.states[k], q.events[k]) && q.states[k + 1] == Step(q.states[k], q.events[k])
    {
      if k < n {
        assert q.events[k] == r.events[k] && q.states[k] == r.states[k] && q.states[k + 1] == r.states[k + 1];
      } else {
        assert q.events[n] == e && q.states[n] == r.Last() && q.states[n + 1] == Step(r.Last(), e);
      }
    }
  }

  /** A run goes on along a smooth path, over the same store. */
  lemma {:induction false} GoesOn(r: Run, es: seq<Event>, t: State) returns (q: Run)
    requires r.Valid() && Path(r.Last(), es, t) && AllSmooth(es)
    ensures q.Valid() && r.states <= q.states && q.Last() == t
    ensures forall k :: |r.states| <= k < |q.states| ==> SameStore(q.states[k].world, r.Last().world)
    decreases |es|
  {
    if es == [] {
      q := r;
    } else {
      SmoothKeepsStore(r.Last(), es[0]);
      var more := OneMore(r, es[0]);
      assert more.states[|r.states|] == more.Last();
      q := GoesOn(more, es[1..], t);
      assert q.states[|r.states|] == more.Last();
    }
  }

  lemma LogIn(w: World, account: nat) returns (r: Run)
    requires w.Ok() && account != 0
    ensures r.Valid() && |r.states| == 3 && ScanStarts(r, 2)
    ensures r.states[0].world == r.states[1].world == r.Last().world == w
    ensures var st := r.Last();
            && st.sync == Fetching(0) && st.ses.account == account && !st.ses.disconnected
            && st.wire && st.ack.AckIdle?
  {
    var s0 := State(w, {}, {}, FRESH, PreAuth, AckIdle, false, true);
    var s1 := Step(s0, AuthOk(account));
    var s2 := Step(s1, Announce(0));
    r := Run([s0, s1, s2], [AuthOk(account), Announce(0)]);
    assert r.Valid();
  }

  /** The scan has just begun, over candidates all addressed to the account. */
  ghost predicate Begun(r: Run) {
    && r.Valid() && |r.states| == 3
    && var st := r.states[2];
       && st.sync == Fetching(0) && !st.ses.disconnected && st.wire && st.ack.AckIdle?
       && AllFor(st.ses.account, st.world.candidates, 0)
  }

  lemma BegunIsHealthy(r: Run)
    requires Begun(r)
    ensures Healthy(r.states[2])
  {
    Reachable(r, 2);
  }

  lemma SomeCompletion(r: Run) returns (es: seq<Event>, t: State)
    requires Begun(r)
    ensures Path(r.states[2], es, t) && AllSmooth(es) && SyncDone in t.ses.accepted
  {
    BegunIsHealthy(r);
    es, t := Completes(r.states[2]);
  }

  /** Over a store that stays as it was at the scan's start, completion means a receipt for each candidate. */
  lemma CompletedHasAll(r: Run, w: World, n: nat)
    requires r.Valid() && ScanStarts(r, 2) && |r.states| == n + 1 && SyncDone in r.states[n].ses.accepted
    requires w.Ok() && forall k :: 2 <= k <= n ==> SameStore(r.states[k].world, w)
    ensures forall id :: id in w.candidates && w.candidates[id].seqNo > 0 && id !in w.blocked && id !in w.cancelled ==>
              id in r.states[n].world.receipts
  {
    forall id | id in w.candidates && w.candidates[id].seqNo > 0 && id !in w.blocked && id !in w.cancelled
      ensures id in r.states[n].world.receipts
    {
      assert Deliverable(r, w.candidates[id], 2, n);
      CompletedSyncIsSound(r, w.candidates[id], 2, n);
    }
  }

  /**
    Any store can be synchronised: over every set of candidates addressed to the account, some
    run from a fresh session enqueues the completion frame, with a receipt stored for each
    candidate of positive number that the gate does not refuse.
   */
  lemma EveryStoreCompletes(w: World, account: nat) returns (r: Run)
    requires w.Ok() && account != 0 && AllFor(account, w.candidates, 0)
    ensures r.Valid() && r.states[0].world == w && ScanStarts(r, 2)
    ensures SyncDone in r.Last().ses.accepted
    ensures forall id :: id in w.candidates && w.candidates[id].seqNo > 0 && id !in w.blocked && id !in w.cancelled ==>
              id in r.Last().world.receipts
  {
    var start := LogIn(w, account);
    var es, t := SomeCompletion(start);
    r := GoesOn(start, es, t);
    assert r.states[0] == start.states[0] && r.states[1] == start.states[1] && r.states[2] == start.states[2];
    CompletedHasAll(r, w, |r.states| - 1);
  }
}
