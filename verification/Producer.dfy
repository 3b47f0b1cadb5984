/**
  Confirmed delivery: the callback cell deliverConfirmed hands to the client library, the
  delivery report that consumes it from whichever caller happens to poll, and the wait.
 */
module Producer {

  /** DeliveryState.status: 0 pending, 1 delivered, 2 failed. */
  datatype Stage = Waiting | Gave(result: bool)

  /**
    One deliverConfirmed call. `cellLive` and `releases` follow the heap cell holding the second
    reference; `refs` the references to the shared state; `reported`/`delivered` the broker's
    report; `reportedFirst` whether it came before the call returned.
   */
  datatype Call = Call(status: int, cellLive: bool, releases: nat, refs: int, stage: Stage,
                       accepted: bool, reported: bool, delivered: bool, reportedFirst: bool)

  type Calls = map<nat, Call>

  datatype Event =
    | Produce(id: nat, accepted: bool)
    | Report(id: nat, delivered: bool)    // dr_cb, run by any caller's poll
    | Return(id: nat)                     // status seen, or the 12 seconds are over

  /** The library reports each accepted message once. */
  predicate Enabled(cs: Calls, e: Event) {
    match e
    case Produce(id, _) => id !in cs
    case Report(id, _) => id in cs && cs[id].accepted && !cs[id].reported
    case Return(id) => id in cs && cs[id].stage.Waiting?
  }

  function Reported(c: Call, delivered: bool): Call {
    c.(status := if delivered then 1 else 2, cellLive := false, releases := c.releases + 1, refs := c.refs - 1,
       reported := true, delivered := delivered, reportedFirst := c.stage.Waiting?)
  }

  function Step(cs: Calls, e: Event): Calls
    requires Enabled(cs, e)
  {
    match e
    case Produce(id, accepted) =>
      cs[id := if accepted then Call(0, true, 0, 2, Waiting, true, false, false, false)
               else Call(0, false, 1, 0, Gave(false), false, false, false, false)]
    case Report(id, delivered) => cs[id := Reported(cs[id], delivered)]
    case Return(id) => cs[id := cs[id].(stage := Gave(cs[id].status == 1), refs := cs[id].refs - 1)]
  }

  ghost predicate CallInv(c: Call) {
    && c.refs == (if c.cellLive then 1 else 0) + (if c.stage.Waiting? then 1 else 0)
    && c.releases == (if c.cellLive then 0 else 1)
    && (c.cellLive <==> c.accepted && !c.reported)
    && c.status == (if !c.reported then 0 else if c.delivered then 1 else 2)
    && (c.reported ==> c.accepted)
    && (c.stage.Gave? ==> (c.stage.result <==> c.reported && c.delivered && c.reportedFirst))
    && (c.reported && c.stage.Waiting? ==> c.reportedFirst)
  }

  ghost predicate Inv(cs: Calls) {
    forall id :: id in cs ==> CallInv(cs[id])
  }

  ghost predicate Path(cs: Calls, es: seq<Event>, ds: Calls)
    decreases |es|
  {
    if es == [] then cs == ds else Enabled(cs, es[0]) && Path(Step(cs, es[0]), es[1..], ds)
  }

  lemma {:induction false} PathKeeps(cs: Calls, es: seq<Event>, ds: Calls)
    requires Inv(cs) && Path(cs, es, ds)
    ensures Inv(ds)
    decreases |es|
  {
    if es != [] {
      PathKeeps(Step(cs, es[0]), es[1..], ds);
    }
  }

  /** Every cell the library still holds can be dereferenced, and every waiter's state exists. */
  predicate Safe(cs: Calls) {
    forall id :: id in cs ==>
      && (cs[id].accepted && !cs[id].reported ==> cs[id].cellLive && cs[id].refs > 0)
      && (cs[id].stage.Waiting? ==> cs[id].refs > 0)
  }

  /** Wherever a run has come, neither a report nor a waiter can touch what has been freed. */
  lemma EveryStepIsSafe(es: seq<Event>, cs: Calls)
    requires Path(map[], es, cs)
    ensures Safe(cs)
  {
    PathKeeps(map[], es, cs);
  }

  // ---------------------------------------------------------------- calls, from events

  function StatusOf(cs: Calls, id: nat): int {
    if id in cs then cs[id].status else 0
  }

  predicate Waits(cs: Calls, id: nat) {
    id in cs && cs[id].stage.Waiting?
  }

  predicate GaveTrue(cs: Calls, id: nat) {
    id in cs && cs[id].stage == Gave(true)
  }

  predicate ReportedIn(es: seq<Event>, id: nat) {
    Report(id, true) in es || Report(id, false) in es
  }

  /** The call's own success was reported, and only after that did it return. */
  predicate SuccessThenReturn(es: seq<Event>, id: nat) {
    && es != []
    && ((es[0] == Report(id, true) && Return(id) in es[1..]) || SuccessThenReturn(es[1..], id))
  }

  lemma CallStep(cs: Calls, e: Event, id: nat)
    requires Inv(cs) && Enabled(cs, e)
    ensures var ds := Step(cs, e);
            && Inv(ds)
            && (id in ds <==> id in cs || e == Produce(id, true) || e == Produce(id, false))
            && (id in ds && ds[id].accepted <==> (id in cs && cs[id].accepted) || e == Produce(id, true))
            && (id in ds && ds[id].reported <==>
                  (id in cs && cs[id].reported) || e == Report(id, true) || e == Report(id, false))
            && (id in ds && ds[id].stage.Gave? <==>
                  (id in cs && cs[id].stage.Gave?) || e == Return(id) || e == Produce(id, false))
            && (GaveTrue(ds, id) <==> GaveTrue(cs, id) || (e == Return(id) && Waits(cs, id) && StatusOf(cs, id) == 1))
            && (Waits(ds, id) && StatusOf(ds, id) == 1 <==>
                  Waits(cs, id) && e != Return(id) && (StatusOf(cs, id) == 1 || e == Report(id, true)))
  {
  }

  lemma {:induction false} CallIsTrue(cs: Calls, es: seq<Event>, ds: Calls, id: nat)
    requires Inv(cs) && Path(cs, es, ds)
    ensures id in ds <==> id in cs || Produce(id, true) in es || Produce(id, false) in es
    ensures id in ds && ds[id].accepted <==> (id in cs && cs[id].accepted) || Produce(id, true) in es
    ensures id in ds && ds[id].reported <==> (id in cs && cs[id].reported) || ReportedIn(es, id)
    ensures id in ds && ds[id].stage.Gave? <==>
              (id in cs && cs[id].stage.Gave?) || Return(id) in es || Produce(id, false) in es
    decreases |es|
  {
    if es != [] {
      CallStep(cs, es[0], id);
      CallIsTrue(Step(cs, es[0]), es[1..], ds, id);
      assert es == [es[0]] + es[1..];
    }
  }

  lemma {:induction false} ReturnsOnce(cs: Calls, es: seq<Event>, ds: Calls, id: nat)
    requires Inv(cs) && Path(cs, es, ds) && id in cs && !Waits(cs, id)
    ensures Return(id) !in es && (GaveTrue(ds, id) <==> GaveTrue(cs, id)) && !SuccessThenReturn(es, id)
    decreases |es|
  {
    if es != [] {
      CallStep(cs, es[0], id);
      ReturnsOnce(Step(cs, es[0]), es[1..], ds, id);
      assert es == [es[0]] + es[1..];
    }
  }

  lemma {:induction false} ResultIsTrue(cs: Calls, es: seq<Event>, ds: Calls, id: nat)
    requires Inv(cs) && Path(cs, es, ds)
    ensures GaveTrue(ds, id) <==>
              || GaveTrue(cs, id)
              || (Waits(cs, id) && StatusOf(cs, id) == 1 && Return(id) in es)
              || SuccessThenReturn(es, id)
    decreases |es|
  {
    if es != [] {
      var next := Step(cs, es[0]);
      CallStep(cs, es[0], id);
      ResultIsTrue(next, es[1..], ds, id);
      assert es == [es[0]] + es[1..];
      if es[0] == Return(id) {
        ReturnsOnce(next, es[1..], ds, id);
      } else if es[0] == Report(id, true) && !Waits(cs, id) {
        ReturnsOnce(next, es[1..], ds, id);
      }
    }
  }

  /**
    With any number of messages outstanding, told from events alone: a call is over once its produce
    was refused or it returned; it gave true exactly when its own success was reported before
    it returned; its cell has been released once its produce was refused or its report came,
    however late, never more than once; and nothing is left when both have happened.
   */
  lemma ConfirmedMeansOwnSuccess(es: seq<Event>, cs: Calls, id: nat)
    requires Path(map[], es, cs) && id in cs
    ensures var c := cs[id];
            && (c.stage.Gave? <==> Return(id) in es || Produce(id, false) in es)
            && (c.stage == Gave(true) <==> SuccessThenReturn(es, id))
            && c.releases == (if Produce(id, true) !in es || ReportedIn(es, id) then 1 else 0)
            && (c.stage.Gave? && c.releases == 1 ==> c.refs == 0)
  {
    PathKeeps(map[], es, cs);
    CallIsTrue(map[], es, cs, id);
    ResultIsTrue(map[], es, cs, id);
  }

  const POLL_MS: int := 50
  const DEADLINE_MS: int := 12_000

  /** Successive loads of the status: pending until the report, then its verdict for good. */
  ghost predicate Loads(status: nat -> int) {
    forall k: nat :: 0 <= status(k) <= 2 && (status(k) != 0 ==> status(k + 1) == status(k))
  }

  /** The clock at the start of successive turns, at least one timer period apart. */
  ghost predicate Ticks(start: int, now: nat -> int) {
    now(0) >= start && forall k: nat :: now(k) + POLL_MS <= now(k + 1)
  }

  lemma {:induction false} VerdictStays(status: nat -> int, k: nat, l: nat)
    requires Loads(status) && k <= l && status(k) != 0
    ensures status(l) == status(k)
  {
    if k < l {
      VerdictStays(status, k, l - 1);
      assert status(l - 1) != 0 && status((l - 1) + 1) == status(l - 1);
    }
  }

  /**
    The polling loop: two loads a turn, one before the clock is read and one after the poll that
    may run the report, and one more at the end. It gives true exactly when some load, the last
    included, saw a success; gives up only with a failure seen or the 12 seconds over; and takes
    at most 240 turns.
   */
  method AwaitReport(start: int, now: nat -> int, status: nat -> int) returns (result: bool, loads: nat, turns: nat)
    requires Loads(status) && Ticks(start, now)
    ensures result <==> exists k: nat :: k <= loads && status(k) == 1
    ensures !result ==> status(loads) == 2 || (status(loads) == 0 && now(turns) >= start + 12_000)
    ensures turns <= 240 && 2 * turns + 1 <= loads <= 2 * turns + 2
  {
    var deadline := start + DEADLINE_MS;
    loads, turns := 1, 0;
    while status(loads - 1) == 0 && now(turns) < deadline
      invariant loads >= 1 && 2 * turns + 1 <= loads <= 2 * turns + 2
      invariant loads == 2 * turns + 2 ==> status(loads - 1) != 0
      invariant now(turns) >= start + POLL_MS * turns && turns <= DEADLINE_MS / POLL_MS
      decreases deadline - now(turns), 2 * turns + 2 - loads
    {
      loads := loads + 1;
      if status(loads - 1) != 0 {
        break;
      }
      loads, turns := loads + 1, turns + 1;
    }
    result := status(loads) == 1;
    if exists k: nat :: k <= loads && status(k) == 1 {
      var k: nat :| k <= loads && status(k) == 1;
      VerdictStays(status, k, loads);
    }
    if status(loads - 1) != 0 {
      VerdictStays(status, loads - 1, loads);
    }
  }
}
