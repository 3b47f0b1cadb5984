/**
  The gateway's session registry and its active-connections metric, which is updated after the
  registry's lock has been released.
 */
module Registry {
  import opened Options

  /** Registry operations in the order their critical sections ran; a session is its identity. */
  datatype Op = Register(account: nat, session: nat) | Unregister(account: nat, session: nat)

  type Sessions = map<nat, nat>

  function Apply(m: Sessions, op: Op): Sessions {
    match op
    case Register(account, session) => m[account := session]
    case Unregister(account, session) =>
      if account in m && m[account] == session then m - {account} else m
  }

  function After(ops: seq<Op>): Sessions {
    if ops == [] then map[] else Apply(After(ops[..|ops| - 1]), ops[|ops| - 1])
  }

  // ---------------------------------------------------------------- the registry and its history

  /** Index of the last registration of an account, or -1. */
  function LastRegistered(ops: seq<Op>, account: nat): (i: int)
    ensures -1 <= i < |ops|
    ensures i >= 0 ==> ops[i].Register? && ops[i].account == account
    ensures forall j :: i < j < |ops| ==> !(ops[j].Register? && ops[j].account == account)
  {
    if ops == [] then -1
    else if ops[|ops| - 1].Register? && ops[|ops| - 1].account == account then |ops| - 1
    else LastRegistered(ops[..|ops| - 1], account)
  }

  /** The session registered at `i` has not unregistered since. */
  predicate StillLive(ops: seq<Op>, i: nat)
    requires i < |ops| && ops[i].Register?
  {
    forall j :: i < j < |ops| ==> ops[j] != Unregister(ops[i].account, ops[i].session)
  }

  /**
    The registry refines its history: an account maps to its last registered session exactly
    when that session has not unregistered since, and to nothing otherwise. In particular a
    replaced session's disconnect never evicts the newer one.
   */
  lemma {:induction false} MapsToLastRegistered(ops: seq<Op>, account: nat)
    ensures var i := LastRegistered(ops, account);
            && (account in After(ops) <==> i >= 0 && StillLive(ops, i))
            && (account in After(ops) ==> After(ops)[account] == ops[i].session)
  {
    if ops != [] {
      var front, op := ops[..|ops| - 1], ops[|ops| - 1];
      MapsToLastRegistered(front, account);
      var i := LastRegistered(front, account);
      if i >= 0 && !(op.Register? && op.account == account) {
        assert ops[i] == front[i];
        assert StillLive(ops, i) <==> StillLive(front, i) && op != Unregister(account, ops[i].session);
      }
    }
  }

  /** Index of the last registration of an account whose session has not unregistered, or -1. */
  ghost predicate IsLastLive(ops: seq<Op>, account: nat, i: int) {
    && -1 <= i < |ops|
    && (i >= 0 ==> ops[i].Register? && ops[i].account == account && StillLive(ops, i))
    && forall j :: i < j < |ops| && ops[j].Register? && ops[j].account == account ==> !StillLive(ops, j)
  }

  /**
    An account is not always mapped to its newest live session: once a newer session has
    unregistered, an older one that is still connected stays unmapped. The registry finds the
    newest live session if and only if no session is live or it is the last one registered.
   */
  lemma FindsNewestLiveIff(ops: seq<Op>, account: nat, i: int)
    requires IsLastLive(ops, account, i)
    ensures (if i >= 0 then account in After(ops) && After(ops)[account] == ops[i].session else account !in After(ops))
            <==> i == -1 || i == LastRegistered(ops, account)
  {
    MapsToLastRegistered(ops, account);
  }

  lemma OlderSessionIsStranded(account: nat, older: nat, newer: nat)
    requires older != newer
    ensures var ops := [Register(account, older), Register(account, newer), Unregister(account, newer)];
            IsLastLive(ops, account, 0) && account !in After(ops)
  {
    var ops := [Register(account, older), Register(account, newer), Unregister(account, newer)];
    assert LastRegistered(ops, account) == 1 by {
      assert ops[..2] == [Register(account, older), Register(account, newer)];
    }
    MapsToLastRegistered(ops, account);
    assert ops[2] == Unregister(ops[1].account, ops[1].session);
  }

  // ---------------------------------------------------------------- the metric

  /** Threads between the end of the critical section and their metric update are counted. */
  datatype Gauge = Gauge(sessions: Sessions, metric: int, adding: nat, removing: nat)

  datatype Event = Locked(op: Op) | Add | Remove

  predicate Enabled(g: Gauge, e: Event) {
    (e.Add? ==> g.adding > 0) && (e.Remove? ==> g.removing > 0)
  }

  function Step(g: Gauge, e: Event): Gauge
    requires Enabled(g, e)
  {
    match e
    case Locked(Register(account, session)) =>
      Gauge(Apply(g.sessions, e.op), g.metric, if account in g.sessions then g.adding else g.adding + 1, g.removing)
    case Locked(Unregister(account, session)) =>
      Gauge(Apply(g.sessions, e.op), g.metric, g.adding,
            if account in g.sessions && g.sessions[account] == session then g.removing + 1 else g.removing)
    case Add => g.(metric := g.metric + 1, adding := g.adding - 1)
    case Remove => g.(metric := g.metric - 1, removing := g.removing - 1)
  }

  ghost predicate Path(g: Gauge, es: seq<Event>, h: Gauge)
    decreases |es|
  {
    if es == [] then g == h else Enabled(g, es[0]) && Path(Step(g, es[0]), es[1..], h)
  }

  lemma MapSizes(m: Sessions, account: nat, session: nat)
    ensures |m[account := session]| == |m| + (if account in m then 0 else 1)
    ensures |m - {account}| == |m| - (if account in m then 1 else 0)
  {
    assert m[account := session].Keys == m.Keys + {account} && (m - {account}).Keys == m.Keys - {account};
    assert |m[account := session].Keys| == |m[account := session]|;
    assert |(m - {account}).Keys| == |m - {account}| && |m.Keys| == |m|;
  }

  /** Metric updates done, and registry operations in the order of their critical sections. */
  function Updates(es: seq<Event>): int {
    if es == [] then 0 else (if es[0].Add? then 1 else if es[0].Remove? then -1 else 0) + Updates(es[1..])
  }

  function Ops(es: seq<Event>): seq<Op> {
    if es == [] then [] else (if es[0].Locked? then [es[0].op] else []) + Ops(es[1..])
  }

  lemma AfterOne(ops: seq<Op>, op: Op)
    ensures After(ops + [op]) == Apply(After(ops), op)
  {
    assert (ops + [op])[..|ops|] == ops;
  }

  lemma SeqAssoc<T>(a: seq<T>, b: seq<T>, c: seq<T>)
    ensures a + (b + c) == (a + b) + c && a + [] == a
  {
  }

  lemma {:induction false} SessionsFollow(g: Gauge, es: seq<Event>, h: Gauge, ops: seq<Op>)
    requires Path(g, es, h) && g.sessions == After(ops)
    ensures h.sessions == After(ops + Ops(es))
    decreases |es|
  {
    if es != [] && es[0].Locked? {
      AfterOne(ops, es[0].op);
      SeqAssoc(ops, [es[0].op], Ops(es[1..]));
      SessionsFollow(Step(g, es[0]), es[1..], h, ops + [es[0].op]);
    } else if es != [] {
      assert [] + Ops(es[1..]) == Ops(es[1..]);
      SessionsFollow(Step(g, es[0]), es[1..], h, ops);
    } else {
      SeqAssoc(ops, [], []);
    }
  }

  lemma {:induction false} MetricFollows(g: Gauge, es: seq<Event>, h: Gauge)
    requires Path(g, es, h)
    ensures h.metric == g.metric + Updates(es)
    decreases |es|
  {
    if es != [] {
      MetricFollows(Step(g, es[0]), es[1..], h);
    }
  }

  lemma {:induction false} StepsBalance(g: Gauge, es: seq<Event>, h: Gauge)
    requires Path(g, es, h) && g.metric + g.adding - g.removing == |g.sessions|
    ensures h.metric + h.adding - h.removing == |h.sessions|
    decreases |es|
  {
    if es != [] {
      if es[0].Locked? {
        MapSizes(g.sessions, es[0].op.account, es[0].op.session);
      }
      StepsBalance(Step(g, es[0]), es[1..], h);
    }
  }

  /**
    At every moment of every interleaving: the updates done to the metric, plus those still to add,
    less those still to subtract, are the number of accounts the operations so far left registered.
   */
  lemma MetricBalances(es: seq<Event>, h: Gauge)
    requires Path(Gauge(map[], 0, 0, 0), es, h)
    ensures h.metric == Updates(es)
    ensures h.metric + h.adding - h.removing == |After(Ops(es))|
  {
    var g := Gauge(map[], 0, 0, 0);
    MetricFollows(g, es, h);
    SessionsFollow(g, es, h, []);
    StepsBalance(g, es, h);
    assert [] + Ops(es) == Ops(es);
  }

  // ---------------------------------------------------------------- the object

  class WSSessionManager {
    var sessions: Sessions
    ghost var ops: seq<Op>

    ghost predicate Valid()
      reads this
    {
      sessions == After(ops)
    }

    constructor ()
      ensures Valid() && ops == []
    {
      sessions, ops := map[], [];
    }

    /** The critical section of registerSession; whether the metric is to be incremented. */
    method RegisterSession(account: nat, session: nat) returns (added: bool)
      requires Valid()
      modifies this
      ensures Valid() && ops == old(ops) + [Register(account, session)]
      ensures added == (account !in old(sessions))
      ensures |sessions| == |old(sessions)| + (if added then 1 else 0)
    {
      added := account !in sessions;
      MapSizes(sessions, account, session);
      sessions := sessions[account := session];
      ops := ops + [Register(account, session)];
    }

    /** The critical section of unregisterSession; whether this was the active session. */
    method UnregisterSession(account: nat, session: nat) returns (active: bool)
      requires Valid()
      modifies this
      ensures Valid() && ops == old(ops) + [Unregister(account, session)]
      ensures active <==> account in old(sessions) && old(sessions)[account] == session
      ensures !active ==> sessions == old(sessions)
      ensures |sessions| == |old(sessions)| - (if active then 1 else 0)
    {
      active := account in sessions && sessions[account] == session;
      if active {
        MapSizes(sessions, account, session);
        sessions := sessions - {account};
      }
      ops := ops + [Unregister(account, session)];
    }

    /** pushToUser: the session whose asyncSend is called, if the account has one. */
    method PushTarget(account: nat) returns (target: Option<nat>)
      requires Valid()
      ensures var i := LastRegistered(ops, account);
              target == if i >= 0 && StillLive(ops, i) then Some(ops[i].session) else None
    {
      MapsToLastRegistered(ops, account);
      target := if account in sessions then Some(sessions[account]) else None;
    }
  }
}
