/**
  The branch of rebalance_cb that neither assigns nor revokes: it moves the generation and
  leaves the assignment and fetch position alone, so queued jobs go stale and are never fetched
  again. It is safe exactly when nothing below the fetch position is unhandled.
 */
module KafkaLoss {
  import opened KafkaGroup
  import opened KafkaProofs
  import opened KafkaProgress

  /** Message `u` is unhandled, below the fetch position, and in no job of this generation. */
  ghost predicate Doomed(g: Group, c: nat, u: int) {
    && c in g.members && u in g.log && u !in g.handled
    && (forall x :: x in g.log ==> x < g.end)
    && var m := g.members[c];
       && m.running && m.owns && u < m.position <= g.end && !m.worker.Stopped?
       && (!m.worker.Idle? ==> m.worker.job.generation < m.generation)
       && (forall i :: 0 <= i < |m.jobs| ==> m.jobs[i].generation < m.generation)
  }

  lemma {:induction false} LaneDrains(g: Group, c: nat, u: int) returns (es: seq<Event>, h: Group)
    requires Doomed(g, c, u)
    ensures Leads(g, es, h) && Doomed(h, c, u) && h.members[c].worker.Idle? && h.members[c].jobs == []
    decreases |g.members[c].jobs|
  {
    es, h := [], g;
    if !g.members[c].worker.Idle? {
      es, h := StaleIsDropped(g, c);
    }
    var settled := h;
    assert Doomed(settled, c, u);
    if settled.members[c].jobs != [] {
      var rest;
      rest, h := LaneDrains(Step(settled, Pop(c)), c, u);
      Prepend(settled, Pop(c), rest, h);
      LeadsJoins(g, es, settled, [Pop(c)] + rest, h);
      es := es + ([Pop(c)] + rest);
    }
  }

  /** A message `o` is fetched into an idle lane, handled and committed. */
  lemma NextIsCommitted(g: Group, c: nat, o: int) returns (es: seq<Event>, h: Group)
    requires c in g.members && g.members[c].running && g.members[c].owns
    requires g.members[c].worker.Idle? && g.members[c].jobs == [] && IsNext(g.log, g.members[c].position, o)
    ensures Leads(g, es, h) && h.log == g.log && h.handled == g.handled + {o} && o + 1 in h.sent
  {
    var fetched := Step(g, Deliver(c, o));
    One(g, Deliver(c, o));
    var popped := Step(fetched, Pop(c));
    One(fetched, Pop(c));
    es := HandFinishes(popped, c);
    h := Finished(popped, c);
    LeadsJoins(fetched, [Pop(c)], popped, es, h);
    LeadsJoins(g, [Deliver(c, o)], fetched, [Pop(c)] + es, h);
    es := [Deliver(c, o)] + ([Pop(c)] + es);
  }

  /** The next message is fetched, handled and committed over the doomed one. */
  lemma NextCommitLoses(g: Group, c: nat, u: int) returns (es: seq<Event>, h: Group)
    requires Doomed(g, c, u) && g.members[c].worker.Idle? && g.members[c].jobs == []
    ensures Leads(g, es, h) && !CommitsSafe(h)
  {
    var longer := Step(g, Append(g.end));
    One(g, Append(g.end));
    assert g.end in longer.log && g.end >= longer.members[c].position;
    var o := Least(longer.log, longer.members[c].position);
    es, h := NextIsCommitted(longer, c, o);
    LeadsJoins(g, [Append(g.end)], longer, es, h);
    es := [Append(g.end)] + es;
    assert o + 1 in h.sent && u in h.log && u !in h.handled;
  }

  lemma HarmfulLoses(g: Group, c: nat) returns (es: seq<Event>, h: Group)
    requires Inv(g) && c in g.members && g.members[c].running && !Harmless(g, g.members[c], OtherError)
    ensures Leads(Step(g, Rebalanced(c, OtherError)), es, h) && !CommitsSafe(h)
  {
    var u :| u in g.log && u < g.members[c].position && u !in g.handled;
    var g0 := Step(g, Rebalanced(c, OtherError));
    assert WorkerInv(g, g.members[c]) && LaneInv(g, g.members[c]);
    assert Doomed(g0, c, u);
    var drained, last, rest;
    drained, last := LaneDrains(g0, c, u);
    rest, h := NextCommitLoses(last, c, u);
    PathJoins(g0, drained, last, rest, h);
    es := drained + rest;
  }

  /**
    A rebalance callback with any other error code, at a running member, is safe for every
    ordinary continuation if and only if the member is unassigned or everything below its
    fetch position has been handled. Otherwise some continuation commits past a lost message.
   */
  lemma OtherErrorSafeIff(g: Group, c: nat)
    requires Inv(g) && c in g.members && g.members[c].running
    ensures (forall es, h :: Leads(Step(g, Rebalanced(c, OtherError)), es, h) ==> CommitsSafe(h))
            <==> !g.members[c].owns || HandledBelow(g, g.members[c].position)
  {
    var g0 := Step(g, Rebalanced(c, OtherError));
    if Harmless(g, g.members[c], OtherError) {
      StepKeeps(g, Rebalanced(c, OtherError));
      forall es, h | Leads(g0, es, h)
        ensures CommitsSafe(h)
      {
        OrdinaryRebalancesAreHarmless(g0, es, h);
        PathKeeps(g0, es, h);
      }
    } else {
      var es, h := HarmfulLoses(g, c);
      assert Leads(g0, es, h) && !CommitsSafe(h);
    }
  }

  /** The harmful state is within reach: one message fetched, then the odd callback. */
  lemma LossIsReachable() returns (g: Group, es: seq<Event>, h: Group)
    ensures Init(g) && Path(g, es, h) && !CommitsSafe(h)
  {
    g := Group({0}, 1, {}, {}, {}, map[]);
    var first := [Join(0), Rebalanced(0, Assign(true, 0)), Deliver(0, 0)];
    var g1 := Step(g, first[0]);
    var g2 := Step(g1, first[1]);
    assert IsNext(g2.log, g2.members[0].position, 0);
    var g3 := Step(g2, first[2]);
    assert Path(g3, [], g3);
    Prepend(g2, first[2], [], g3);
    Prepend(g1, first[1], [first[2]], g3);
    Prepend(g, first[0], [first[1], first[2]], g3);
    assert [first[1]] + [first[2]] == [first[1], first[2]];
    assert [first[0]] + [first[1], first[2]] == first;
    OrdinaryRebalancesAreHarmless(g, first, g3);
    PathKeeps(g, first, g3);
    assert 0 in g3.log && 0 < g3.members[0].position && 0 !in g3.handled;
    var rest;
    rest, h := HarmfulLoses(g3, 0);
    var odd := Rebalanced(0, OtherError);
    assert ([odd] + rest)[1..] == rest;
    assert Path(g3, [odd] + rest, h);
    PathJoins(g, first, g3, [odd] + rest, h);
    es := first + ([odd] + rest);
  }
}
