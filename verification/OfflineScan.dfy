/**
  The paging loop of WSSession::scanOfflineMessages: its simple reference (deliver the whole
  ascending candidate list), the loop itself against an arbitrary environment, and the exact
  condition under which the two agree.
 */
module OfflineScan {
  import opened Messages

  const BATCH: nat := 50

  datatype Outcome = Done | Disconnected | Failed

  datatype Scanned = Scanned(delivered: seq<Message>, outcome: Outcome)

  // ---------------------------------------------------------------- a fixed store

  /** Candidates of a stored list with a sequence number above the cursor, in stored order. */
  function Above(store: seq<Message>, after: int): (r: seq<Message>)
    ensures forall i :: 0 <= i < |r| ==> r[i].seqNo > after
  {
    if store == [] then []
    else if store[0].seqNo > after then [store[0]] + Above(store[1..], after)
    else Above(store[1..], after)
  }

  /** GetMsgsBySeqFromMongo on a fixed store: at most `BATCH` candidates above the cursor. */
  function FetchFrom(store: seq<Message>, after: int): (page: seq<Message>)
    ensures |page| <= BATCH
    ensures forall i :: 0 <= i < |page| ==> page[i].seqNo > after
  {
    var rest := Above(store, after);
    if |rest| <= BATCH then rest else rest[..BATCH]
  }

  /** On a store in sequence order a page is its lowest candidates above the cursor, without gaps. */
  lemma FetchIsLowest(store: seq<Message>, after: int) returns (k: nat)
    requires Sorted(store)
    ensures var page := FetchFrom(store, after);
            && k + |page| <= |store| && page == store[k..k + |page|]
            && (forall i :: 0 <= i < k ==> store[i].seqNo <= after)
            && (forall i :: k <= i < |store| ==> store[i].seqNo > after)
            && |page| <= 50 && (|page| < 50 ==> k + |page| == |store|)
  {
    k := 0;
    while k < |store| && store[k].seqNo <= after
      invariant k <= |store| && forall i :: 0 <= i < k ==> store[i].seqNo <= after
    {
      k := k + 1;
    }
    AboveIsSuffix(store, k, after);
  }

  /** How many leading messages of a page pass the recipient and order checks. */
  function ValidRun(owner: nat, page: seq<Message>, next: int): (n: nat)
    ensures n <= |page|
  {
    if page == [] || !IsSingleMessageFor(owner, page[0]) || page[0].seqNo <= next then 0
    else 1 + ValidRun(owner, page[1..], page[0].seqNo)
  }

  /** The undisturbed scan of a fixed store from a cursor. */
  function Scan(owner: nat, store: seq<Message>, after: Seq64): Scanned
    decreases INT64_MAX - after
  {
    var page := FetchFrom(store, after);
    if page == [] then Scanned([], Done)
    else
      var n := ValidRun(owner, page, after);
      if n < |page| then Scanned(page[..n], Failed)
      else
        var rest := Scan(owner, store, page[|page| - 1].seqNo);
        Scanned(page + rest.delivered, rest.outcome)
  }

  /** The scan, one page at a time. */
  lemma ScanOnePage(owner: nat, store: seq<Message>, after: Seq64)
    requires FetchFrom(store, after) != []
    ensures var page := FetchFrom(store, after);
            var n := ValidRun(owner, page, after);
            if n < |page| then Scan(owner, store, after) == Scanned(page[..n], Failed)
            else var rest := Scan(owner, store, page[|page| - 1].seqNo);
                 Scan(owner, store, after) == Scanned(page + rest.delivered, rest.outcome)
  {
  }

  ghost predicate Sorted(store: seq<Message>) {
    forall i, j :: 0 <= i < j < |store| ==> store[i].seqNo <= store[j].seqNo
  }

  /** Every candidate is well addressed, above the initial cursor, and no two share a number. */
  ghost predicate Clean(owner: nat, store: seq<Message>, after: int := 0) {
    Ascending(store) && forall i :: 0 <= i < |store| ==> IsSingleMessageFor(owner, store[i]) && store[i].seqNo > after
  }

  lemma {:induction false} AboveIsSuffix(store: seq<Message>, k: nat, after: int)
    requires k <= |store|
    requires forall i :: 0 <= i < k ==> store[i].seqNo <= after
    requires forall i :: k <= i < |store| ==> store[i].seqNo > after
    ensures Above(store, after) == store[k..]
  {
    if store == [] {
    } else if k == 0 {
      AboveIsSuffix(store[1..], 0, after);
      assert store == [store[0]] + store[1..];
    } else {
      AboveIsSuffix(store[1..], k - 1, after);
      assert store[1..][k - 1..] == store[k..];
    }
  }

  /** An accepted run is addressed to the owner and strictly ascending from the cursor. */
  lemma {:induction false} ValidRunMeans(owner: nat, page: seq<Message>, next: int)
    ensures Clean(owner, page[..ValidRun(owner, page, next)], next)
  {
    var n := ValidRun(owner, page, next);
    if n > 0 {
      ValidRunMeans(owner, page[1..], page[0].seqNo);
      assert page[..n] == [page[0]] + page[1..][..n - 1];
    }
  }

  lemma {:induction false} CleanRunIsWhole(owner: nat, page: seq<Message>, next: int)
    requires Clean(owner, page, next)
    ensures ValidRun(owner, page, next) == |page|
  {
    if page != [] {
      CleanRunIsWhole(owner, page[1..], page[0].seqNo);
    }
  }

  lemma CleanJoins(owner: nat, page: seq<Message>, rest: seq<Message>, after: int)
    requires page != [] && Clean(owner, page, after) && Clean(owner, rest, page[|page| - 1].seqNo)
    ensures Clean(owner, page + rest, after)
  {
  }

  /** The accepted run is the longest: exactly the prefixes up to it pass the checks. */
  lemma {:induction false} ValidRunIsLongest(owner: nat, page: seq<Message>, next: int, j: nat)
    requires j <= |page|
    ensures Clean(owner, page[..j], next) <==> j <= ValidRun(owner, page, next)
  {
    if j <= ValidRun(owner, page, next) {
      ValidRunMeans(owner, page, next);
      CleanPrefix(owner, page[..ValidRun(owner, page, next)], next, j);
      assert page[..ValidRun(owner, page, next)][..j] == page[..j];
    } else if Clean(owner, page[..j], next) {
      CleanRunIsWhole(owner, page[..j], next);
      ValidRunOfPrefix(owner, page, next, j);
      assert false;
    }
  }

  lemma CleanPrefix(owner: nat, ms: seq<Message>, next: int, j: nat)
    requires Clean(owner, ms, next) && j <= |ms|
    ensures Clean(owner, ms[..j], next)
  {
  }

  lemma {:induction false} ValidRunOfPrefix(owner: nat, page: seq<Message>, next: int, j: nat)
    requires j <= |page|
    ensures ValidRun(owner, page[..j], next) <= ValidRun(owner, page, next)
  {
    if j > 0 {
      ValidRunOfPrefix(owner, page[1..], page[0].seqNo, j - 1);
      assert page[..j][1..] == page[1..][..j - 1];
    }
  }

  /** Whatever the store holds, the scan delivers strictly ascending, well-addressed messages. */
  lemma {:induction false} ScanAscends(owner: nat, store: seq<Message>, after: Seq64)
    ensures Clean(owner, Scan(owner, store, after).delivered, after)
    decreases INT64_MAX - after
  {
    var page := FetchFrom(store, after);
    if page != [] {
      var n := ValidRun(owner, page, after);
      ScanOnePage(owner, store, after);
      ValidRunMeans(owner, page, after);
      if n == |page| {
        var last := page[|page| - 1].seqNo;
        assert page[..n] == page;
        ScanAscends(owner, store, last);
        CleanJoins(owner, page, Scan(owner, store, last).delivered, after);
      }
    }
  }

  /** `k` splits the store at the cursor. */
  ghost predicate SplitsAt(store: seq<Message>, k: nat, after: int) {
    && k <= |store|
    && (forall i :: 0 <= i < k ==> store[i].seqNo <= after)
    && (forall i :: k <= i < |store| ==> store[i].seqNo > after)
  }

  lemma CleanSlice(owner: nat, store: seq<Message>, k: nat, k': nat, after: int)
    requires Clean(owner, store) && SplitsAt(store, k, after) && k <= k' <= |store|
    ensures Clean(owner, store[k..k'], after)
    ensures k' > k ==> SplitsAt(store, k', store[k' - 1].seqNo)
  {
    var part := store[k..k'];
    assert forall i :: 0 <= i < |part| ==> part[i] == store[k + i];
  }

  lemma CleanPage(owner: nat, store: seq<Message>, k: nat, after: Seq64) returns (k': nat)
    requires Clean(owner, store) && SplitsAt(store, k, after)
    ensures k <= k' <= |store| && (k' == k <==> k == |store|)
    ensures FetchFrom(store, after) == store[k..k']
    ensures ValidRun(owner, store[k..k'], after) == k' - k
    ensures k' > k ==> SplitsAt(store, k', store[k' - 1].seqNo)
  {
    AboveIsSuffix(store, k, after);
    k' := if |store| - k <= BATCH then |store| else k + BATCH;
    CleanSlice(owner, store, k, k', after);
    CleanRunIsWhole(owner, store[k..k'], after);
  }

  /** A whole, accepted page followed by the scan of what lies above it. */
  lemma ScanJoins(owner: nat, store: seq<Message>, page: seq<Message>, rest: seq<Message>, after: Seq64)
    requires page != [] && FetchFrom(store, after) == page && ValidRun(owner, page, after) == |page|
    requires Scan(owner, store, page[|page| - 1].seqNo) == Scanned(rest, Done)
    ensures Scan(owner, store, after) == Scanned(page + rest, Done)
  {
  }

  lemma SlicesJoin<T>(s: seq<T>, i: nat, j: nat)
    requires i <= j <= |s|
    ensures s[i..] == s[i..j] + s[j..]
  {
  }

  lemma {:induction false} CleanScanFrom(owner: nat, store: seq<Message>, k: nat, after: Seq64)
    requires Clean(owner, store) && SplitsAt(store, k, after)
    ensures Scan(owner, store, after) == Scanned(store[k..], Done)
    decreases |store| - k
  {
    var k' := CleanPage(owner, store, k, after);
    if k' > k {
      CleanScanFrom(owner, store, k', store[k' - 1].seqNo);
      ScanJoins(owner, store, store[k..k'], store[k'..], after);
      SlicesJoin(store, k, k');
    } else {
      assert FetchFrom(store, after) == [];
    }
  }

  /**
    Paged scanning refines the simple scan exactly on clean stores: over any stored list in
    sequence order, the scan reaches the end having delivered that list, once each and in
    order, if and only if the list is well addressed, positive and free of equal numbers.
   */
  lemma ScanIsWholeListIff(owner: nat, store: seq<Message>)
    requires Sorted(store)
    ensures Scan(owner, store, 0) == Scanned(store, Done) <==> Clean(owner, store)
  {
    ScanAscends(owner, store, 0);
    if Clean(owner, store) {
      CleanScanFrom(owner, store, 0, 0);
      assert store[0..] == store;
    }
  }

  lemma {:induction false} ValidRunStep(owner: nat, page: seq<Message>, next: int, i: nat)
    requires i <= ValidRun(owner, page, next)
    ensures ValidRun(owner, page, next) ==
            i + ValidRun(owner, page[i..], if i == 0 then next else page[i - 1].seqNo)
  {
    if i == 0 {
      assert page[0..] == page;
    } else {
      ValidRunStep(owner, page[1..], page[0].seqNo, i - 1);
      assert page[1..][i - 1..] == page[i..];
    }
  }

  /** A run that ends inside a prefix ends there in the whole. */
  lemma {:induction false} ValidRunWithin(owner: nat, ms: seq<Message>, next: int, j: nat)
    requires j <= |ms| && ValidRun(owner, ms[..j], next) < j
    ensures ValidRun(owner, ms, next) == ValidRun(owner, ms[..j], next)
  {
    if ValidRun(owner, ms[..j], next) > 0 {
      assert ms[..j][1..] == ms[1..][..j - 1];
      ValidRunWithin(owner, ms[1..], ms[0].seqNo, j - 1);
    }
  }

  lemma NextPage(store: seq<Message>, k: nat, after: Seq64) returns (k': nat)
    requires Ascending(store) && SplitsAt(store, k, after)
    ensures k <= k' <= |store| && (k' == k <==> k == |store|)
    ensures FetchFrom(store, after) == store[k..k']
    ensures k' > k ==> SplitsAt(store, k', store[k' - 1].seqNo)
  {
    AboveIsSuffix(store, k, after);
    k' := if |store| - k <= BATCH then |store| else k + BATCH;
  }

  /** What the scan makes of the candidates left: all of them, or the run before the first bad one. */
  function Verdict(owner: nat, rest: seq<Message>, after: int): Scanned {
    var n := ValidRun(owner, rest, after);
    if n == |rest| then Scanned(rest, Done) else Scanned(rest[..n], Failed)
  }

  lemma PrefixOver<T>(a: seq<T>, b: seq<T>, n: nat)
    requires n <= |b|
    ensures (a + b)[..|a| + n] == a + b[..n]
  {
  }

  /** A verdict taken a page at a time. */
  lemma VerdictJoins(owner: nat, page: seq<Message>, rest: seq<Message>, after: int)
    requires page != []
    ensures var (v, tail) := (ValidRun(owner, page, after), Verdict(owner, rest, page[|page| - 1].seqNo));
            Verdict(owner, page + rest, after) ==
              if v < |page| then Scanned(page[..v], Failed) else Scanned(page + tail.delivered, tail.outcome)
  {
    var (all, n) := (page + rest, |page|);
    assert all[..n] == page && all[n..] == rest;
    var v := ValidRun(owner, page, after);
    if v < n {
      ValidRunWithin(owner, all, after, n);
      assert all[..v] == page[..v];
    } else {
      ValidRunOfPrefix(owner, all, after, n);
      ValidRunStep(owner, all, after, n);
      assert all[n - 1] == page[n - 1];
      PrefixOver(page, rest, ValidRun(owner, rest, page[n - 1].seqNo));
    }
  }

  lemma {:induction false} ScanGivesVerdict(owner: nat, store: seq<Message>, k: nat, after: Seq64)
    requires Ascending(store) && SplitsAt(store, k, after)
    ensures Scan(owner, store, after) == Verdict(owner, store[k..], after)
    decreases |store| - k
  {
    var k' := NextPage(store, k, after);
    if k' > k {
      var page := store[k..k'];
      ScanOnePage(owner, store, after);
      ScanGivesVerdict(owner, store, k', store[k' - 1].seqNo);
      VerdictJoins(owner, page, store[k'..], after);
      SlicesJoin(store, k, k');
    } else {
      assert FetchFrom(store, after) == [] && store[k..] == [];
    }
  }

  /**
    On any ascending store of positive numbers the scan reports success exactly if every candidate
    is the account's; otherwise it fails having delivered the candidates before the first that is not.
   */
  lemma ScanStopsAtFirstBad(owner: nat, store: seq<Message>, n: nat)
    requires Ascending(store) && forall i :: 0 <= i < |store| ==> store[i].seqNo > 0
    requires n <= |store| && (n < |store| ==> !IsSingleMessageFor(owner, store[n]))
    requires forall i :: 0 <= i < n ==> IsSingleMessageFor(owner, store[i])
    ensures Scan(owner, store, 0) == if n == |store| then Scanned(store, Done) else Scanned(store[..n], Failed)
  {
    ScanGivesVerdict(owner, store, 0, 0);
    assert store[0..] == store;
    ValidRunIsLongest(owner, store, 0, n);
    if n < |store| {
      ValidRunIsLongest(owner, store, 0, n + 1);
      assert store[..n + 1][n] == store[n];
    }
  }

  /**
    The failing family: a full clean page followed by a message that repeats its last number.
    The scan reports a normal end and never delivers that message.
   */
  lemma TieAcrossPagesIsSkipped(owner: nat, page: seq<Message>, tie: Message)
    requires Clean(owner, page) && |page| == BATCH
    requires tie.seqNo == page[BATCH - 1].seqNo
    ensures Sorted(page + [tie])
    ensures Scan(owner, page + [tie], 0) == Scanned(page, Done)
  {
    var store := page + [tie];
    AboveIsSuffix(store, 0, 0);
    assert FetchFrom(store, 0) == page;
    CleanRunIsWhole(owner, page, 0);
    AboveIsSuffix(store, |store|, tie.seqNo);
    assert Scan(owner, store, tie.seqNo) == Scanned([], Done);
    ScanJoins(owner, store, page, [], 0);
    assert page + [] == page;
  }

  // ---------------------------------------------------------------- the loop itself

  datatype FetchReply = Page(messages: seq<Message>) | FetchThrows

  /**
    What the loop cannot see. Awaits are numbered; `fetch` and `deliver` may answer differently
    at each one, and the session is disconnected from await `dropAt` on, if there is one.
   */
  datatype Env = Env(fetch: (nat, int) -> FetchReply, deliver: (nat, Message) -> bool, dropAt: int)
  {
    predicate Dropped(clock: nat) { 0 <= dropAt <= clock }
  }

  ghost predicate Serves(env: Env, store: seq<Message>) {
    forall k: nat, after: int :: env.fetch(k, after) == Page(FetchFrom(store, after))
  }

  ghost predicate Quiet(env: Env) {
    env.dropAt < 0 && forall k: nat, m: Message :: env.deliver(k, m)
  }

  function LastSeq(ms: seq<Message>): Seq64 {
    if ms == [] then 0 else ms[|ms| - 1].seqNo
  }

  /** The first `n` messages of a page, one an await, were all delivered. */
  ghost predicate Took(env: Env, page: seq<Message>, start: nat, n: nat)
    requires n <= |page|
  {
    forall k {:trigger page[k]} :: 0 <= k < n ==> env.deliver(start + k, page[k])
  }

  datatype PageEnd = Whole | Dropped | Threw | Rejected

  lemma TookMore(env: Env, page: seq<Message>, start: nat, n: nat)
    requires n < |page| && Took(env, page, start, n) && env.deliver(start + n, page[n])
    ensures Took(env, page, start, n + 1)
  {
  }

  /** Which of its four endings a page had after `n` calls, told from `deliver` and the session. */
  ghost predicate PageEnded(owner: nat, env: Env, page: seq<Message>, after: Seq64, start: nat, n: nat, end: PageEnd) {
    && n <= ValidRun(owner, page, after)
    && (n > 0 ==> !env.Dropped(start + n - 1) && Took(env, page, start, n - 1))
    && (end.Threw? <==> n > 0 && !env.deliver(start + n - 1, page[n - 1]))
    && (end.Whole? <==> n == |page| && !end.Threw?)
    && (end.Dropped? <==> n < |page| && !end.Threw? && env.Dropped(start + n))
    && (end.Rejected? <==> n == ValidRun(owner, page, after) < |page| && !end.Threw? && !env.Dropped(start + n))
  }

  /**
    The inner loop: offers the messages of one page to `deliver` until one is rejected,
    `deliver` throws or the session drops. `n` messages were offered, one an await, and which of
    the four endings it is follows from what `deliver` and the session did at those awaits.
   */
  method DeliverPage(owner: nat, env: Env, page: seq<Message>, after: Seq64, start: nat)
    returns (n: nat, end: PageEnd, clock: nat)
    ensures clock == start + n && PageEnded(owner, env, page, after, start, n, end)
  {
    var next := after;
    n, clock := 0, start;
    while n < |page|
      invariant n <= ValidRun(owner, page, after)
      invariant next == if n == 0 then after else page[n - 1].seqNo
      invariant clock == start + n
      invariant (n > 0 ==> !env.Dropped(start + n - 1)) && Took(env, page, start, n)
    {
      if env.Dropped(clock) {
        return n, Dropped, clock;
      }
      ValidRunStep(owner, page, after, n);
      if !IsSingleMessageFor(owner, page[n]) || page[n].seqNo <= next {
        return n, Rejected, clock;
      }
      next := page[n].seqNo;
      var delivers := env.deliver(clock, page[n]);
      if delivers { TookMore(env, page, start, n); }
      n, clock := n + 1, clock + 1;
      if !delivers {
        return n, Threw, clock;
      }
    }
    end := Whole;
  }

  lemma CleanExtends(owner: nat, ms: seq<Message>, page: seq<Message>, n: nat)
    requires Clean(owner, ms) && n <= ValidRun(owner, page, LastSeq(ms))
    ensures Clean(owner, ms + page[..n])
  {
    ValidRunMeans(owner, page, LastSeq(ms));
    var good := page[..ValidRun(owner, page, LastSeq(ms))];
    assert page[..n] == good[..n];
  }

  /** What the delivered log says about the reference scan of `store`, in the middle of a run. */
  ghost predicate Tracks(owner: nat, store: seq<Message>, delivered: seq<Message>, after: Seq64) {
    && Scan(owner, store, 0).delivered == delivered + Scan(owner, store, after).delivered
    && Scan(owner, store, 0).outcome == Scan(owner, store, after).outcome
  }

  lemma SeqAssoc<T>(a: seq<T>, b: seq<T>, c: seq<T>)
    ensures a + (b + c) == (a + b) + c
  {
  }

  /** `n` elements of the page lie in what the scan goes on to deliver, accepted run or whole page. */
  lemma PartOf<T>(a: seq<T>, page: seq<T>, rest: seq<T>, n: nat, v: nat)
    requires n <= v <= |page|
    ensures a + page[..n] <= a + page[..v]
    ensures a + page[..n] <= a + (page + rest)
  {
    assert page[..v] == page[..n] + page[n..v];
    SeqAssoc(a, page[..n], page[n..v]);
    assert page + rest == page[..n] + (page[n..] + rest);
    SeqAssoc(a, page[..n], page[n..] + rest);
  }

  /** In the middle of a page the log is a prefix of the reference; a rejection ends both. */
  lemma TracksPart(owner: nat, store: seq<Message>, delivered: seq<Message>, after: Seq64, page: seq<Message>, n: nat)
    requires page != [] && FetchFrom(store, after) == page && Tracks(owner, store, delivered, after)
    requires n <= ValidRun(owner, page, after)
    ensures delivered + page[..n] <= Scan(owner, store, 0).delivered
    ensures n == ValidRun(owner, page, after) < |page| ==> Scan(owner, store, 0) == Scanned(delivered + page[..n], Failed)
  {
    ScanOnePage(owner, store, after);
    PartOf(delivered, page, Scan(owner, store, page[|page| - 1].seqNo).delivered, n, ValidRun(owner, page, after));
  }

  lemma TracksWhole(owner: nat, store: seq<Message>, delivered: seq<Message>, after: Seq64, page: seq<Message>)
    requires page != [] && FetchFrom(store, after) == page && Tracks(owner, store, delivered, after)
    requires ValidRun(owner, page, after) == |page|
    ensures Tracks(owner, store, delivered + page, page[|page| - 1].seqNo)
  {
    ScanOnePage(owner, store, after);
    SeqAssoc(delivered, page, Scan(owner, store, page[|page| - 1].seqNo).delivered);
  }

  /** How far the loop has come, between two fetches. */
  ghost predicate Scanning(owner: nat, env: Env, store: seq<Message>, delivered: seq<Message>, after: Seq64) {
    && after == LastSeq(delivered) && Clean(owner, delivered)
    && (Serves(env, store) ==> Tracks(owner, store, delivered, after))
  }

  /** What a scan that stops here may say it delivered. */
  ghost predicate Reported(env: Env, store: seq<Message>, reference: Scanned, r: Scanned) {
    && (Serves(env, store) ==> r.delivered <= reference.delivered)
    && (Serves(env, store) && Quiet(env) ==> r == reference)
  }

  lemma EmptyPageReports(owner: nat, env: Env, store: seq<Message>, delivered: seq<Message>, after: Seq64, asked: nat)
    requires Scanning(owner, env, store, delivered, after) && env.fetch(asked, after) == Page([])
    ensures Reported(env, store, Scan(owner, store, 0), Scanned(delivered, Done))
  {
    if Serves(env, store) {
      assert FetchFrom(store, after) == [];
    }
  }

  /** A stop between two messages is the end of the reference scan or not a quiet one. */
  lemma InterruptReports(owner: nat, env: Env, store: seq<Message>, delivered: seq<Message>, after: Seq64, o: Outcome)
    requires Scanning(owner, env, store, delivered, after)
    requires Serves(env, store) ==> !Quiet(env)
    ensures Reported(env, store, Scan(owner, store, 0), Scanned(delivered, o))
  {
  }

  /** The first `n` messages of the page in hand were delivered. */
  lemma PageReports(owner: nat, env: Env, store: seq<Message>, delivered: seq<Message>, after: Seq64,
                    asked: nat, page: seq<Message>, n: nat, o: Outcome)
    requires Scanning(owner, env, store, delivered, after) && page != [] && env.fetch(asked, after) == Page(page)
    requires n <= ValidRun(owner, page, after)
    requires Quiet(env) ==> o == Failed && n == ValidRun(owner, page, after) < |page|
    ensures Clean(owner, delivered + page[..n])
    ensures Reported(env, store, Scan(owner, store, 0), Scanned(delivered + page[..n], o))
  {
    CleanExtends(owner, delivered, page, n);
    if Serves(env, store) {
      assert page == FetchFrom(store, after);
      TracksPart(owner, store, delivered, after, page, n);
    }
  }

  lemma CleanWhole(owner: nat, delivered: seq<Message>, page: seq<Message>)
    requires Clean(owner, delivered) && page != [] && ValidRun(owner, page, LastSeq(delivered)) == |page|
    ensures Clean(owner, delivered + page)
    ensures LastSeq(delivered) < page[|page| - 1].seqNo == LastSeq(delivered + page)
  {
    CleanExtends(owner, delivered, page, |page|);
    ValidRunMeans(owner, page, LastSeq(delivered));
    assert page[..|page|] == page;
  }

  lemma PageScanned(owner: nat, env: Env, store: seq<Message>, delivered: seq<Message>, after: Seq64,
                    asked: nat, page: seq<Message>)
    requires Scanning(owner, env, store, delivered, after) && page != [] && env.fetch(asked, after) == Page(page)
    requires ValidRun(owner, page, after) == |page|
    ensures after < page[|page| - 1].seqNo
    ensures Scanning(owner, env, store, delivered + page, page[|page| - 1].seqNo)
  {
    CleanWhole(owner, delivered, page);
    if Serves(env, store) {
      assert page == FetchFrom(store, after);
      TracksWhole(owner, store, delivered, after, page);
    }
  }

  /** The instants of the `deliver` calls: in order, each while connected, all but the last successful. */
  ghost predicate CalledAt(env: Env, delivered: seq<Message>, calls: seq<nat>, end: nat) {
    && |calls| == |delivered|
    && (forall i, j :: 0 <= i < j < |calls| ==> calls[i] < calls[j])
    && (forall i :: 0 <= i < |calls| ==> calls[i] < end && !env.Dropped(calls[i]))
    && (forall i :: 0 <= i < |calls| - 1 ==> env.deliver(calls[i], delivered[i]))
  }

  /** Every call so far succeeded. */
  ghost predicate AllDelivered(env: Env, delivered: seq<Message>, calls: seq<nat>) {
    |calls| == |delivered| && forall i :: 0 <= i < |calls| ==> env.deliver(calls[i], delivered[i])
  }

  lemma OneCall(env: Env, delivered: seq<Message>, calls: seq<nat>, clock: nat, m: Message, all: seq<Message>)
    requires CalledAt(env, delivered, calls, clock) && AllDelivered(env, delivered, calls) && !env.Dropped(clock)
    requires all == delivered + [m]
    ensures CalledAt(env, all, calls + [clock], clock + 1)
    ensures AllDelivered(env, all, calls + [clock]) <==> env.deliver(clock, m)
  {
    var more := calls + [clock];
    assert all[|delivered|] == m && more[|delivered|] == clock;
  }

  lemma AppendOne<T>(a: seq<T>, b: seq<T>, n: nat)
    requires n < |b|
    ensures a + b[..n + 1] == (a + b[..n]) + [b[n]]
  {
  }

  /** The calls for the first messages of a page, all successful. */
  lemma {:induction false} GoodCalls(env: Env, delivered: seq<Message>, calls: seq<nat>, page: seq<Message>, start: nat, n: nat)
    returns (more: seq<nat>)
    requires CalledAt(env, delivered, calls, start) && AllDelivered(env, delivered, calls) && n <= |page|
    requires Took(env, page, start, n) && (n > 0 ==> !env.Dropped(start + n - 1))
    ensures CalledAt(env, delivered + page[..n], more, start + n) && AllDelivered(env, delivered + page[..n], more)
  {
    if n == 0 {
      more := calls;
      assert delivered + page[..0] == delivered;
    } else {
      TookLess(env, page, start, n - 1);
      var front := GoodCalls(env, delivered, calls, page, start, n - 1);
      AppendOne(delivered, page, n - 1);
      OneCall(env, delivered + page[..n - 1], front, start + (n - 1), page[n - 1], delivered + page[..n]);
      more := front + [start + (n - 1)];
    }
  }

  lemma TookLess(env: Env, page: seq<Message>, start: nat, n: nat)
    requires n < |page| && Took(env, page, start, n + 1)
    ensures Took(env, page, start, n) && env.deliver(start + n, page[n])
  {
  }

  /** The same with a last call that may have thrown. */
  lemma MoreCalls(env: Env, delivered: seq<Message>, calls: seq<nat>, page: seq<Message>, start: nat, n: nat)
    returns (more: seq<nat>)
    requires CalledAt(env, delivered, calls, start) && AllDelivered(env, delivered, calls) && n <= |page|
    requires n > 0 ==> !env.Dropped(start + n - 1) && Took(env, page, start, n - 1)
    ensures CalledAt(env, delivered + page[..n], more, start + n)
    ensures n > 0 ==> more != [] && more[|more| - 1] == start + n - 1
    ensures AllDelivered(env, delivered + page[..n], more) <==> n == 0 || env.deliver(start + n - 1, page[n - 1])
  {
    if n == 0 {
      more := GoodCalls(env, delivered, calls, page, start, 0);
    } else {
      var front := GoodCalls(env, delivered, calls, page, start, n - 1);
      AppendOne(delivered, page, n - 1);
      OneCall(env, delivered + page[..n - 1], front, start + (n - 1), page[n - 1], delivered + page[..n]);
      more := front + [start + (n - 1)];
    }
  }

  /** A fetch at which the scan has to fail: it throws, overflows, or holds a message to be rejected. */
  ghost predicate BadFetch(owner: nat, env: Env, delivered: seq<Message>, asked: nat, cursor: Seq64) {
    var reply := env.fetch(asked, cursor);
    || (reply.FetchThrows? && cursor == LastSeq(delivered))
    || (reply.Page? && |reply.messages| > BATCH && cursor == LastSeq(delivered))
    || (reply.Page? && var n := ValidRun(owner, reply.messages, cursor);
          && n < |reply.messages| <= BATCH && n <= |delivered|
          && delivered[|delivered| - n..] == reply.messages[..n] && cursor == LastSeq(delivered[..|delivered| - n]))
  }

  /**
    Why a scan that asked last at `asked`, from `cursor`, ended as it did at await `end`.
    A call that threw fails it, and nothing else but a bad fetch does.
   */
  ghost predicate EndsAs(owner: nat, env: Env, r: Scanned, calls: seq<nat>, asked: nat, cursor: Seq64, end: nat) {
    match r.outcome
    case Done =>
      && AllDelivered(env, r.delivered, calls) && !env.Dropped(end)
      && end == asked + 1 && cursor == LastSeq(r.delivered) && env.fetch(asked, cursor) == Page([])
    case Disconnected => AllDelivered(env, r.delivered, calls) && env.Dropped(end)
    case Failed =>
      if AllDelivered(env, r.delivered, calls) then BadFetch(owner, env, r.delivered, asked, cursor)
      else calls != [] && end == calls[|calls| - 1] + 1
  }

  lemma PageEndsAs(owner: nat, env: Env, delivered: seq<Message>, calls: seq<nat>, asked: nat, cursor: Seq64,
                   page: seq<Message>, n: nat, end: PageEnd, more: seq<nat>)
    requires page != [] && |page| <= BATCH && env.fetch(asked, cursor) == Page(page) && cursor == LastSeq(delivered)
    requires n <= |page| && (AllDelivered(env, delivered + page[..n], more) <==> !end.Threw?)
    requires end.Threw? ==> more != [] && more[|more| - 1] == asked + n
    requires end.Rejected? ==> n == ValidRun(owner, page, cursor) < |page|
    requires end.Dropped? ==> env.Dropped(asked + 1 + n)
    requires !end.Whole?
    ensures EndsAs(owner, env, Scanned(delivered + page[..n], if end.Dropped? then Disconnected else Failed),
                   more, asked, cursor, asked + 1 + n)
  {
    var all := delivered + page[..n];
    assert all[|all| - n..] == page[..n] && all[..|all| - n] == delivered;
  }

  /** The loop between two fetches, with the instants of its calls. */
  ghost predicate Underway(owner: nat, env: Env, store: seq<Message>, delivered: seq<Message>, after: Seq64,
                           calls: seq<nat>, end: nat) {
    Scanning(owner, env, store, delivered, after) && CalledAt(env, delivered, calls, end) && AllDelivered(env, delivered, calls)
  }

  /** What the scan returned, whatever its calls were. */
  ghost predicate Outcomes(owner: nat, env: Env, store: seq<Message>, r: Scanned, end: nat) {
    && Clean(owner, r.delivered) && Reported(env, store, Scan(owner, store, 0), r)
    && (r.outcome.Disconnected? ==> env.Dropped(end))
    && (r.outcome.Done? ==> !env.Dropped(end) && end > 0 && env.fetch(end - 1, LastSeq(r.delivered)) == Page([]))
  }

  /** How its calls went, and why it ended so. */
  ghost predicate Ended(owner: nat, env: Env, r: Scanned, calls: seq<nat>, asked: nat, cursor: Seq64, end: nat) {
    CalledAt(env, r.delivered, calls, end) && EndsAs(owner, env, r, calls, asked, cursor, end)
  }

  lemma Begins(owner: nat, env: Env, store: seq<Message>)
    ensures Underway(owner, env, store, [], 0, [], 0)
  {
    assert [] + Scan(owner, store, 0).delivered == Scan(owner, store, 0).delivered;
  }

  lemma DropEnds(owner: nat, env: Env, store: seq<Message>, delivered: seq<Message>, after: Seq64,
                 calls: seq<nat>, asked: nat, cursor: Seq64, end: nat)
    requires Underway(owner, env, store, delivered, after, calls, end) && env.Dropped(end)
    ensures Ended(owner, env, Scanned(delivered, Disconnected), calls, asked, cursor, end)
    ensures Outcomes(owner, env, store, Scanned(delivered, Disconnected), end)
  {
    InterruptReports(owner, env, store, delivered, after, Disconnected);
  }

  lemma CallsLater(env: Env, delivered: seq<Message>, calls: seq<nat>, end: nat)
    requires CalledAt(env, delivered, calls, end)
    ensures CalledAt(env, delivered, calls, end + 1)
  {
  }

  /** A fetch that throws or overflows. */
  lemma FetchFails(owner: nat, env: Env, store: seq<Message>, delivered: seq<Message>, after: Seq64,
                   calls: seq<nat>, asked: nat)
    requires Underway(owner, env, store, delivered, after, calls, asked)
    requires var reply := env.fetch(asked, after); reply.FetchThrows? || |reply.messages| > BATCH
    ensures Ended(owner, env, Scanned(delivered, Failed), calls, asked, after, asked + 1)
    ensures Outcomes(owner, env, store, Scanned(delivered, Failed), asked + 1)
  {
    CallsLater(env, delivered, calls, asked);
    assert !Serves(env, store);
    InterruptReports(owner, env, store, delivered, after, Failed);
  }

  lemma EmptyEnds(owner: nat, env: Env, store: seq<Message>, delivered: seq<Message>, after: Seq64,
                  calls: seq<nat>, asked: nat)
    requires Underway(owner, env, store, delivered, after, calls, asked)
    requires env.fetch(asked, after) == Page([]) && !env.Dropped(asked + 1)
    ensures Ended(owner, env, Scanned(delivered, Done), calls, asked, after, asked + 1)
    ensures Outcomes(owner, env, store, Scanned(delivered, Done), asked + 1)
  {
    CallsLater(env, delivered, calls, asked);
    EmptyPageReports(owner, env, store, delivered, after, asked);
  }

  lemma PageStops(owner: nat, env: Env, store: seq<Message>, delivered: seq<Message>, after: Seq64,
                  calls: seq<nat>, asked: nat, page: seq<Message>, n: nat, end: PageEnd)
    returns (more: seq<nat>)
    requires Underway(owner, env, store, delivered, after, calls, asked)
    requires page != [] && |page| <= BATCH && env.fetch(asked, after) == Page(page)
    requires PageEnded(owner, env, page, after, asked + 1, n, end) && !end.Whole?
    ensures var r := Scanned(delivered + page[..n], if end.Dropped? then Disconnected else Failed);
            Ended(owner, env, r, more, asked, after, asked + 1 + n) && Outcomes(owner, env, store, r, asked + 1 + n)
  {
    CallsLater(env, delivered, calls, asked);
    more := MoreCalls(env, delivered, calls, page, asked + 1, n);
    PageReports(owner, env, store, delivered, after, asked, page, n, if end.Dropped? then Disconnected else Failed);
    PageEndsAs(owner, env, delivered, calls, asked, after, page, n, end, more);
  }

  lemma PageGoesOn(owner: nat, env: Env, store: seq<Message>, delivered: seq<Message>, after: Seq64,
                   calls: seq<nat>, asked: nat, page: seq<Message>)
    returns (more: seq<nat>)
    requires Underway(owner, env, store, delivered, after, calls, asked)
    requires page != [] && |page| <= BATCH && env.fetch(asked, after) == Page(page)
    requires PageEnded(owner, env, page, after, asked + 1, |page|, Whole)
    ensures after < page[|page| - 1].seqNo
    ensures Underway(owner, env, store, delivered + page, page[|page| - 1].seqNo, more, asked + |page| + 2)
  {
    CallsLater(env, delivered, calls, asked);
    more := MoreCalls(env, delivered, calls, page, asked + 1, |page|);
    assert page[..|page|] == page;
    CallsLater(env, delivered + page, more, asked + 1 + |page|);
    PageScanned(owner, env, store, delivered, after, asked, page);
  }

  /**
    WSSession::scanOfflineMessages. Against any environment the loop terminates, and `deliver`
    is called on strictly ascending messages of this account; a normal end means the last
    fetch, above everything delivered, came back empty. Against a fixed store the calls are a
    prefix of the reference scan, and all of it when nothing interrupts. The outcome is told
    from what the environment did: a call that threw fails the scan, and a normal end means
    that every call succeeded.
   */
  method ScanOfflineMessages(owner: nat, env: Env, ghost store: seq<Message>)
    returns (r: Scanned, ghost calls: seq<nat>, ghost asked: nat, ghost cursor: Seq64, end: nat)
    ensures Outcomes(owner, env, store, r, end)
    ensures Ended(owner, env, r, calls, asked, cursor, end)
    ensures end > 0 ==> !env.Dropped(asked)
  {
    var after: Seq64 := 0;
    var delivered: seq<Message> := [];
    end, calls, asked, cursor := 0, [], 0, 0;
    Begins(owner, env, store);
    while !env.Dropped(end)
      invariant Underway(owner, env, store, delivered, after, calls, end)
      invariant end > 0 ==> !env.Dropped(asked)
      decreases INT64_MAX - after
    {
      var reply := env.fetch(end, after);
      asked, cursor, end := end, after, end + 1;
      if reply.FetchThrows? {
        FetchFails(owner, env, store, delivered, after, calls, asked);
        return Scanned(delivered, Failed), calls, asked, cursor, end;
      }
      if env.Dropped(end) {
        CallsLater(env, delivered, calls, asked);
        DropEnds(owner, env, store, delivered, after, calls, asked, cursor, end);
        return Scanned(delivered, Disconnected), calls, asked, cursor, end;
      }
      var page := reply.messages;
      if page == [] {
        EmptyEnds(owner, env, store, delivered, after, calls, asked);
        return Scanned(delivered, Done), calls, asked, cursor, end;
      }
      if |page| > BATCH {
        FetchFails(owner, env, store, delivered, after, calls, asked);
        return Scanned(delivered, Failed), calls, asked, cursor, end;
      }
      var n, ending;
      n, ending, end := DeliverPage(owner, env, page, after, end);
      if !ending.Whole? {
        r := Scanned(delivered + page[..n], if ending.Dropped? then Disconnected else Failed);
        calls := PageStops(owner, env, store, delivered, after, calls, asked, page, n, ending);
        return;
      }
      calls := PageGoesOn(owner, env, store, delivered, after, calls, asked, page);
      delivered, after, end := delivered + page, page[|page| - 1].seqNo, end + 1;
      if env.Dropped(end) {
        DropEnds(owner, env, store, delivered, after, calls, asked, cursor, end);
        return Scanned(delivered, Disconnected), calls, asked, cursor, end;
      }
    }
    DropEnds(owner, env, store, delivered, after, calls, asked, cursor, end);
    return Scanned(delivered, Disconnected), calls, asked, cursor, end;
  }
}
