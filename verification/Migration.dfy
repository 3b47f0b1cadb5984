/**
  The conversation migration: what importing one legacy record means for the two tables, the
  script's loops over records and unread messages with its transaction, and what whole runs,
  reruns and interrupted runs leave behind.
 */
module Migration {
  import opened Options

  const FLUSH: nat := 500

  /** A document of the legacy conversations collection. */
  datatype Record = Record(owner: int, peer: int, conversation: string, minSeq: int, readSeq: int,
                           pinned: bool, recvMsgOpt: int)

  /** A document of the msg collection; `single` is isGroupMsg stored as false. */
  datatype Msg = Msg(conversation: string, recv: int, single: bool, committed: bool, seqNo: int, sendTime: int)

  /** What the migration only reads. */
  datatype Source = Source(messages: seq<Msg>, friends: set<(int, int)>, deletions: map<(int, int), int>)

  type Key = (int, string)

  /** A row of im_conversations; `latest` is the message its summary is made from. */
  datatype Row = Row(peer: int, pinned: bool, recvMsgOpt: int, minSeq: int, maxSeq: int, readSeq: int,
                     unreadCount: nat, latest: Option<Msg>)

  /** im_conversations by key, and im_conversation_unread. */
  datatype Db = Db(conversations: map<Key, Row>, unread: set<(int, string, int)>)

  // ---------------------------------------------------------------- one record

  function Decimal(n: nat): string {
    if n < 10 then [('0' as int + n) as char] else Decimal(n / 10) + [('0' as int + n % 10) as char]
  }

  function Show(n: int): string {
    if n < 0 then "-" + Decimal(-n) else Decimal(n)
  }

  function PairId(a: int, b: int): string {
    if a < b then Show(a) + "_" + Show(b) else Show(b) + "_" + Show(a)
  }

  /** The two eligibility checks: a canonical id of two accounts, friends both ways. */
  predicate Eligible(src: Source, r: Record) {
    && r.conversation == PairId(r.owner, r.peer) && r.owner != r.peer
    && (r.owner, r.peer) in src.friends && (r.peer, r.owner) in src.friends
  }

  function Max(a: int, b: int): int {
    if a < b then b else a
  }

  function Minimum(src: Source, r: Record): int {
    var k := (r.owner, r.peer);
    Max(r.minSeq, if k in src.deletions then src.deletions[k] else 0)
  }

  predicate InConversation(m: Msg, conversation: string, floor: int) {
    m.conversation == conversation && m.single && m.committed && m.seqNo > floor
  }

  /** find_one sorted by descending seq. */
  function Latest(ms: seq<Msg>, conversation: string, floor: int): Option<Msg> {
    if ms == [] then None
    else
      var front, m := Latest(ms[..|ms| - 1], conversation, floor), ms[|ms| - 1];
      if InConversation(m, conversation, floor) && (front.None? || front.value.seqNo < m.seqNo) then Some(m) else front
  }

  function Maximum(src: Source, r: Record): int {
    var latest := Latest(src.messages, r.conversation, Minimum(src, r));
    if latest.Some? then latest.value.seqNo else 0
  }

  function Read(src: Source, r: Record): int {
    var maximum, read := Maximum(src, r), Max(0, r.readSeq);
    if maximum < read then maximum else read
  }

  /** The query for unread messages. */
  predicate Unread(m: Msg, src: Source, r: Record) {
    m.recv == r.owner && InConversation(m, r.conversation, Max(Read(src, r), Minimum(src, r)))
  }

  function Select(ms: seq<Msg>, src: Source, r: Record): seq<Msg> {
    if ms == [] then []
    else Select(ms[..|ms| - 1], src, r) + (if Unread(ms[|ms| - 1], src, r) then [ms[|ms| - 1]] else [])
  }

  function Rows(r: Record, ms: seq<Msg>): set<(int, string, int)> {
    if ms == [] then {}
    else Rows(r, ms[..|ms| - 1]) + {(r.owner, r.conversation, ms[|ms| - 1].seqNo)}
  }

  function RowsOf(db: Db, key: Key): set<(int, string, int)> {
    set u | u in db.unread && (u.0, u.1) == key
  }

  function KeyOf(r: Record): Key {
    (r.owner, r.conversation)
  }

  function NewRow(src: Source, r: Record, unreadCount: nat): Row {
    Row(r.peer, r.pinned, r.recvMsgOpt, Minimum(src, r), Maximum(src, r), Read(src, r), unreadCount,
        Latest(src.messages, r.conversation, Minimum(src, r)))
  }

  predicate Imports(src: Source, db: Db, r: Record) {
    Eligible(src, r) && KeyOf(r) !in db.conversations
  }

  /** The tables after one record's transaction. */
  function ImportOne(src: Source, db: Db, r: Record): Db {
    if !Imports(src, db, r) then db
    else
      var filled := db.(unread := db.unread + Rows(r, Select(src.messages, src, r)));
      filled.(conversations := db.conversations[KeyOf(r) := NewRow(src, r, |RowsOf(filled, KeyOf(r))|)])
  }

  /** The foreign key: an unread row belongs to a conversation row. */
  ghost predicate ForeignKey(db: Db) {
    forall u :: u in db.unread ==> (u.0, u.1) in db.conversations
  }

  // ---------------------------------------------------------------- what one import means

  lemma {:induction false} LatestIsMaximal(ms: seq<Msg>, conversation: string, floor: int)
    ensures var l := Latest(ms, conversation, floor);
            && (l.Some? ==> InConversation(l.value, conversation, floor) && exists i :: 0 <= i < |ms| && ms[i] == l.value)
            && forall i :: 0 <= i < |ms| && InConversation(ms[i], conversation, floor) ==> l.Some? && ms[i].seqNo <= l.value.seqNo
  {
    if ms != [] {
      var front := ms[..|ms| - 1];
      LatestIsMaximal(front, conversation, floor);
      var l := Latest(front, conversation, floor);
      if l.Some? {
        var i :| 0 <= i < |front| && front[i] == l.value;
        assert ms[i] == l.value;
      }
      forall i | 0 <= i < |ms| && InConversation(ms[i], conversation, floor)
        ensures Latest(ms, conversation, floor).Some? && ms[i].seqNo <= Latest(ms, conversation, floor).value.seqNo
      {
        assert i < |front| ==> front[i] == ms[i];
      }
    }
  }

  lemma {:induction false} SelectedRows(ms: seq<Msg>, src: Source, r: Record, s: int)
    ensures (r.owner, r.conversation, s) in Rows(r, Select(ms, src, r))
            <==> exists i :: 0 <= i < |ms| && Unread(ms[i], src, r) && ms[i].seqNo == s
  {
    if ms != [] {
      var front, last := ms[..|ms| - 1], ms[|ms| - 1];
      SelectedRows(front, src, r, s);
      var selected := Select(front, src, r);
      if Unread(last, src, r) {
        assert (selected + [last])[..|selected|] == selected;
      } else {
        assert selected + [] == selected;
      }
      assert forall i :: 0 <= i < |front| ==> front[i] == ms[i];
    }
  }

  lemma {:induction false} RowsAreKeyed(r: Record, ms: seq<Msg>)
    ensures forall u :: u in Rows(r, ms) ==> u.0 == r.owner && u.1 == r.conversation
  {
    if ms != [] {
      RowsAreKeyed(r, ms[..|ms| - 1]);
    }
  }

  /**
    The row of a newly imported conversation: the record's own fields; the deletion floor, no
    lower than the record's or the stored deletion and equal to one of them or zero; the greatest
    committed number above that floor, or zero; and the record's read position, kept within zero
    and that maximum.
   */
  lemma ImportedRow(src: Source, db: Db, r: Record)
    requires Imports(src, db, r)
    ensures KeyOf(r) in ImportOne(src, db, r).conversations
    ensures var (row, del) := (ImportOne(src, db, r).conversations[KeyOf(r)], (r.owner, r.peer));
            && row.peer == r.peer && row.pinned == r.pinned && row.recvMsgOpt == r.recvMsgOpt
            && row.minSeq >= r.minSeq && (if del in src.deletions then row.minSeq >= src.deletions[del] else row.minSeq >= 0)
            && (row.minSeq == r.minSeq || row.minSeq == if del in src.deletions then src.deletions[del] else 0)
            && (forall i :: 0 <= i < |src.messages| && InConversation(src.messages[i], r.conversation, row.minSeq) ==>
                  src.messages[i].seqNo <= row.maxSeq)
            && (if row.latest.Some? then InConversation(row.latest.value, r.conversation, row.minSeq) && row.maxSeq == row.latest.value.seqNo
                else row.maxSeq == 0)
            && row.readSeq <= row.maxSeq && (0 <= r.readSeq <= row.maxSeq ==> row.readSeq == r.readSeq)
            && (r.readSeq > row.maxSeq ==> row.readSeq == row.maxSeq)
            && (r.readSeq < 0 <= row.maxSeq ==> row.readSeq == 0)
  {
    LatestIsMaximal(src.messages, r.conversation, Minimum(src, r));
  }

  /** A message addressed to the owner that the conversation's row leaves unread. */
  predicate LeftUnread(m: Msg, r: Record, row: Row) {
    && m.conversation == r.conversation && m.recv == r.owner && m.single && m.committed
    && m.seqNo > row.readSeq && m.seqNo > row.minSeq
  }

  /**
    The unread set of a newly imported conversation: exactly the owner's committed single-chat
    sequence numbers above the read position and the deletion floor, each at most the row's
    maximum, counted by the row; every other conversation's rows and fields are untouched.
   */
  lemma ImportedUnread(src: Source, db: Db, r: Record, s: int)
    requires ForeignKey(db) && Imports(src, db, r)
    ensures var (d, k) := (ImportOne(src, db, r), KeyOf(r));
            && ForeignKey(d) && d.conversations.Keys == db.conversations.Keys + {k}
            && var row := d.conversations[k];
            && ((r.owner, r.conversation, s) in d.unread <==>
                  exists i :: 0 <= i < |src.messages| && LeftUnread(src.messages[i], r, row) && src.messages[i].seqNo == s)
            && ((r.owner, r.conversation, s) in d.unread ==> row.minSeq < s && row.readSeq < s <= row.maxSeq)
            && row.unreadCount == |RowsOf(d, k)|
            && (forall u :: u in d.unread && (u.0, u.1) != k <==> u in db.unread)
            && (forall o :: o in db.conversations ==> d.conversations[o] == db.conversations[o])
  {
    var d, k := ImportOne(src, db, r), KeyOf(r);
    SelectedRows(src.messages, src, r, s);
    RowsAreKeyed(r, Select(src.messages, src, r));
    LatestIsMaximal(src.messages, r.conversation, Minimum(src, r));
    assert (r.owner, r.conversation, s) !in db.unread;
    var filled := db.(unread := db.unread + Rows(r, Select(src.messages, src, r)));
    assert RowsOf(filled, k) == RowsOf(d, k);
    assert forall i :: 0 <= i < |src.messages| ==>
        (Unread(src.messages[i], src, r) <==> LeftUnread(src.messages[i], r, d.conversations[k]));
  }

  // ---------------------------------------------------------------- conversation ids

  /** Reading a decimal numeral back. */
  function Value(s: string): int {
    if s == [] then 0 else 10 * Value(s[..|s| - 1]) + (s[|s| - 1] as int - '0' as int)
  }

  function ReadBack(s: string): int {
    if s != [] && s[0] == '-' then -Value(s[1..]) else Value(s)
  }

  predicate Digits(s: string) {
    s != [] && forall i :: 0 <= i < |s| ==> '0' <= s[i] <= '9'
  }

  lemma {:induction false} DecimalReadsBack(n: nat)
    ensures Digits(Decimal(n)) && Value(Decimal(n)) == n
  {
    var last := [('0' as int + n % 10) as char];
    if n >= 10 {
      DecimalReadsBack(n / 10);
      assert Decimal(n)[..|Decimal(n)| - 1] == Decimal(n / 10);
    } else {
      assert Decimal(n)[..0] == [];
    }
  }

  lemma ShowReadsBack(n: int)
    ensures ReadBack(Show(n)) == n && forall i :: 0 <= i < |Show(n)| ==> Show(n)[i] != '_'
  {
    if n < 0 {
      DecimalReadsBack(-n);
      assert Show(n)[1..] == Decimal(-n);
    } else {
      DecimalReadsBack(n);
    }
  }

  lemma FirstUnderscore(a: string, x: string, b: string, y: string)
    requires forall i :: 0 <= i < |a| ==> a[i] != '_'
    requires forall i :: 0 <= i < |b| ==> b[i] != '_'
    requires a + "_" + x == b + "_" + y
    ensures a == b && x == y
  {
    var s, t := a + "_" + x, b + "_" + y;
    assert s[|a|] == '_' && t[|b|] == '_';
    assert forall i :: 0 <= i < |a| ==> s[i] == a[i];
    assert forall i :: 0 <= i < |b| ==> t[i] == b[i];
    assert |a| == |b|;
    assert a == s[..|a|] && b == t[..|b|];
    assert x == s[|a| + 1..] && y == t[|b| + 1..];
  }

  /** A conversation id names one pair of accounts, whichever of them owns the record. */
  lemma PairIdIdentifies(a: int, b: int, c: int, d: int)
    ensures PairId(a, b) == PairId(c, d) <==> (a == c && b == d) || (a == d && b == c)
  {
    var (lo, hi, lo', hi') := (if a < b then a else b, if a < b then b else a, if c < d then c else d, if c < d then d else c);
    ShowReadsBack(lo);
    ShowReadsBack(hi);
    ShowReadsBack(lo');
    ShowReadsBack(hi');
    if PairId(a, b) == PairId(c, d) {
      FirstUnderscore(Show(lo), Show(hi), Show(lo'), Show(hi'));
    }
  }

  /** The decimal numeral of a number: a sign if negative, no leading zeros. */
  predicate IsNumeral(s: string, n: int) {
    if n < 0 then s != [] && s[0] == '-' && IsDecimal(s[1..], -n) else IsDecimal(s, n)
  }

  predicate IsDecimal(s: string, n: nat) {
    Digits(s) && (|s| > 1 ==> s[0] != '0') && Value(s) == n
  }

  lemma {:induction false} LeadingDigitCounts(s: string)
    requires Digits(s)
    ensures Value(s) >= 0 && (s[0] != '0' ==> Value(s) > 0)
  {
    if |s| > 1 {
      LeadingDigitCounts(s[..|s| - 1]);
    } else {
      assert s[..0] == [];
    }
  }

  lemma {:induction false} DecimalLeads(n: nat)
    ensures Digits(Decimal(n)) && (n > 0 ==> Decimal(n)[0] != '0') && (n == 0 ==> |Decimal(n)| == 1)
  {
    if n >= 10 {
      DecimalLeads(n / 10);
    }
  }

  lemma {:induction false} OnlyDecimal(s: string)
    requires Digits(s) && (|s| > 1 ==> s[0] != '0')
    ensures Value(s) >= 0 && Decimal(Value(s)) == s
  {
    var front, d := s[..|s| - 1], s[|s| - 1] as int - '0' as int;
    LeadingDigitCounts(s);
    if front == [] {
      assert Value(s) == d && s == [('0' as int + d) as char];
    } else {
      LeadingDigitCounts(front);
      OnlyDecimal(front);
      assert Value(s) == 10 * Value(front) + d && Value(s) >= 10;
      assert Value(s) / 10 == Value(front) && Value(s) % 10 == d;
      assert s == front + [('0' as int + d) as char];
    }
  }

  /** A number is shown as its decimal numeral, and there is only that one. */
  lemma ShowIsNumeral(s: string, n: int)
    ensures s == Show(n) <==> IsNumeral(s, n)
  {
    var m := if n < 0 then -n else n;
    DecimalReadsBack(m);
    DecimalLeads(m);
    if n < 0 {
      assert Show(n)[1..] == Decimal(m);
      if IsNumeral(s, n) {
        OnlyDecimal(s[1..]);
        assert s == "-" + s[1..];
      }
    } else if IsNumeral(s, n) {
      OnlyDecimal(s);
    }
  }

  /** The text is the smaller account's numeral, an underscore, and the larger account's. */
  ghost predicate NamesPair(text: string, a: int, b: int) {
    exists x, y :: text == x + "_" + y && IsNumeral(x, if a < b then a else b) && IsNumeral(y, if a < b then b else a)
  }

  lemma PairIdNames(text: string, a: int, b: int)
    ensures text == PairId(a, b) <==> NamesPair(text, a, b)
  {
    var (lo, hi) := (if a < b then a else b, if a < b then b else a);
    ShowIsNumeral(Show(lo), lo);
    ShowIsNumeral(Show(hi), hi);
    assert PairId(a, b) == Show(lo) + "_" + Show(hi);
    if NamesPair(text, a, b) {
      var x, y :| text == x + "_" + y && IsNumeral(x, lo) && IsNumeral(y, hi);
      ShowIsNumeral(x, lo);
      ShowIsNumeral(y, hi);
    }
  }

  /** Two different accounts, friends in both directions, and the id that names the pair. */
  ghost predicate FriendsPair(src: Source, owner: int, peer: int, conversation: string) {
    && owner != peer && NamesPair(conversation, owner, peer)
    && (owner, peer) in src.friends && (peer, owner) in src.friends
  }

  /** Exactly the records of such pairs whose conversation is not there yet are imported. */
  lemma ImportsExactly(src: Source, db: Db, r: Record)
    ensures Imports(src, db, r) <==>
              FriendsPair(src, r.owner, r.peer, r.conversation) && (r.owner, r.conversation) !in db.conversations
  {
    PairIdNames(r.conversation, r.owner, r.peer);
  }

  // ---------------------------------------------------------------- a run over all records

  /** Tables and counters after the records so far. */
  datatype Progress = Progress(db: Db, imported: nat, skipped: nat)

  function Fold(src: Source, db: Db, rs: seq<Record>): Progress {
    if rs == [] then Progress(db, 0, 0)
    else
      var p, r := Fold(src, db, rs[..|rs| - 1]), rs[|rs| - 1];
      if Imports(src, p.db, r) then Progress(ImportOne(src, p.db, r), p.imported + 1, p.skipped)
      else p.(skipped := p.skipped + 1)
  }

  lemma FoldNext(src: Source, db: Db, rs: seq<Record>, i: nat)
    requires i < |rs|
    ensures var p := Fold(src, db, rs[..i]);
            Fold(src, db, rs[..i + 1]) ==
              if Imports(src, p.db, rs[i]) then Progress(ImportOne(src, p.db, rs[i]), p.imported + 1, p.skipped)
              else Progress(p.db, p.imported, p.skipped + 1)
  {
    assert rs[..i + 1][..i] == rs[..i];
  }

  /** Every record is counted once, and each import is one new conversation row. */
  lemma {:induction false} FoldConserves(src: Source, db: Db, rs: seq<Record>)
    ensures var p := Fold(src, db, rs);
            && p.imported + p.skipped == |rs|
            && |p.db.conversations| == |db.conversations| + p.imported
            && db.conversations.Keys <= p.db.conversations.Keys && db.unread <= p.db.unread
            && (forall k :: k in db.conversations ==> p.db.conversations[k] == db.conversations[k])
            && (ForeignKey(db) ==> ForeignKey(p.db))
  {
    if rs != [] {
      FoldConserves(src, db, rs[..|rs| - 1]);
      var p, r := Fold(src, db, rs[..|rs| - 1]), rs[|rs| - 1];
      if Imports(src, p.db, r) {
        var d := ImportOne(src, p.db, r);
        assert d.conversations.Keys == p.db.conversations.Keys + {KeyOf(r)};
        assert |d.conversations| == |d.conversations.Keys| && |p.db.conversations| == |p.db.conversations.Keys|;
        RowsAreKeyed(r, Select(src.messages, src, r));
      }
    }
  }

  ghost predicate Settled(src: Source, db: Db, r: Record) {
    !Imports(src, db, r)
  }

  lemma ImportSettles(src: Source, db: Db, r: Record, q: Record)
    ensures Settled(src, ImportOne(src, db, r), r)
    ensures Settled(src, db, q) ==> Settled(src, ImportOne(src, db, r), q)
  {
  }

  lemma {:induction false} FoldSettles(src: Source, db: Db, rs: seq<Record>, i: nat)
    requires i < |rs|
    ensures Settled(src, Fold(src, db, rs).db, rs[i])
  {
    var front, last := rs[..|rs| - 1], rs[|rs| - 1];
    var before := Fold(src, db, front).db;
    assert Fold(src, db, rs).db == ImportOne(src, before, last);
    ImportSettles(src, before, last, rs[i]);
    if i < |front| {
      assert front[i] == rs[i];
      FoldSettles(src, db, front, i);
    }
  }

  lemma {:induction false} NothingLeftToImport(src: Source, db: Db, rs: seq<Record>)
    requires forall i :: 0 <= i < |rs| ==> Settled(src, db, rs[i])
    ensures Fold(src, db, rs) == Progress(db, 0, |rs|)
  {
    if rs != [] {
      var front := rs[..|rs| - 1];
      assert forall i :: 0 <= i < |front| ==> front[i] == rs[i];
      NothingLeftToImport(src, db, front);
    }
  }

  /** After a run every friends' pair among the records has its conversation. */
  lemma EveryPairIsThere(src: Source, db: Db, rs: seq<Record>, i: nat)
    requires i < |rs| && FriendsPair(src, rs[i].owner, rs[i].peer, rs[i].conversation)
    ensures (rs[i].owner, rs[i].conversation) in Fold(src, db, rs).db.conversations
  {
    FoldSettles(src, db, rs, i);
    ImportsExactly(src, Fold(src, db, rs).db, rs[i]);
  }

  /** And a run adds no other: each new row belongs to a pair of friends named by its id. */
  lemma {:induction false} NewRowsArePairs(src: Source, db: Db, rs: seq<Record>, k: Key)
    requires k in Fold(src, db, rs).db.conversations && k !in db.conversations
    ensures FriendsPair(src, k.0, Fold(src, db, rs).db.conversations[k].peer, k.1)
  {
    if rs != [] {
      var (p, r) := (Fold(src, db, rs[..|rs| - 1]), rs[|rs| - 1]);
      ImportsExactly(src, p.db, r);
      if k in p.db.conversations {
        NewRowsArePairs(src, db, rs[..|rs| - 1], k);
      } else {
        ImportedRow(src, p.db, r);
      }
    }
  }

  ghost predicate OneOf(r: Record, rs: seq<Record>) {
    exists j :: 0 <= j < |rs| && rs[j] == r
  }

  /** A second run over the same records, in any order or selection, changes nothing. */
  lemma RerunImportsNothing(src: Source, db: Db, rs: seq<Record>, again: seq<Record>)
    requires forall i :: 0 <= i < |again| ==> OneOf(again[i], rs)
    ensures var after := Fold(src, db, rs).db;
            Fold(src, after, again) == Progress(after, 0, |again|)
  {
    var after := Fold(src, db, rs).db;
    forall i | 0 <= i < |again|
      ensures Settled(src, after, again[i])
    {
      var j :| 0 <= j < |rs| && rs[j] == again[i];
      FoldSettles(src, db, rs, j);
    }
    NothingLeftToImport(src, after, again);
  }

  lemma {:induction false} FoldJoins(src: Source, db: Db, a: seq<Record>, b: seq<Record>)
    ensures Fold(src, db, a + b).db == Fold(src, Fold(src, db, a).db, b).db
  {
    if b == [] {
      assert a + b == a;
    } else {
      assert (a + b)[..|a + b| - 1] == a + b[..|b| - 1];
      FoldJoins(src, db, a, b[..|b| - 1]);
    }
  }

  lemma RerunIsIdle(src: Source, db: Db, rs: seq<Record>)
    ensures Fold(src, Fold(src, db, rs).db, rs).db == Fold(src, db, rs).db
  {
    forall i | 0 <= i < |rs|
      ensures OneOf(rs[i], rs)
    {
    }
    RerunImportsNothing(src, db, rs, rs);
  }

  lemma RerunAfterPrefix(src: Source, db: Db, a: seq<Record>, b: seq<Record>)
    ensures Fold(src, Fold(src, db, a).db, a + b).db == Fold(src, db, a + b).db
  {
    var half := Fold(src, db, a).db;
    RerunIsIdle(src, db, a);
    FoldJoins(src, half, a, b);
    FoldJoins(src, db, a, b);
  }

  /** Running again after an interruption anywhere ends where one whole run would have. */
  lemma RerunAfterInterruption(src: Source, db: Db, rs: seq<Record>, k: nat)
    requires k <= |rs|
    ensures Fold(src, Fold(src, db, rs[..k]).db, rs).db == Fold(src, db, rs).db
  {
    assert rs[..k] + rs[k..] == rs;
    RerunAfterPrefix(src, db, rs[..k], rs[k..]);
  }

  /**
    What a run leaves that got as far as record `n`: the counters and tables of the records before
    it, or, if a late commit is possible, the tables with that record imported as well.
   */
  ghost predicate Leaves(src: Source, db: Db, rs: seq<Record>, n: nat, late: bool, left: Progress)
    requires n <= |rs|
  {
    var p := Fold(src, db, rs[..n]);
    && left.imported == p.imported && left.skipped == p.skipped
    && (left.db == p.db
        || (late && n < |rs| && Imports(src, p.db, rs[n]) && left.db == Fold(src, db, rs[..n + 1]).db))
  }

  lemma LeavesRest(src: Source, db: Db, rs: seq<Record>, n: nat, late: bool, left: Progress)
    requires n <= |rs| && Leaves(src, db, rs, n, late, left)
    ensures Fold(src, left.db, rs).db == Fold(src, db, rs).db
  {
    RerunAfterInterruption(src, db, rs, n);
    if n < |rs| { RerunAfterInterruption(src, db, rs, n + 1); }
  }

  // ---------------------------------------------------------------- the script

  /** The two connections: `work` is the open transaction over the `committed` tables. */
  class Importer {
    const src: Source
    /** The statement at which an exception is raised, if any. */
    const failAt: int
    /** If that is a commit: whether it takes effect all the same, its acknowledgement lost. */
    const lateCommit: bool
    var committed: Db
    var work: Db
    var clock: nat
    var imported: nat
    var skipped: nat

    constructor (src: Source, db: Db, failAt: int, lateCommit: bool)
      ensures this.src == src && this.failAt == failAt && this.lateCommit == lateCommit
      ensures committed == work == db && clock == imported == skipped == 0
    {
      this.src, this.failAt, this.lateCommit := src, failAt, lateCommit;
      committed, work, clock, imported, skipped := db, db, 0, 0, 0;
    }

    /** One statement on either connection. */
    method Execute() returns (raised: bool)
      modifies this`clock
      ensures raised <==> old(clock) < failAt <= clock
      ensures clock == old(clock) + 1
    {
      clock := clock + 1;
      raised := clock == failAt;
    }

    /** connection.commit, which may raise before or after taking effect. */
    method Commit() returns (raised: bool)
      modifies this`clock, this`committed
      ensures raised <==> old(clock) < failAt <= clock
      ensures old(clock) <= clock
      ensures committed == if raised && !lateCommit then old(committed) else work
    {
      raised := Execute();
      if !raised || lateCommit {
        committed := work;
      }
    }

    /** executemany of a batch, duplicates ignored. */
    method Flush(r: Record, batch: seq<Msg>) returns (raised: bool)
      modifies this`clock, this`work
      ensures raised <==> old(clock) < failAt <= clock
      ensures old(clock) <= clock
      ensures !raised ==> work == old(work).(unread := old(work).unread + Rows(r, batch))
      ensures clock == old(clock) + 1
    {
      raised := Execute();
      if !raised {
        work := work.(unread := work.unread + Rows(r, batch));
      }
    }

    /** The unread messages, inserted 500 at a time and once more for the rest. */
    method InsertUnread(r: Record, messages: seq<Msg>) returns (raised: bool)
      modifies this`clock, this`work
      ensures raised <==> old(clock) < failAt <= clock
      ensures old(clock) <= clock
      ensures !raised ==> work == old(work).(unread := old(work).unread + Rows(r, messages))
      ensures !raised ==> clock == old(clock) + (|messages| + 499) / 500
    {
      var batch: seq<Msg> := [];
      var i := 0;
      raised := false;
      while i < |messages|
        invariant 0 <= i <= |messages| && |batch| == i % 500
        invariant clock == old(clock) + i / 500 && !(old(clock) < failAt <= clock)
        invariant work == old(work).(unread := work.unread)
        invariant work.unread + Rows(r, batch) == old(work).unread + Rows(r, messages[..i])
      {
        ghost var before := batch;
        batch := batch + [messages[i]];
        assert batch[..|before|] == before && messages[..i + 1][..i] == messages[..i];
        i := i + 1;
        if |batch| == FLUSH {
          raised := Flush(r, batch);
          if raised {
            return;
          }
          batch := [];
        }
      }
      assert messages[..|messages|] == messages;
      if batch != [] {
        raised := Flush(r, batch);
      }
    }

    /** connection.rollback. */
    method Rollback() returns (raised: bool)
      modifies this`clock, this`work
      ensures raised <==> old(clock) < failAt <= clock
      ensures old(clock) <= clock
      ensures work == if raised then old(work) else committed
    {
      raised := Execute();
      if !raised {
        work := committed;
      }
    }

    /** The row, its unread messages and their count, in the open transaction. */
    method InsertConversation(r: Record) returns (raised: bool)
      requires Imports(src, work, r)
      modifies this`clock, this`work
      ensures raised <==> old(clock) < failAt <= clock
      ensures old(clock) <= clock
      ensures !raised ==> work == ImportOne(src, old(work), r)
    {
      ghost var filled := work.(unread := work.unread + Rows(r, Select(src.messages, src, r)));
      work := work.(conversations := work.conversations[KeyOf(r) := NewRow(src, r, 0)]);
      raised := InsertUnread(r, Select(src.messages, src, r));
      if raised { return; }
      raised := Execute();
      if raised { return; }
      work := work.(conversations := work.conversations[KeyOf(r) :=
                      work.conversations[KeyOf(r)].(unreadCount := |RowsOf(work, KeyOf(r))|)]);
      assert RowsOf(filled, KeyOf(r)) == RowsOf(work, KeyOf(r));
    }

    /** The body of the loop over records. */
    method ImportRecord(r: Record) returns (raised: bool)
      requires work == committed
      modifies this
      ensures raised <==> old(clock) < failAt <= clock
      ensures old(clock) <= clock
      ensures raised ==> imported == old(imported) && skipped == old(skipped)
      ensures raised ==> committed == old(committed)
                         || (lateCommit && Imports(src, old(committed), r) && committed == ImportOne(src, old(committed), r))
      ensures !raised ==> work == committed == ImportOne(src, old(committed), r)
      ensures !raised ==> if Imports(src, old(committed), r)
                          then imported == old(imported) + 1 && skipped == old(skipped)
                          else imported == old(imported) && skipped == old(skipped) + 1
    {
      raised := Execute();
      if raised { return; }
      if r.conversation != PairId(r.owner, r.peer) || r.owner == r.peer {
        skipped := skipped + 1;
        return;
      }
      raised := Execute();
      if raised { return; }
      if (r.owner, r.peer) !in src.friends || (r.peer, r.owner) !in src.friends {
        raised := Rollback();
        if raised { return; }
        skipped := skipped + 1;
        return;
      }
      raised := Execute();
      if raised { return; }
      raised := Execute();
      if raised { return; }
      if KeyOf(r) in work.conversations {
        raised := Rollback();
        if raised { return; }
        skipped := skipped + 1;
        return;
      }
      raised := InsertConversation(r);
      if raised { return; }
      raised := Commit();
      if raised { return; }
      imported := imported + 1;
    }

    /**
      migrate. A run that ends normally leaves the fold of all records. An exception while
      record `n` is imported is rolled back: the counters are those of the records before it,
      and so are the tables, unless it was the commit itself whose acknowledgement was lost;
      then that record, too, is there whole. However it ends, importing all the records again
      from the tables it leaves ends where one whole run would have.
     */
    method Migrate(records: seq<Record>) returns (raised: bool, ghost n: nat)
      requires work == committed && imported == skipped == 0
      modifies this
      ensures n <= |records| && (raised <==> n < |records|)
      ensures raised <==> old(clock) < failAt <= clock
      ensures old(clock) <= clock
      ensures work == committed
      ensures Leaves(src, old(committed), records, n, raised && lateCommit, Progress(committed, imported, skipped))
      ensures Fold(src, committed, records).db == Fold(src, old(committed), records).db
    {
      n, raised := 0, false;
      var i := 0;
      while i < |records|
        invariant 0 <= i <= |records| && n == i && work == committed
        invariant old(clock) <= clock && !(old(clock) < failAt <= clock)
        invariant Progress(committed, imported, skipped) == Fold(src, old(committed), records[..i])
      {
        raised := ImportRecord(records[i]);
        FoldNext(src, old(committed), records, i);
        if raised {
          work := committed;
          LeavesRest(src, old(committed), records, n, lateCommit, Progress(committed, imported, skipped));
          return true, n;
        }
        i := i + 1;
        n := i;
      }
      raised := false;
      LeavesRest(src, old(committed), records, n, false, Progress(committed, imported, skipped));
    }
  }
}
