/** What every run of the offline queue keeps, and where its drains end. */
module OfflineQueueLaws {
  import opened Wrappers
  import opened OfflineQueue

  function Count(log: seq<Sent>, id: Id, accepted: bool): nat {
    if log == [] then 0
    else
      var n := |log| - 1;
      Count(log[..n], id, accepted) + (if log[n].row.id == id && log[n].accepted == accepted then 1 else 0)
  }

  lemma CountAppend(log: seq<Sent>, s: Sent, id: Id, accepted: bool)
    ensures Count(log + [s], id, accepted) == Count(log, id, accepted)
        + (if s.row.id == id && s.accepted == accepted then 1 else 0)
  {
    assert (log + [s])[..|log|] == log;
  }

  // --------------------------------------------------------------- the invariant

  ghost predicate RowFits(d: Device, k: Id, row: Row) {
    && k in d.ever && row.id == k
    && row.createdAt == d.ever[k].createdAt && row.payload == d.ever[k].payload
    && row.attempts == Count(d.log, k, false) <= 5
    && Count(d.log, k, true) == 0
  }

  // The table agrees with the log: a row counts its own refusals, no row waits that
  // was accepted, and every row missing was cancelled or accepted.
  ghost predicate Agrees(d: Device) {
    && Keyed(d.rows) && Keyed(d.ever)
    && (forall k | k in d.rows :: RowFits(d, k, d.rows[k]))
    && (forall k | k in d.ever && k !in d.rows :: k in d.cancelled || Count(d.log, k, true) == 1)
    && (forall k | k in d.cancelled :: k in d.ever && k !in d.rows && d.cancelled[k] <= |d.log|)
    && (forall j | 0 <= j < |d.log| ::
          d.log[j].row.id in d.ever && d.log[j].row.createdAt == d.ever[d.log[j].row.id].createdAt)
  }

  // Every row queued has its place among them.
  ghost predicate Ranked(d: Device) {
    d.rank.Keys == d.ever.Keys && forall k | k in d.rank :: d.rank[k] < |d.ever|
  }

  // No mutation reaches the server more than five times, nor again once accepted.
  ghost predicate FewTries(d: Device) {
    forall k: Id ::
      && Count(d.log, k, true) <= 1
      && Count(d.log, k, false) + Count(d.log, k, true) <= 5
      && (k !in d.ever ==> Count(d.log, k, false) == 0 && Count(d.log, k, true) == 0)
  }

  // Row a was cancelled, accepted or exhausted before request j was answered.
  ghost predicate Cleared(d: Device, a: Id, j: nat)
    requires j <= |d.log|
  {
    || (a in d.cancelled && d.cancelled[a] <= j)
    || Count(d.log[..j], a, true) == 1
    || Count(d.log[..j], a, false) == 5
  }

  // Row a was queued before b, and stands before it in the index.
  predicate Precedes(d: Device, a: Id, b: Id) {
    a in d.rank && b in d.rank && a in d.ever && b in d.ever && d.rank[a] < d.rank[b] && Ahead(d.ever[a], d.ever[b])
  }

  // First in, first out: whatever precedes an accepted mutation was out of the way
  // by then.
  ghost predicate Fifo(d: Device) {
    forall j, a | 0 <= j < |d.log| && d.log[j].accepted && Precedes(d, a, d.log[j].row.id) :: Cleared(d, a, j)
  }

  // What holds of the part of a snapshot that a drain has yet to visit. A row in it
  // may have been cancelled since.
  ghost predicate Waiting(d: Device, pending: seq<Row>) {
    && (forall i | 0 <= i < |pending| :: RowFits(d, pending[i].id, pending[i]))
    && (forall i, j | 0 <= i < j < |pending| :: Ahead(pending[i], pending[j]))
    && (forall i, a | 0 <= i < |pending| && Precedes(d, a, pending[i].id) ::
          Cleared(d, a, |d.log|) || exists j | 0 <= j < i :: pending[j].id == a)
  }

  ghost predicate Inv(d: Device, pending: seq<Row>) {
    Agrees(d) && Ranked(d) && FewTries(d) && Fifo(d) && Waiting(d, pending)
  }

  // -------------------------------------------------------------- edits keep it

  lemma EnqueueKeepsAgreement(d: Device, id: Id, payload: Payload, now: int)
    requires Agrees(d) && FewTries(d) && id !in d.ever
    ensures Agrees(Edited(d, Enqueue(id, payload, now)))
  {
    hide Count;
    var d' := Edited(d, Enqueue(id, payload, now));
    assert Count(d.log, id, true) <= 1;
    forall k | k in d'.rows ensures RowFits(d', k, d'.rows[k]) {
      if k != id { assert RowFits(d, k, d.rows[k]); }
    }
    assert id !in d.cancelled;
  }

  lemma CancelKeepsAgreement(d: Device, id: Id)
    requires Agrees(d)
    ensures Agrees(Edited(d, Cancel(id)))
  {
    hide Count;
    var d' := Edited(d, Cancel(id));
    forall k | k in d'.rows ensures RowFits(d', k, d'.rows[k]) {
      assert RowFits(d, k, d.rows[k]);
    }
  }

  lemma EditKeepsAgreement(d: Device, e: Edit)
    requires Agrees(d) && FewTries(d)
    ensures Agrees(Edited(d, e))
  {
    hide Agrees, FewTries;
    match e {
      case Enqueue(id, payload, now) => if id !in d.ever { EnqueueKeepsAgreement(d, id, payload, now); }
      case Cancel(id) => CancelKeepsAgreement(d, id);
      case DrainAgain =>
    }
  }

  lemma EditKeepsTries(d: Device, e: Edit)
    requires FewTries(d)
    ensures FewTries(Edited(d, e))
  {
    hide Count;
  }

  lemma ClearedStays(d: Device, e: Edit, a: Id, j: nat)
    requires Agrees(d) && j <= |d.log| && Cleared(d, a, j)
    ensures Cleared(Edited(d, e), a, j)
  {
    hide Count;
  }

  // A row queued now precedes none that was queued before.
  lemma NewRowIsLast(d: Device, e: Edit, a: Id, b: Id)
    requires Ranked(d) && b in d.ever && Precedes(Edited(d, e), a, b)
    ensures Precedes(d, a, b)
  {
  }

  lemma EditKeepsRanks(d: Device, e: Edit)
    requires Ranked(d)
    ensures Ranked(Edited(d, e))
  {
  }

  lemma EditKeepsFifo(d: Device, e: Edit)
    requires Agrees(d) && Ranked(d) && Fifo(d)
    ensures Fifo(Edited(d, e))
  {
    hide Count, Cleared;
    var d' := Edited(d, e);
    forall j, a | 0 <= j < |d'.log| && d'.log[j].accepted && Precedes(d', a, d'.log[j].row.id)
      ensures Cleared(d', a, j)
    {
      assert d.log[j].row.id in d.ever;
      NewRowIsLast(d, e, a, d.log[j].row.id);
      ClearedStays(d, e, a, j);
    }
  }

  lemma FitsStays(d: Device, e: Edit, row: Row)
    requires RowFits(d, row.id, row)
    ensures RowFits(Edited(d, e), row.id, row) && row.id in d.ever
  {
  }

  lemma EditKeepsLog(d: Device, e: Edit)
    ensures Edited(d, e).log == d.log
  {
  }

  lemma EditKeepsWaiting(d: Device, e: Edit, pending: seq<Row>)
    requires Agrees(d) && Ranked(d) && Waiting(d, pending)
    ensures Waiting(Edited(d, e), pending)
  {
    hide RowFits, Cleared, Edited, Precedes, Agrees, Ranked;
    var d' := Edited(d, e);
    forall i | 0 <= i < |pending| ensures RowFits(d', pending[i].id, pending[i]) {
      FitsStays(d, e, pending[i]);
    }
    EditKeepsLog(d, e);
    forall i, a | 0 <= i < |pending| && Precedes(d', a, pending[i].id)
      ensures Cleared(d', a, |d'.log|) || exists j | 0 <= j < i :: pending[j].id == a
    {
      FitsStays(d, e, pending[i]);
      NewRowIsLast(d, e, a, pending[i].id);
      if Cleared(d, a, |d.log|) { ClearedStays(d, e, a, |d.log|); }
    }
  }

  lemma EditKeeps(d: Device, e: Edit, pending: seq<Row>)
    requires Inv(d, pending)
    ensures Inv(Edited(d, e), pending)
  {
    hide Agrees, Ranked, FewTries, Fifo, Waiting;
    EditKeepsAgreement(d, e);
    EditKeepsRanks(d, e);
    EditKeepsTries(d, e);
    EditKeepsWaiting(d, e, pending);
    EditKeepsFifo(d, e);
  }

  lemma {:induction false} EditsKeep(d: Device, edits: seq<Edit>, pending: seq<Row>)
    requires Inv(d, pending)
    ensures Inv(EditedAll(d, edits), pending)
    decreases |edits|
  {
    hide Inv;
    if edits != [] {
      EditKeeps(d, edits[0], pending);
      EditsKeep(Edited(d, edits[0]), edits[1..], pending);
    }
  }

  // -------------------------------------------------------------- replies keep it

  lemma SettleKeepsAgreement(d: Device, row: Row, reply: Reply)
    requires Agrees(d) && FewTries(d) && RowFits(d, row.id, row) && row.attempts < 5
    ensures Agrees(Settle(d, row, reply)) && FewTries(Settle(d, row, reply))
  {
    hide Count;
    var d', s := Settle(d, row, reply), Sent(row, reply.Accepted?);
    forall k, b ensures Count(d'.log, k, b) == Count(d.log, k, b)
        + (if row.id == k && reply.Accepted? == b then 1 else 0) {
      CountAppend(d.log, s, k, b);
    }
  }

  lemma ClearedLater(d: Device, row: Row, reply: Reply, a: Id, j: nat)
    requires j <= |d.log| && Cleared(d, a, j)
    ensures Cleared(Settle(d, row, reply), a, j)
  {
    hide Count;
    assert Settle(d, row, reply).log[..j] == d.log[..j];
  }

  lemma ClearedOneLater(d: Device, row: Row, reply: Reply, a: Id)
    requires Agrees(d) && FewTries(d) && RowFits(d, row.id, row) && row.attempts < 5
    requires Cleared(d, a, |d.log|)
    ensures var d' := Settle(d, row, reply); Cleared(d', a, |d'.log|)
  {
    hide Count;
    var d', s := Settle(d, row, reply), Sent(row, reply.Accepted?);
    SettleKeepsAgreement(d, row, reply);
    assert d.log[..|d.log|] == d.log && d'.log[..|d'.log|] == d'.log;
    CountAppend(d.log, s, a, true);
    CountAppend(d.log, s, a, false);
  }

  lemma SettleKeepsFifo(d: Device, pending: seq<Row>, reply: Reply)
    requires pending != [] && Agrees(d) && Fifo(d) && Waiting(d, pending)
    ensures Fifo(Settle(d, pending[0], reply))
  {
    hide Count, Cleared;
    var d' := Settle(d, pending[0], reply);
    forall j, a | 0 <= j < |d'.log| && d'.log[j].accepted && Precedes(d', a, d'.log[j].row.id)
      ensures Cleared(d', a, j)
    {
      if j < |d.log| { assert d'.log[j] == d.log[j]; }
      assert Cleared(d, a, j);
      ClearedLater(d, pending[0], reply, a, j);
    }
  }

  lemma AcceptedIsCleared(d: Device, pending: seq<Row>)
    requires pending != [] && FewTries(d) && RowFits(d, pending[0].id, pending[0])
    ensures var d' := Settle(d, pending[0], Accepted); Cleared(d', pending[0].id, |d'.log|)
  {
    hide Count;
    var d' := Settle(d, pending[0], Accepted);
    assert d'.log[..|d'.log|] == d'.log;
    CountAppend(d.log, Sent(pending[0], true), pending[0].id, true);
  }

  lemma AcceptKeepsWaiting(d: Device, pending: seq<Row>)
    requires pending != [] && Agrees(d) && FewTries(d) && Waiting(d, pending) && pending[0].attempts < 5
    ensures Waiting(Settle(d, pending[0], Accepted), pending[1..])
  {
    hide Count, Cleared;
    var d', rest, s := Settle(d, pending[0], Accepted), pending[1..], Sent(pending[0], true);
    assert RowFits(d, pending[0].id, pending[0]);
    forall i | 0 <= i < |rest| ensures RowFits(d', rest[i].id, rest[i]) {
      assert RowFits(d, rest[i].id, rest[i]) && Ahead(pending[0], pending[i + 1]);
      RowsStayDistinct(d, pending[0], rest[i]);
      CountAppend(d.log, s, rest[i].id, true);
      CountAppend(d.log, s, rest[i].id, false);
    }
    forall i, a | 0 <= i < |rest| && Precedes(d', a, rest[i].id)
      ensures Cleared(d', a, |d'.log|) || exists j | 0 <= j < i :: rest[j].id == a
    {
      assert Precedes(d, a, pending[i + 1].id);
      if Cleared(d, a, |d.log|) {
        ClearedOneLater(d, pending[0], Accepted, a);
      } else {
        var j :| 0 <= j < i + 1 && pending[j].id == a;
        if j == 0 { AcceptedIsCleared(d, pending); } else { assert rest[j - 1].id == a; }
      }
    }
  }

  // Two rows of one listing have different ids.
  lemma RowsStayDistinct(d: Device, a: Row, b: Row)
    requires RowFits(d, a.id, a) && RowFits(d, b.id, b) && Ahead(a, b)
    ensures a.id != b.id
  {
  }

  lemma SettleKeeps(d: Device, pending: seq<Row>, reply: Reply)
    requires pending != [] && Inv(d, pending) && pending[0].attempts < 5
    ensures Inv(Settle(d, pending[0], reply), if reply.Accepted? then pending[1..] else [])
  {
    hide Agrees, FewTries, Fifo, RowFits;
    assert RowFits(d, pending[0].id, pending[0]);
    SettleKeepsAgreement(d, pending[0], reply);
    SettleKeepsFifo(d, pending, reply);
    if reply.Accepted? { AcceptKeepsWaiting(d, pending); }
  }

  // An exhausted row is passed over.
  lemma SkipKeeps(d: Device, pending: seq<Row>)
    requires pending != [] && Inv(d, pending) && pending[0].attempts >= 5
    ensures Inv(d, pending[1..])
  {
    hide Agrees, FewTries, Fifo, Count;
    assert RowFits(d, pending[0].id, pending[0]);
    var rest := pending[1..];
    forall i, a | 0 <= i < |rest| && Precedes(d, a, rest[i].id)
      ensures Cleared(d, a, |d.log|) || exists j | 0 <= j < i :: rest[j].id == a
    {
      assert Precedes(d, a, pending[i + 1].id);
      if !Cleared(d, a, |d.log|) {
        var j :| 0 <= j < i + 1 && pending[j].id == a;
        assert d.log[..|d.log|] == d.log;
        assert j > 0;
        assert rest[j - 1].id == a;
      }
    }
  }

  lemma {:induction false} ReplayKeeps(w: World, pending: seq<Row>, d: Device, s: Summary)
    requires Inv(d, pending)
    ensures Inv(ReplayFrom(w, pending, d, s).0, [])
    decreases |pending|
  {
    hide Inv, Settle, EditedAll;
    if pending == [] {
    } else if pending[0].attempts >= 5 {
      SkipKeeps(d, pending);
      ReplayKeeps(w, pending[1..], d, s.(failed := s.failed + 1));
    } else {
      var n := |d.log|;
      var edited := EditedAll(d, w.meanwhile(n));
      EditsKeep(d, w.meanwhile(n), pending);
      SettleKeeps(edited, pending, w.reply(n));
      if w.reply(n).Accepted? {
        ReplayKeeps(w, pending[1..], Settle(edited, pending[0], w.reply(n)), s.(replayed := s.replayed + 1));
      }
    }
  }

  // ------------------------------------------------------------------ the listing

  ghost predicate Lists(rows: map<Id, Row>, l: seq<Row>) {
    && (forall r :: r in l <==> r.id in rows && rows[r.id] == r)
    && (forall i, j | 0 <= i < j < |l| :: Ahead(l[i], l[j]))
  }

  lemma FirstThenRest(rows: map<Id, Row>, k: Id, rest: seq<Row>)
    requires Keyed(rows) && k in rows && IsFirst(rows, k) && Lists(rows - {k}, rest)
    ensures Lists(rows, [rows[k]] + rest)
  {
    var l := [rows[k]] + rest;
    forall i, j | 0 <= i < j < |l| ensures Ahead(l[i], l[j]) {
      if i == 0 { assert rest[j - 1] in rest; }
    }
  }

  /** The listing holds exactly the table's rows, in index order. */
  lemma {:induction false} ListingIsTheTable(rows: map<Id, Row>)
    requires Keyed(rows)
    ensures Lists(rows, Listing(rows))
    decreases |rows|
  {
    if rows != map[] {
      FirstExists(rows);
      var k :| k in rows && IsFirst(rows, k);
      assert |(rows - {k}).Keys| == |rows.Keys - {k}|;
      ListingIsTheTable(rows - {k});
      assert Listing(rows) == [rows[k]] + Listing(rows - {k});
      hide Lists;
      FirstThenRest(rows, k, Listing(rows - {k}));
    }
  }

  // A row queued earlier than a listed one is listed ahead of it, or cleared.
  lemma EarlierIsAhead(d: Device, pending: seq<Row>, i: nat, a: Id)
    requires Agrees(d) && Lists(d.rows, pending)
    requires i < |pending| && Precedes(d, a, pending[i].id)
    ensures Cleared(d, a, |d.log|) || exists j | 0 <= j < i :: pending[j].id == a
  {
    hide Count;
    assert d.log[..|d.log|] == d.log;
    if a in d.rows {
      assert RowFits(d, a, d.rows[a]) && d.rows[a] in pending && pending[i] in pending;
      assert RowFits(d, pending[i].id, pending[i]);
      assert Ahead(d.rows[a], pending[i]);
      var j :| 0 <= j < |pending| && pending[j] == d.rows[a];
    }
  }

  lemma StartKeeps(d: Device)
    requires Inv(d, [])
    ensures Inv(d, Listing(d.rows))
  {
    hide Listing, Count, Cleared, FewTries, Fifo;
    ListingIsTheTable(d.rows);
    var pending := Listing(d.rows);
    forall i | 0 <= i < |pending| ensures RowFits(d, pending[i].id, pending[i]) {
      assert pending[i] in pending;
    }
    forall i, a | 0 <= i < |pending| && Precedes(d, a, pending[i].id)
      ensures Cleared(d, a, |d.log|) || exists j | 0 <= j < i :: pending[j].id == a
    {
      EarlierIsAhead(d, pending, i, a);
    }
  }

  // ------------------------------------------------------------------ whole runs

  datatype Action = Do(edit: Edit) | DrainNow

  function Run(w: World, actions: seq<Action>): (d: Device)
    ensures Keyed(d.rows)
  {
    if actions == [] then EMPTY
    else
      var n := |actions| - 1;
      var d := Run(w, actions[..n]);
      if actions[n].Do? then Edited(d, actions[n].edit) else Drain(w, d).0
  }

  lemma {:induction false} EveryRunKeeps(w: World, actions: seq<Action>)
    ensures Inv(Run(w, actions), [])
  {
    hide Edited, ReplayFrom, Listing;
    if actions != [] {
      var n := |actions| - 1;
      var d := Run(w, actions[..n]);
      EveryRunKeeps(w, actions[..n]);
      if actions[n].Do? {
        EditKeeps(d, actions[n].edit, []);
      } else {
        StartKeeps(d);
        ReplayKeeps(w, Listing(d.rows), d, Summary(0, 0));
      }
    }
  }

  /** Whatever is queued and cancelled meanwhile, a mutation reaches the server at
      most five times, is accepted at most once, and is never lost: it waits with
      its refusals counted, was cancelled, or was accepted. */
  lemma NothingLostNorRepeated(w: World, actions: seq<Action>, k: Id)
    ensures var d := Run(w, actions);
            && Count(d.log, k, true) <= 1 && Count(d.log, k, false) + Count(d.log, k, true) <= 5
            && (k in d.rows ==>
                  d.rows[k].attempts == Count(d.log, k, false) && Count(d.log, k, true) == 0 && k !in d.cancelled)
            && (k in d.ever ==> k in d.rows || k in d.cancelled || Count(d.log, k, true) == 1)
  {
    hide Run, Count;
    EveryRunKeeps(w, actions);
  }

  /** First in, first out, for the rows the index orders as they were queued: a
      mutation is accepted only when everything that precedes it has been cancelled,
      accepted or exhausted. */
  lemma FirstInFirstOut(w: World, actions: seq<Action>, j: nat, a: Id)
    requires var d := Run(w, actions); j < |d.log| && d.log[j].accepted && Precedes(d, a, d.log[j].row.id)
    ensures Cleared(Run(w, actions), a, j)
  {
    hide Run, Cleared;
    EveryRunKeeps(w, actions);
  }

  const CALM := World(n => Accepted, n => [])

  lemma RunStep(w: World, front: seq<Action>, last: Action)
    ensures Run(w, front + [last]) == if last.Do? then Edited(Run(w, front), last.edit) else Drain(w, Run(w, front)).0
  {
    assert (front + [last])[..|front|] == front;
  }

  lemma ListingOfTwo(a: Row, b: Row)
    requires Ahead(a, b) && a.id != b.id
    ensures Listing(map[a.id := a, b.id := b]) == [a, b]
  {
    var rows := map[a.id := a, b.id := b];
    ListingIsTheTable(rows);
    assert rows.Keys == {a.id, b.id};
    var l := Listing(rows);
    assert |l| == |rows.Keys| == 2;
    assert l[0] in l && l[1] in l && Ahead(l[0], l[1]);
  }

  lemma RunOfNone(w: World)
    ensures Run(w, []) == EMPTY
  {
  }

  lemma ReplayOfNone(w: World, d: Device, s: Summary)
    ensures ReplayFrom(w, [], d, s) == (d, s)
  {
  }

  lemma CalmReplay(pending: seq<Row>, d: Device, s: Summary)
    requires pending != [] && pending[0].attempts == 0
    ensures ReplayFrom(CALM, pending, d, s)
        == ReplayFrom(CALM, pending[1..], Settle(d, pending[0], Accepted), s.(replayed := s.replayed + 1))
  {
  }

  lemma CalmDrainOfTwo(d: Device, a: Row, b: Row)
    requires Ahead(a, b) && a.id != b.id && a.attempts == b.attempts == 0 && d.rows == map[a.id := a, b.id := b]
    ensures var r := Drain(CALM, d).0;
            r.log == d.log + [Sent(a, true), Sent(b, true)] && r.ever == d.ever && r.rank == d.rank
                && r.cancelled == d.cancelled
  {
    hide Listing, ReplayFrom;
    ListingOfTwo(a, b);
    var once := Settle(d, a, Accepted);
    var twice := Settle(once, b, Accepted);
    CalmReplay([a, b], d, Summary(0, 0));
    assert [a, b][1..] == [b] && [b][1..] == [];
    CalmReplay([b], once, Summary(1, 0));
    ReplayOfNone(CALM, twice, Summary(2, 0));
  }

  // The rows a and b were queued in this order at these times.
  predicate QueuedThus(d: Device, a: Id, at: int, b: Id, bt: int) {
    && a in d.ever && b in d.ever && a in d.rank && b in d.rank && d.rank[a] < d.rank[b]
    && d.ever[a].createdAt == at && d.ever[b].createdAt == bt
  }

  // Request j accepted b while a was still waiting with attempts left.
  ghost predicate OvertakesAt(d: Device, a: Id, b: Id, j: nat) {
    j < |d.log| && d.log[j].accepted && d.log[j].row.id == b && !Cleared(d, a, j)
  }

  // Whatever else happens, b is never accepted while a waits.
  ghost predicate InTurn(a: Id, at: int, b: Id, bt: int) {
    forall w, actions: seq<Action>, j: nat ::
      QueuedThus(Run(w, actions), a, at, b, bt) ==> !OvertakesAt(Run(w, actions), a, b, j)
  }

  /** Exactly when the queue is first in, first out for two mutations, a queued
      before b: when the index puts a first, by the clock and then by the random ids.
      A clock that went back, or a draw within one millisecond, lets b overtake. */
  lemma FirstInFirstOutIffAhead(a: Id, at: int, b: Id, bt: int)
    requires a != b
    ensures InTurn(a, at, b, bt) <==> at < bt || (at == bt && a < b)
  {
    hide Run, Cleared;
    if at < bt || (at == bt && a < b) {
      forall w, actions: seq<Action>, j: nat | QueuedThus(Run(w, actions), a, at, b, bt)
        ensures !OvertakesAt(Run(w, actions), a, b, j)
      {
        EveryRunKeeps(w, actions);
      }
    } else {
      var actions := Overtaken(a, at, b, bt);
      assert OvertakesAt(Run(CALM, actions), a, b, 0);
    }
  }

  lemma Overtaken(a: Id, at: int, b: Id, bt: int) returns (actions: seq<Action>)
    requires a != b && (bt < at || (bt == at && b < a))
    ensures QueuedThus(Run(CALM, actions), a, at, b, bt) && OvertakesAt(Run(CALM, actions), a, b, 0)
  {
    hide Listing, ReplayFrom, Run, Drain;
    var payload := PreferencesPatch("");
    var one, two := Do(Enqueue(a, payload, at)), Do(Enqueue(b, payload, bt));
    actions := [one, two, DrainNow];
    assert [] + [one] == [one] && [one] + [two] == [one, two] && [one, two] + [DrainNow] == actions;
    RunOfNone(CALM);
    RunStep(CALM, [], one);
    RunStep(CALM, [one], two);
    RunStep(CALM, [one, two], DrainNow);
    var d := Run(CALM, [one, two]);
    var first, second := Row(a, payload, at, 0, None), Row(b, payload, bt, 0, None);
    assert d.rows == map[b := second, a := first];
    CalmDrainOfTwo(d, second, first);
    assert Run(CALM, actions).log[..0] == [];
  }

  // ------------------------------------------------- what one drain does, exactly

  function Eligible(pending: seq<Row>): seq<Row> {
    if pending == [] then []
    else (if pending[0].attempts < 5 then [pending[0]] else []) + Eligible(pending[1..])
  }

  // What reaches the server when the first k rows are accepted and the next is not.
  function Sends(e: seq<Row>, k: nat): seq<Sent>
    requires k <= |e|
  {
    if e == [] then []
    else if k == 0 then [Sent(e[0], false)]
    else [Sent(e[0], true)] + Sends(e[1..], k - 1)
  }

  // The first n..n+k replies are acceptances and the one after, if asked for, is not.
  ghost predicate FirstRefusal(w: World, n: nat, k: nat, asked: bool) {
    (forall i | n <= i < n + k :: w.reply(i).Accepted?) && (asked ==> w.reply(n + k).Refused?)
  }

  lemma {:induction false} EligibleAtMost(pending: seq<Row>)
    ensures |Eligible(pending)| <= |pending|
  {
    if pending != [] { EligibleAtMost(pending[1..]); }
  }

  // The request for the head row and the write that follows it.
  function HeadSettled(w: World, pending: seq<Row>, d: Device): Device
    requires pending != []
  {
    Settle(EditedAll(d, w.meanwhile(|d.log|)), pending[0], w.reply(|d.log|))
  }

  lemma HeadIsLogged(w: World, pending: seq<Row>, d: Device)
    requires pending != []
    ensures HeadSettled(w, pending, d).log == d.log + [Sent(pending[0], w.reply(|d.log|).Accepted?)]
  {
    LogSurvivesEdits(d, w.meanwhile(|d.log|));
  }

  /** A drain sends the eligible rows in order and stops at the first refusal: k rows
      are accepted and counted as replayed, and at most one is refused. It reports a
      failure exactly when a row was refused or an exhausted one was passed over. */
  lemma {:induction false} DrainSendsInOrder(w: World, pending: seq<Row>, d: Device, s: Summary) returns (k: nat)
    ensures var r, e := ReplayFrom(w, pending, d, s), Eligible(pending);
            && k <= |e| <= |pending| && r.1.replayed == s.replayed + k
            && r.0.log == d.log + Sends(e, k)
            && FirstRefusal(w, |d.log|, k, k < |e|)
            && (k == |e| ==> r.1.failed == s.failed + |pending| - |e|)
            && (k < |e| ==> r.1.failed > s.failed)
    decreases |pending|
  {
    EligibleAtMost(pending);
    if pending == [] {
      k := 0;
      assert d.log + [] == d.log;
    } else if pending[0].attempts >= 5 {
      assert Eligible(pending) == Eligible(pending[1..]);
      k := DrainSendsInOrder(w, pending[1..], d, s.(failed := s.failed + 1));
    } else {
      k := EligibleHeadSends(w, pending, d, s);
    }
  }

  lemma {:induction false} EligibleHeadSends(w: World, pending: seq<Row>, d: Device, s: Summary) returns (k: nat)
    requires pending != [] && pending[0].attempts < 5
    ensures var r, e := ReplayFrom(w, pending, d, s), Eligible(pending);
            && k <= |e| && r.1.replayed == s.replayed + k
            && r.0.log == d.log + Sends(e, k)
            && FirstRefusal(w, |d.log|, k, k < |e|)
            && (k == |e| ==> r.1.failed == s.failed + |pending| - |e|)
            && (k < |e| ==> r.1.failed > s.failed)
    decreases |pending|, 0
  {
    hide EditedAll, Settle;
    var n, settled := |d.log|, HeadSettled(w, pending, d);
    HeadIsLogged(w, pending, d);
    var e := Eligible(pending);
    assert e == [pending[0]] + Eligible(pending[1..]) && e[1..] == Eligible(pending[1..]);
    if w.reply(n).Accepted? {
      assert ReplayFrom(w, pending, d, s) == ReplayFrom(w, pending[1..], settled, s.(replayed := s.replayed + 1));
      hide ReplayFrom, Eligible, HeadSettled;
      var rest := DrainSendsInOrder(w, pending[1..], settled, s.(replayed := s.replayed + 1));
      k := rest + 1;
      assert Sends(e, k) == [Sent(e[0], true)] + Sends(e[1..], rest);
    } else {
      k := 0;
    }
  }

  // ------------------------------------------- edits during a drain, or after it

  // The same world with nothing happening while requests are in flight.
  function Quiet(w: World): World {
    w.(meanwhile := n => [])
  }

  // Equal but for when cancellations were counted.
  predicate Same(a: Device, b: Device) {
    a.rows == b.rows && a.log == b.log && a.ever == b.ever && a.rank == b.rank
  }

  lemma {:induction false} SameEdits(a: Device, b: Device, edits: seq<Edit>)
    requires Same(a, b)
    ensures Same(EditedAll(a, edits), EditedAll(b, edits))
    decreases |edits|
  {
    if edits != [] { SameEdits(Edited(a, edits[0]), Edited(b, edits[0]), edits[1..]); }
  }

  lemma {:induction false} SameReplays(w: World, pending: seq<Row>, a: Device, b: Device, s: Summary)
    requires Same(a, b)
    ensures var x, y := ReplayFrom(w, pending, a, s), ReplayFrom(w, pending, b, s);
            Same(x.0, y.0) && x.1 == y.1
    decreases |pending|
  {
    hide EditedAll;
    if pending == [] {
    } else if pending[0].attempts >= 5 {
      SameReplays(w, pending[1..], a, b, s.(failed := s.failed + 1));
    } else {
      SameEdits(a, b, w.meanwhile(|a.log|));
      SameReplays(w, pending[1..], HeadSettled(w, pending, a), HeadSettled(w, pending, b),
                  s.(replayed := s.replayed + 1));
    }
  }

  lemma EditPastReply(d: Device, e: Edit, row: Row, reply: Reply)
    requires row.id in d.ever
    ensures Same(Settle(Edited(d, e), row, reply), Edited(Settle(d, row, reply), e))
  {
    if e.Enqueue? && e.id !in d.ever && reply.Refused? && row.id in d.rows {
      assert Settle(Edited(d, e), row, reply).rows == Edited(Settle(d, row, reply), e).rows;
    }
  }

  lemma {:induction false} EditsPastReply(d: Device, edits: seq<Edit>, row: Row, reply: Reply)
    requires row.id in d.ever
    ensures Same(Settle(EditedAll(d, edits), row, reply), EditedAll(Settle(d, row, reply), edits))
    decreases |edits|
  {
    hide Settle, Edited;
    if edits != [] {
      assert row.id in Edited(d, edits[0]).ever by { EditKeepsIds(d, edits[0], row.id); }
      EditsPastReply(Edited(d, edits[0]), edits[1..], row, reply);
      EditPastReply(d, edits[0], row, reply);
      SameEdits(Settle(Edited(d, edits[0]), row, reply), Edited(Settle(d, row, reply), edits[0]), edits[1..]);
    }
  }

  lemma EditKeepsIds(d: Device, e: Edit, id: Id)
    requires id in d.ever
    ensures id in Edited(d, e).ever
  {
  }

  lemma {:induction false} EditsKeepIds(d: Device, edits: seq<Edit>, id: Id)
    requires id in d.ever
    ensures id in EditedAll(d, edits).ever
    decreases |edits|
  {
    if edits != [] { EditsKeepIds(Edited(d, edits[0]), edits[1..], id); }
  }

  ghost predicate Issued(d: Device, pending: seq<Row>) {
    forall i | 0 <= i < |pending| :: pending[i].id in d.ever
  }

  lemma {:induction false} EditsPastDrain(w: World, pending: seq<Row>, d: Device, s: Summary, edits: seq<Edit>)
    requires Issued(d, pending)
    ensures var x, y := ReplayFrom(Quiet(w), pending, EditedAll(d, edits), s), ReplayFrom(Quiet(w), pending, d, s);
            Same(x.0, EditedAll(y.0, edits)) && x.1 == y.1
    decreases |pending|
  {
    hide EditedAll, Settle;
    LogSurvivesEdits(d, edits);
    if pending == [] {
    } else if pending[0].attempts >= 5 {
      EditsPastDrain(w, pending[1..], d, s.(failed := s.failed + 1), edits);
    } else {
      EditsPastHead(w, pending, d, s, edits);
    }
  }

  lemma {:induction false} EditsPastHead(w: World, pending: seq<Row>, d: Device, s: Summary, edits: seq<Edit>)
    requires pending != [] && Issued(d, pending) && pending[0].attempts < 5
    ensures var x, y := ReplayFrom(Quiet(w), pending, EditedAll(d, edits), s), ReplayFrom(Quiet(w), pending, d, s);
            Same(x.0, EditedAll(y.0, edits)) && x.1 == y.1
    decreases |pending|, 0
  {
    var reply := w.reply(|d.log|);
    var before, after := Settle(EditedAll(d, edits), pending[0], reply), Settle(d, pending[0], reply);
    LogSurvivesEdits(d, edits);
    EditsPastReply(d, edits, pending[0], reply);
    assert Issued(after, pending[1..]);
    QuietHead(w, pending, d, s);
    QuietHead(w, pending, EditedAll(d, edits), s);
    hide ReplayFrom, Settle, EditedAll;
    if reply.Accepted? {
      var s' := s.(replayed := s.replayed + 1);
      SameReplays(Quiet(w), pending[1..], before, EditedAll(after, edits), s');
      EditsPastDrain(w, pending[1..], after, s', edits);
    }
  }

  lemma QuietHead(w: World, pending: seq<Row>, d: Device, s: Summary)
    requires pending != [] && pending[0].attempts < 5
    ensures var reply := w.reply(|d.log|);
            var settled := Settle(d, pending[0], reply);
            ReplayFrom(Quiet(w), pending, d, s) ==
            if reply.Accepted? then ReplayFrom(Quiet(w), pending[1..], settled, s.(replayed := s.replayed + 1))
            else (settled, s.(failed := s.failed + 1))
  {
    assert EditedAll(d, []) == d;
  }

  // Every edit made while requests from..to were in flight, in order.
  function EditsDuring(w: World, from: nat, to: nat): seq<Edit>
    decreases to - from
  {
    if from >= to then [] else w.meanwhile(from) + EditsDuring(w, from + 1, to)
  }

  lemma {:induction false} EditsCompose(d: Device, a: seq<Edit>, b: seq<Edit>)
    ensures EditedAll(d, a + b) == EditedAll(EditedAll(d, a), b)
    decreases |a|
  {
    if a == [] {
      assert a + b == b;
    } else {
      assert (a + b)[1..] == a[1..] + b;
      EditsCompose(Edited(d, a[0]), a[1..], b);
    }
  }

  /** A drain interrupted by edits leaves the same table, requests and summary as an
      undisturbed drain followed by all those edits. */
  lemma {:induction false} EditsCanWait(w: World, pending: seq<Row>, d: Device, s: Summary)
    requires Issued(d, pending)
    ensures var r, q := ReplayFrom(w, pending, d, s), ReplayFrom(Quiet(w), pending, d, s);
            && Same(r.0, EditedAll(q.0, EditsDuring(w, |d.log|, |r.0.log|)))
            && r.1 == q.1
    decreases |pending|
  {
    if pending == [] {
    } else if pending[0].attempts >= 5 {
      EditsCanWait(w, pending[1..], d, s.(failed := s.failed + 1));
    } else {
      EditsCanWaitPastHead(w, pending, d, s);
    }
  }

  lemma {:induction false} EditsCanWaitPastHead(w: World, pending: seq<Row>, d: Device, s: Summary)
    requires pending != [] && Issued(d, pending) && pending[0].attempts < 5
    ensures var r, q := ReplayFrom(w, pending, d, s), ReplayFrom(Quiet(w), pending, d, s);
            && Same(r.0, EditedAll(q.0, EditsDuring(w, |d.log|, |r.0.log|)))
            && r.1 == q.1
    decreases |pending|, 0
  {
    var n, rest := |d.log|, pending[1..];
    var reply, edits := w.reply(n), w.meanwhile(n);
    var before, after := HeadSettled(w, pending, d), Settle(d, pending[0], reply);
    HeadIsLogged(w, pending, d);
    EditsPastReply(d, edits, pending[0], reply);
    QuietHead(w, pending, d, s);
    assert Issued(after, rest);
    assert Issued(before, rest) by {
      forall i | 0 <= i < |rest| ensures rest[i].id in before.ever { EditsKeepIds(d, edits, rest[i].id); }
    }
    var r := ReplayFrom(w, pending, d, s).0;
    if reply.Accepted? {
      var s' := s.(replayed := s.replayed + 1);
      assert r == ReplayFrom(w, rest, before, s').0;
      hide ReplayFrom, Settle, EditedAll, HeadSettled;
      LogGrows(w, rest, before, s');
      EditsCanWait(w, rest, before, s');
      SameReplays(Quiet(w), rest, before, EditedAll(after, edits), s');
      EditsPastDrain(w, rest, after, s', edits);
      var q, q' := ReplayFrom(Quiet(w), rest, after, s').0, ReplayFrom(Quiet(w), rest, before, s').0;
      SameEdits(q', EditedAll(q, edits), EditsDuring(w, n + 1, |r.log|));
      EditsCompose(q, edits, EditsDuring(w, n + 1, |r.log|));
    } else {
      assert EditsDuring(w, n, n + 1) == edits + [] == edits;
    }
  }

  lemma LogGrows(w: World, pending: seq<Row>, d: Device, s: Summary)
    ensures |d.log| <= |ReplayFrom(w, pending, d, s).0.log|
  {
    hide ReplayFrom;
    var k := DrainSendsInOrder(w, pending, d, s);
  }

  ghost predicate Removed(e: seq<Row>, k: nat, x: Id)
    requires k <= |e|
  {
    exists i | 0 <= i < k :: e[i].id == x
  }

  // The first k of the eligible rows are gone, and the next has one more attempt.
  ghost predicate TableAfter(before: map<Id, Row>, after: map<Id, Row>, e: seq<Row>, k: nat, refused: Reply)
    requires k <= |e|
  {
    && (forall x :: x in after <==> x in before && !Removed(e, k, x))
    && (forall x | x in after && x in before ::
          after[x] == if k < |e| && x == e[k].id && refused.Refused?
                      then before[x].(attempts := e[k].attempts + 1, lastError := Some(refused.message))
                      else before[x])
  }

  lemma RefusalShifts(w: World, n: nat, k: nat, asked: bool)
    requires FirstRefusal(w, n, k, asked) && w.reply(n).Accepted? && (k == 0 ==> asked)
    ensures k > 0 && FirstRefusal(w, n + 1, k - 1, asked)
  {
  }

  /** Undisturbed, a drain removes exactly the rows it replayed and bumps at most
      one, the row that was refused. */
  lemma {:induction false} DrainRemovesTheReplayed(w: World, pending: seq<Row>, d: Device, s: Summary, k: nat)
    requires k <= |Eligible(pending)| && FirstRefusal(w, |d.log|, k, k < |Eligible(pending)|)
    ensures TableAfter(d.rows, ReplayFrom(Quiet(w), pending, d, s).0.rows, Eligible(pending), k, w.reply(|d.log| + k))
    decreases |pending|
  {
    if pending == [] {
      hide FirstRefusal;
    } else if pending[0].attempts >= 5 {
      assert Eligible(pending) == Eligible(pending[1..]);
      hide TableAfter, FirstRefusal;
      DrainRemovesTheReplayed(w, pending[1..], d, s.(failed := s.failed + 1), k);
    } else {
      DrainRemovesHead(w, pending, d, s, k);
    }
  }

  lemma {:induction false} DrainRemovesHead(w: World, pending: seq<Row>, d: Device, s: Summary, k: nat)
    requires pending != [] && pending[0].attempts < 5
    requires k <= |Eligible(pending)| && FirstRefusal(w, |d.log|, k, k < |Eligible(pending)|)
    ensures TableAfter(d.rows, ReplayFrom(Quiet(w), pending, d, s).0.rows, Eligible(pending), k, w.reply(|d.log| + k))
    decreases |pending|, 0
  {
    hide ReplayFrom, Eligible, TableAfter, Settle, FirstRefusal;
    QuietHead(w, pending, d, s);
    EligibleHead(pending);
    var e, n, reply := Eligible(pending), |d.log|, w.reply(|d.log|);
    if reply.Refused? {
      RefusalStops(w, n, k, k < |e|);
      HeadRefused(d, e, reply);
    } else {
      RefusalShifts(w, n, k, k < |e|);
      AcceptedRow(d, pending[0]);
      var after, s' := Settle(d, pending[0], Accepted), s.(replayed := s.replayed + 1);
      DrainRemovesTheReplayed(w, pending[1..], after, s', k - 1);
      HeadRemoved(d.rows, ReplayFrom(Quiet(w), pending, d, s).0.rows, e, k, w.reply(n + k));
    }
  }

  lemma EligibleHead(pending: seq<Row>)
    requires pending != [] && pending[0].attempts < 5
    ensures var e := Eligible(pending);
            |e| == 1 + |Eligible(pending[1..])| && e[0] == pending[0] && e[1..] == Eligible(pending[1..])
  {
  }

  lemma RefusalStops(w: World, n: nat, k: nat, asked: bool)
    requires FirstRefusal(w, n, k, asked) && w.reply(n).Refused?
    ensures k == 0
  {
  }

  lemma AcceptedRow(d: Device, row: Row)
    ensures var after := Settle(d, row, Accepted);
            after.rows == d.rows - {row.id} && |after.log| == |d.log| + 1
  {
  }

  lemma HeadRefused(d: Device, e: seq<Row>, reply: Reply)
    requires e != [] && reply.Refused?
    ensures TableAfter(d.rows, Settle(d, e[0], reply).rows, e, 0, reply)
  {
  }

  lemma HeadRemoved(before: map<Id, Row>, end: map<Id, Row>, e: seq<Row>, k: nat, refused: Reply)
    requires 0 < k <= |e| && TableAfter(before - {e[0].id}, end, e[1..], k - 1, refused)
    ensures TableAfter(before, end, e, k, refused)
  {
    hide Removed;
    forall x ensures Removed(e, k, x) <==> x == e[0].id || Removed(e[1..], k - 1, x) { RemovedSplits(e, k, x); }
  }

  lemma RemovedSplits(e: seq<Row>, k: nat, x: Id)
    requires 0 < k <= |e|
    ensures Removed(e, k, x) <==> x == e[0].id || Removed(e[1..], k - 1, x)
  {
    if Removed(e[1..], k - 1, x) {
      var i :| 0 <= i < k - 1 && e[1..][i].id == x;
      assert e[i + 1].id == x;
    }
    if Removed(e, k, x) && x != e[0].id {
      var i :| 0 <= i < k && e[i].id == x;
      assert e[1..][i - 1].id == x;
    }
  }

  // -------------------------------------------------------------- draining ends

  function TriesLeft(row: Row): nat {
    if row.attempts < 5 then 5 - row.attempts else 0
  }

  // The sum of the attempts the waiting rows have left.
  ghost function Left(rows: map<Id, Row>): nat
    decreases |rows|
  {
    if rows == map[] then 0
    else
      var k :| k in rows;
      assert |(rows - {k}).Keys| == |rows.Keys - {k}|;
      TriesLeft(rows[k]) + Left(rows - {k})
  }

  lemma {:induction false} LeftPick(rows: map<Id, Row>, k: Id)
    requires k in rows
    ensures Left(rows) == TriesLeft(rows[k]) + Left(rows - {k})
    decreases |rows|
  {
    var m :| m in rows && Left(rows) == TriesLeft(rows[m]) + Left(rows - {m});
    if m != k {
      assert |(rows - {k}).Keys| == |rows.Keys - {k}| && |(rows - {m}).Keys| == |rows.Keys - {m}|;
      LeftPick(rows - {m}, k);
      LeftPick(rows - {k}, m);
      assert rows - {m} - {k} == rows - {k} - {m};
    }
  }

  lemma RemoveLowers(rows: map<Id, Row>, k: Id)
    ensures Left(rows - {k}) <= Left(rows)
    ensures k in rows && rows[k].attempts < 5 ==> Left(rows - {k}) < Left(rows)
  {
    if k in rows { LeftPick(rows, k); } else { assert rows - {k} == rows; }
  }

  lemma BumpLowers(rows: map<Id, Row>, k: Id, row: Row)
    requires k in rows && row.attempts == rows[k].attempts + 1
    ensures Left(rows[k := row]) <= Left(rows)
    ensures rows[k].attempts < 5 ==> Left(rows[k := row]) < Left(rows)
  {
    LeftPick(rows, k);
    LeftPick(rows[k := row], k);
    assert rows[k := row] - {k} == rows - {k};
  }

  // Users may cancel while a drain runs, but queue nothing new.
  ghost predicate OnlyCancels(w: World) {
    forall n, i | 0 <= i < |w.meanwhile(n)| :: !w.meanwhile(n)[i].Enqueue?
  }

  lemma {:induction false} CancelsLower(d: Device, edits: seq<Edit>)
    requires forall i | 0 <= i < |edits| :: !edits[i].Enqueue?
    ensures Left(EditedAll(d, edits).rows) <= Left(d.rows)
    ensures forall k | k in EditedAll(d, edits).rows :: k in d.rows && EditedAll(d, edits).rows[k] == d.rows[k]
    ensures forall k | k in d.rows && k !in EditedAll(d, edits).rows && d.rows[k].attempts < 5 ::
        Left(EditedAll(d, edits).rows) < Left(d.rows)
    decreases |edits|
  {
    if edits != [] {
      if edits[0].Cancel? { RemoveLowers(d.rows, edits[0].id); }
      CancelsLower(Edited(d, edits[0]), edits[1..]);
    }
  }

  lemma SettleLowers(d: Device, row: Row, reply: Reply)
    requires row.id in d.rows ==> d.rows[row.id].attempts == row.attempts
    ensures Left(Settle(d, row, reply).rows) <= Left(d.rows)
    ensures row.id in d.rows && row.attempts < 5 ==> Left(Settle(d, row, reply).rows) < Left(d.rows)
  {
    hide Left;
    if reply.Accepted? {
      RemoveLowers(d.rows, row.id);
    } else if row.id in d.rows {
      BumpLowers(d.rows, row.id, d.rows[row.id].(attempts := row.attempts + 1, lastError := Some(reply.message)));
    }
  }

  lemma {:induction false} ReplayLowers(w: World, pending: seq<Row>, d: Device, s: Summary)
    requires Inv(d, pending) && OnlyCancels(w)
    ensures Left(ReplayFrom(w, pending, d, s).0.rows) <= Left(d.rows)
    ensures Eligible(pending) != [] && Eligible(pending)[0].id in d.rows
        ==> Left(ReplayFrom(w, pending, d, s).0.rows) < Left(d.rows)
    decreases |pending|
  {
    hide Left, Settle, EditedAll, Inv;
    if pending == [] {
    } else if pending[0].attempts >= 5 {
      SkipKeeps(d, pending);
      assert Eligible(pending) == Eligible(pending[1..]);
      ReplayLowers(w, pending[1..], d, s.(failed := s.failed + 1));
    } else {
      var n := |d.log|;
      var edited := EditedAll(d, w.meanwhile(n));
      CancelsLower(d, w.meanwhile(n));
      EditsKeep(d, w.meanwhile(n), pending);
      HeadCountsAgree(d, pending);
      HeadCountsAgree(edited, pending);
      SettleLowers(edited, pending[0], w.reply(n));
      SettleKeeps(edited, pending, w.reply(n));
      if w.reply(n).Accepted? {
        ReplayLowers(w, pending[1..], Settle(edited, pending[0], w.reply(n)), s.(replayed := s.replayed + 1));
      }
    }
  }

  lemma HeadCountsAgree(d: Device, pending: seq<Row>)
    requires pending != [] && Inv(d, pending)
    ensures pending[0].id in d.rows ==> d.rows[pending[0].id].attempts == pending[0].attempts
  {
    hide Count, FewTries, Fifo;
    assert RowFits(d, pending[0].id, pending[0]);
  }

  lemma {:induction false} EligibleIsListed(pending: seq<Row>)
    ensures forall r :: r in Eligible(pending) <==> r in pending && r.attempts < 5
  {
    if pending != [] {
      EligibleIsListed(pending[1..]);
      assert pending == [pending[0]] + pending[1..];
    }
  }

  lemma {:induction false} LeftPositive(rows: map<Id, Row>) returns (k: Id)
    requires Left(rows) > 0
    ensures k in rows && rows[k].attempts < 5
    decreases |rows|
  {
    k :| k in rows;
    LeftPick(rows, k);
    if rows[k].attempts >= 5 {
      assert |(rows - {k}).Keys| == |rows.Keys - {k}|;
      k := LeftPositive(rows - {k});
    }
  }

  /** A drain that finds a row with attempts left uses at least one up, whatever the
      server answers and the user cancels. */
  lemma DrainLowers(w: World, d: Device)
    requires Inv(d, []) && OnlyCancels(w)
    ensures Inv(Drain(w, d).0, [])
    ensures Left(Drain(w, d).0.rows) <= Left(d.rows)
    ensures Left(d.rows) > 0 ==> Left(Drain(w, d).0.rows) < Left(d.rows)
  {
    hide Left, ReplayFrom, Listing, Eligible;
    var pending := Listing(d.rows);
    StartKeeps(d);
    ReplayKeeps(w, pending, d, Summary(0, 0));
    ReplayLowers(w, pending, d, Summary(0, 0));
    ListingIsTheTable(d.rows);
    EligibleIsListed(pending);
    if Left(d.rows) > 0 {
      var k := LeftPositive(d.rows);
      assert d.rows[k] in pending && d.rows[k] in Eligible(pending);
      assert Eligible(pending)[0] in Eligible(pending);
    }
  }

  function Drains(w: World, d: Device, n: nat): (r: Device)
    requires Keyed(d.rows)
    ensures Keyed(r.rows)
    decreases n
  {
    if n == 0 then d else Drains(w, Drain(w, d).0, n - 1)
  }

  lemma NoneLeft(rows: map<Id, Row>)
    requires Left(rows) == 0
    ensures forall k | k in rows :: rows[k].attempts >= 5
  {
    forall k | k in rows ensures rows[k].attempts >= 5 { LeftPick(rows, k); }
  }

  /** After as many drains as there are attempts left, only exhausted rows remain. */
  lemma {:induction false} EveryQueueSettles(w: World, d: Device, n: nat)
    requires Inv(d, []) && OnlyCancels(w) && Left(d.rows) <= n
    ensures forall k | k in Drains(w, d, n).rows :: Drains(w, d, n).rows[k].attempts >= 5
    decreases n
  {
    assert Keyed(d.rows);
    hide Left, Drain, Inv, OnlyCancels, Keyed;
    if n == 0 {
      NoneLeft(d.rows);
      assert Drains(w, d, n) == d;
    } else {
      DrainLowers(w, d);
      EveryQueueSettles(w, Drain(w, d).0, n - 1);
    }
  }
}
