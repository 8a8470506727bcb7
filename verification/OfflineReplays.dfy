/**
 Replays that overlap. The hook keeps one drain at a time and the sheet's sync
 button one replay at a time, but neither knows of the other: each is a lane of its
 own. A lane lists the table when it starts; the server's answer to a request and
 the table write that follows it are two steps, and anything may come between.
 */
module OfflineReplays {
  import opened Wrappers
  import opened OfflineQueue
  import opened OfflineQueueLaws

  type Lane = nat

  // What a lane has left of its listing, and the answer to the head row, if that has
  // come and is not yet written to the table.
  datatype Replay = Replay(pending: seq<Row>, answer: Option<Reply>)

  datatype Net = Net(d: Device, running: map<Lane, Replay>)

  const IDLE := Net(EMPTY, map[])

  datatype Event =
    | Other(edit: Edit)
    | Start(lane: Lane)
    | Answer(lane: Lane, reply: Reply)
    | Write(lane: Lane)
    | Pass(lane: Lane) // over an exhausted row, or to the end of the listing

  // A lane that is running does not start again; a step whose turn it is not does
  // nothing.
  function Next(s: Net, e: Event): (r: Net)
    requires Keyed(s.d.rows)
    ensures Keyed(r.d.rows)
  {
    match e
    case Other(edit) => s.(d := Edited(s.d, edit))
    case Start(l) =>
      if l in s.running then s else s.(running := s.running[l := Replay(Listing(s.d.rows), None)])
    case Answer(l, reply) => if Asks(s, l) then Answered(s, l, reply) else s
    case Write(l) => if Owes(s, l) then Wrote(s, l) else s
    case Pass(l) => if Passes(s, l) then Passed(s, l) else s
  }

  predicate Asks(s: Net, l: Lane) {
    && l in s.running && s.running[l].answer.None?
    && s.running[l].pending != [] && s.running[l].pending[0].attempts < 5
  }

  predicate Owes(s: Net, l: Lane) {
    l in s.running && s.running[l].answer.Some? && s.running[l].pending != []
  }

  predicate Passes(s: Net, l: Lane) {
    && l in s.running && s.running[l].answer.None?
    && (s.running[l].pending == [] || s.running[l].pending[0].attempts >= 5)
  }

  function Answered(s: Net, l: Lane, reply: Reply): Net
    requires Asks(s, l)
  {
    var r := s.running[l];
    Net(s.d.(log := s.d.log + [Sent(r.pending[0], reply.Accepted?)]),
        s.running[l := r.(answer := Some(reply))])
  }

  function Wrote(s: Net, l: Lane): Net
    requires Owes(s, l)
  {
    var r := s.running[l];
    Net(s.d.(rows := Settle(s.d, r.pending[0], r.answer.value).rows),
        if r.answer.value.Accepted? then s.running[l := Replay(r.pending[1..], None)] else s.running - {l})
  }

  function Passed(s: Net, l: Lane): Net
    requires Passes(s, l)
  {
    var r := s.running[l];
    s.(running := if r.pending == [] then s.running - {l} else s.running[l := Replay(r.pending[1..], None)])
  }

  function From(s: Net, events: seq<Event>): (r: Net)
    requires Keyed(s.d.rows)
    ensures Keyed(r.d.rows)
  {
    if events == [] then s
    else
      var n := |events| - 1;
      Next(From(s, events[..n]), events[n])
  }

  lemma {:induction false} FromJoins(s: Net, a: seq<Event>, b: seq<Event>)
    requires Keyed(s.d.rows)
    ensures From(s, a + b) == From(From(s, a), b)
    decreases |b|
  {
    hide Next;
    if b == [] {
      assert a + b == a;
    } else {
      var n := |b| - 1;
      assert (a + b)[..|a + b| - 1] == a + b[..n];
      FromJoins(s, a, b[..n]);
    }
  }

  // ------------------------------------------------ a drain is a lane on its own

  function Others(edits: seq<Edit>): seq<Event> {
    seq(|edits|, i requires 0 <= i < |edits| => Other(edits[i]))
  }

  // The steps of one drain, with the edits made while each request is in flight.
  function ReplayEvents(w: World, l: Lane, pending: seq<Row>, d: Device): seq<Event>
    decreases |pending|
  {
    if pending == [] || pending[0].attempts >= 5 then
      [Pass(l)] + (if pending == [] then [] else ReplayEvents(w, l, pending[1..], d))
    else
      var reply, edited := w.reply(|d.log|), EditedAll(d, w.meanwhile(|d.log|));
      HeadEvents(w, l, d)
      + (if reply.Accepted? then ReplayEvents(w, l, pending[1..], Settle(edited, pending[0], reply)) else [])
  }

  lemma OneEvent(s: Net, e: Event)
    requires Keyed(s.d.rows)
    ensures From(s, [e]) == Next(s, e)
  {
    assert [e][..0] == [];
    assert From(s, []) == s;
  }

  lemma {:induction false} OthersEdit(s: Net, edits: seq<Edit>)
    requires Keyed(s.d.rows)
    ensures From(s, Others(edits)) == s.(d := EditedAll(s.d, edits))
    decreases |edits|
  {
    hide Edited;
    if edits != [] {
      var first, rest := Other(edits[0]), Others(edits[1..]);
      assert Others(edits) == [first] + rest;
      FromJoins(s, [first], rest);
      OneEvent(s, first);
      OthersEdit(s.(d := Edited(s.d, edits[0])), edits[1..]);
    }
  }

  lemma HeadIsReplayed(s: Net, l: Lane, reply: Reply)
    requires Keyed(s.d.rows) && Asks(s, l)
    ensures var r := s.running[l];
            From(s, [Answer(l, reply), Write(l)]) ==
            Net(Settle(s.d, r.pending[0], reply),
                if reply.Accepted? then s.running[l := Replay(r.pending[1..], None)] else s.running - {l})
  {
    assert [Answer(l, reply), Write(l)] == [Answer(l, reply)] + [Write(l)];
    FromJoins(s, [Answer(l, reply)], [Write(l)]);
    OneEvent(s, Answer(l, reply));
    var answered := Next(s, Answer(l, reply));
    OneEvent(answered, Write(l));
    var r := s.running[l];
    assert s.running[l := r.(answer := Some(reply))] - {l} == s.running - {l};
    assert Next(answered, Write(l)).d == Settle(s.d, r.pending[0], reply);
  }

  // The request for a row with attempts left: the edits, the answer, the write.
  function HeadEvents(w: World, l: Lane, d: Device): seq<Event> {
    Others(w.meanwhile(|d.log|)) + [Answer(l, w.reply(|d.log|)), Write(l)]
  }

  lemma HeadAlone(w: World, l: Lane, pending: seq<Row>, d: Device)
    requires Keyed(d.rows) && pending != [] && pending[0].attempts < 5
    ensures var reply := w.reply(|d.log|);
            From(Net(d, map[l := Replay(pending, None)]), HeadEvents(w, l, d)) ==
            Net(Settle(EditedAll(d, w.meanwhile(|d.log|)), pending[0], reply),
                if reply.Accepted? then map[l := Replay(pending[1..], None)] else map[])
  {
    hide EditedAll, Settle, Next, From;
    var start, n := Net(d, map[l := Replay(pending, None)]), |d.log|;
    var asked := Net(EditedAll(d, w.meanwhile(n)), start.running);
    OthersEdit(start, w.meanwhile(n));
    FromJoins(start, Others(w.meanwhile(n)), [Answer(l, w.reply(n)), Write(l)]);
    HeadIsReplayed(asked, l, w.reply(n));
    assert start.running[l := Replay(pending[1..], None)] == map[l := Replay(pending[1..], None)];
    assert start.running - {l} == map[];
  }

  /** A drain that nothing overlaps is one lane's steps: the finer steps leave what
      the replay function says, and no lane running. */
  lemma {:induction false} ReplayIsOneLane(w: World, l: Lane, pending: seq<Row>, d: Device, s: Summary)
    requires Keyed(d.rows)
    ensures var start := Net(d, map[l := Replay(pending, None)]);
            From(start, ReplayEvents(w, l, pending, d)) == Net(ReplayFrom(w, pending, d, s).0, map[])
    decreases |pending|
  {
    hide EditedAll, Settle, Next, From, HeadEvents;
    var start := Net(d, map[l := Replay(pending, None)]);
    if pending == [] || pending[0].attempts >= 5 {
      OneEvent(start, Pass(l));
      PassAlone(d, l, pending);
      if pending == [] {
        assert ReplayEvents(w, l, pending, d) == [Pass(l)];
      } else {
        FromJoins(start, [Pass(l)], ReplayEvents(w, l, pending[1..], d));
        ReplayIsOneLane(w, l, pending[1..], d, s.(failed := s.failed + 1));
      }
    } else {
      var reply := w.reply(|d.log|);
      var settled := Settle(EditedAll(d, w.meanwhile(|d.log|)), pending[0], reply);
      HeadAlone(w, l, pending, d);
      if reply.Accepted? {
        FromJoins(start, HeadEvents(w, l, d), ReplayEvents(w, l, pending[1..], settled));
        ReplayIsOneLane(w, l, pending[1..], settled, s.(replayed := s.replayed + 1));
      } else {
        assert HeadEvents(w, l, d) + [] == HeadEvents(w, l, d);
      }
    }
  }

  lemma PassAlone(d: Device, l: Lane, pending: seq<Row>)
    requires Keyed(d.rows) && (pending == [] || pending[0].attempts >= 5)
    ensures Next(Net(d, map[l := Replay(pending, None)]), Pass(l)) ==
            Net(d, if pending == [] then map[] else map[l := Replay(pending[1..], None)])
  {
    assert map[l := Replay(pending, None)] - {l} == map[];
  }

  // ------------------------------------------------------- who may send a row

  // The lane has not been refused.
  predicate Going(r: Replay) {
    !(r.answer.Some? && r.answer.value.Refused?)
  }

  // The lane has yet to ask for row k.
  ghost predicate MaySend(r: Replay, k: Id) {
    Going(r) && exists i | 0 <= i < |r.pending| :: SendsAt(r, i, k)
  }

  predicate SendsAt(r: Replay, i: nat, k: Id)
    requires i < |r.pending|
  {
    r.pending[i].id == k && r.pending[i].attempts < 5 && (i > 0 || r.answer.None?)
  }

  // The server has accepted row k, and the table write is still to come.
  predicate Landing(r: Replay, k: Id) {
    r.answer == Some(Accepted) && r.pending != [] && r.pending[0].id == k
  }

  // A listing made now would hold the row with attempts left.
  predicate Listed(d: Device, k: Id) {
    k in d.rows && d.rows[k].attempts < 5
  }

  // Some row that a listing would hold is in the hands of a lane that goes on.
  ghost predicate Exposed(s: Net, k: Id) {
    Listed(s.d, k) && exists l | l in s.running :: MaySend(s.running[l], k) || Landing(s.running[l], k)
  }

  // Every replay that starts finds no such row.
  ghost predicate Clean(events: seq<Event>) {
    forall n | 0 <= n < |events| :: CleanAt(From(IDLE, events[..n]), events[n])
  }

  ghost predicate CleanAt(s: Net, e: Event) {
    e.Start? && e.lane !in s.running ==> forall k :: !Exposed(s, k)
  }

  // ------------------------------------------------------------- the invariant

  ghost predicate Distinct(pending: seq<Row>) {
    forall i, j | 0 <= i < j < |pending| :: pending[i].id != pending[j].id
  }

  ghost predicate Known(d: Device, r: Replay) {
    && Distinct(r.pending) && (forall i | 0 <= i < |r.pending| :: r.pending[i].id in d.ever)
    && (r.answer.Some? ==> r.pending != [])
  }

  // A row still to be asked for has not been accepted.
  ghost predicate Unsent(d: Device, r: Replay) {
    forall k | MaySend(r, k) :: Count(d.log, k, true) == 0
  }

  ghost predicate OneSender(running: map<Lane, Replay>) {
    forall l, m, k | l in running && m in running && l != m && MaySend(running[l], k) :: !MaySend(running[m], k)
  }

  ghost predicate Deleting(s: Net, k: Id) {
    exists l | l in s.running :: Landing(s.running[l], k)
  }

  ghost predicate Tidy(s: Net) {
    && Keyed(s.d.rows) && s.d.rows.Keys <= s.d.ever.Keys
    && (forall k :: Count(s.d.log, k, true) <= 1 && (k !in s.d.ever ==> Count(s.d.log, k, true) == 0))
    && (forall l | l in s.running :: Known(s.d, s.running[l]) && Unsent(s.d, s.running[l]))
    && OneSender(s.running)
    && (forall k | k in s.d.rows && Count(s.d.log, k, true) == 1 :: Deleting(s, k))
    && (forall l, k | l in s.running && Landing(s.running[l], k) :: Count(s.d.log, k, true) == 1)
  }

  lemma EditAdds(d: Device, e: Edit)
    requires Keyed(d.rows) && d.rows.Keys <= d.ever.Keys
    ensures var d' := Edited(d, e);
            && Keyed(d'.rows) && d'.rows.Keys <= d'.ever.Keys && d'.log == d.log && d.ever.Keys <= d'.ever.Keys
            && forall k | k in d'.rows && k in d.ever :: k in d.rows
  {
  }

  lemma EditKeepsTidy(s: Net, e: Edit)
    requires Tidy(s)
    ensures Tidy(s.(d := Edited(s.d, e)))
  {
    EditAdds(s.d, e);
    hide Count, MaySend, Landing, Distinct, Edited, Keyed;
    var s' := s.(d := Edited(s.d, e));
    forall l | l in s.running ensures Known(s'.d, s'.running[l]) && Unsent(s'.d, s'.running[l]) {
      assert Known(s.d, s.running[l]) && Unsent(s.d, s.running[l]);
    }
    forall k | k in s'.d.rows && Count(s'.d.log, k, true) == 1 ensures Deleting(s', k) {
      assert k in s.d.rows;
      assert Deleting(s, k);
      var l :| l in s.running && Landing(s.running[l], k);
      assert Landing(s'.running[l], k);
    }
  }

  lemma StartKeepsTidy(s: Net, l: Lane)
    requires Tidy(s) && l !in s.running && forall k :: !Exposed(s, k)
    ensures Tidy(Next(s, Start(l)))
  {
    hide Count, Listing, Keyed, MaySend;
    var s', r := Next(s, Start(l)), Replay(Listing(s.d.rows), None);
    ListingIsTheTable(s.d.rows);
    NewLaneIsKnown(s.d);
    forall k | MaySend(r, k) ensures Listed(s.d, k) && Count(s.d.log, k, true) == 0 { NewLaneSends(s, k); }
    forall m | m in s'.running ensures Known(s'.d, s'.running[m]) && Unsent(s'.d, s'.running[m]) {
      if m != l { assert Known(s.d, s.running[m]) && Unsent(s.d, s.running[m]); }
    }
    forall m, k | m in s.running && MaySend(r, k) ensures !MaySend(s.running[m], k) { assert !Exposed(s, k); }
    forall k | k in s'.d.rows && Count(s'.d.log, k, true) == 1 ensures Deleting(s', k) {
      assert Deleting(s, k);
      var m :| m in s.running && Landing(s.running[m], k);
      assert Landing(s'.running[m], k);
    }
  }

  lemma NewLaneIsKnown(d: Device)
    requires Keyed(d.rows) && d.rows.Keys <= d.ever.Keys
    ensures Known(d, Replay(Listing(d.rows), None))
  {
    hide Listing;
    ListingIsTheTable(d.rows);
    var l := Listing(d.rows);
    forall i | 0 <= i < |l| ensures l[i].id in d.ever { assert l[i] in l; }
    forall i, j | 0 <= i < j < |l| ensures l[i].id != l[j].id { assert l[i] in l && l[j] in l && Ahead(l[i], l[j]); }
  }

  lemma NewLaneSends(s: Net, k: Id)
    requires Tidy(s) && MaySend(Replay(Listing(s.d.rows), None), k) && !Exposed(s, k)
    ensures Listed(s.d, k) && Count(s.d.log, k, true) == 0
  {
    hide Listing, Count, Landing;
    ListingIsTheTable(s.d.rows);
    var l := Listing(s.d.rows);
    var i :| 0 <= i < |l| && l[i].id == k && l[i].attempts < 5;
    assert l[i] in l;
  }

  // An answer turns a row to be asked for into one that is landing, or ends the lane.
  lemma AnswerMoves(r: Replay, reply: Reply, k: Id)
    requires r.answer.None? && r.pending != [] && r.pending[0].attempts < 5 && Distinct(r.pending)
    ensures var r' := r.(answer := Some(reply));
            && MaySend(r, r.pending[0].id)
            && (MaySend(r', k) ==> MaySend(r, k) && k != r.pending[0].id)
            && (Landing(r', k) <==> reply.Accepted? && k == r.pending[0].id) && !Landing(r, k)
  {
    var r' := r.(answer := Some(reply));
    assert SendsAt(r, 0, r.pending[0].id);
    if MaySend(r', k) {
      var i :| 0 <= i < |r'.pending| && SendsAt(r', i, k);
      assert SendsAt(r, i, k);
    }
  }

  lemma AnswerKeepsTidy(s: Net, l: Lane, reply: Reply)
    requires Tidy(s) && Asks(s, l)
    ensures Tidy(Answered(s, l, reply))
  {
    hide Count, MaySend, Landing, Distinct;
    var s', r := Answered(s, l, reply), s.running[l];
    var head := r.pending[0].id;
    assert Known(s.d, r) && Unsent(s.d, r);
    forall k
      ensures Count(s'.d.log, k, true) == Count(s.d.log, k, true) + (if k == head && reply.Accepted? then 1 else 0)
    {
      CountAppend(s.d.log, Sent(r.pending[0], reply.Accepted?), k, true);
    }
    AnswerMoves(r, reply, head);
    forall m | m in s'.running ensures Known(s'.d, s'.running[m]) && Unsent(s'.d, s'.running[m]) {
      assert Known(s.d, s.running[m]) && Unsent(s.d, s.running[m]);
      forall k | MaySend(s'.running[m], k) ensures Count(s'.d.log, k, true) == 0 {
        if m == l { AnswerMoves(r, reply, k); }
      }
    }
    forall m, n, k | m in s'.running && n in s'.running && m != n && MaySend(s'.running[m], k)
      ensures !MaySend(s'.running[n], k)
    {
      AnswerMoves(r, reply, k);
    }
    forall k | k in s'.d.rows && Count(s'.d.log, k, true) == 1 ensures Deleting(s', k) {
      AnswerMoves(r, reply, k);
      if k == head && reply.Accepted? {
        assert Landing(s'.running[l], k);
      } else {
        assert Deleting(s, k);
        var m :| m in s.running && Landing(s.running[m], k);
        assert Landing(s'.running[m], k);
      }
    }
    forall m, k | m in s'.running && Landing(s'.running[m], k) ensures Count(s'.d.log, k, true) == 1 {
      AnswerMoves(r, reply, k);
    }
  }

  lemma RestSends(r: Replay, k: Id)
    requires r.pending != [] && Going(r) && (r.answer.Some? || r.pending[0].attempts >= 5)
    ensures MaySend(Replay(r.pending[1..], None), k) <==> MaySend(r, k)
  {
    var rest := Replay(r.pending[1..], None);
    if MaySend(rest, k) {
      var i :| 0 <= i < |rest.pending| && SendsAt(rest, i, k);
      assert SendsAt(r, i + 1, k);
    }
    if MaySend(r, k) {
      var i :| 0 <= i < |r.pending| && SendsAt(r, i, k);
      assert SendsAt(rest, i - 1, k);
    }
  }

  lemma RestKnown(d: Device, r: Replay)
    requires r.pending != [] && Known(d, r)
    ensures Known(d, Replay(r.pending[1..], None))
  {
  }

  // A lane that moves on to the rest of its listing, or stops, sends nothing new.
  lemma MovedOnKeepsTidy(s: Net, s': Net, l: Lane)
    requires Tidy(s) && l in s.running && s'.d.log == s.d.log && s'.d.ever == s.d.ever
    requires Keyed(s'.d.rows) && s'.d.rows.Keys <= s.d.rows.Keys
    requires s'.running == s.running - {l} || (
               && s.running[l].pending != [] && Going(s.running[l])
               && (s.running[l].answer.Some? || s.running[l].pending[0].attempts >= 5)
               && s'.running == s.running[l := Replay(s.running[l].pending[1..], None)])
    requires forall k | Landing(s.running[l], k) :: k !in s'.d.rows
    ensures Tidy(s')
  {
    hide Count, MaySend, Distinct;
    forall m | m in s'.running ensures Known(s'.d, s'.running[m]) && Unsent(s'.d, s'.running[m]) {
      assert Known(s.d, s.running[m]) && Unsent(s.d, s.running[m]);
      if m == l { RestKnown(s.d, s.running[l]); }
      forall k | MaySend(s'.running[m], k) ensures Count(s'.d.log, k, true) == 0 {
        if m == l { RestSends(s.running[l], k); }
      }
    }
    forall m, n, k | m in s'.running && n in s'.running && m != n && MaySend(s'.running[m], k)
      ensures !MaySend(s'.running[n], k)
    {
      if m == l || n == l { RestSends(s.running[l], k); }
    }
    forall k | k in s'.d.rows && Count(s'.d.log, k, true) == 1 ensures Deleting(s', k) {
      assert k in s.d.rows;
      assert Deleting(s, k);
      var m :| m in s.running && Landing(s.running[m], k);
      assert m != l;
      assert Landing(s'.running[m], k);
    }
  }

  lemma WriteKeepsTidy(s: Net, l: Lane)
    requires Tidy(s) && Owes(s, l)
    ensures Tidy(Wrote(s, l))
  {
    hide Tidy, Count;
    assert Keyed(s.d.rows) by { TidyIsKeyed(s); }
    MovedOnKeepsTidy(s, Wrote(s, l), l);
  }

  lemma PassKeepsTidy(s: Net, l: Lane)
    requires Tidy(s) && Passes(s, l)
    ensures Tidy(Passed(s, l))
  {
    hide Tidy, Count;
    assert Keyed(s.d.rows) by { TidyIsKeyed(s); }
    MovedOnKeepsTidy(s, Passed(s, l), l);
  }

  lemma TidyIsKeyed(s: Net)
    requires Tidy(s)
    ensures Keyed(s.d.rows)
  {
  }

  lemma StepKeepsTidy(s: Net, e: Event)
    requires Tidy(s) && Keyed(s.d.rows) && CleanAt(s, e)
    ensures Tidy(Next(s, e))
  {
    hide Tidy, Listing, Exposed;
    match e {
      case Other(edit) => EditKeepsTidy(s, edit);
      case Start(l) => if l !in s.running { StartKeepsTidy(s, l); }
      case Answer(l, reply) => if Asks(s, l) { AnswerKeepsTidy(s, l, reply); }
      case Write(l) => if Owes(s, l) { WriteKeepsTidy(s, l); }
      case Pass(l) => if Passes(s, l) { PassKeepsTidy(s, l); }
    }
  }

  lemma {:induction false} CleanRunsAreTidy(events: seq<Event>)
    requires Clean(events)
    ensures Tidy(From(IDLE, events))
  {
    hide Next, Tidy, CleanAt;
    if events == [] {
      IdleIsTidy();
    } else {
      var n := |events| - 1;
      forall i | 0 <= i < n ensures CleanAt(From(IDLE, events[..n][..i]), events[..n][i]) {
        assert events[..n][..i] == events[..i] && CleanAt(From(IDLE, events[..i]), events[i]);
      }
      CleanRunsAreTidy(events[..n]);
      assert CleanAt(From(IDLE, events[..n]), events[n]);
      StepKeepsTidy(From(IDLE, events[..n]), events[n]);
    }
  }

  lemma IdleIsTidy()
    ensures Tidy(IDLE)
  {
  }

  // ----------------------------------------------------------- the main results

  /** Whatever the servers answer and however the steps interleave, a run whose
      replays all start clean accepts every mutation at most once. */
  lemma CleanRunsAcceptOnce(events: seq<Event>, k: Id)
    requires Clean(events)
    ensures Count(From(IDLE, events).d.log, k, true) <= 1
  {
    hide From, Count;
    CleanRunsAreTidy(events);
  }

  // What a lane still does when the server accepts everything.
  function FinishEvents(l: Lane, r: Replay): seq<Event>
    decreases |r.pending|, r.answer.Some?
  {
    if r.pending == [] then []
    else if r.answer.Some? then [Write(l)] + FinishEvents(l, Replay(r.pending[1..], None))
    else if r.pending[0].attempts >= 5 then [Pass(l)] + FinishEvents(l, Replay(r.pending[1..], None))
    else [Answer(l, Accepted), Write(l)] + FinishEvents(l, Replay(r.pending[1..], None))
  }

  ghost predicate NoStarts(events: seq<Event>) {
    forall n | 0 <= n < |events| :: !events[n].Start?
  }

  // Every other lane is as it was, and row k has been accepted so many times more.
  ghost predicate Advanced(s: Net, s': Net, l: Lane, k: Id, more: nat) {
    && (forall m | m in s.running && m != l :: m in s'.running && s'.running[m] == s.running[m])
    && Count(s'.d.log, k, true) >= Count(s.d.log, k, true) + more
  }

  lemma AdvancedJoins(a: Net, b: Net, c: Net, l: Lane, k: Id, x: nat, y: nat)
    requires Advanced(a, b, l, k, x) && Advanced(b, c, l, k, y)
    ensures Advanced(a, c, l, k, x + y)
  {
  }

  function Sending(r: Replay, k: Id): nat {
    if r.pending != [] && SendsAt(r, 0, k) then 1 else 0
  }

  // The head row's turn under a server that accepts.
  lemma HeadTurn(s: Net, l: Lane, k: Id) returns (turn: seq<Event>)
    requires Keyed(s.d.rows) && l in s.running && Going(s.running[l]) && s.running[l].pending != []
    ensures var r := s.running[l];
            var s', rest := From(s, turn), Replay(r.pending[1..], None);
            && NoStarts(turn) && l in s'.running && s'.running[l] == rest && Advanced(s, s', l, k, Sending(r, k))
            && FinishEvents(l, r) == turn + FinishEvents(l, rest)
  {
    hide Count, Settle;
    var r := s.running[l];
    if r.answer.Some? {
      turn := [Write(l)];
      OneEvent(s, Write(l));
    } else if r.pending[0].attempts >= 5 {
      turn := [Pass(l)];
      OneEvent(s, Pass(l));
    } else {
      turn := [Answer(l, Accepted), Write(l)];
      HeadIsReplayed(s, l, Accepted);
      SettleLogs(s.d, r.pending[0], k);
    }
  }

  lemma SettleLogs(d: Device, row: Row, k: Id)
    ensures Count(Settle(d, row, Accepted).log, k, true) == Count(d.log, k, true) + (if row.id == k then 1 else 0)
  {
    CountAppend(d.log, Sent(row, true), k, true);
  }

  lemma SendsHeadOrRest(r: Replay, k: Id)
    requires r.pending != [] && Going(r) && MaySend(r, k)
    ensures SendsAt(r, 0, k) || MaySend(Replay(r.pending[1..], None), k)
  {
    var i :| 0 <= i < |r.pending| && SendsAt(r, i, k);
    if i > 0 { assert SendsAt(Replay(r.pending[1..], None), i - 1, k); }
  }

  // A lane that goes on gets every row accepted that it has yet to ask for.
  lemma {:induction false} FinishSends(s: Net, l: Lane, k: Id)
    requires Keyed(s.d.rows) && l in s.running && Going(s.running[l])
    ensures var r := s.running[l];
            && NoStarts(FinishEvents(l, r))
            && Advanced(s, From(s, FinishEvents(l, r)), l, k, if MaySend(r, k) then 1 else 0)
    decreases |s.running[l].pending|
  {
    hide Advanced, MaySend, SendsAt, From, FinishEvents;
    var r := s.running[l];
    if r.pending == [] {
      NothingToFinish(s, l, k);
    } else {
      var turn := HeadTurn(s, l, k);
      var s', rest := From(s, turn), Replay(r.pending[1..], None);
      FinishSends(s', l, k);
      FromJoins(s, turn, FinishEvents(l, rest));
      var more: nat := if MaySend(rest, k) then 1 else 0;
      AdvancedJoins(s, s', From(s', FinishEvents(l, rest)), l, k, Sending(r, k), more);
      if MaySend(r, k) { SendsHeadOrRest(r, k); }
      AtLeast(s, From(s, FinishEvents(l, r)), l, k, Sending(r, k) + more, if MaySend(r, k) then 1 else 0);
    }
  }

  lemma AtLeast(s: Net, s': Net, l: Lane, k: Id, more: nat, fewer: nat)
    requires Advanced(s, s', l, k, more) && fewer <= more
    ensures Advanced(s, s', l, k, fewer)
  {
  }

  lemma NothingToFinish(s: Net, l: Lane, k: Id)
    requires Keyed(s.d.rows) && l in s.running && s.running[l].pending == []
    ensures FinishEvents(l, s.running[l]) == [] && From(s, []) == s && !MaySend(s.running[l], k)
    ensures Advanced(s, s, l, k, 0)
  {
  }

  lemma NewLaneMaySend(d: Device, k: Id)
    requires Keyed(d.rows) && Listed(d, k)
    ensures MaySend(Replay(Listing(d.rows), None), k)
  {
    hide Listing;
    ListingIsTheTable(d.rows);
    var r := Replay(Listing(d.rows), None);
    assert d.rows[k] in r.pending;
    var i :| 0 <= i < |r.pending| && r.pending[i] == d.rows[k];
    assert SendsAt(r, i, k);
  }

  /** A replay that starts while another holds a row the table still lists: a server
      that accepts everything accepts that row twice. */
  lemma ExposedStartSendsTwice(s: Net, l: Lane, k: Id) returns (more: seq<Event>)
    requires Keyed(s.d.rows) && Tidy(s) && l !in s.running && Exposed(s, k)
    ensures NoStarts(more) && Count(From(Next(s, Start(l)), more).d.log, k, true) >= 2
  {
    hide Count, Listing, From, MaySend;
    var m :| m in s.running && (MaySend(s.running[m], k) || Landing(s.running[m], k));
    var started := Next(s, Start(l));
    NewLaneMaySend(s.d, k);
    var first, second := FinishEvents(m, s.running[m]), FinishEvents(l, started.running[l]);
    if MaySend(s.running[m], k) {
      GoingIfSending(s.running[m], k);
      FinishSends(started, m, k);
      var between := From(started, first);
      FinishSends(between, l, k);
      FromJoins(started, first, second);
      more := first + second;
    } else {
      FinishSends(started, l, k);
      more := second;
    }
  }

  lemma GoingIfSending(r: Replay, k: Id)
    requires MaySend(r, k)
    ensures Going(r)
  {
  }

  /** Exactly when a replay may start: after a clean run, whatever follows accepts
      every mutation at most once, for every server, if and only if no row that is
      listed with attempts left is in the hands of another replay. */
  lemma StartIsSafeIffUnexposed(events: seq<Event>, l: Lane)
    requires Clean(events) && l !in From(IDLE, events).running
    ensures (forall more, k | NoStarts(more) ::
               Count(From(Next(From(IDLE, events), Start(l)), more).d.log, k, true) <= 1) <==>
            forall k :: !Exposed(From(IDLE, events), k)
  {
    hide Count, Next, Exposed, Tidy;
    var s := From(IDLE, events);
    CleanRunsAreTidy(events);
    if forall k :: !Exposed(s, k) {
      forall more, k | NoStarts(more) ensures Count(From(Next(s, Start(l)), more).d.log, k, true) <= 1 {
        StartThenNone(events, l, more, k);
      }
    } else {
      var k :| Exposed(s, k);
      var more := ExposedStartSendsTwice(s, l, k);
    }
  }

  lemma StartThenNone(events: seq<Event>, l: Lane, more: seq<Event>, k: Id)
    requires Clean(events) && (forall k :: !Exposed(From(IDLE, events), k)) && NoStarts(more)
    ensures Count(From(Next(From(IDLE, events), Start(l)), more).d.log, k, true) <= 1
  {
    hide Count, Next, From, Exposed;
    var whole := events + [Start(l)] + more;
    forall n | 0 <= n < |whole| ensures CleanAt(From(IDLE, whole[..n]), whole[n]) {
      if n < |events| {
        assert whole[..n] == events[..n] && CleanAt(From(IDLE, events[..n]), events[n]);
      } else if n == |events| {
        assert whole[..n] == events;
      }
    }
    CleanRunsAcceptOnce(whole, k);
    FromJoins(IDLE, events + [Start(l)], more);
    FromJoins(IDLE, events, [Start(l)]);
    OneEvent(From(IDLE, events), Start(l));
  }

  // No replay starts while another is in flight.
  ghost predicate NeverOverlaps(events: seq<Event>) {
    forall n | 0 <= n < |events| && events[n].Start? :: From(IDLE, events[..n]).running == map[]
  }

  /** Replays that never overlap are clean, so they accept every mutation once. */
  lemma WithoutOverlapAcceptsOnce(events: seq<Event>, k: Id)
    requires NeverOverlaps(events)
    ensures Clean(events) && Count(From(IDLE, events).d.log, k, true) <= 1
  {
    hide From, Count;
    CleanRunsAcceptOnce(events, k);
  }

  /** With overlap any waiting row of any table can be sent twice: both lanes start,
      as the hook and the sheet's sync button do, and both send it. */
  lemma OverlappingReplaysSendTwice(events: seq<Event>, hook: Lane, sheet: Lane, k: Id) returns (more: seq<Event>)
    requires Clean(events) && From(IDLE, events).running == map[] && hook != sheet
    requires Listed(From(IDLE, events).d, k)
    ensures NoStarts(more)
    ensures Count(From(IDLE, events + [Start(hook), Start(sheet)] + more).d.log, k, true) >= 2
  {
    hide From, Count, Listing, MaySend;
    var s := From(IDLE, events);
    CleanRunsAreTidy(events);
    var once := Next(s, Start(hook));
    StepKeepsTidy(s, Start(hook));
    NewLaneMaySend(s.d, k);
    assert Exposed(once, k);
    more := ExposedStartSendsTwice(once, sheet, k);
    hide Next, Tidy, Exposed;
    var starts := [Start(hook), Start(sheet)];
    FromJoins(IDLE, events + starts, more);
    FromJoins(IDLE, events, starts);
    assert starts == [Start(hook)] + [Start(sheet)];
    FromJoins(s, [Start(hook)], [Start(sheet)]);
    OneEvent(s, Start(hook));
    OneEvent(once, Start(sheet));
  }
}
