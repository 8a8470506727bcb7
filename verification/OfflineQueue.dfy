/**
 The offline mutation queue and the hook that drains it.

 A replay waits for the server on every request, and while it waits the user may
 queue or cancel actions. What lies outside is a `World`: the server's reply to
 the n-th request and the edits made while that request is in flight. `Device` is
 the durable table together with the record of what has happened to it.
 */
module OfflineQueue {
  import opened Wrappers

  type Id = nat

  const MAX_ATTEMPTS := 5

  datatype Payload =
    | AccountPatch(accountId: string, body: string)
    | EmailBucketUpdate(emailId: string, bucket: string)
    | PreferencesPatch(body: string)
    | UnsubscribeConfirm(suggestionId: string)
    | UnsubscribeDismiss(suggestionId: string)

  datatype Row = Row(id: Id, payload: Payload, createdAt: int, attempts: nat, lastError: Option<string>)

  datatype Reply = Accepted | Refused(message: string)

  // One request the server answered.
  datatype Sent = Sent(row: Row, accepted: bool)

  // What the rest of the application may do while a request is in flight. Another
  // drainNow finds the lock taken.
  datatype Edit = Enqueue(id: Id, payload: Payload, now: int) | Cancel(id: Id) | DrainAgain

  datatype World = World(reply: nat -> Reply, meanwhile: nat -> seq<Edit>)

  datatype Device = Device(
    rows: map<Id, Row>,
    log: seq<Sent>,
    ever: map<Id, Row>,       // every row as it was queued
    cancelled: map<Id, nat>,  // how many requests had been answered by then
    rank: map<Id, nat>)       // how many rows had been queued before it

  const EMPTY := Device(map[], [], map[], map[], map[])

  datatype Summary = Summary(replayed: nat, failed: nat)

  // ------------------------------------------------------------- specification

  predicate Keyed(rows: map<Id, Row>) {
    forall k | k in rows :: rows[k].id == k
  }

  // The order of the createdAt index; equal keys are ordered by primary key.
  predicate Ahead(a: Row, b: Row) {
    a.createdAt < b.createdAt || (a.createdAt == b.createdAt && a.id < b.id)
  }

  predicate IsFirst(rows: map<Id, Row>, k: Id)
    requires k in rows
  {
    forall j | j in rows && j != k :: Ahead(rows[k], rows[j])
  }

  lemma {:induction false} FirstExists(rows: map<Id, Row>)
    requires rows != map[] && Keyed(rows)
    ensures exists k | k in rows :: IsFirst(rows, k)
    decreases |rows|
  {
    var k :| k in rows;
    var rest := rows - {k};
    assert k !in rest && |rest| < |rows|;
    if rest == map[] {
      forall j | j in rows && j != k ensures j in rest {}
      assert IsFirst(rows, k);
    } else {
      FirstExists(rest);
      var f :| f in rest && IsFirst(rest, f);
      forall j | j in rows && j != k ensures j in rest {}
      if Ahead(rows[k], rows[f]) {
        assert IsFirst(rows, k);
      } else {
        assert IsFirst(rows, f);
      }
    }
  }

  // orderBy('createdAt').toArray().
  function Listing(rows: map<Id, Row>): (l: seq<Row>)
    requires Keyed(rows)
    ensures |l| == |rows|
    decreases |rows|
  {
    if rows == map[] then []
    else
      FirstExists(rows);
      var k :| k in rows && IsFirst(rows, k);
      assert |(rows - {k}).Keys| == |rows.Keys - {k}|;
      [rows[k]] + Listing(rows - {k})
  }

  // An id already drawn is not drawn again.
  function Edited(d: Device, e: Edit): (r: Device)
    ensures Keyed(d.rows) ==> Keyed(r.rows)
  {
    match e
    case Enqueue(id, payload, now) =>
      if id in d.ever then d
      else
        var row := Row(id, payload, now, 0, None);
        d.(rows := d.rows[id := row], ever := d.ever[id := row], rank := d.rank[id := |d.ever|])
    case Cancel(id) =>
      d.(rows := d.rows - {id}, cancelled := if id in d.rows then d.cancelled[id := |d.log|] else d.cancelled)
    case DrainAgain => d
  }

  function EditedAll(d: Device, edits: seq<Edit>): (r: Device)
    ensures Keyed(d.rows) ==> Keyed(r.rows)
    decreases |edits|
  {
    if edits == [] then d else EditedAll(Edited(d, edits[0]), edits[1..])
  }

  // The table write that follows the server's reply; `row` is the snapshot's copy.
  function Settle(d: Device, row: Row, reply: Reply): (r: Device)
    ensures Keyed(d.rows) ==> Keyed(r.rows)
  {
    match reply
    case Accepted => d.(rows := d.rows - {row.id}, log := d.log + [Sent(row, true)])
    case Refused(message) =>
      d.(rows :=
           if row.id in d.rows
           then d.rows[row.id := d.rows[row.id].(attempts := row.attempts + 1, lastError := Some(message))]
           else d.rows,
         log := d.log + [Sent(row, false)])
  }

  function ReplayFrom(w: World, pending: seq<Row>, d: Device, s: Summary): (r: (Device, Summary))
    ensures Keyed(d.rows) ==> Keyed(r.0.rows)
    decreases |pending|
  {
    if pending == [] then (d, s)
    else if pending[0].attempts >= MAX_ATTEMPTS then
      ReplayFrom(w, pending[1..], d, s.(failed := s.failed + 1))
    else
      var n := |d.log|;
      var settled := Settle(EditedAll(d, w.meanwhile(n)), pending[0], w.reply(n));
      if w.reply(n).Accepted? then ReplayFrom(w, pending[1..], settled, s.(replayed := s.replayed + 1))
      else (settled, s.(failed := s.failed + 1))
  }

  function Drain(w: World, d: Device): (r: (Device, Summary))
    requires Keyed(d.rows)
    ensures Keyed(r.0.rows)
  {
    ReplayFrom(w, Listing(d.rows), d, Summary(0, 0))
  }

  // ---------------------------------------------------------------- the class

  class SyncQueue {
    const world: World
    var rows: map<Id, Row>
    var log: seq<Sent>
    var ever: map<Id, Row>
    var cancelled: map<Id, nat>
    var rank: map<Id, nat>
    var draining: bool
    var lastReplayError: Option<string>

    constructor (world: World)
      ensures this.world == world && State() == EMPTY && !draining && lastReplayError.None?
    {
      this.world := world;
      rows, log, ever, cancelled, rank := map[], [], map[], map[], map[];
      draining, lastReplayError := false, None;
    }

    ghost function State(): Device
      reads this
    {
      Device(rows, log, ever, cancelled, rank)
    }

    method EnqueueMutation(payload: Payload, id: Id, now: int) returns (row: Row)
      requires Keyed(rows) && id !in ever
      modifies this`rows, this`ever, this`rank
      ensures State() == Edited(old(State()), Enqueue(id, payload, now)) && Keyed(rows)
      ensures rows == old(rows)[id := row] && row == Row(id, payload, now, 0, None) && log == old(log)
    {
      row := Row(id, payload, now, 0, None);
      rows, ever, rank := rows[id := row], ever[id := row], rank[id := |ever|];
    }

    method ListPendingMutations() returns (pending: seq<Row>)
      requires Keyed(rows)
      ensures pending == Listing(rows)
    {
      pending := Listing(rows);
    }

    method RemovePendingMutation(id: Id)
      requires Keyed(rows)
      modifies this`rows, this`cancelled
      ensures State() == Edited(old(State()), Cancel(id)) && Keyed(rows)
      ensures rows == old(rows) - {id} && log == old(log) && ever == old(ever)
    {
      if id in rows { cancelled := cancelled[id := |log|]; }
      rows := rows - {id};
    }

    // What the application does while the next request is in flight. A drain asked
    // for here returns at once, which is also why the recursion ends.
    method Await()
      requires Keyed(rows) && draining
      modifies this
      ensures State() == EditedAll(old(State()), world.meanwhile(|old(log)|)) && Keyed(rows)
      ensures draining && lastReplayError == old(lastReplayError)
      decreases 1
    {
      var edits := world.meanwhile(|log|);
      ghost var done := EditedAll(State(), edits);
      var i := 0;
      while i < |edits|
        invariant 0 <= i <= |edits|
        invariant EditedAll(State(), edits[i..]) == done && Keyed(rows)
        invariant draining && lastReplayError == old(lastReplayError)
      {
        assert edits[i..][0] == edits[i] && edits[i..][1..] == edits[i + 1..];
        match edits[i] {
          case Enqueue(id, payload, now) =>
            if id !in ever { var row := EnqueueMutation(payload, id, now); }
          case Cancel(id) => RemovePendingMutation(id);
          case DrainAgain => DrainNow(true, false);
        }
        i := i + 1;
      }
    }

    method SettleRow(record: Row, reply: Reply)
      requires Keyed(rows)
      modifies this`rows, this`log
      ensures State() == Settle(old(State()), record, reply) && Keyed(rows)
    {
      log := log + [Sent(record, reply.Accepted?)];
      if reply.Accepted? {
        rows := rows - {record.id};
      } else if record.id in rows {
        rows := rows[record.id := rows[record.id].(attempts := record.attempts + 1, lastError := Some(reply.message))];
      }
    }

    method ReplayPendingMutations() returns (s: Summary)
      requires Keyed(rows) && draining
      modifies this
      ensures (State(), s) == Drain(world, old(State())) && Keyed(rows)
      ensures draining && lastReplayError == old(lastReplayError)
      decreases 2
    {
      var pending := ListPendingMutations();
      s := Summary(0, 0);
      ghost var done := Drain(world, State());
      assert done == ReplayFrom(world, pending[0..], State(), s) by { assert pending[0..] == pending; }
      hide Drain, EditedAll, Settle, Listing;
      var i := 0;
      while i < |pending|
        invariant 0 <= i <= |pending|
        invariant ReplayFrom(world, pending[i..], State(), s) == done && Keyed(rows)
        invariant draining && lastReplayError == old(lastReplayError)
      {
        var record := pending[i];
        assert pending[i..][0] == record && pending[i..][1..] == pending[i + 1..];
        i := i + 1;
        if record.attempts >= MAX_ATTEMPTS {
          s := s.(failed := s.failed + 1);
          continue;
        }
        LogSurvivesEdits(State(), world.meanwhile(|log|));
        var reply := world.reply(|log|);
        Await();
        SettleRow(record, reply);
        if reply.Accepted? {
          s := s.(replayed := s.replayed + 1);
        } else {
          s := s.(failed := s.failed + 1);
          break;
        }
      }
    }

    // Nothing happens offline, before consent, or while another drain runs.
    method DrainNow(online: bool, consentRequired: bool)
      requires Keyed(rows)
      modifies this
      ensures Keyed(rows) && draining == old(draining)
      ensures if !online || old(draining) || consentRequired
              then State() == old(State()) && lastReplayError == old(lastReplayError)
              else var r := Drain(world, old(State()));
                   && State() == r.0
                   && lastReplayError == if r.1.failed > 0 then Some("Some queued actions could not sync.") else None
      decreases if draining then 0 else 3
    {
      if !online || draining || consentRequired { return; }
      draining := true;
      lastReplayError := None;
      var result := ReplayPendingMutations();
      if result.failed > 0 { lastReplayError := Some("Some queued actions could not sync."); }
      draining := false;
    }
  }

  lemma {:induction false} LogSurvivesEdits(d: Device, edits: seq<Edit>)
    ensures EditedAll(d, edits).log == d.log
    decreases |edits|
  {
    if edits != [] { LogSurvivesEdits(Edited(d, edits[0]), edits[1..]); }
  }
}
