/**
 Many worker transactions competing for the one-shot dispatch claims.

 The insert that skips a conflicting key, and the conditional update of the
 cluster column, wait while another open transaction holds the same claim: they
 win when it rolls back and find nothing to do when it commits. Sends reach the
 queue at once and are not undone by a rollback. Any transaction may also rewrite
 the progress columns of a run row from an arbitrarily stale copy.
 */
module ClaimProtocol {
  import opened Wrappers
  import opened RunTables
  import opened RunService

  type TxId = nat

  // A run row: the columns rewritten from ORM copies, and the cluster claim.
  datatype Row = Row(progress: int, stamp: Option<TxId>)

  // `owed` is a claim just won whose dispatch has not happened yet.
  datatype Tx = Tx(held: seq<ClaimKey>, owed: Option<ClaimKey>, writes: map<Uuid, int>)

  datatype World = World(
    rows: map<Uuid, Row>,
    claims: map<ClaimKey, TxId>,
    open: map<TxId, Tx>,
    committed: set<TxId>,
    aborted: set<TxId>,
    sends: seq<(TxId, ClaimKey)>,
    builds: set<(TxId, ClaimKey)>,
    grants: seq<(TxId, ClaimKey)>)

  datatype Step =
    | Begin(t: TxId)
    | Win(t: TxId, k: ClaimKey)
    | Lose(t: TxId, k: ClaimKey)
    | Send(t: TxId)
    | Build(t: TxId)
    | Rewrite(t: TxId, runId: Uuid, progress: int)
    | Commit(t: TxId)
    | Abort(t: TxId)

  function RunOf(k: ClaimKey): Uuid {
    match k
    case HygieneClaim(r, _) => r
    case CategoryClaim(r, _) => r
    case ClusterClaim(r) => r
  }

  // The transaction whose committed claim this is.
  function Owner(w: World, k: ClaimKey): Option<TxId> {
    if k.ClusterClaim? then (if k.clusterRun in w.rows then w.rows[k.clusterRun].stamp else None)
    else if k in w.claims then Some(w.claims[k])
    else None
  }

  predicate Holds(w: World, t: TxId, k: ClaimKey) {
    t in w.open && k in w.open[t].held
  }

  predicate Free(w: World, k: ClaimKey) {
    RunOf(k) in w.rows && Owner(w, k).None? && forall t | t in w.open :: !Holds(w, t, k)
  }

  predicate Ready(w: World, t: TxId) {
    t in w.open && w.open[t].owed.None?
  }

  predicate Enabled(w: World, s: Step) {
    match s
    case Begin(t) => t !in w.open && t !in w.committed && t !in w.aborted
    case Win(t, k) => Ready(w, t) && Free(w, k)
    case Lose(t, k) => Ready(w, t) && (RunOf(k) !in w.rows || Owner(w, k).Some? || Holds(w, t, k))
    case Send(t) => t in w.open && w.open[t].owed.Some?
    case Build(t) => t in w.open && w.open[t].owed.Some? && w.open[t].owed.value.CategoryClaim?
    case Rewrite(t, r, _) => Ready(w, t) && r in w.rows
    case Commit(t) => Ready(w, t)
    case Abort(t) => t in w.open
  }

  function WriteRows(rows: map<Uuid, Row>, t: TxId, tx: Tx): map<Uuid, Row> {
    map r | r in rows ::
      Row(if r in tx.writes then tx.writes[r] else rows[r].progress,
          if ClusterClaim(r) in tx.held then Some(t) else rows[r].stamp)
  }

  function WriteClaims(claims: map<ClaimKey, TxId>, t: TxId, tx: Tx): map<ClaimKey, TxId> {
    claims + map k | k in tx.held && !k.ClusterClaim? :: t
  }

  function Tagged(t: TxId, keys: seq<ClaimKey>): seq<(TxId, ClaimKey)> {
    seq(|keys|, i requires 0 <= i < |keys| => (t, keys[i]))
  }

  function Next(w: World, s: Step): World
    requires Enabled(w, s)
  {
    match s
    case Begin(t) => w.(open := w.open[t := Tx([], None, map[])])
    case Win(t, k) => w.(open := w.open[t := w.open[t].(held := w.open[t].held + [k], owed := Some(k))])
    case Lose(_, _) => w
    case Send(t) =>
      w.(open := w.open[t := w.open[t].(owed := None)], sends := w.sends + [(t, w.open[t].owed.value)])
    case Build(t) =>
      w.(open := w.open[t := w.open[t].(owed := None)], builds := w.builds + {(t, w.open[t].owed.value)})
    case Rewrite(t, r, p) => w.(open := w.open[t := w.open[t].(writes := w.open[t].writes[r := p])])
    case Commit(t) =>
      var tx := w.open[t];
      w.(rows := WriteRows(w.rows, t, tx), claims := WriteClaims(w.claims, t, tx),
         open := w.open - {t}, committed := w.committed + {t}, grants := w.grants + Tagged(t, tx.held))
    case Abort(t) => w.(open := w.open - {t}, aborted := w.aborted + {t})
  }

  // A world in which nobody has started; claims of earlier runs may be there.
  predicate Start(w: World) {
    w.open == map[] && w.committed == {} && w.aborted == {} && w.sends == [] && w.builds == {} && w.grants == []
  }

  ghost predicate IsHistory(worlds: seq<World>, steps: seq<Step>) {
    && |worlds| == |steps| + 1 && Start(worlds[0])
    && forall i | 0 <= i < |steps| :: Enabled(worlds[i], steps[i]) && worlds[i + 1] == Next(worlds[i], steps[i])
  }

  // ------------------------------------------------------------------ invariant

  // Claims of open transactions are free of each other and of committed ones.
  ghost predicate HeldApart(w: World) {
    && (forall t, i, j | t in w.open && 0 <= i < j < |w.open[t].held| :: w.open[t].held[i] != w.open[t].held[j])
    && (forall t, k | Holds(w, t, k) :: Owner(w, k).None? && RunOf(k) in w.rows)
    && (forall t, t', k | Holds(w, t, k) && Holds(w, t', k) :: t == t')
  }

  ghost predicate GrantsUnique(w: World) {
    && (forall i, j | 0 <= i < j < |w.grants| :: w.grants[i].1 != w.grants[j].1)
    && (forall i | 0 <= i < |w.grants| ::
          Owner(w, w.grants[i].1) == Some(w.grants[i].0) && w.grants[i].0 in w.committed)
  }

  // A claim's dispatch happened in the transaction that took it.
  ghost predicate Dispatched(w: World, t: TxId, k: ClaimKey) {
    (t, k) in w.sends || ((t, k) in w.builds && k.CategoryClaim?)
  }

  ghost predicate DispatchedInTime(w: World) {
    && (forall g | g in w.grants :: Dispatched(w, g.0, g.1))
    && (forall t, k | Holds(w, t, k) && w.open[t].owed != Some(k) :: Dispatched(w, t, k))
    && (forall t | t in w.open && w.open[t].owed.Some? ::
        w.open[t].owed.value in w.open[t].held && (t, w.open[t].owed.value) !in w.sends)
  }

  ghost predicate SendsAccounted(w: World) {
    && (forall i, j | 0 <= i < j < |w.sends| :: w.sends[i] != w.sends[j])
    && (forall s | s in w.sends :: Holds(w, s.0, s.1) || s in w.grants || s.0 in w.aborted)
  }

  ghost predicate Phases(w: World) {
    forall t :: !(t in w.open && (t in w.committed || t in w.aborted)) && !(t in w.committed && t in w.aborted)
  }

  ghost predicate Inv(w: World) {
    HeldApart(w) && GrantsUnique(w) && DispatchedInTime(w) && SendsAccounted(w) && Phases(w)
  }

  // ----------------------------------------------------------- preservation

  lemma OwnerAfterCommit(w: World, t: TxId, k: ClaimKey)
    requires HeldApart(w) && Enabled(w, Commit(t))
    ensures Owner(Next(w, Commit(t)), k) == if k in w.open[t].held then Some(t) else Owner(w, k)
  {
    if k in w.open[t].held { assert Holds(w, t, k); }
  }

  // No other step changes an owner, a rewrite from a stale copy included.
  lemma OwnerOtherwise(w: World, s: Step, k: ClaimKey)
    requires Enabled(w, s) && !s.Commit?
    ensures Owner(Next(w, s), k) == Owner(w, k)
  {
  }

  // What the open transactions hold after a step.
  lemma HoldsAfter(w: World, s: Step, t: TxId, k: ClaimKey)
    requires Enabled(w, s)
    ensures Holds(Next(w, s), t, k) <==>
            && (Holds(w, t, k) || s == Win(t, k))
            && !(s.Commit? && s.t == t) && !(s.Abort? && s.t == t) && s != Begin(t)
  {
  }

  lemma HeldApartKept(w: World, s: Step)
    requires Inv(w) && Enabled(w, s)
    ensures HeldApart(Next(w, s))
  {
    var w' := Next(w, s);
    forall t, k | Holds(w', t, k) ensures Owner(w', k).None? && RunOf(k) in w'.rows {
      HoldsAfter(w, s, t, k);
      if s.Commit? {
        OwnerAfterCommit(w, s.t, k);
        if k in w.open[s.t].held { assert Holds(w, s.t, k); }
      } else {
        OwnerOtherwise(w, s, k);
      }
    }
    forall t, t', k | Holds(w', t, k) && Holds(w', t', k) ensures t == t' {
      HoldsAfter(w, s, t, k);
      HoldsAfter(w, s, t', k);
    }
  }

  lemma GrantsUniqueKept(w: World, s: Step)
    requires Inv(w) && Enabled(w, s)
    ensures GrantsUnique(Next(w, s))
  {
    var w' := Next(w, s);
    if s.Commit? {
      var held, n := w.open[s.t].held, |w.grants|;
      forall i | 0 <= i < |w'.grants|
        ensures Owner(w', w'.grants[i].1) == Some(w'.grants[i].0) && w'.grants[i].0 in w'.committed
      {
        OwnerAfterCommit(w, s.t, w'.grants[i].1);
        if i < n && w'.grants[i].1 in held { assert Holds(w, s.t, w.grants[i].1); }
      }
      forall i, j | 0 <= i < j < |w'.grants| ensures w'.grants[i].1 != w'.grants[j].1 {
        if j >= n { assert Holds(w, s.t, held[j - n]); }
      }
    } else {
      forall i | 0 <= i < |w'.grants| ensures Owner(w', w'.grants[i].1) == Some(w'.grants[i].0) {
        OwnerOtherwise(w, s, w.grants[i].1);
      }
    }
  }

  lemma DispatchedInTimeKept(w: World, s: Step)
    requires Inv(w) && Enabled(w, s)
    ensures DispatchedInTime(Next(w, s))
  {
    var w' := Next(w, s);
    forall g | g in w'.grants ensures Dispatched(w', g.0, g.1) {
      if g in w.grants {
        assert Dispatched(w, g.0, g.1);
      } else {
        assert s.Commit? && g.0 == s.t && Holds(w, g.0, g.1);
      }
    }
    forall t, k | Holds(w', t, k) && w'.open[t].owed != Some(k) ensures Dispatched(w', t, k) {
      HoldsAfter(w, s, t, k);
      if w.open[t].owed != Some(k) { assert Dispatched(w, t, k); }
    }
    forall t | t in w'.open && w'.open[t].owed.Some?
      ensures w'.open[t].owed.value in w'.open[t].held && (t, w'.open[t].owed.value) !in w'.sends
    {
      var k := w'.open[t].owed.value;
      if s == Win(t, k) {
        assert !Holds(w, t, k) && (t, k) !in w.grants && t !in w.aborted;
      }
    }
  }

  lemma SendsAccountedKept(w: World, s: Step)
    requires Inv(w) && Enabled(w, s)
    ensures SendsAccounted(Next(w, s))
  {
    var w' := Next(w, s);
    forall x | x in w'.sends ensures Holds(w', x.0, x.1) || x in w'.grants || x.0 in w'.aborted {
      HoldsAfter(w, s, x.0, x.1);
      if x in w.sends {
        if s == Commit(x.0) && Holds(w, x.0, x.1) {
          var i :| 0 <= i < |w.open[x.0].held| && w.open[x.0].held[i] == x.1;
          assert Tagged(x.0, w.open[x.0].held)[i] == x;
        }
      } else {
        assert s == Send(x.0) && w.open[x.0].owed == Some(x.1);
      }
    }
  }

  lemma InvKept(w: World, s: Step)
    requires Inv(w) && Enabled(w, s)
    ensures Inv(Next(w, s))
  {
    HeldApartKept(w, s);
    GrantsUniqueKept(w, s);
    DispatchedInTimeKept(w, s);
    SendsAccountedKept(w, s);
  }

  lemma {:induction false} InvReached(worlds: seq<World>, steps: seq<Step>, n: nat)
    requires IsHistory(worlds, steps) && n < |worlds|
    ensures Inv(worlds[n])
  {
    if n > 0 {
      InvReached(worlds, steps, n - 1);
      InvKept(worlds[n - 1], steps[n - 1]);
    }
  }

  // --------------------------------------------------------------- main results

  /** Over every interleaving each claim is committed at most once, by a
      transaction that dispatched it before committing. */
  lemma ClaimsCommittedOnce(worlds: seq<World>, steps: seq<Step>, n: nat)
    requires IsHistory(worlds, steps) && n < |worlds|
    ensures forall i, j | 0 <= i < j < |worlds[n].grants| :: worlds[n].grants[i].1 != worlds[n].grants[j].1
    ensures forall g | g in worlds[n].grants :: Dispatched(worlds[n], g.0, g.1)
  {
    InvReached(worlds, steps, n);
  }

  /** A committed claim keeps its owner for ever: no later commit takes it over and
      no progress rewrite erases it. */
  lemma {:induction false} ClaimsNeverErased(worlds: seq<World>, steps: seq<Step>, m: nat, n: nat, k: ClaimKey)
    requires IsHistory(worlds, steps) && m <= n < |worlds|
    ensures Owner(worlds[m], k).Some? ==> Owner(worlds[n], k) == Owner(worlds[m], k)
    decreases n
  {
    if m < n {
      ClaimsNeverErased(worlds, steps, m, n - 1, k);
      var w, s := worlds[n - 1], steps[n - 1];
      InvReached(worlds, steps, n - 1);
      if s.Commit? {
        OwnerAfterCommit(w, s.t, k);
        if k in w.open[s.t].held { assert Holds(w, s.t, k); }
      } else {
        OwnerOtherwise(w, s, k);
      }
    }
  }

  function Senders(w: World, k: ClaimKey): set<TxId> {
    set x | x in w.sends && x.1 == k :: x.0
  }

  /** A transaction sends at most once for a claim, and of all that sent for it at
      most one is not rolled back: duplicates come from rolled-back winners only. */
  lemma DuplicatesOnlyFromRollbacks(worlds: seq<World>, steps: seq<Step>, n: nat, k: ClaimKey)
    requires IsHistory(worlds, steps) && n < |worlds|
    ensures var w := worlds[n];
            && (forall i, j | 0 <= i < j < |w.sends| :: w.sends[i] != w.sends[j])
            && |Senders(w, k) - w.aborted| <= 1
            && (forall t | t in Senders(w, k) && t !in w.aborted :: Holds(w, t, k) || Owner(w, k) == Some(t))
  {
    InvReached(worlds, steps, n);
    var w, live := worlds[n], Senders(worlds[n], k) - worlds[n].aborted;
    forall t | t in live ensures Holds(w, t, k) || Owner(w, k) == Some(t) {
      assert (t, k) in w.sends;
    }
    if live != {} {
      var t :| t in live;
      forall t' | t' in live ensures t' == t {
        assert Holds(w, t, k) || Owner(w, k) == Some(t);
        assert Holds(w, t', k) || Owner(w, k) == Some(t');
      }
      assert live == {t};
    }
  }

  /** A ready claimer is never stuck on its own: it wins, loses, or waits for one
      other open transaction. When that one rolls back the claim is free again,
      when it commits the claimer loses. */
  lemma ClaimerWaitsForHolderOnly(w: World, t: TxId, k: ClaimKey)
    requires Inv(w) && Ready(w, t)
    ensures !(Enabled(w, Win(t, k)) && Enabled(w, Lose(t, k)))
    ensures !Enabled(w, Win(t, k)) && !Enabled(w, Lose(t, k)) <==> exists h :: h != t && Holds(w, h, k)
    ensures forall h | h != t && Holds(w, h, k) ::
              && Enabled(Next(w, Abort(h)), Win(t, k))
              && (Ready(w, h) ==> Enabled(Next(w, Commit(h)), Lose(t, k)))
  {
    forall h | h != t && Holds(w, h, k)
      ensures Owner(w, k).None? && RunOf(k) in w.rows
      ensures Enabled(Next(w, Abort(h)), Win(t, k))
      ensures Ready(w, h) ==> Enabled(Next(w, Commit(h)), Lose(t, k))
    {
      OwnerOtherwise(w, Abort(h), k);
      forall x | x in Next(w, Abort(h)).open ensures !Holds(Next(w, Abort(h)), x, k) {
        HoldsAfter(w, Abort(h), x, k);
      }
      if Ready(w, h) { OwnerAfterCommit(w, h, k); }
    }
  }
}
