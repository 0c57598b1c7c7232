/** What becomes of an inline row, read off the events: while its recipient is absent it stays, once it is
    handed over it goes, and with the recipient connected none is left. */
module InlineHistory {
  import opened Text
  import opened Messages
  import opened InlineDelivery

  /** The clock after these events. */
  function Clock(es: seq<Event>): int {
    if es == [] then 0 else Clock(es[..|es| - 1]) + (if es[|es| - 1].Tick? then es[|es| - 1].dt else 0)
  }

  predicate SuccessfulDelete(e: Event) {
    ((e.DeleteSent? || e.DeleteInline?) ==> e.ok)
  }

  /** No DELETE fails. */
  predicate DeletesWork(es: seq<Event>) {
    forall i :: 0 <= i < |es| ==> SuccessfulDelete(es[i])
  }

  predicate FullRead(s: State, e: Event)
    requires Enabled(s, e)
  {
    e.Fetch? ==> e.ok && Pending(s.rows, s.ids[s.procs[e.pid].conn], s.now) !! e.skipped
  }

  /** No fetch fails or breaks off. */
  predicate FetchesWork(s: State, es: seq<Event>)
    requires ValidRun(s, es)
    decreases |es|
  {
    es != [] ==> FullRead(s, es[0]) && FetchesWork(Next(s, es[0]), es[1..])
  }

  /** The last to register for this id is this connection, and it has not left. */
  predicate Online(es: seq<Event>, id: string, conn: nat) {
    exists i :: 0 <= i < |es| && es[i].Register? && es[i].id == id && es[i].conn == conn &&
      forall j :: i < j < |es| ==> es[j] != Unregister(conn) && !(es[j].Register? && es[j].id == id)
  }

  predicate EverConnected(es: seq<Event>, id: string) {
    exists i :: 0 <= i < |es| && es[i].Register? && es[i].id == id
  }

  // ---- What every step keeps -----------------------------------------------------------------------

  /** Someone is about to hand over or to delete this row. */
  predicate Cares(s: State, p: Proc, row: nat)
    requires row in s.archive
  {
    match p
    case SendLookup(r) => r == row
    case SendHand(r, _) => r == row
    case SendDelete(r) => r == row
    case SweepFetch(conn) => conn in s.ids && s.ids[conn] == s.archive[row].recipient
    case SweepHand(conn, _) => conn in s.ids && s.ids[conn] == s.archive[row].recipient
    case SweepDelete(conn) => conn in s.ids && s.ids[conn] == s.archive[row].recipient
    case Done => false
  }

  predicate Clears(s: State, p: Proc, row: nat)
    requires row in s.archive
  {
    Cares(s, p, row) && (p.SendDelete? || p.SweepHand? || p.SweepDelete?)
  }

  predicate Attended(s: State, row: nat)
    requires row in s.archive
  {
    exists pid :: pid in s.procs && Cares(s, s.procs[pid], row)
  }

  predicate Cleared(s: State, row: nat)
    requires row in s.archive
  {
    exists pid :: pid in s.procs && Clears(s, s.procs[pid], row)
  }

  /** An inline row handed over and still stored is about to be deleted. */
  ghost predicate HandedAreCleared(s: State) {
    forall r :: r in s.archive && r in s.rows && s.rows[r].envelope.Some? && Handed(s, r) ==> Cleared(s, r)
  }

  /** An unexpired inline row of a registered recipient is attended to. */
  ghost predicate OnlineAreAttended(s: State) {
    forall r ::
      (r in s.archive && r in s.rows && s.rows[r].envelope.Some? && Unexpired(s.rows[r], s.now) && s.rows[r].recipient in s.hub) ==>
        Attended(s, r)
  }

  lemma CaresStays(s: State, e: Event, pid: nat, row: nat)
    requires Enabled(s, e) && pid in s.procs && row in s.archive && Cares(s, s.procs[pid], row) && Mover(e) != Some(pid)
    ensures var t := Next(s, e); pid in t.procs && row in t.archive && t.procs[pid] == s.procs[pid] && Cares(t, t.procs[pid], row)
  {
    OnlyTheMoverMoves(s, e, pid);
    TablesGrow(s, e);
  }

  /** Whoever is about to delete a row still is after the step, or the row is gone. */
  lemma ClearedStays(s: State, e: Event, r: nat)
    requires RowsOk(s) && Enabled(s, e) && SuccessfulDelete(e) && r in s.archive && Cleared(s, r)
    requires r in Next(s, e).rows && Next(s, e).rows[r].envelope.Some? && r in s.rows
    ensures r in Next(s, e).archive && Cleared(Next(s, e), r)
  {
    var t := Next(s, e);
    RowsOnlyDisappear(s, e, r);
    TablesGrow(s, e);
    var pid :| pid in s.procs && Clears(s, s.procs[pid], r);
    if Mover(e) == Some(pid) {
      assert Clears(t, t.procs[pid], r);
    } else {
      CaresStays(s, e, pid, r);
    }
  }

  lemma NewlyHanded(s: State, e: Event, r: nat)
    requires Inv(s) && Enabled(s, e) && r in s.archive && s.archive[r].envelope.Some?
    requires !Handed(s, r) && Handed(Next(s, e), r)
    ensures r in Next(s, e).archive && Cleared(Next(s, e), r)
  {
    var t := Next(s, e);
    TablesGrow(s, e);
    var h :| h in t.handed && h.row == r;
    assert h !in s.handed;
    assert e.HandLive? || e.HandFetched?;
    assert ProcOk(s, s.procs[e.pid]);
    assert Clears(t, t.procs[e.pid], r);
  }

  lemma RowWasThere(s: State, e: Event, r: nat)
    requires RowsOk(s) && Enabled(s, e) && r in s.archive && r in Next(s, e).rows
    ensures r in s.rows && Next(s, e).rows[r] == s.rows[r] && s.archive[r] == s.rows[r]
  {}

  lemma NewRowsAreUnhanded(s: State, e: Event, r: nat)
    requires HandedOk(s) && Enabled(s, e) && Handed(Next(s, e), r) && r in Next(s, e).archive
    ensures r in s.archive
  {
    var h :| h in Next(s, e).handed && h.row == r;
    assert h in s.handed || e.HandLive? || e.HandFetched?;
  }

  lemma HandedStaysCleared(s: State, e: Event)
    requires Inv(s) && Enabled(s, e) && SuccessfulDelete(e) && HandedAreCleared(s)
    ensures HandedAreCleared(Next(s, e))
  {
    var t := Next(s, e);
    TablesGrow(s, e);
    forall r | r in t.archive && r in t.rows && t.rows[r].envelope.Some? && Handed(t, r) ensures Cleared(t, r) {
      NewRowsAreUnhanded(s, e, r);
      RowWasThere(s, e, r);
      if Handed(s, r) {
        ClearedStays(s, e, r);
      } else {
        NewlyHanded(s, e, r);
      }
    }
  }

  lemma FetchFindsTheRow(s: State, e: Event, r: nat)
    requires Enabled(s, e) && e.Fetch? && FullRead(s, e) && r in s.rows && r in s.archive && s.archive[r] == s.rows[r]
    requires Unexpired(s.rows[r], s.now) && Cares(s, s.procs[e.pid], r)
    ensures Cares(Next(s, e), Next(s, e).procs[e.pid], r)
  {
    assert r in Pending(s.rows, s.ids[s.procs[e.pid].conn], s.now) - e.skipped;
  }

  lemma CarerMoves(s: State, e: Event, r: nat)
    requires RowsOk(s) && Enabled(s, e) && SuccessfulDelete(e) && FullRead(s, e) && r in s.archive
    requires Mover(e).Some? && Mover(e).value in s.procs && Cares(s, s.procs[Mover(e).value], r)
    requires r in s.rows && r in Next(s, e).rows && Next(s, e).rows[r].envelope.Some?
    requires Unexpired(s.rows[r], s.now) && s.rows[r].recipient in s.hub
    ensures r in Next(s, e).archive && Cares(Next(s, e), Next(s, e).procs[Mover(e).value], r)
  {
    if e.Fetch? {
      FetchFindsTheRow(s, e, r);
    }
  }

  lemma AttendedStays(s: State, e: Event, r: nat)
    requires RowsOk(s) && Enabled(s, e) && SuccessfulDelete(e) && FullRead(s, e) && r in s.archive && Attended(s, r)
    requires r in s.rows && r in Next(s, e).rows && Next(s, e).rows[r].envelope.Some?
    requires Unexpired(s.rows[r], s.now) && s.rows[r].recipient in s.hub
    ensures r in Next(s, e).archive && Attended(Next(s, e), r)
  {
    var t := Next(s, e);
    RowsOnlyDisappear(s, e, r);
    TablesGrow(s, e);
    var pid :| pid in s.procs && Cares(s, s.procs[pid], r);
    if Mover(e) == Some(pid) {
      CarerMoves(s, e, r);
    } else {
      CaresStays(s, e, pid, r);
    }
  }

  lemma NewlyAttended(s: State, e: Event, r: nat)
    requires RowsOk(s) && Enabled(s, e) && r in Next(s, e).archive && r in Next(s, e).rows
    requires Next(s, e).rows[r].envelope.Some? && Next(s, e).rows[r].recipient in Next(s, e).hub
    requires r !in s.archive || s.archive[r].recipient !in s.hub
    ensures Attended(Next(s, e), r)
  {
    var t := Next(s, e);
    assert e.StoreInline? || e.Register?;
    assert r in s.archive ==> r in s.rows;
    assert Cares(t, t.procs[e.pid], r);
  }

  lemma OnlineStaysAttended(s: State, e: Event)
    requires Inv(s) && Enabled(s, e) && SuccessfulDelete(e) && FullRead(s, e) && OnlineAreAttended(s)
    ensures OnlineAreAttended(Next(s, e))
  {
    var t := Next(s, e);
    TablesGrow(s, e);
    forall r | r in t.archive && r in t.rows && t.rows[r].envelope.Some? && Unexpired(t.rows[r], t.now) && t.rows[r].recipient in t.hub
      ensures Attended(t, r)
    {
      if r in s.archive {
        RowWasThere(s, e, r);
      }
      if r in s.archive && s.archive[r].recipient in s.hub {
        RowsOnlyDisappear(s, e, r);
        AttendedStays(s, e, r);
      } else {
        NewlyAttended(s, e, r);
      }
    }
  }

  lemma {:induction false} HandedRun(s: State, es: seq<Event>)
    requires Inv(s) && ValidRun(s, es) && DeletesWork(es) && HandedAreCleared(s)
    ensures Inv(After(s, es)) && HandedAreCleared(After(s, es))
    decreases |es|
  {
    if es != [] {
      InvStep(s, es[0]);
      HandedStaysCleared(s, es[0]);
      HandedRun(Next(s, es[0]), es[1..]);
    }
  }

  lemma {:induction false} OnlineRun(s: State, es: seq<Event>)
    requires Inv(s) && ValidRun(s, es) && DeletesWork(es) && FetchesWork(s, es) && OnlineAreAttended(s)
    ensures Inv(After(s, es)) && OnlineAreAttended(After(s, es))
    decreases |es|
  {
    if es != [] {
      InvStep(s, es[0]);
      OnlineStaysAttended(s, es[0]);
      OnlineRun(Next(s, es[0]), es[1..]);
    }
  }

  // ---- What the events say -------------------------------------------------------------------------

  /** Every unexpired inline row ever stored is in the table or was removed early. */
  ghost predicate StoredOrRemoved(s: State) {
    forall r :: r in s.archive && s.archive[r].envelope.Some? && Unexpired(s.archive[r], s.now) ==> r in s.rows || r in s.removed
  }

  ghost predicate RemovedHadConnections(s: State) {
    forall r :: r in s.removed ==> r in s.archive && exists c :: c in s.ids && s.ids[c] == s.archive[r].recipient
  }

  lemma StoredOrRemovedStep(s: State, e: Event)
    requires RowsOk(s) && Enabled(s, e) && StoredOrRemoved(s)
    ensures StoredOrRemoved(Next(s, e))
  {
    var t := Next(s, e);
    forall r | r in t.archive && t.archive[r].envelope.Some? && Unexpired(t.archive[r], t.now) ensures r in t.rows || r in t.removed {
      assert r in s.archive ==> t.archive[r] == s.archive[r] && s.now <= t.now;
      assert r in s.rows && r !in t.rows ==> e.DeleteSent? || e.DeleteInline? || e.Prune? || e.DropFile?;
    }
  }

  lemma RemovedHadConnectionsStep(s: State, e: Event)
    requires Inv(s) && Enabled(s, e) && RemovedHadConnections(s)
    ensures RemovedHadConnections(Next(s, e))
  {
    var t := Next(s, e);
    TablesGrow(s, e);
    forall r | r in t.removed ensures r in t.archive && exists c :: c in t.ids && t.ids[c] == t.archive[r].recipient {
      if r in s.removed {
        var c :| c in s.ids && s.ids[c] == s.archive[r].recipient;
        assert t.ids[c] == t.archive[r].recipient;
      } else {
        assert r in s.archive;
        var c := RemovalNeedsAConnection(s, e, r);
        assert t.ids[c] == t.archive[r].recipient;
      }
    }
  }

  lemma {:induction false} FateRun(s: State, es: seq<Event>)
    requires Tidy(s) && ValidRun(s, es) && StoredOrRemoved(s) && RemovedHadConnections(s)
    ensures var t := After(s, es); Tidy(t) && StoredOrRemoved(t) && RemovedHadConnections(t)
    decreases |es|
  {
    if es != [] {
      TidyStep(s, es[0]);
      StoredOrRemovedStep(s, es[0]);
      RemovedHadConnectionsStep(s, es[0]);
      FateRun(Next(s, es[0]), es[1..]);
    }
  }

  /** The last step of a run apart. */
  lemma {:induction false} LastStep(s: State, es: seq<Event>)
    requires ValidRun(s, es) && es != []
    ensures var front, last := es[..|es| - 1], es[|es| - 1];
            ValidRun(s, front) && Enabled(After(s, front), last) && After(s, es) == Next(After(s, front), last)
    decreases |es|
  {
    if |es| > 1 {
      LastStep(Next(s, es[0]), es[1..]);
      assert es[1..][..|es| - 2] == es[..|es| - 1][1..];
    }
  }

  lemma {:induction false} ClockIsNow(es: seq<Event>)
    requires ValidRun(Init(), es)
    ensures After(Init(), es).now == Clock(es)
    decreases |es|
  {
    if es != [] {
      LastStep(Init(), es);
      ClockIsNow(es[..|es| - 1]);
    }
  }

  lemma {:induction false} StoredAsSent(es: seq<Event>, i: nat)
    requires ValidRun(Init(), es) && i < |es| && es[i].StoreInline?
    ensures var s := After(Init(), es);
            es[i].row in s.archive &&
            s.archive[es[i].row] == Message(es[i].recipient, es[i].sender, Some(es[i].envelope), None, Clock(es[..i]) + es[i].ttl)
    decreases |es|
  {
    var n := |es| - 1;
    LastStep(Init(), es);
    if i == n {
      ClockIsNow(es[..n]);
    } else {
      StoredAsSent(es[..n], i);
      assert es[..n][..i] == es[..i];
      TablesGrow(After(Init(), es[..n]), es[n]);
    }
  }

  lemma OnlineNext(es: seq<Event>, e: Event, id: string, conn: nat)
    ensures Online(es + [e], id, conn) <==>
            (e.Register? && e.id == id && e.conn == conn) ||
            (Online(es, id, conn) && e != Unregister(conn) && !(e.Register? && e.id == id))
  {
    var more := es + [e];
    assert forall i :: 0 <= i < |es| ==> more[i] == es[i];
    if Online(more, id, conn) {
      var i :| 0 <= i < |more| && more[i].Register? && more[i].id == id && more[i].conn == conn &&
        forall j :: i < j < |more| ==> more[j] != Unregister(conn) && !(more[j].Register? && more[j].id == id);
      assert i < |es| ==> es[i] == more[i] && forall j :: i < j < |es| ==> es[j] == more[j];
      assert more[|es|] == e;
    }
    if e.Register? && e.id == id && e.conn == conn {
      assert more[|es|] == e;
    } else if Online(es, id, conn) && e != Unregister(conn) && !(e.Register? && e.id == id) {
      var i :| 0 <= i < |es| && es[i].Register? && es[i].id == id && es[i].conn == conn &&
        forall j :: i < j < |es| ==> es[j] != Unregister(conn) && !(es[j].Register? && es[j].id == id);
      assert more[i] == es[i] && forall j :: i < j < |more| ==> more[j] == if j < |es| then es[j] else e;
    }
  }

  predicate InHub(s: State, id: string, conn: nat) {
    id in s.hub && s.hub[id] == conn
  }

  lemma HubEntryStep(s: State, e: Event, id: string, conn: nat)
    requires HubOk(s) && Enabled(s, e)
    ensures HubOk(Next(s, e))
    ensures InHub(Next(s, e), id, conn) <==>
            (e.Register? && e.id == id && e.conn == conn) ||
            (InHub(s, id, conn) && e != Unregister(conn) && !(e.Register? && e.id == id))
  {}

  /** The map has a connection for an id exactly when it is the last to have registered for it and has
      not left since. */
  lemma {:induction false} HubIsTheLastRegistered(es: seq<Event>, id: string, conn: nat)
    requires ValidRun(Init(), es)
    ensures HubOk(After(Init(), es))
    ensures InHub(After(Init(), es), id, conn) <==> Online(es, id, conn)
    decreases |es|
  {
    if es != [] {
      var front, last := es[..|es| - 1], es[|es| - 1];
      LastStep(Init(), es);
      HubIsTheLastRegistered(front, id, conn);
      HubEntryStep(After(Init(), front), last, id, conn);
      OnlineNext(front, last, id, conn);
      assert es == front + [last];
    }
  }

  lemma {:induction false} ConnectionsRegistered(es: seq<Event>, c: nat)
    requires ValidRun(Init(), es) && c in After(Init(), es).ids
    ensures EverConnected(es, After(Init(), es).ids[c])
    decreases |es|
  {
    if es != [] {
      var n := |es| - 1;
      LastStep(Init(), es);
      if c in After(Init(), es[..n]).ids && !(es[n].Register? && es[n].conn == c) {
        ConnectionsRegistered(es[..n], c);
        var id := After(Init(), es).ids[c];
        var i :| 0 <= i < n && es[..n][i].Register? && es[..n][i].id == id;
        assert es[i].Register? && es[i].id == id;
      } else {
        assert es[n].Register?;
      }
    }
  }

  // ---- Results -------------------------------------------------------------------------------------

  /** Until an inline row expires it is in the table as it was sent or was removed early, never both; and
      for a recipient who has never connected it is in the table. */
  lemma StoredUntilRemoved(es: seq<Event>, i: nat)
    requires ValidRun(Init(), es) && i < |es| && es[i].StoreInline?
    requires Clock(es) < Clock(es[..i]) + es[i].ttl
    ensures var s, row := After(Init(), es), es[i].row;
            && (row in s.rows <==> row !in s.removed)
            && (row in s.rows ==> s.rows[row] == Message(es[i].recipient, es[i].sender, Some(es[i].envelope), None, Clock(es[..i]) + es[i].ttl))
            && (!EverConnected(es, es[i].recipient) ==> row in s.rows)
  {
    var s, row := After(Init(), es), es[i].row;
    ClockIsNow(es);
    StoredAsSent(es, i);
    FateRun(Init(), es);
    if row in s.removed {
      var c :| c in s.ids && s.ids[c] == s.archive[row].recipient;
      ConnectionsRegistered(es, c);
    }
  }

  /** A prune at or after its expiry takes a row for good. */
  lemma {:induction false} PrunedRowsAreGone(es: seq<Event>, i: nat, j: nat)
    requires ValidRun(Init(), es) && i < j < |es| && es[i].StoreInline? && es[j].Prune?
    requires Clock(es[..i]) + es[i].ttl <= Clock(es[..j])
    ensures es[i].row !in After(Init(), es).rows
    decreases |es|
  {
    var front, n := es[..|es| - 1], |es| - 1;
    LastStep(Init(), es);
    InvRun(Init(), front);
    StoredAsSent(front, i);
    assert front[..i] == es[..i];
    if j < n {
      assert front[..j] == es[..j];
      PrunedRowsAreGone(front, i, j);
    } else {
      ClockIsNow(front);
    }
  }

  /** Main result: in every interleaving in which no DELETE fails, once all goroutines have ended no
      inline row that was handed over is stored any more. */
  lemma HandedRowsAreGone(es: seq<Event>, i: nat)
    requires ValidRun(Init(), es) && Quiet(After(Init(), es)) && DeletesWork(es)
    requires i < |es| && es[i].StoreInline? && Handed(After(Init(), es), es[i].row)
    ensures es[i].row !in After(Init(), es).rows
  {
    StoredAsSent(es, i);
    HandedRun(Init(), es);
  }

  /** Main result: if in addition no fetch fails or breaks off, then nothing is left for whoever is
      connected: each unexpired inline row sent to them was removed, and unless a step of the run
      loses a row, it was handed to one of their connections. */
  lemma NothingIsLeftForTheConnected(es: seq<Event>, i: nat, conn: nat)
    requires ValidRun(Init(), es) && Quiet(After(Init(), es)) && DeletesWork(es) && FetchesWork(Init(), es)
    requires i < |es| && es[i].StoreInline? && Online(es, es[i].recipient, conn)
    requires Clock(es) < Clock(es[..i]) + es[i].ttl
    ensures var s, row := After(Init(), es), es[i].row;
            row !in s.rows && (NeverLoses(Init(), es) ==> HandedToRecipient(s, row))
  {
    StoredUntilRemoved(es, i);
    ClockIsNow(es);
    StoredAsSent(es, i);
    OnlineRun(Init(), es);
    HubIsTheLastRegistered(es, es[i].recipient, conn);
    RemovedRowsAreHandedExactly(es);
  }
}
