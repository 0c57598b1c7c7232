/** The Postgres-inline path. A sender stores its row before it looks the recipient up; a
    connecting recipient registers before it fetches, and then deletes every inline row of
    its id, fetched or not. Each statement is one step of an arbitrary interleaving. */
module InlineDelivery {
  import opened Text
  import opened Messages

  datatype Proc =
    | SendLookup(row: nat)                                      // stored, about to look up
    | SendHand(row: nat, conn: nat)                             // found a client, about to SendJSON
    | SendDelete(row: nat)                                      // handed, about to delete the row
    | SweepFetch(conn: nat)                                     // registered, about to fetch
    | SweepHand(conn: nat, snapshot: set<nat>)                  // handing the fetched rows one by one
    | SweepDelete(conn: nat)                                    // about to delete the inline rows
    | Done

  datatype Handover = Handover(row: nat, conn: nat)

  /** `ids` names the identity behind each connection, `archive` every row ever stored,
      `handed` the calls to SendJSON, `removed` the inline rows deleted before they expired,
      `missed` the rows whose lookup failed while a sweep of their recipient was under way or
      after one had removed them, and `unread` the rows that a fetch should have read and did not. */
  datatype State = State(
    now: int,
    rows: Table,
    archive: Table,
    hub: map<string, nat>,
    ids: map<nat, string>,
    procs: map<nat, Proc>,
    handed: set<Handover>,
    removed: set<nat>,
    missed: set<nat>,
    unread: set<nat>)

  datatype Event =
    | Tick(dt: nat)
    | StoreInline(pid: nat, row: nat, recipient: string, sender: string, envelope: string, ttl: int)
    | StoreFile(row: nat, recipient: string, sender: string, url: string, ttl: int)
    | Lookup(pid: nat)
    | HandLive(pid: nat)
    | DeleteSent(pid: nat, ok: bool)
    | Register(pid: nat, conn: nat, id: string)
    | Unregister(conn: nat)
    | Fetch(pid: nat, ok: bool, skipped: set<nat>)  // a read that breaks off skips rows without an error
    | HandFetched(pid: nat, row: nat)
    | FinishHanding(pid: nat)
    | DeleteInline(pid: nat, ok: bool)
    | Prune
    | DropFile(row: nat)

  function Init(): State {
    State(0, map[], map[], map[], map[], map[], {}, {}, {}, {})
  }

  predicate In(s: State, pid: nat) {
    pid in s.procs
  }

  predicate Enabled(s: State, e: Event) {
    match e
    case Tick(_) => true
    case StoreInline(pid, row, _, _, _, _) => pid !in s.procs && row !in s.archive
    case StoreFile(row, _, _, _, _) => row !in s.archive
    case Lookup(pid) => In(s, pid) && s.procs[pid].SendLookup? && s.procs[pid].row in s.archive
    case HandLive(pid) => In(s, pid) && s.procs[pid].SendHand?
    case DeleteSent(pid, _) => In(s, pid) && s.procs[pid].SendDelete?
    case Register(pid, conn, _) => pid !in s.procs && conn !in s.ids
    case Unregister(conn) => conn in s.ids
    case Fetch(pid, _, _) => In(s, pid) && s.procs[pid].SweepFetch? && s.procs[pid].conn in s.ids
    case HandFetched(pid, row) => In(s, pid) && s.procs[pid].SweepHand? && row in s.procs[pid].snapshot && row in s.archive
    case FinishHanding(pid) => In(s, pid) && s.procs[pid].SweepHand? && s.procs[pid].snapshot == {}
    case DeleteInline(pid, _) => In(s, pid) && s.procs[pid].SweepDelete? && s.procs[pid].conn in s.ids
    case Prune => true
    case DropFile(row) => row in s.rows && s.rows[row].envelope == None
  }

  function Goto(s: State, pid: nat, p: Proc): State {
    s.(procs := s.procs[pid := p])
  }

  /** The inline rows in `gone` that had not expired yet. */
  function Early(s: State, gone: set<nat>): set<nat> {
    set r | r in gone && r in s.rows && s.rows[r].envelope.Some? && Unexpired(s.rows[r], s.now)
  }

  predicate SweepsFor(s: State, pid: nat, id: string) {
    In(s, pid) && (s.procs[pid].SweepHand? || s.procs[pid].SweepDelete?) &&
    s.procs[pid].conn in s.ids && s.ids[s.procs[pid].conn] == id
  }

  /** A fetched list of this id is still being worked off. */
  predicate SweepUnderWay(s: State, id: string) {
    exists pid :: pid in s.procs && SweepsFor(s, pid, id)
  }

  function Next(s: State, e: Event): State
    requires Enabled(s, e)
  {
    match e
    case Tick(dt) => s.(now := s.now + dt)
    case StoreInline(pid, row, recipient, sender, envelope, ttl) =>
      var m := Message(recipient, sender, Some(envelope), None, s.now + ttl);
      Goto(s, pid, SendLookup(row)).(rows := s.rows[row := m], archive := s.archive[row := m])
    case StoreFile(row, recipient, sender, url, ttl) =>
      var m := Message(recipient, sender, None, Some(url), s.now + ttl);
      s.(rows := s.rows[row := m], archive := s.archive[row := m])
    case Lookup(pid) =>
      var row := s.procs[pid].row;
      var recipient := s.archive[row].recipient;
      if recipient in s.hub then Goto(s, pid, SendHand(row, s.hub[recipient]))
      else Goto(s, pid, Done).(missed := if SweepUnderWay(s, recipient) || row in s.removed then s.missed + {row} else s.missed)
    case HandLive(pid) =>
      var p := s.procs[pid];
      Goto(s, pid, SendDelete(p.row)).(handed := s.handed + {Handover(p.row, p.conn)})
    case DeleteSent(pid, ok) =>
      var row := s.procs[pid].row;
      if ok then Goto(s, pid, Done).(rows := Without(s.rows, row), removed := s.removed + Early(s, {row}))
      else Goto(s, pid, Done)
    case Register(pid, conn, id) =>
      Goto(s, pid, SweepFetch(conn)).(hub := s.hub[id := conn], ids := s.ids[conn := id])
    case Unregister(conn) =>
      var id := s.ids[conn];
      if id in s.hub && s.hub[id] == conn then s.(hub := s.hub - {id}) else s
    case Fetch(pid, ok, skipped) =>
      var conn := s.procs[pid].conn;
      var pending := Pending(s.rows, s.ids[conn], s.now);
      if ok && pending - skipped != {}
      then Goto(s, pid, SweepHand(conn, pending - skipped)).(unread := s.unread + pending * skipped)
      else Goto(s, pid, Done)
    case HandFetched(pid, row) =>
      var p := s.procs[pid];
      Goto(s, pid, SweepHand(p.conn, p.snapshot - {row})).
      (handed := if s.archive[row].envelope.Some? then s.handed + {Handover(row, p.conn)} else s.handed)
    case FinishHanding(pid) => Goto(s, pid, SweepDelete(s.procs[pid].conn))
    case DeleteInline(pid, ok) =>
      var id := s.ids[s.procs[pid].conn];
      if ok then
        Goto(s, pid, Done).(rows := WithoutInline(s.rows, id),
                            removed := s.removed + Early(s, s.rows.Keys - WithoutInline(s.rows, id).Keys))
      else Goto(s, pid, Done)
    case Prune =>
      s.(rows := WithoutExpired(s.rows, s.now),
         removed := s.removed + Early(s, s.rows.Keys - WithoutExpired(s.rows, s.now).Keys))
    case DropFile(row) => s.(rows := Without(s.rows, row))
  }

  predicate ValidRun(s: State, es: seq<Event>)
    decreases |es|
  {
    es == [] || (Enabled(s, es[0]) && ValidRun(Next(s, es[0]), es[1..]))
  }

  function After(s: State, es: seq<Event>): State
    requires ValidRun(s, es)
    decreases |es|
  {
    if es == [] then s else After(Next(s, es[0]), es[1..])
  }

  // ---- The invariant ------------------------------------------------------------

  predicate Sends(p: Proc, row: nat) {
    (p.SendLookup? || p.SendHand?) && p.row == row
  }

  /** The row's own sender has yet to look up or to hand the envelope over. */
  predicate AtSender(s: State, row: nat) {
    exists pid :: pid in s.procs && Sends(s.procs[pid], row)
  }

  predicate Handed(s: State, row: nat) {
    exists h :: h in s.handed && h.row == row
  }

  predicate Safe(s: State, row: nat) {
    Handed(s, row) || AtSender(s, row) || row in s.missed || row in s.unread
  }

  ghost predicate RowsOk(s: State) {
    forall r :: r in s.rows ==> r in s.archive && s.archive[r] == s.rows[r]
  }

  ghost predicate HubOk(s: State) {
    forall id :: id in s.hub ==> s.hub[id] in s.ids && s.ids[s.hub[id]] == id
  }

  ghost predicate HandedOk(s: State) {
    forall h :: h in s.handed ==> h.row in s.archive && h.conn in s.ids && s.ids[h.conn] == s.archive[h.row].recipient
  }

  ghost predicate TablesOk(s: State) {
    RowsOk(s) && HubOk(s) && HandedOk(s)
  }

  ghost predicate ProcOk(s: State, p: Proc) {
    match p
    case SendLookup(row) => row in s.archive
    case SendHand(row, conn) => row in s.archive && conn in s.ids && s.ids[conn] == s.archive[row].recipient
    case SendDelete(row) => Handed(s, row)
    case SweepFetch(conn) => conn in s.ids
    case SweepHand(conn, snapshot) =>
      && conn in s.ids
      && (forall r :: r in snapshot ==> r in s.archive && s.archive[r].recipient == s.ids[conn])
      && (forall r :: r in s.rows && InlineFor(s.rows[r], s.ids[conn]) && Unexpired(s.rows[r], s.now) ==>
            r in snapshot || Safe(s, r))
    case SweepDelete(conn) =>
      && conn in s.ids
      && (forall r :: r in s.rows && InlineFor(s.rows[r], s.ids[conn]) && Unexpired(s.rows[r], s.now) ==> Safe(s, r))
    case Done => true
  }

  ghost predicate Inv(s: State) {
    && TablesOk(s)
    && (forall pid :: pid in s.procs ==> ProcOk(s, s.procs[pid]))
    && (forall r :: r in s.removed ==> r in s.archive && Safe(s, r))
  }

  function Mover(e: Event): Option<nat> {
    match e
    case Tick(_) => None
    case StoreInline(pid, _, _, _, _, _) => Some(pid)
    case StoreFile(_, _, _, _, _) => None
    case Lookup(pid) => Some(pid)
    case HandLive(pid) => Some(pid)
    case DeleteSent(pid, _) => Some(pid)
    case Register(pid, _, _) => Some(pid)
    case Unregister(_) => None
    case Fetch(pid, _, _) => Some(pid)
    case HandFetched(pid, _) => Some(pid)
    case FinishHanding(pid) => Some(pid)
    case DeleteInline(pid, _) => Some(pid)
    case Prune => None
    case DropFile(_) => None
  }

  lemma HandedGrows(s: State, e: Event)
    requires Enabled(s, e)
    ensures s.handed <= Next(s, e).handed
  {}

  lemma OnlyTheMoverMoves(s: State, e: Event, pid: nat)
    requires Enabled(s, e) && pid in s.procs && Mover(e) != Some(pid)
    ensures pid in Next(s, e).procs && Next(s, e).procs[pid] == s.procs[pid]
  {}

  lemma TablesGrow(s: State, e: Event)
    requires Enabled(s, e)
    ensures forall r :: r in s.archive ==> r in Next(s, e).archive && Next(s, e).archive[r] == s.archive[r]
    ensures forall c :: c in s.ids ==> c in Next(s, e).ids && Next(s, e).ids[c] == s.ids[c]
  {}

  lemma SenderMoves(s: State, e: Event, row: nat)
    requires Enabled(s, e) && Mover(e).Some? && In(s, Mover(e).value) && Sends(s.procs[Mover(e).value], row)
    requires row in s.archive && (SweepUnderWay(s, s.archive[row].recipient) || row in s.removed)
    ensures Safe(Next(s, e), row)
  {
    var t := Next(s, e);
    if e.HandLive? {
      assert Handover(row, s.procs[e.pid].conn) in t.handed;
    } else {
      assert e.Lookup?;
      assert Sends(t.procs[e.pid], row) || row in t.missed;
    }
  }

  /** An accounted row stays accounted, except when its sender misses the recipient before
      any sweep could have taken the row. */
  lemma SafeKept(s: State, e: Event, row: nat)
    requires Inv(s) && Enabled(s, e) && Safe(s, row)
    requires row in s.archive && (SweepUnderWay(s, s.archive[row].recipient) || row in s.removed)
    ensures Safe(Next(s, e), row)
  {
    HandedGrows(s, e);
    if h :| h in s.handed && h.row == row {
      assert h in Next(s, e).handed;
    } else if pid :| pid in s.procs && Sends(s.procs[pid], row) {
      if Mover(e) == Some(pid) {
        SenderMoves(s, e, row);
      } else {
        OnlyTheMoverMoves(s, e, pid);
        assert Sends(Next(s, e).procs[pid], row);
      }
    }
  }

  lemma HubStep(s: State, e: Event)
    requires HubOk(s) && Enabled(s, e)
    ensures HubOk(Next(s, e))
  {}

  lemma HandedStep(s: State, e: Event)
    requires HandedOk(s) && Enabled(s, e)
    requires (e.HandLive? || e.HandFetched?) ==> ProcOk(s, s.procs[e.pid])
    ensures HandedOk(Next(s, e))
  {
    var t := Next(s, e);
    forall h | h in t.handed ensures h.row in t.archive && h.conn in t.ids && t.ids[h.conn] == t.archive[h.row].recipient {
      assert h in s.handed || t.handed != s.handed;
    }
  }

  lemma TablesStep(s: State, e: Event)
    requires Inv(s) && Enabled(s, e)
    ensures TablesOk(Next(s, e))
  {
    var t := Next(s, e);
    assert RowsOk(t);
    HubStep(s, e);
    if e.HandLive? || e.HandFetched? {
      assert ProcOk(s, s.procs[e.pid]);
    }
    HandedStep(s, e);
  }

  lemma NewRowIsSafe(s: State, e: Event, row: nat)
    requires Enabled(s, e) && row in Next(s, e).rows && row !in s.rows && Next(s, e).rows[row].envelope.Some?
    ensures Safe(Next(s, e), row)
  {
    assert e.StoreInline? && Sends(Next(s, e).procs[e.pid], row);
  }

  lemma RowsOnlyDisappear(s: State, e: Event, r: nat)
    requires RowsOk(s) && Enabled(s, e) && r in s.rows && r in Next(s, e).rows
    ensures Next(s, e).rows[r] == s.rows[r] && s.now <= Next(s, e).now
  {}

  /** A sweep under way keeps every unexpired inline row either in its list or accounted. */
  lemma SweepKept(s: State, e: Event, pid: nat, conn: nat, snapshot: set<nat>)
    requires Inv(s) && Enabled(s, e) && conn in s.ids && SweepsFor(s, pid, s.ids[conn])
    requires forall r :: r in s.rows && InlineFor(s.rows[r], s.ids[conn]) && Unexpired(s.rows[r], s.now) ==>
               r in snapshot || Safe(s, r)
    ensures var t := Next(s, e); conn in t.ids && t.ids[conn] == s.ids[conn]
    ensures var t := Next(s, e);
            forall r :: r in t.rows && InlineFor(t.rows[r], s.ids[conn]) && Unexpired(t.rows[r], t.now) ==>
              r in snapshot || Safe(t, r)
  {
    var t := Next(s, e);
    forall r | r in t.rows && InlineFor(t.rows[r], s.ids[conn]) && Unexpired(t.rows[r], t.now) && r !in snapshot
      ensures Safe(t, r)
    {
      if r !in s.rows {
        NewRowIsSafe(s, e, r);
      } else {
        RowsOnlyDisappear(s, e, r);
        SafeKept(s, e, r);
      }
    }
  }

  /** Any goroutine that does not move keeps its facts. */
  lemma BystanderKept(s: State, e: Event, pid: nat)
    requires Inv(s) && Enabled(s, e) && pid in s.procs && Mover(e) != Some(pid)
    ensures pid in Next(s, e).procs && ProcOk(Next(s, e), s.procs[pid])
  {
    var t, p := Next(s, e), s.procs[pid];
    OnlyTheMoverMoves(s, e, pid);
    HandedGrows(s, e);
    TablesGrow(s, e);
    assert ProcOk(s, p);
    if p.SendDelete? {
      var h :| h in s.handed && h.row == p.row;
      assert h in t.handed;
    } else if p.SweepHand? {
      SweepKept(s, e, pid, p.conn, p.snapshot);
    } else if p.SweepDelete? {
      SweepKept(s, e, pid, p.conn, {});
    }
  }

  lemma SweepMoverOk(s: State, e: Event)
    requires Inv(s) && Enabled(s, e) && (e.HandFetched? || e.FinishHanding?)
    ensures ProcOk(Next(s, e), Next(s, e).procs[e.pid])
  {
    var t, p := Next(s, e), s.procs[e.pid];
    assert ProcOk(s, p) && SweepsFor(s, e.pid, s.ids[p.conn]);
    forall r | r in t.rows && InlineFor(t.rows[r], t.ids[p.conn]) && Unexpired(t.rows[r], t.now)
      ensures (e.HandFetched? && r in t.procs[e.pid].snapshot) || Safe(t, r)
    {
      if e.HandFetched? && r == e.row {
        assert Handover(r, p.conn) in t.handed;
      } else if !(e.HandFetched? && r in p.snapshot) {
        assert Safe(s, r);
        SafeKept(s, e, r);
      }
    }
  }

  lemma MoverOk(s: State, e: Event)
    requires Inv(s) && Enabled(s, e) && Mover(e).Some?
    ensures ProcOk(Next(s, e), Next(s, e).procs[Mover(e).value])
  {
    var t, pid := Next(s, e), Mover(e).value;
    assert In(s, pid) ==> ProcOk(s, s.procs[pid]);
    if e.HandFetched? || e.FinishHanding? {
      SweepMoverOk(s, e);
    } else if e.HandLive? {
      assert Handover(s.procs[pid].row, s.procs[pid].conn) in t.handed;
    }
  }

  lemma KeptByRemoval(s: State, e: Event, r: nat)
    requires Enabled(s, e) && (e.DeleteSent? || e.DeleteInline?) && Safe(s, r)
    ensures Safe(Next(s, e), r)
  {
    var t := Next(s, e);
    if h :| h in s.handed && h.row == r {
      assert h in t.handed;
    } else if pid :| pid in s.procs && Sends(s.procs[pid], r) {
      assert Sends(t.procs[pid], r);
    }
  }

  lemma RemovedStep(s: State, e: Event)
    requires Inv(s) && Enabled(s, e)
    ensures forall r :: r in Next(s, e).removed ==> r in Next(s, e).archive && Safe(Next(s, e), r)
  {
    var t := Next(s, e);
    forall r | r in t.removed ensures r in t.archive && Safe(t, r) {
      if r in s.removed {
        SafeKept(s, e, r);
      } else {
        var p := s.procs[e.pid];
        assert ProcOk(s, p);
        if e.DeleteInline? {
          assert SweepsFor(s, e.pid, s.ids[p.conn]);
        }
        KeptByRemoval(s, e, r);
      }
    }
  }

  lemma InvStep(s: State, e: Event)
    requires Inv(s) && Enabled(s, e)
    ensures Inv(Next(s, e))
  {
    TablesStep(s, e);
    RemovedStep(s, e);
    forall pid | pid in Next(s, e).procs ensures ProcOk(Next(s, e), Next(s, e).procs[pid]) {
      if Mover(e) == Some(pid) {
        MoverOk(s, e);
      } else {
        BystanderKept(s, e, pid);
      }
    }
  }

  lemma {:induction false} InvRun(s: State, es: seq<Event>)
    requires Inv(s) && ValidRun(s, es)
    ensures Inv(After(s, es))
    decreases |es|
  {
    if es != [] {
      InvStep(s, es[0]);
      InvRun(Next(s, es[0]), es[1..]);
    }
  }

  // ---- Results --------------------------------------------------------------------

  predicate Quiet(s: State) {
    forall pid :: pid in s.procs ==> s.procs[pid].Done?
  }

  /** Unconditionally: a row removed before its expiry was handed to a connection of its own
      recipient, or its sender is still on the way to do so, or the sender's lookup came back
      empty while a sweep was under way or had already removed the row, or a fetch skipped it. */
  lemma RemovedRowsAreAccounted(es: seq<Event>, row: nat)
    requires ValidRun(Init(), es) && row in After(Init(), es).removed
    ensures var s := After(Init(), es);
            || (exists h :: h in s.handed && h.row == row && h.conn in s.ids && row in s.archive &&
                  s.ids[h.conn] == s.archive[row].recipient)
            || AtSender(s, row)
            || row in s.missed || row in s.unread
  {
    InvRun(Init(), es);
  }

  /** Once a connection of `id` has registered, some connection of `id` is in the map. */
  predicate Present(s: State, id: string) {
    (exists c :: c in s.ids && s.ids[c] == id) ==> id in s.hub
  }

  /** ... at every moment of the run. */
  predicate StaysRegistered(s: State, es: seq<Event>, id: string)
    requires ValidRun(s, es)
    decreases |es|
  {
    Present(s, id) && (es == [] || StaysRegistered(Next(s, es[0]), es[1..], id))
  }

  /** No fetch for this id that goes on to hand over and delete breaks off early. */
  predicate ReadsInFull(s: State, es: seq<Event>, id: string)
    requires ValidRun(s, es)
    decreases |es|
  {
    es != [] ==>
      && (es[0].Fetch? && s.ids[s.procs[es[0].pid].conn] == id ==> Pending(s.rows, id, s.now) !! es[0].skipped)
      && ReadsInFull(Next(s, es[0]), es[1..], id)
  }

  ghost predicate NoneMissed(s: State, id: string) {
    forall r :: r in s.missed || r in s.unread ==> r in s.archive && s.archive[r].recipient != id
  }

  ghost predicate RemovedMeansPresent(s: State, id: string) {
    forall r :: r in s.removed && r in s.archive && s.archive[r].recipient == id ==> id in s.hub
  }

  lemma MissedStep(s: State, e: Event, id: string)
    requires Inv(s) && Enabled(s, e) && Present(s, id) && NoneMissed(s, id) && RemovedMeansPresent(s, id)
    requires e.Fetch? && s.ids[s.procs[e.pid].conn] == id ==> Pending(s.rows, id, s.now) !! e.skipped
    ensures NoneMissed(Next(s, e), id)
  {
    var t := Next(s, e);
    forall r | r in t.missed || r in t.unread ensures r in t.archive && t.archive[r].recipient != id {
      if r in t.missed && r !in s.missed {
        assert e.Lookup? && r == s.procs[e.pid].row;
        if SweepUnderWay(s, s.archive[r].recipient) {
          var pid :| pid in s.procs && SweepsFor(s, pid, s.archive[r].recipient);
          assert s.procs[pid].conn in s.ids;
        }
      }
    }
  }

  /** A row is only removed early for a recipient who has had a connection. */
  lemma RemovalNeedsAConnection(s: State, e: Event, r: nat) returns (conn: nat)
    requires Inv(s) && Enabled(s, e) && r in Next(s, e).removed && r !in s.removed && r in s.archive
    ensures conn in s.ids && s.ids[conn] == s.archive[r].recipient
  {
    var p := s.procs[e.pid];
    assert ProcOk(s, p);
    if e.DeleteSent? {
      var h :| h in s.handed && h.row == r;
      conn := h.conn;
    } else {
      conn := p.conn;
    }
  }

  lemma RemovedNeedsARegistration(s: State, e: Event, id: string)
    requires Inv(s) && Enabled(s, e) && Present(Next(s, e), id) && RemovedMeansPresent(s, id)
    ensures RemovedMeansPresent(Next(s, e), id)
  {
    var t := Next(s, e);
    TablesGrow(s, e);
    forall r | r in t.removed && r in t.archive && t.archive[r].recipient == id ensures id in t.hub {
      if r in s.removed {
        assert s.hub[id] in t.ids && t.ids[s.hub[id]] == id;
      } else {
        var conn := RemovalNeedsAConnection(s, e, r);
        assert t.ids[conn] == id;
      }
    }
  }

  lemma {:induction false} RegisteredIsNeverMissed(s: State, es: seq<Event>, id: string)
    requires Inv(s) && ValidRun(s, es) && StaysRegistered(s, es, id) && ReadsInFull(s, es, id)
    requires NoneMissed(s, id) && RemovedMeansPresent(s, id)
    ensures NoneMissed(After(s, es), id)
    decreases |es|
  {
    if es != [] {
      InvStep(s, es[0]);
      MissedStep(s, es[0], id);
      RemovedNeedsARegistration(s, es[0], id);
      RegisteredIsNeverMissed(Next(s, es[0]), es[1..], id);
    }
  }

  /** Main result: if the recipient stays registered until both sides have finished and no fetch of
      its rows breaks off, every unexpired inline row removed in any interleaving was handed to one
      of its connections. */
  lemma NothingIsLostWhileRegistered(es: seq<Event>, row: nat)
    requires ValidRun(Init(), es)
    requires var s := After(Init(), es);
             Quiet(s) && row in s.removed && row in s.archive &&
             StaysRegistered(Init(), es, s.archive[row].recipient) && ReadsInFull(Init(), es, s.archive[row].recipient)
    ensures var s := After(Init(), es);
            exists h :: h in s.handed && h.row == row && h.conn in s.ids && s.ids[h.conn] == s.archive[row].recipient
  {
    RemovedRowsAreAccounted(es, row);
    RegisteredIsNeverMissed(Init(), es, After(Init(), es).archive[row].recipient);
  }

  // ---- Exactly which steps lose a row -------------------------------------------------

  /** A sweep has fetched the row and not yet come to it. */
  predicate Listed(s: State, row: nat) {
    exists pid :: pid in s.procs && s.procs[pid].SweepHand? && row in s.procs[pid].snapshot
  }

  /** Removed before its expiry, never handed over, and with nobody left who would. */
  predicate Lost(s: State, row: nat) {
    row in s.removed && !Handed(s, row) && !AtSender(s, row) && !Listed(s, row)
  }

  predicate NoneLost(s: State) {
    forall r :: r in s.removed ==> !Lost(s, r)
  }

  /** A sweep's DELETE takes an unexpired row that was not handed over, is in no fetched list and
      whose sender is through. */
  predicate TakesUnseen(s: State, e: Event)
    requires Enabled(s, e)
  {
    e.DeleteInline? && e.ok && exists r ::
      r in s.rows && InlineFor(s.rows[r], s.ids[s.procs[e.pid].conn]) && Unexpired(s.rows[r], s.now) &&
      !Handed(s, r) && !AtSender(s, r) && !Listed(s, r)
  }

  /** A sender finds nobody connected, for a row that is already removed without a hand-over. */
  predicate MissesRemoved(s: State, e: Event)
    requires Enabled(s, e)
  {
    e.Lookup? &&
    var row := s.procs[e.pid].row;
    row in s.removed && s.archive[row].recipient !in s.hub && !Handed(s, row) && !Listed(s, row)
  }

  predicate Loses(s: State, e: Event)
    requires Enabled(s, e)
  {
    TakesUnseen(s, e) || MissesRemoved(s, e)
  }

  predicate NeverLoses(s: State, es: seq<Event>)
    requires ValidRun(s, es)
    decreases |es|
  {
    es != [] ==> !Loses(s, es[0]) && NeverLoses(Next(s, es[0]), es[1..])
  }

  ghost predicate OneSender(s: State) {
    forall p, q, row :: p in s.procs && q in s.procs && Sends(s.procs[p], row) && Sends(s.procs[q], row) ==> p == q
  }

  ghost predicate SendersKnown(s: State) {
    forall p, row :: p in s.procs && Sends(s.procs[p], row) ==> row in s.archive
  }

  ghost predicate RemovedGone(s: State) {
    forall r :: r in s.removed ==> r !in s.rows && r in s.archive && s.archive[r].envelope.Some?
  }

  ghost predicate Tidy(s: State) {
    Inv(s) && OneSender(s) && SendersKnown(s) && RemovedGone(s)
  }

  /** A sender was one before, unless its row is being stored. */
  lemma SendersComeFrom(s: State, e: Event, p: nat, row: nat)
    requires Enabled(s, e) && p in Next(s, e).procs && Sends(Next(s, e).procs[p], row)
    ensures (p in s.procs && Sends(s.procs[p], row)) || (e.StoreInline? && e.pid == p && e.row == row)
  {
    if Mover(e) != Some(p) && p in s.procs {
      OnlyTheMoverMoves(s, e, p);
    }
  }

  lemma SendersStep(s: State, e: Event)
    requires OneSender(s) && SendersKnown(s) && Enabled(s, e)
    ensures OneSender(Next(s, e)) && SendersKnown(Next(s, e))
  {
    var t := Next(s, e);
    TablesGrow(s, e);
    forall p, row | p in t.procs && Sends(t.procs[p], row) ensures row in t.archive {
      SendersComeFrom(s, e, p, row);
    }
    forall p, q, row | p in t.procs && q in t.procs && Sends(t.procs[p], row) && Sends(t.procs[q], row) ensures p == q {
      SendersComeFrom(s, e, p, row);
      SendersComeFrom(s, e, q, row);
    }
  }

  lemma RemovedGoneStep(s: State, e: Event)
    requires RowsOk(s) && RemovedGone(s) && Enabled(s, e)
    ensures RemovedGone(Next(s, e))
  {
    var t := Next(s, e);
    forall r | r in t.removed ensures r !in t.rows && r in t.archive && t.archive[r].envelope.Some? {
      assert r in s.removed || (r in s.rows && s.rows[r].envelope.Some? && r !in t.rows);
    }
  }

  lemma TidyStep(s: State, e: Event)
    requires Tidy(s) && Enabled(s, e)
    ensures Tidy(Next(s, e))
  {
    InvStep(s, e);
    SendersStep(s, e);
    RemovedGoneStep(s, e);
  }

  lemma NotHandedYet(s: State, e: Event, r: nat)
    requires Enabled(s, e) && !Handed(s, r) && !AtSender(s, r) && !Listed(s, r)
    ensures !Handed(Next(s, e), r)
  {
    forall h | h in Next(s, e).handed ensures h.row != r {
      assert h in s.handed ==> h.row != r;
      assert e.HandLive? ==> !Sends(s.procs[e.pid], r);
    }
  }

  /** Nobody new turns up to hand over a row that is not in the table any more. */
  lemma LostStaysLost(s: State, e: Event, r: nat)
    requires Tidy(s) && Enabled(s, e) && Lost(s, r)
    ensures Lost(Next(s, e), r)
  {
    var t := Next(s, e);
    forall pid | pid in t.procs
      ensures !Sends(t.procs[pid], r) && !(t.procs[pid].SweepHand? && r in t.procs[pid].snapshot)
    {
      assert pid in s.procs ==> !Sends(s.procs[pid], r) && !(s.procs[pid].SweepHand? && r in s.procs[pid].snapshot);
    }
    NotHandedYet(s, e, r);
  }

  lemma SenderKept(s: State, e: Event, r: nat)
    requires Enabled(s, e) && AtSender(s, r)
    requires !(e.Lookup? && s.procs[e.pid].row == r && s.archive[r].recipient !in s.hub)
    ensures var t := Next(s, e); Handed(t, r) || AtSender(t, r)
  {
    var t := Next(s, e);
    var pid :| pid in s.procs && Sends(s.procs[pid], r);
    if e.HandLive? && e.pid == pid {
      assert Handover(r, s.procs[pid].conn) in t.handed;
    } else {
      assert Sends(t.procs[pid], r);
    }
  }

  /** A row with a hand-over ahead or behind it keeps one, unless its only sender misses. */
  lemma AccountKept(s: State, e: Event, r: nat)
    requires Enabled(s, e) && (Handed(s, r) || AtSender(s, r) || Listed(s, r))
    requires r in s.archive && s.archive[r].envelope.Some?
    requires !(e.Lookup? && s.procs[e.pid].row == r && s.archive[r].recipient !in s.hub && !Handed(s, r) && !Listed(s, r))
    ensures var t := Next(s, e); Handed(t, r) || AtSender(t, r) || Listed(t, r)
  {
    var t := Next(s, e);
    if h :| h in s.handed && h.row == r {
      HandedGrows(s, e);
      assert h in t.handed;
    } else if pid :| pid in s.procs && s.procs[pid].SweepHand? && r in s.procs[pid].snapshot {
      if e.HandFetched? && e.pid == pid && e.row == r {
        assert Handover(r, s.procs[pid].conn) in t.handed;
      } else {
        assert t.procs[pid].SweepHand? && r in t.procs[pid].snapshot;
      }
    } else {
      SenderKept(s, e, r);
    }
  }

  lemma TakingUnseenLoses(s: State, e: Event)
    requires Tidy(s) && Enabled(s, e) && TakesUnseen(s, e)
    ensures !NoneLost(Next(s, e))
  {
    var t, id := Next(s, e), s.ids[s.procs[e.pid].conn];
    var r :| r in s.rows && InlineFor(s.rows[r], id) && Unexpired(s.rows[r], s.now) &&
             !Handed(s, r) && !AtSender(s, r) && !Listed(s, r);
    assert r in Early(s, s.rows.Keys - WithoutInline(s.rows, id).Keys);
    assert forall pid :: pid in t.procs && pid != e.pid ==> t.procs[pid] == s.procs[pid];
    assert Lost(t, r);
  }

  lemma MissingRemovedLoses(s: State, e: Event)
    requires Tidy(s) && Enabled(s, e) && MissesRemoved(s, e)
    ensures !NoneLost(Next(s, e))
  {
    var t, r := Next(s, e), s.procs[e.pid].row;
    assert Sends(s.procs[e.pid], r);
    assert forall pid :: pid in t.procs && pid != e.pid ==> t.procs[pid] == s.procs[pid] && !Sends(s.procs[pid], r);
    assert Lost(t, r);
  }

  lemma RemovedByStep(s: State, e: Event, r: nat)
    requires Tidy(s) && Enabled(s, e) && r in Next(s, e).removed && r !in s.removed && !TakesUnseen(s, e)
    ensures Handed(s, r) || AtSender(s, r) || Listed(s, r)
  {
    assert r in s.rows && Unexpired(s.rows[r], s.now) && s.rows[r].envelope.Some?;
    if e.DeleteSent? {
      assert ProcOk(s, s.procs[e.pid]);
    } else {
      assert e.DeleteInline? && InlineFor(s.rows[r], s.ids[s.procs[e.pid].conn]);
    }
  }

  lemma LossStepExactly(s: State, e: Event)
    requires Tidy(s) && Enabled(s, e) && NoneLost(s)
    ensures NoneLost(Next(s, e)) <==> !Loses(s, e)
  {
    if TakesUnseen(s, e) {
      TakingUnseenLoses(s, e);
    } else if MissesRemoved(s, e) {
      MissingRemovedLoses(s, e);
    } else {
      forall r | r in Next(s, e).removed ensures !Lost(Next(s, e), r) {
        if r !in s.removed {
          RemovedByStep(s, e, r);
          assert e.DeleteSent? || e.DeleteInline?;
        }
        AccountKept(s, e, r);
      }
    }
  }

  lemma {:induction false} LostForGood(s: State, es: seq<Event>, r: nat)
    requires Tidy(s) && ValidRun(s, es) && Lost(s, r)
    ensures Lost(After(s, es), r)
    decreases |es|
  {
    if es != [] {
      LostStaysLost(s, es[0], r);
      TidyStep(s, es[0]);
      LostForGood(Next(s, es[0]), es[1..], r);
    }
  }

  lemma {:induction false} TidyRun(s: State, es: seq<Event>)
    requires Tidy(s) && ValidRun(s, es)
    ensures Tidy(After(s, es))
    decreases |es|
  {
    if es != [] {
      TidyStep(s, es[0]);
      TidyRun(Next(s, es[0]), es[1..]);
    }
  }

  lemma {:induction false} LossRun(s: State, es: seq<Event>)
    requires Tidy(s) && ValidRun(s, es) && NoneLost(s)
    ensures Tidy(After(s, es)) && (NoneLost(After(s, es)) <==> NeverLoses(s, es))
    decreases |es|
  {
    if es != [] {
      var t := Next(s, es[0]);
      LossStepExactly(s, es[0]);
      TidyStep(s, es[0]);
      if Loses(s, es[0]) {
        var r :| r in t.removed && Lost(t, r);
        LostForGood(t, es[1..], r);
        TidyRun(t, es[1..]);
      } else {
        LossRun(t, es[1..]);
      }
    }
  }

  predicate HandedToRecipient(s: State, row: nat) {
    exists h :: h in s.handed && h.row == row && row in s.archive && h.conn in s.ids && s.ids[h.conn] == s.archive[row].recipient
  }

  /** Main result, exactly and for every run, whoever connects and leaves: once all goroutines have
      ended, every row removed before its expiry was handed to a connection of its recipient if and
      only if no sweep deleted an unexpired row that nobody had handed over or was about to, and no
      sender missed the recipient of a row already removed. What is lost is lost for good. */
  lemma RemovedRowsAreHandedExactly(es: seq<Event>)
    requires ValidRun(Init(), es) && Quiet(After(Init(), es))
    ensures var s := After(Init(), es);
            (forall r :: r in s.removed ==> HandedToRecipient(s, r)) <==> NeverLoses(Init(), es)
  {
    LossRun(Init(), es);
    var s := After(Init(), es);
    if NoneLost(s) {
      forall r | r in s.removed ensures HandedToRecipient(s, r) {
        assert !Lost(s, r);
        var h :| h in s.handed && h.row == r;
      }
    } else {
      var r :| r in s.removed && Lost(s, r);
      assert !HandedToRecipient(s, r);
    }
  }

  function LossState(hub: map<string, nat>, rows: Table, archive: Table, sweep: Proc, sender: Option<Proc>,
                     removed: set<nat>, missed: set<nat>): State {
    State(0, rows, archive, hub, map[7 := "u"],
          if sender.None? then map[0 := sweep] else map[0 := sweep, 1 := sender.value], {}, removed, missed, {})
  }

  lemma Prepend(s: State, e: Event, t: State, es: seq<Event>) returns (longer: seq<Event>)
    requires Enabled(s, e) && Next(s, e) == t && ValidRun(t, es)
    ensures ValidRun(s, longer) && After(s, longer) == After(t, es)
  {
    longer := [e] + es;
    assert longer[1..] == es;
  }

  function Sweep(f: Table, p: Proc): State {
    LossState(map["u" := 7], f, f, p, None, {}, {})
  }

  lemma FileIsFetched(f: Table)
    requires f == map[0 := Message("u", "", None, Some("f"), 9)]
    ensures Enabled(Sweep(f, SweepFetch(7)), Fetch(0, true, {}))
    ensures Next(Sweep(f, SweepFetch(7)), Fetch(0, true, {})) == Sweep(f, SweepHand(7, {0}))
  {
    assert Pending(f, "u", 0) == {0} && {0} - {} == {0} && {0} * {} == {};
  }

  lemma FileIsHanded(f: Table)
    requires f == map[0 := Message("u", "", None, Some("f"), 9)]
    ensures Enabled(Sweep(f, SweepHand(7, {0})), HandFetched(0, 0))
    ensures Next(Sweep(f, SweepHand(7, {0})), HandFetched(0, 0)) == Sweep(f, SweepHand(7, {}))
  {
    assert {0} - {0} == {};
  }

  lemma HandTheFile(s: State, f: Table, rest: seq<Event>) returns (es: seq<Event>)
    requires f == map[0 := Message("u", "", None, Some("f"), 9)]
    requires s == Sweep(f, SweepDelete(7)) && ValidRun(s, rest)
    ensures var s2 := Sweep(f, SweepFetch(7)); ValidRun(s2, es) && After(s2, es) == After(s, rest)
  {
    FileIsFetched(f);
    FileIsHanded(f);
    es := Prepend(Sweep(f, SweepHand(7, {})), FinishHanding(0), s, rest);
    es := Prepend(Sweep(f, SweepHand(7, {0})), HandFetched(0, 0), Sweep(f, SweepHand(7, {})), es);
    es := Prepend(Sweep(f, SweepFetch(7)), Fetch(0, true, {}), Sweep(f, SweepHand(7, {0})), es);
  }

  /** The recipient registers and fetches the pending file. */
  lemma FetchTheFile(s: State, f: Table, rest: seq<Event>) returns (es: seq<Event>)
    requires f == map[0 := Message("u", "", None, Some("f"), 9)]
    requires s == LossState(map["u" := 7], f, f, SweepDelete(7), None, {}, {}) && ValidRun(s, rest)
    ensures ValidRun(Init(), es) && After(Init(), es) == After(s, rest)
  {
    var s1 := State(0, f, f, map[], map[], map[], {}, {}, {}, {});
    var s2 := LossState(map["u" := 7], f, f, SweepFetch(7), None, {}, {});
    es := HandTheFile(s, f, rest);
    es := Prepend(s1, Register(0, 7, "u"), s2, es);
    es := Prepend(Init(), StoreFile(0, "u", "", "f", 9), s1, es);
  }

  lemma DeleteTakesTheRow(s: State, t: State, f: Table, both: Table) returns (es: seq<Event>)
    requires f == map[0 := Message("u", "", None, Some("f"), 9)]
    requires both == map[0 := Message("u", "", None, Some("f"), 9), 1 := Message("u", "", Some("hi"), None, 9)]
    requires s == LossState(map[], both, both, SweepDelete(7), Some(Done), {}, {1})
    requires t == LossState(map[], f, both, Done, Some(Done), {1}, {1})
    ensures ValidRun(s, es) && After(s, es) == t
  {
    assert WithoutInline(both, "u") == f;
    assert both.Keys == {0, 1} && f.Keys == {0};
    assert {0, 1} - {0} == {1};
    assert Early(s, {1}) == {1};
    es := Prepend(s, DeleteInline(0, true), t, []);
  }

  /** Leaving in between loses a message: the sweep fetched a pending file, the recipient
      disconnects, the sender stores and finds nobody, and the sweep's DELETE takes the row. */
  lemma DisconnectLosesARow() returns (es: seq<Event>)
    ensures ValidRun(Init(), es)
    ensures var s := After(Init(), es); Quiet(s) && 1 in s.removed && s.handed == {}
  {
    var file, text := Message("u", "", None, Some("f"), 9), Message("u", "", Some("hi"), None, 9);
    var f, both := map[0 := file], map[0 := file, 1 := text];
    var s5 := LossState(map["u" := 7], f, f, SweepDelete(7), None, {}, {});
    var s6 := LossState(map[], f, f, SweepDelete(7), None, {}, {});
    var s7 := LossState(map[], both, both, SweepDelete(7), Some(SendLookup(1)), {}, {});
    var s8 := LossState(map[], both, both, SweepDelete(7), Some(Done), {}, {1});
    var s9 := LossState(map[], f, both, Done, Some(Done), {1}, {1});
    es := DeleteTakesTheRow(s8, s9, f, both);
    assert SweepsFor(s7, 0, "u");
    es := Prepend(s7, Lookup(1), s8, es);
    es := Prepend(s6, StoreInline(1, 1, "u", "", "hi", 9), s7, es);
    assert map["u" := 7] - {"u"} == map[];
    es := Prepend(s5, Unregister(7), s6, es);
    es := FetchTheFile(s5, f, es);
  }

  // ---- A read that breaks off -----------------------------------------------------------------

  /** A run that keeps "u" registered, built backwards. */
  lemma PrependHere(s: State, e: Event, t: State, es: seq<Event>) returns (longer: seq<Event>)
    requires Enabled(s, e) && Next(s, e) == t && ValidRun(t, es) && StaysRegistered(t, es, "u") && Present(s, "u")
    ensures ValidRun(s, longer) && StaysRegistered(s, longer, "u") && After(s, longer) == After(t, es)
  {
    longer := [e] + es;
    assert longer[1..] == es;
  }

  const HI := Message("u", "", Some("hi"), None, 9)
  const BOTH := map[0 := HI, 1 := HI]

  /** Two rows, their senders gone, and the sweep of connection 7 at this point. */
  function Short(rows: Table, sweep: Proc, handed: set<Handover>, removed: set<nat>): State {
    State(0, rows, BOTH, map["u" := 7], map[7 := "u"], map[0 := Done, 1 := Done, 2 := sweep], handed, removed, {},
          if sweep.SweepFetch? then {} else {1})
  }

  lemma ShortFetch()
    ensures var s := Short(BOTH, SweepFetch(7), {}, {});
            Enabled(s, Fetch(2, true, {1})) && Next(s, Fetch(2, true, {1})) == Short(BOTH, SweepHand(7, {0}), {}, {})
  {
    assert Pending(BOTH, "u", 0) == {0, 1} && {0, 1} - {1} == {0} && {0, 1} * {1} == {1};
  }

  lemma ShortHand(h: set<Handover>)
    requires h == {Handover(0, 7)}
    ensures var s := Short(BOTH, SweepHand(7, {0}), {}, {});
            Enabled(s, HandFetched(2, 0)) && Next(s, HandFetched(2, 0)) == Short(BOTH, SweepHand(7, {}), h, {})
  {
    assert {0} - {0} == {};
  }

  lemma ShortDelete(h: set<Handover>, none: Table)
    requires none == map[]
    ensures var s := Short(BOTH, SweepDelete(7), h, {});
            Enabled(s, DeleteInline(2, true)) && Next(s, DeleteInline(2, true)) == Short(none, Done, h, {0, 1})
  {
    assert BOTH.Keys == {0, 1} && WithoutInline(BOTH, "u") == none && {0, 1} - none.Keys == {0, 1};
    assert Early(Short(BOTH, SweepDelete(7), h, {}), {0, 1}) == {0, 1};
  }

  /** From the fetch, which reads row 0 and not row 1, to the DELETE. */
  lemma SweepShortOfARow(h: set<Handover>, none: Table) returns (es: seq<Event>)
    requires h == {Handover(0, 7)} && none == map[]
    ensures var s1 := Short(BOTH, SweepFetch(7), {}, {}); ValidRun(s1, es) && StaysRegistered(s1, es, "u")
    ensures After(Short(BOTH, SweepFetch(7), {}, {}), es) == Short(none, Done, h, {0, 1})
  {
    var s3, s4 := Short(BOTH, SweepHand(7, {}), h, {}), Short(BOTH, SweepDelete(7), h, {});
    ShortDelete(h, none);
    es := PrependHere(s4, DeleteInline(2, true), Short(none, Done, h, {0, 1}), []);
    es := PrependHere(s3, FinishHanding(2), s4, es);
    ShortHand(h);
    es := PrependHere(Short(BOTH, SweepHand(7, {0}), {}, {}), HandFetched(2, 0), s3, es);
    ShortFetch();
    es := PrependHere(Short(BOTH, SweepFetch(7), {}, {}), Fetch(2, true, {1}), Short(BOTH, SweepHand(7, {0}), {}, {}), es);
  }

  /** Nobody connected, and these rows and senders. */
  function Absent(rows: Table, procs: map<nat, Proc>): State {
    State(0, rows, rows, map[], map[], procs, {}, {}, {}, {})
  }

  lemma TwoAreStored(s: State, rest: seq<Event>) returns (es: seq<Event>)
    requires s == Absent(BOTH, map[0 := Done, 1 := Done]) && ValidRun(s, rest) && StaysRegistered(s, rest, "u")
    ensures ValidRun(Init(), es) && StaysRegistered(Init(), es, "u") && After(Init(), es) == After(s, rest)
  {
    var one := map[0 := HI];
    var s1, s2 := Absent(one, map[0 := SendLookup(0)]), Absent(one, map[0 := Done]);
    var s3 := Absent(BOTH, map[0 := Done, 1 := SendLookup(1)]);
    es := PrependHere(s3, Lookup(1), s, rest);
    assert one[1 := HI] == BOTH;
    es := PrependHere(s2, StoreInline(1, 1, "u", "", "hi", 9), s3, es);
    es := PrependHere(s1, Lookup(0), s2, es);
    es := PrependHere(Init(), StoreInline(0, 0, "u", "", "hi", 9), s1, es);
  }

  /** A recipient who never leaves loses a message too: the read of its two rows breaks off after the
      first, and the DELETE that follows takes both. */
  lemma ShortReadLosesARow() returns (es: seq<Event>)
    ensures ValidRun(Init(), es) && StaysRegistered(Init(), es, "u")
    ensures var s := After(Init(), es); Quiet(s) && s.removed == {0, 1} && s.handed == {Handover(0, 7)}
  {
    var s := Absent(BOTH, map[0 := Done, 1 := Done]);
    es := SweepShortOfARow({Handover(0, 7)}, map[]);
    es := PrependHere(s, Register(2, 7, "u"), Short(BOTH, SweepFetch(7), {}, {}), es);
    es := TwoAreStored(s, es);
  }
}
