/** Which pointer rows are stored, read off the events alone, and that every loop serves all its recipients. */
module BucketHistory {
  import opened Text
  import opened Storage
  import opened Messages
  import opened BucketRefs

  /** The clock after these events. */
  function Clock(es: seq<Event>): int {
    if es == [] then 0 else Clock(es[..|es| - 1]) + (if es[|es| - 1].Tick? then es[|es| - 1].dt else 0)
  }

  /** How many recipients this loop is through with. */
  function Moves(es: seq<Event>, pid: nat): nat {
    if es == [] then 0
    else
      var last := es[|es| - 1];
      Moves(es[..|es| - 1], pid) + (if (last.Skip? || last.Store?) && last.pid == pid then 1 else 0)
  }

  /** How many rows were inserted. */
  function Inserts(es: seq<Event>): nat {
    if es == [] then 0
    else Inserts(es[..|es| - 1]) + (if es[|es| - 1].Store? || es[|es| - 1].StoreInline? then 1 else 0)
  }

  /** Event n inserts this row: for the next recipient of its upload, pointing at the uploaded object. */
  ghost predicate StoredAs(backend: Backend, es: seq<Event>, n: nat, row: nat, m: Message)
    requires n < |es|
  {
    && es[n].Store? && row == Inserts(es[..n])
    && exists key, rs ::
         && Upload(es[n].pid, key, rs) in es[..n]
         && Moves(es[..n], es[n].pid) < |rs|
         && m == Message(rs[Moves(es[..n], es[n].pid)], es[n].sender, None, Some(Url(backend, key)), Clock(es[..n]) + es[n].ttl)
  }

  /** Event j deletes this row: for an acknowledgement of its own recipient, or because it has expired. */
  predicate Removes(es: seq<Event>, j: nat, row: nat, m: Message)
    requires j < |es|
  {
    || (es[j].AckDeleteRow? && es[j].ok && AckStart(es[j].pid, row, m.recipient) in es[..j])
    || (es[j].PruneDeleteRows? && es[j].ok && m.expires <= Clock(es[..j]))
  }

  ghost predicate Stands(backend: Backend, es: seq<Event>, row: nat, m: Message) {
    exists n: nat :: n < |es| && StoredAs(backend, es, n, row, m) && forall j :: n < j < |es| ==> !Removes(es, j, row, m)
  }

  // ---- What the program counters remember ----------------------------------------------------------

  predicate LoopAt(p: Proc, key: string, rs: seq<string>, k: nat) {
    p.FanOut? && p.key == key && k <= |rs| && p.queue == rs[k..]
  }

  ghost predicate LoopsOk(s: State, es: seq<Event>) {
    && (forall pid :: pid in s.procs && s.procs[pid].FanOut? ==> exists key, rs :: Upload(pid, key, rs) in es)
    && (forall pid, key, rs :: Upload(pid, key, rs) in es ==>
          pid in s.procs && (s.procs[pid].FanOut? ==> LoopAt(s.procs[pid], key, rs, Moves(es, pid))))
    && (forall pid :: pid !in s.procs ==> Moves(es, pid) == 0)
  }

  ghost predicate AcksOk(s: State, es: seq<Event>) {
    && (forall pid :: pid in s.procs && s.procs[pid].AckDelete? ==>
          exists caller :: AckStart(pid, s.procs[pid].id, caller) in es &&
            (s.procs[pid].id in s.rows ==> s.rows[s.procs[pid].id].recipient == caller))
    && (forall pid, row, caller :: AckStart(pid, row, caller) in es ==>
          pid in s.procs && (s.procs[pid].AckDelete? ==> s.procs[pid].id == row))
  }

  ghost predicate CountsOk(s: State, es: seq<Event>) {
    s.now == Clock(es) && s.nextRow == Inserts(es)
  }

  ghost predicate Told(s: State, es: seq<Event>) {
    Inv(s) && CountsOk(s, es) && LoopsOk(s, es) && AcksOk(s, es)
  }

  lemma Longer(es: seq<Event>, e: Event)
    ensures (es + [e])[..|es|] == es && (es + [e])[|es|] == e
    ensures forall x :: x in es + [e] <==> x in es || x == e
    ensures Clock(es + [e]) == Clock(es) + (if e.Tick? then e.dt else 0)
    ensures Inserts(es + [e]) == Inserts(es) + (if e.Store? || e.StoreInline? then 1 else 0)
    ensures forall pid :: Moves(es + [e], pid) == Moves(es, pid) + (if (e.Skip? || e.Store?) && e.pid == pid then 1 else 0)
  {
    assert (es + [e])[..|es|] == es;
  }

  lemma LoopMoves(s: State, es: seq<Event>, e: Event, pid: nat, key: string, rs: seq<string>)
    requires LoopsOk(s, es) && Enabled(s, e) && Upload(pid, key, rs) in es + [e]
    ensures var t := Next(s, e);
            pid in t.procs && (t.procs[pid].FanOut? ==> LoopAt(t.procs[pid], key, rs, Moves(es + [e], pid)))
  {
    var t := Next(s, e);
    Longer(es, e);
    if Upload(pid, key, rs) in es {
      assert pid in s.procs;
      if t.procs[pid].FanOut? {
        assert s.procs[pid].FanOut?;
        assert rs[Moves(es, pid)..] == s.procs[pid].queue;
      }
    } else {
      assert Moves(es, pid) == 0;
    }
  }

  lemma LoopsStep(s: State, es: seq<Event>, e: Event)
    requires LoopsOk(s, es) && Enabled(s, e)
    ensures LoopsOk(Next(s, e), es + [e])
  {
    var t := Next(s, e);
    Longer(es, e);
    forall pid | pid in t.procs && t.procs[pid].FanOut? ensures exists key, rs :: Upload(pid, key, rs) in es + [e] {
      if !e.Upload? || e.pid != pid {
        assert pid in s.procs && s.procs[pid].FanOut?;
        var key, rs :| Upload(pid, key, rs) in es;
        assert Upload(pid, key, rs) in es + [e];
      } else {
        assert Upload(pid, e.key, e.recipients) in es + [e];
      }
    }
    forall pid, key, rs | Upload(pid, key, rs) in es + [e]
      ensures pid in t.procs && (t.procs[pid].FanOut? ==> LoopAt(t.procs[pid], key, rs, Moves(es + [e], pid)))
    {
      LoopMoves(s, es, e, pid, key, rs);
    }
  }

  /** Rows never change, and only fresh ones appear. */
  lemma RowsOnlyComeAndGo(s: State, e: Event, row: nat)
    requires Enabled(s, e) && row in Next(s, e).rows && row < s.nextRow
    ensures row in s.rows && Next(s, e).rows[row] == s.rows[row]
  {}

  /** Whoever is about to delete a row was started for it by its recipient. */
  lemma AckIsKnown(s: State, es: seq<Event>, e: Event, pid: nat)
    requires Inv(s) && AcksOk(s, es) && Enabled(s, e) && pid in Next(s, e).procs && Next(s, e).procs[pid].AckDelete?
    ensures var t := Next(s, e);
            exists caller :: AckStart(pid, t.procs[pid].id, caller) in es + [e] &&
              (t.procs[pid].id in t.rows ==> t.rows[t.procs[pid].id].recipient == caller)
  {
    var t := Next(s, e);
    var row := t.procs[pid].id;
    if e.AckStart? && e.pid == pid {
      assert AckStart(pid, row, e.caller) in es + [e];
    } else {
      assert ProcKnown(s, s.procs[pid]);
      var caller :| AckStart(pid, row, caller) in es && (row in s.rows ==> s.rows[row].recipient == caller);
      if row in t.rows {
        RowsOnlyComeAndGo(s, e, row);
      }
      assert AckStart(pid, row, caller) in es + [e];
    }
  }

  lemma AcksStep(s: State, es: seq<Event>, e: Event)
    requires Inv(s) && AcksOk(s, es) && Enabled(s, e)
    ensures AcksOk(Next(s, e), es + [e])
  {
    var t := Next(s, e);
    Longer(es, e);
    forall pid | pid in t.procs && t.procs[pid].AckDelete?
      ensures exists caller :: AckStart(pid, t.procs[pid].id, caller) in es + [e] &&
                (t.procs[pid].id in t.rows ==> t.rows[t.procs[pid].id].recipient == caller)
    {
      AckIsKnown(s, es, e, pid);
    }
    forall pid, row, caller | AckStart(pid, row, caller) in es + [e]
      ensures pid in t.procs && (t.procs[pid].AckDelete? ==> t.procs[pid].id == row)
    {
      if AckStart(pid, row, caller) in es {
        assert pid in s.procs;
      }
    }
  }

  lemma ToldStep(s: State, es: seq<Event>, e: Event)
    requires Told(s, es) && Enabled(s, e)
    ensures Told(Next(s, e), es + [e])
  {
    Longer(es, e);
    InvStep(s, e);
    LoopsStep(s, es, e);
    AcksStep(s, es, e);
  }

  // ---- The table, step by step ---------------------------------------------------------------------

  /** This row is stored, with this content. */
  predicate Holds(s: State, row: nat, m: Message) {
    row in s.rows && s.rows[row] == m && m.bucketUrl.Some?
  }

  lemma InsertedAs(s: State, es: seq<Event>, e: Event, backend: Backend, row: nat, m: Message)
    requires Told(s, es) && Enabled(s, e) && e.Store? && s.backend == backend
    ensures StoredAs(backend, es + [e], |es|, row, m) <==> row == s.nextRow && Holds(Next(s, e), row, m)
  {
    Longer(es, e);
    var p := s.procs[e.pid];
    var key, rs :| Upload(e.pid, key, rs) in es;
    assert LoopAt(p, key, rs, Moves(es, e.pid));
    assert p.queue[0] == rs[Moves(es, e.pid)];
    if StoredAs(backend, es + [e], |es|, row, m) {
      var key', rs' :| Upload(e.pid, key', rs') in es && Moves(es, e.pid) < |rs'| &&
        m == Message(rs'[Moves(es, e.pid)], e.sender, None, Some(Url(backend, key')), Clock(es) + e.ttl);
      assert LoopAt(p, key', rs', Moves(es, e.pid));
    }
  }

  lemma RemovedAs(s: State, es: seq<Event>, e: Event, row: nat, m: Message)
    requires Told(s, es) && Enabled(s, e) && Holds(s, row, m)
    ensures Removes(es + [e], |es|, row, m) <==> !Holds(Next(s, e), row, m)
  {
    Longer(es, e);
    assert row < s.nextRow && m.envelope == None;
    if e.AckDeleteRow? {
      var id := s.procs[e.pid].id;
      var caller :| AckStart(e.pid, id, caller) in es && (id in s.rows ==> s.rows[id].recipient == caller);
      assert e.ok && id == row ==> AckStart(e.pid, row, m.recipient) in es;
    }
  }

  lemma RowStep(s: State, es: seq<Event>, e: Event, backend: Backend, row: nat, m: Message)
    requires Told(s, es) && Enabled(s, e) && s.backend == backend
    ensures Holds(Next(s, e), row, m) <==>
            (Holds(s, row, m) && !Removes(es + [e], |es|, row, m)) || StoredAs(backend, es + [e], |es|, row, m)
  {
    Longer(es, e);
    if e.Store? {
      InsertedAs(s, es, e, backend, row, m);
      assert row in s.rows ==> row < s.nextRow;
    } else if Holds(s, row, m) {
      RemovedAs(s, es, e, row, m);
    }
  }

  lemma EarlierIndices(es: seq<Event>, e: Event, n: nat)
    requires n < |es|
    ensures (es + [e])[..n] == es[..n] && (es + [e])[n] == es[n]
  {}

  lemma StandsNext(backend: Backend, es: seq<Event>, e: Event, row: nat, m: Message)
    ensures Stands(backend, es + [e], row, m) <==>
            (Stands(backend, es, row, m) && !Removes(es + [e], |es|, row, m)) || StoredAs(backend, es + [e], |es|, row, m)
  {
    var more := es + [e];
    forall n: nat | n < |es|
      ensures StoredAs(backend, more, n, row, m) <==> StoredAs(backend, es, n, row, m)
      ensures Removes(more, n, row, m) <==> Removes(es, n, row, m)
    {
      EarlierIndices(es, e, n);
    }
    if Stands(backend, es, row, m) && !Removes(more, |es|, row, m) {
      var n: nat :| n < |es| && StoredAs(backend, es, n, row, m) && forall j :: n < j < |es| ==> !Removes(es, j, row, m);
      assert StoredAs(backend, more, n, row, m) && forall j :: n < j < |more| ==> !Removes(more, j, row, m);
    }
    if Stands(backend, more, row, m) {
      var n: nat :| n < |more| && StoredAs(backend, more, n, row, m) && forall j :: n < j < |more| ==> !Removes(more, j, row, m);
      if n < |es| {
        assert StoredAs(backend, es, n, row, m) && forall j :: n < j < |es| ==> !Removes(es, j, row, m);
      }
    }
  }

  /** The last step of a run apart. */
  lemma {:induction false} LastStep(s: State, es: seq<Event>)
    requires ValidRun(s, es) && es != []
    ensures var front, last := es[..|es| - 1], es[|es| - 1];
            ValidRun(s, front) && Enabled(After(s, front), last) && After(s, es) == Next(After(s, front), last)
    decreases |es|
  {
    if |es| > 1 {
      LastStep(Next(s, es[0]), es[1..]);
      assert es[1..][..|es| - 2] == es[..|es| - 1][1..];
    }
  }

  lemma {:induction false} ToldRun(backend: Backend, es: seq<Event>)
    requires ValidRun(Init(backend), es)
    ensures Told(After(Init(backend), es), es) && After(Init(backend), es).backend == backend
    decreases |es|
  {
    if es != [] {
      var front, last := es[..|es| - 1], es[|es| - 1];
      LastStep(Init(backend), es);
      ToldRun(backend, front);
      ToldStep(After(Init(backend), front), front, last);
      assert es == front + [last];
    }
  }

  /** Main result, for every interleaving: a pointer row is stored if and only if some loop inserted it,
      for its own next recipient and at its uploaded object, and since then neither that recipient's
      acknowledgement nor a sweep after its expiry deleted it. */
  lemma {:induction false} PointerRowsAreStoredExactly(backend: Backend, es: seq<Event>, row: nat, m: Message)
    requires ValidRun(Init(backend), es)
    ensures Holds(After(Init(backend), es), row, m) <==> Stands(backend, es, row, m)
    decreases |es|
  {
    if es != [] {
      var front, last := es[..|es| - 1], es[|es| - 1];
      LastStep(Init(backend), es);
      PointerRowsAreStoredExactly(backend, front, row, m);
      ToldRun(backend, front);
      assert es == front + [last];
      RowStep(After(Init(backend), front), front, last, backend, row, m);
      StandsNext(backend, front, last, row, m);
    }
  }

  /** A loop ends only after it has come to every recipient of its upload. */
  lemma LoopsServeEveryone(backend: Backend, es: seq<Event>, pid: nat, ok: bool) returns (key: string, rs: seq<string>)
    requires ValidRun(Init(backend), es) && Enabled(After(Init(backend), es), Finish(pid, ok))
    ensures Upload(pid, key, rs) in es && Moves(es, pid) == |rs|
  {
    ToldRun(backend, es);
    key, rs :| Upload(pid, key, rs) in es;
    assert LoopAt(After(Init(backend), es).procs[pid], key, rs, Moves(es, pid));
  }
}
