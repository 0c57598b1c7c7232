/** Every moment of an upload, while its fan-out loop is still inserting as well: whether any
    continuation can leave a message row without its object. */
module BucketRunning {
  import opened Text
  import opened Storage
  import opened Messages
  import opened BucketRefs

  /** About to count the rows of this URL, or to delete some and count then. */
  predicate WillCount(p: Proc, url: string) {
    match p
    case AckDelete(_, u) => u == url
    case AckCount(u) => u == url
    case PruneDelete(candidates, _) => url in candidates
    case PruneCount(todo, _) => url in todo
    case _ => false
  }

  /** A row points here, or a goroutine is on its way to count those that do. */
  predicate Watched(s: State, url: string) {
    Refs(s.rows, url) || exists pid :: pid in s.procs && WillCount(s.procs[pid], url)
  }

  /** A loop of this object still has this many recipients to go. */
  predicate Pending(s: State, pid: nat, key: string, n: nat) {
    Running(s, pid, key) && |s.procs[pid].queue| == n
  }

  /** No loop will insert another row for this object. */
  ghost predicate Exhausted(s: State, key: string) {
    key in s.used && forall pid :: Running(s, pid, key) ==> s.procs[pid].queue == []
  }

  predicate SafeNow(s: State, key: string) {
    Refs(s.rows, Url(s.backend, key)) ==> key in s.objects && !Decided(s, Url(s.backend, key))
  }

  predicate OutOfSight(s: State, key: string) {
    key in s.objects && !Decided(s, Url(s.backend, key)) && !Watched(s, Url(s.backend, key))
  }

  // ---- Safe cases ------------------------------------------------------------------------------

  lemma ExhaustedStep(s: State, e: Event, key: string)
    requires Inv(s) && Enabled(s, e) && Exhausted(s, key)
    ensures Exhausted(Next(s, e), key)
    ensures Refs(Next(s, e).rows, Url(s.backend, key)) ==> Refs(s.rows, Url(s.backend, key))
  {
    var t, url := Next(s, e), Url(s.backend, key);
    forall pid | Running(t, pid, key) ensures t.procs[pid].queue == [] {
      assert Running(s, pid, key);
    }
    if Refs(t.rows, url) && !Refs(s.rows, url) {
      UsedUrlIsKnown(s, key);
      RefsGrowOnlyByStore(s, e, url);
    }
  }

  /** An object goes by a decision, or by the loop that delivered it to nobody. */
  lemma LosingTheObject(s: State, e: Event, key: string)
    requires Inv(s) && Enabled(s, e) && key in s.objects && key !in Next(s, e).objects
    ensures Decided(s, Url(s.backend, key)) || !Refs(s.rows, Url(s.backend, key))
  {
    assert ProcKnown(s, s.procs[e.pid]);
    if !e.Finish? {
      assert HoldsDelete(s.procs[e.pid], Url(s.backend, key));
    }
  }

  lemma SafeStep(s: State, e: Event, key: string)
    requires Inv(s) && Enabled(s, e) && Exhausted(s, key) && SafeNow(s, key)
    ensures SafeNow(Next(s, e), key)
  {
    var t, url := Next(s, e), Url(s.backend, key);
    ExhaustedStep(s, e, key);
    if Refs(t.rows, url) {
      if key !in t.objects {
        LosingTheObject(s, e, key);
      }
      if Decided(t, url) {
        DecisionsComeFromZeroCounts(s, e, url);
      }
    }
  }

  lemma {:induction false} SafeRun(s: State, es: seq<Event>, key: string)
    requires Inv(s) && ValidRun(s, es) && Exhausted(s, key) && SafeNow(s, key)
    ensures Reachable(After(s, es), key)
    decreases |es|
  {
    if es != [] {
      InvStep(s, es[0]);
      ExhaustedStep(s, es[0], key);
      SafeStep(s, es[0], key);
      SafeRun(Next(s, es[0]), es[1..], key);
    }
  }

  lemma StillUnwatched(s: State, e: Event, key: string)
    requires Inv(s) && Enabled(s, e) && key in s.used && !Watched(s, Url(s.backend, key))
    requires !(e.Store? && s.procs[e.pid].key == key)
    ensures !Watched(Next(s, e), Url(s.backend, key))
  {
    var t, url := Next(s, e), Url(s.backend, key);
    UsedUrlIsKnown(s, key);
    if Refs(t.rows, url) {
      RefsGrowOnlyByStore(s, e, url);
    }
    forall pid | pid in t.procs ensures !WillCount(t.procs[pid], url) {
      assert pid in s.procs ==> !WillCount(s.procs[pid], url);
    }
  }

  /** Only a goroutine that was on its way to count can decide. */
  lemma StillUndecided(s: State, e: Event, url: string)
    requires Enabled(s, e) && !Decided(s, url) && !Watched(s, url)
    ensures !Decided(Next(s, e), url)
  {
    var t := Next(s, e);
    forall pid | pid in t.procs ensures !HoldsDelete(t.procs[pid], url) {
      assert pid in s.procs ==> !HoldsDelete(s.procs[pid], url) && !WillCount(s.procs[pid], url);
    }
  }

  lemma LoopKeepsItsObject(s: State, e: Event, pid: nat, key: string)
    requires Inv(s) && Enabled(s, e) && Pending(s, pid, key, 1) && key in s.objects && !Decided(s, Url(s.backend, key))
    ensures key in Next(s, e).objects
  {
    assert forall p :: p in s.procs ==> ProcKnown(s, s.procs[p]);
    if e.Finish? {
      assert Running(s, e.pid, s.procs[e.pid].key);
    } else if e.AckDeleteObject? {
      assert HoldsDelete(s.procs[e.pid], s.procs[e.pid].url);
    } else if e.PruneDeleteObject? {
      assert HoldsDelete(s.procs[e.pid], e.url);
    }
  }

  /** The last insert finds the object there and undecided, and nothing can change that before. */
  lemma LastInsertStep(s: State, e: Event, pid: nat, key: string)
    requires Inv(s) && Enabled(s, e) && Pending(s, pid, key, 1) && OutOfSight(s, key)
    ensures var t := Next(s, e);
            (Pending(t, pid, key, 1) && OutOfSight(t, key)) || (Exhausted(t, key) && SafeNow(t, key))
  {
    var t, url := Next(s, e), Url(s.backend, key);
    assert ProcKnown(s, s.procs[pid]);
    StillUndecided(s, e, url);
    LoopKeepsItsObject(s, e, pid, key);
    if (e.Store? || e.Skip?) && e.pid == pid {
      forall q | Running(t, q, key) ensures t.procs[q].queue == [] {
        assert q != pid ==> Running(s, q, key);
      }
    } else {
      assert e.Store? ==> Running(s, e.pid, s.procs[e.pid].key);
      StillUnwatched(s, e, key);
    }
  }

  lemma {:induction false} LastInsertRun(s: State, es: seq<Event>, pid: nat, key: string)
    requires Inv(s) && ValidRun(s, es) && Pending(s, pid, key, 1) && OutOfSight(s, key)
    ensures Reachable(After(s, es), key)
    decreases |es|
  {
    if es != [] {
      var t := Next(s, es[0]);
      InvStep(s, es[0]);
      LastInsertStep(s, es[0], pid, key);
      if Pending(t, pid, key, 1) && OutOfSight(t, key) {
        LastInsertRun(t, es[1..], pid, key);
      } else {
        SafeRun(t, es[1..], key);
      }
    }
  }

  // ---- Unsafe cases ----------------------------------------------------------------------------

  /** A continuation that loses the object of a row can start with any step. */
  lemma UnsafeBefore(s: State, e: Event, key: string)
    requires Enabled(s, e) && !ReachableForEver(Next(s, e), key)
    ensures !ReachableForEver(s, key)
  {
    var more :| ValidRun(Next(s, e), more) && !Reachable(After(Next(s, e), more), key);
    assert ([e] + more)[1..] == more;
    assert !Reachable(After(s, [e] + more), key);
  }

  lemma {:induction false} UnsafeBeforeRun(s: State, es: seq<Event>, key: string)
    requires ValidRun(s, es) && !ReachableForEver(After(s, es), key)
    ensures !ReachableForEver(s, key)
    decreases |es|
  {
    if es != [] {
      UnsafeBeforeRun(Next(s, es[0]), es[1..], key);
      UnsafeBefore(s, es[0], key);
    }
  }

  /** A decision that a row has made stale gets carried out in some continuation. */
  lemma StaleDecisionIsUnsafe(s: State, key: string)
    requires Inv(s) && key in s.used && Refs(s.rows, Url(s.backend, key))
    requires key in s.objects ==> Decided(s, Url(s.backend, key))
    ensures !ReachableForEver(s, key)
  {
    if key in s.objects {
      var pid :| pid in s.procs && HoldsDelete(s.procs[pid], Url(s.backend, key));
      var es, e := ADecisionCanBeCarriedOut(s, pid, key);
      BackendKept(s, es);
      StrandingKeepsTheRow(After(s, es), e, key);
      assert !Reachable(After(Next(After(s, es), e), []), key);
      UnsafeBefore(After(s, es), e, key);
      UnsafeBeforeRun(s, es, key);
    } else {
      assert !Reachable(After(s, []), key);
    }
  }

  /** Another insert makes it so. */
  lemma InsertAfterDecision(s: State, pid: nat, key: string, n: nat)
    requires Inv(s) && Pending(s, pid, key, n) && n > 0 && (key in s.objects ==> Decided(s, Url(s.backend, key)))
    ensures !ReachableForEver(s, key)
  {
    var t, url := Next(s, Store(pid, "", 1)), Url(s.backend, key);
    assert ProcKnown(s, s.procs[pid]);
    assert t.rows[s.nextRow].bucketUrl == Some(url);
    if key in s.objects {
      var p :| p in s.procs && HoldsDelete(s.procs[p], url);
      assert t.procs[p] == s.procs[p];
    }
    InvStep(s, Store(pid, "", 1));
    StaleDecisionIsUnsafe(t, key);
    UnsafeBefore(s, Store(pid, "", 1), key);
  }

  /** Some step of another goroutine, after which the rows have gone and it has decided. */
  lemma DecisionStep(s: State, e: Event, pid: nat, key: string, n: nat)
    requires Inv(s) && Enabled(s, e) && Pending(s, pid, key, n) && n > 0 && Mover(e) != Some(pid)
    requires Decided(Next(s, e), Url(s.backend, key))
    ensures !ReachableForEver(s, key)
  {
    InvStep(s, e);
    InsertAfterDecision(Next(s, e), pid, key, n);
    UnsafeBefore(s, e, key);
  }

  lemma CountingIsUnsafe(s: State, p: nat, pid: nat, key: string, n: nat)
    requires Inv(s) && Pending(s, pid, key, n) && n > 0 && !Refs(s.rows, Url(s.backend, key))
    requires p in s.procs && s.procs[p] == AckCount(Url(s.backend, key))
    ensures !ReachableForEver(s, key)
  {
    var url, e := Url(s.backend, key), AckCountRows(p, true);
    CountIsReferenceTest(s.rows, url);
    assert HoldsDelete(Next(s, e).procs[p], url);
    DecisionStep(s, e, pid, key, n);
  }

  lemma CandidateIsUnsafe(s: State, p: nat, pid: nat, key: string, n: nat)
    requires Inv(s) && Pending(s, pid, key, n) && n > 0 && !Refs(s.rows, Url(s.backend, key))
    requires p in s.procs && s.procs[p].PruneCount? && Url(s.backend, key) in s.procs[p].todo
    ensures !ReachableForEver(s, key)
  {
    var url, e := Url(s.backend, key), PruneCountUrl(p, Url(s.backend, key), true);
    CountIsReferenceTest(s.rows, url);
    assert HoldsDelete(Next(s, e).procs[p], url);
    DecisionStep(s, e, pid, key, n);
  }

  /** Whoever is on the way to count finds no row, unless the loop is quicker. */
  lemma WillCountIsUnsafe(s: State, p: nat, pid: nat, key: string, n: nat)
    requires Inv(s) && Pending(s, pid, key, n) && n > 0 && !Refs(s.rows, Url(s.backend, key))
    requires p in s.procs && WillCount(s.procs[p], Url(s.backend, key))
    ensures !ReachableForEver(s, key)
  {
    assert ProcKnown(s, s.procs[pid]);
    UsedUrlIsKnown(s, key);
    match s.procs[p]
    case AckCount(_) => CountingIsUnsafe(s, p, pid, key, n);
    case PruneCount(_, _) => CandidateIsUnsafe(s, p, pid, key, n);
    case AckDelete(_, _) =>
      InvStep(s, AckDeleteRow(p, true));
      CountingIsUnsafe(Next(s, AckDeleteRow(p, true)), p, pid, key, n);
      UnsafeBefore(s, AckDeleteRow(p, true), key);
    case PruneDelete(_, _) =>
      InvStep(s, PruneDeleteRows(p, true));
      CandidateIsUnsafe(Next(s, PruneDeleteRows(p, true)), p, pid, key, n);
      UnsafeBefore(s, PruneDeleteRows(p, true), key);
  }

  lemma {:induction false} AllExpireBy(rows: Table, ids: set<nat>) returns (end: nat)
    requires ids <= rows.Keys
    ensures forall id :: id in ids ==> rows[id].expires <= end
    decreases ids
  {
    if ids == {} {
      end := 0;
    } else {
      var id :| id in ids;
      var rest := AllExpireBy(rows, ids - {id});
      end := if rows[id].expires > rest then rows[id].expires else rest;
    }
  }

  lemma {:induction false} UnusedPid(pids: set<nat>) returns (p: nat)
    ensures forall q :: q in pids ==> q < p
    decreases pids
  {
    if pids == {} {
      p := 0;
    } else {
      var q :| q in pids;
      var rest := UnusedPid(pids - {q});
      assert forall r :: r in pids ==> r == q || r in pids - {q};
      p := if q < rest then rest else q + 1;
    }
  }

  /** Once all its rows have expired a sweep takes them. */
  lemma ExpiredRowsAreUnsafe(s: State, pid: nat, key: string, n: nat)
    requires Inv(s) && Pending(s, pid, key, n) && n > 0 && Refs(s.rows, Url(s.backend, key))
    requires forall id :: id in s.rows ==> s.rows[id].expires <= s.now
    ensures !ReachableForEver(s, key)
  {
    var url := Url(s.backend, key);
    var p := UnusedPid(s.procs.Keys);
    var t := Next(s, PruneSelect(p, {}));
    InvStep(s, PruneSelect(p, {}));
    var id :| id in s.rows && s.rows[id].bucketUrl == Some(url);
    assert url in t.procs[p].candidates;
    var u := Next(t, PruneDeleteRows(p, true));
    InvStep(t, PruneDeleteRows(p, true));
    assert u.rows == map[];
    CandidateIsUnsafe(u, p, pid, key, n);
    UnsafeBefore(t, PruneDeleteRows(p, true), key);
    UnsafeBefore(s, PruneSelect(p, {}), key);
  }

  lemma RowsAreUnsafe(s: State, pid: nat, key: string, n: nat)
    requires Inv(s) && Pending(s, pid, key, n) && n > 0 && Refs(s.rows, Url(s.backend, key))
    ensures !ReachableForEver(s, key)
  {
    var end := AllExpireBy(s.rows, s.rows.Keys);
    var wait := Tick(if end > s.now then end - s.now else 0);
    InvStep(s, wait);
    ExpiredRowsAreUnsafe(Next(s, wait), pid, key, n);
    UnsafeBefore(s, wait, key);
  }

  lemma WatchedIsUnsafe(s: State, pid: nat, key: string, n: nat)
    requires Inv(s) && Pending(s, pid, key, n) && n > 0 && Watched(s, Url(s.backend, key))
    ensures !ReachableForEver(s, key)
  {
    if Refs(s.rows, Url(s.backend, key)) {
      RowsAreUnsafe(s, pid, key, n);
    } else {
      var p :| p in s.procs && WillCount(s.procs[p], Url(s.backend, key));
      WillCountIsUnsafe(s, p, pid, key, n);
    }
  }

  /** With two recipients to go there is always room for a count between their inserts. */
  lemma TwoToGoIsUnsafe(s: State, pid: nat, key: string, n: nat)
    requires Inv(s) && Pending(s, pid, key, n) && n >= 2
    ensures !ReachableForEver(s, key)
  {
    var t, url := Next(s, Store(pid, "", 1)), Url(s.backend, key);
    assert t.rows[s.nextRow].bucketUrl == Some(url);
    InvStep(s, Store(pid, "", 1));
    WatchedIsUnsafe(t, pid, key, n - 1);
    UnsafeBefore(s, Store(pid, "", 1), key);
  }

  // ---- Exactly ---------------------------------------------------------------------------------

  lemma RunningSafeExactly(s: State, pid: nat, key: string, n: nat)
    requires Inv(s) && Pending(s, pid, key, n) && n > 0
    ensures ReachableForEver(s, key) <==> n == 1 && OutOfSight(s, key)
  {
    if n >= 2 {
      TwoToGoIsUnsafe(s, pid, key, n);
    } else if OutOfSight(s, key) {
      forall es | ValidRun(s, es) ensures Reachable(After(s, es), key) {
        LastInsertRun(s, es, pid, key);
      }
    } else if Watched(s, Url(s.backend, key)) {
      WatchedIsUnsafe(s, pid, key, n);
    } else {
      InsertAfterDecision(s, pid, key, n);
    }
  }

  lemma ExhaustedSafeExactly(s: State, key: string)
    requires Inv(s) && Exhausted(s, key)
    ensures ReachableForEver(s, key) <==> SafeNow(s, key)
  {
    if SafeNow(s, key) {
      forall es | ValidRun(s, es) ensures Reachable(After(s, es), key) {
        SafeRun(s, es, key);
      }
    } else {
      StaleDecisionIsUnsafe(s, key);
    }
  }

  /** Main result, for every run, every object and every moment of its upload: no continuation leaves a
      row without the object exactly when either no insert is to come and the object, if a row points
      at it, is stored and undecided, or one insert is to come, the object is stored and undecided,
      no row points at it yet and nobody is on the way to count. A loop with two recipients to go is
      never safe. */
  lemma ObjectsAreSafeExactly(backend: Backend, es: seq<Event>, key: string)
    requires ValidRun(Init(backend), es) && key in After(Init(backend), es).used
    ensures var s := After(Init(backend), es);
            ReachableForEver(s, key) <==>
            (Exhausted(s, key) && SafeNow(s, key)) || (OutOfSight(s, key) && exists pid :: Pending(s, pid, key, 1))
  {
    InvRun(Init(backend), es);
    var s := After(Init(backend), es);
    if Exhausted(s, key) {
      ExhaustedSafeExactly(s, key);
      assert forall pid :: Pending(s, pid, key, 1) ==> Running(s, pid, key);
    } else {
      var pid :| Running(s, pid, key) && s.procs[pid].queue != [];
      var n := |s.procs[pid].queue|;
      assert Pending(s, pid, key, n);
      RunningSafeExactly(s, pid, key, n);
      forall p | Pending(s, p, key, 1) ensures p == pid {
        assert Running(s, p, key);
      }
    }
  }

  /** For a finished upload: the object is there for every row in every continuation exactly when it is
      there now, if any row points at it, and no goroutine has decided to delete it. */
  lemma FinishedObjectsAreSafeExactly(backend: Backend, es: seq<Event>, key: string)
    requires ValidRun(Init(backend), es) && Settled(After(Init(backend), es), key)
    ensures var s := After(Init(backend), es);
            var url := Url(backend, key);
            ReachableForEver(s, key) <==> (Refs(s.rows, url) ==> key in s.objects && !Decided(s, url))
  {
    ObjectsAreSafeExactly(backend, es, key);
    BackendKept(Init(backend), es);
    var s := After(Init(backend), es);
    assert forall pid :: Pending(s, pid, key, 1) ==> Running(s, pid, key);
  }

  /** In particular an object that is stored when its loop has ended and that nobody has decided to
      delete by then stays for every row. */
  lemma CountsAfterTheLoopAreSafe(backend: Backend, es: seq<Event>, key: string)
    requires ValidRun(Init(backend), es)
    requires var s := After(Init(backend), es); Settled(s, key) && key in s.objects && !Decided(s, Url(backend, key))
    ensures ReachableForEver(After(Init(backend), es), key)
  {
    FinishedObjectsAreSafeExactly(backend, es, key);
  }
}
