/** The other half of reference counting: which failure-free runs leave no object behind. */
module BucketReclaim {
  import opened Text
  import opened Storage
  import opened Messages
  import opened BucketRefs

  /** No call fails. */
  predicate Clean(e: Event) {
    match e
    case UploadFails(_, _) => false
    case Finish(_, ok) => ok
    case AckDeleteRow(_, ok) => ok
    case AckCountRows(_, ok) => ok
    case AckDeleteObject(_, ok) => ok
    case PruneSelect(_, unread) => unread == {}
    case PruneDeleteRows(_, ok) => ok
    case PruneCountUrl(_, _, ok) => ok
    case PruneDeleteObject(_, _, ok) => ok
    case _ => true
  }

  predicate CleanRun(s: State, es: seq<Event>)
    decreases |es|
  {
    es == [] || (Enabled(s, es[0]) && Clean(es[0]) && CleanRun(Next(s, es[0]), es[1..]))
  }

  lemma {:induction false} CleanRunIsARun(s: State, es: seq<Event>)
    requires CleanRun(s, es)
    ensures ValidRun(s, es)
    decreases |es|
  {
    if es != [] {
      CleanRunIsARun(Next(s, es[0]), es[1..]);
    }
  }

  /** This goroutine will still count the object's rows, or delete it, before it ends. */
  predicate Owes(backend: Backend, p: Proc, url: string) {
    match p
    case FanOut(key, _, delivered) => delivered == 0 && Url(backend, key) == url
    case AckDelete(_, u) => u == url
    case AckCount(u) => u == url
    case AckObject(u) => u == url
    case PruneDelete(candidates, _) => url in candidates
    case PruneCount(todo, dead) => url in todo || url in dead
    case PruneObjects(dead) => url in dead
    case Done => false
  }

  predicate Owed(s: State, url: string) {
    exists pid :: pid in s.procs && Owes(s.backend, s.procs[pid], url)
  }

  ghost predicate Accounted(s: State) {
    forall key :: key in s.objects ==> Refs(s.rows, Url(s.backend, key)) || Owed(s, Url(s.backend, key))
  }

  /** A pending sweep has every row that was expired at its SELECT among its candidates. */
  ghost predicate SelectionsComplete(s: State) {
    forall pid, id ::
      pid in s.procs && s.procs[pid].PruneDelete? && id in s.rows &&
      !Unexpired(s.rows[id], s.procs[pid].at) && s.rows[id].bucketUrl.Some?
      ==> s.rows[id].bucketUrl.value in s.procs[pid].candidates
  }

  lemma SelectionsStep(s: State, e: Event)
    requires Inv(s) && Enabled(s, e) && Clean(e) && SelectionsComplete(s)
    ensures SelectionsComplete(Next(s, e))
  {
    var t := Next(s, e);
    forall pid, id | pid in t.procs && t.procs[pid].PruneDelete? && id in t.rows &&
                     !Unexpired(t.rows[id], t.procs[pid].at) && t.rows[id].bucketUrl.Some?
      ensures t.rows[id].bucketUrl.value in t.procs[pid].candidates
    {
      if Mover(e) != Some(pid) {
        OnlyTheMoverMoves(s, e, pid);
        assert ProcKnown(s, s.procs[pid]);
        assert id in s.rows && t.rows[id] == s.rows[id];
      }
    }
  }

  /** A sweep's DELETE sees the instant of its SELECT. */
  predicate OneInstant(s: State, e: Event)
    requires Enabled(s, e)
  {
    e.PruneDeleteRows? ==> s.procs[e.pid].at == s.now
  }

  predicate OneInstantRun(s: State, es: seq<Event>)
    requires ValidRun(s, es)
    decreases |es|
  {
    es != [] ==> OneInstant(s, es[0]) && OneInstantRun(Next(s, es[0]), es[1..])
  }

  /** A row that a step removes is followed up by the goroutine that removed it. */
  lemma RemovalIsOwed(s: State, e: Event, url: string)
    requires Inv(s) && Enabled(s, e) && Clean(e) && OneInstant(s, e) && SelectionsComplete(s)
    requires Refs(s.rows, url) && !Refs(Next(s, e).rows, url)
    ensures Owed(Next(s, e), url)
  {
    var t := Next(s, e);
    var id :| id in s.rows && s.rows[id].bucketUrl == Some(url);
    assert id !in t.rows;
    assert Known(s, url) && s.rows[id].envelope == None;
    assert e.AckDeleteRow? || e.PruneDeleteRows?;
    assert ProcKnown(s, s.procs[e.pid]);
    assert Owes(t.backend, t.procs[e.pid], url);
  }

  lemma MoverStillOwes(s: State, e: Event, key: string, pid: nat)
    requires Inv(s) && Enabled(s, e) && Clean(e) && key in s.objects && key in Next(s, e).objects
    requires Mover(e) == Some(pid) && pid in s.procs && Owes(s.backend, s.procs[pid], Url(s.backend, key))
    requires !e.Store? && !Refs(s.rows, Url(s.backend, key))
    ensures Owes(s.backend, Next(s, e).procs[pid], Url(s.backend, key))
  {
    var p := s.procs[pid];
    UsedUrlIsKnown(s, key);
    CountIsReferenceTest(s.rows, Url(s.backend, key));
    assert ProcKnown(s, p);
    if p.FanOut? {
      UsedUrlIsKnown(s, p.key);
    }
  }

  lemma StoreAddsAReference(s: State, e: Event)
    requires Enabled(s, e) && e.Store?
    ensures Refs(Next(s, e).rows, Url(s.backend, s.procs[e.pid].key))
  {
    assert Next(s, e).rows[s.nextRow].bucketUrl == Some(Url(s.backend, s.procs[e.pid].key));
  }

  /** An obligation is only dropped by deleting the object or by seeing another reference. */
  lemma ObligationKept(s: State, e: Event, key: string)
    requires Inv(s) && Enabled(s, e) && Clean(e) && key in s.objects && key in Next(s, e).objects
    requires Owed(s, Url(s.backend, key))
    ensures Owed(Next(s, e), Url(s.backend, key)) || Refs(s.rows, Url(s.backend, key)) || Refs(Next(s, e).rows, Url(s.backend, key))
  {
    var t, url := Next(s, e), Url(s.backend, key);
    var pid :| pid in s.procs && Owes(s.backend, s.procs[pid], url);
    UsedUrlIsKnown(s, key);
    CountIsReferenceTest(s.rows, url);
    assert pid in t.procs;
    if Mover(e) != Some(pid) {
      OnlyTheMoverMoves(s, e, pid);
      assert Owes(t.backend, t.procs[pid], url);
    } else if e.Store? {
      StoreAddsAReference(s, e);
    } else if !Refs(s.rows, url) {
      MoverStillOwes(s, e, key, pid);
    }
  }

  lemma AccountedStep(s: State, e: Event)
    requires Inv(s) && Enabled(s, e) && Clean(e) && OneInstant(s, e) && SelectionsComplete(s) && Accounted(s)
    ensures Accounted(Next(s, e))
  {
    var t := Next(s, e);
    forall key | key in t.objects ensures Refs(t.rows, Url(t.backend, key)) || Owed(t, Url(t.backend, key)) {
      var url := Url(s.backend, key);
      if key !in s.objects {
        assert e.Upload? && Owes(t.backend, t.procs[e.pid], url);
      } else if !Refs(t.rows, url) {
        if Refs(s.rows, url) {
          RemovalIsOwed(s, e, url);
        } else {
          ObligationKept(s, e, key);
        }
      }
    }
  }

  // ---- Exactly which steps leave an object behind ---------------------------------------

  /** This goroutine may still count or delete the object, or give it another row. */
  predicate Watches(backend: Backend, p: Proc, url: string) {
    Owes(backend, p, url) || (p.FanOut? && Url(backend, p.key) == url)
  }

  predicate WatchedByOther(s: State, pid: nat, url: string) {
    exists q :: q in s.procs && q != pid && Watches(s.backend, s.procs[q], url)
  }

  predicate Watched(s: State, url: string) {
    exists q :: q in s.procs && Watches(s.backend, s.procs[q], url)
  }

  /** Stored, without a row, and nobody will look at it again. */
  predicate Orphaned(s: State, key: string) {
    key in s.objects && !Refs(s.rows, Url(s.backend, key)) && !Watched(s, Url(s.backend, key))
  }

  predicate NoneOrphaned(s: State) {
    forall key :: key in s.objects ==> !Orphaned(s, key)
  }

  /** All rows of a stored object have expired by the time of a DELETE whose SELECT did not see
      one of them expired, and nobody else watches the object. */
  predicate SweepsUnseen(s: State, e: Event)
    requires Enabled(s, e)
  {
    e.PruneDeleteRows? && exists key ::
      && key in s.objects && Refs(s.rows, Url(s.backend, key)) && !Refs(WithoutExpired(s.rows, s.now), Url(s.backend, key))
      && Url(s.backend, key) !in s.procs[e.pid].candidates && !WatchedByOther(s, e.pid, Url(s.backend, key))
  }

  /** A loop that has delivered ends when none of its rows is left, and nobody else watches. */
  predicate EndsBare(s: State, e: Event)
    requires Enabled(s, e)
  {
    e.Finish? &&
    var p := s.procs[e.pid];
    && p.delivered > 0 && p.key in s.objects
    && !Refs(s.rows, Url(s.backend, p.key)) && !WatchedByOther(s, e.pid, Url(s.backend, p.key))
  }

  predicate Orphans(s: State, e: Event)
    requires Enabled(s, e)
  {
    SweepsUnseen(s, e) || EndsBare(s, e)
  }

  predicate NeverOrphans(s: State, es: seq<Event>)
    requires ValidRun(s, es)
    decreases |es|
  {
    es != [] ==> !Orphans(s, es[0]) && NeverOrphans(Next(s, es[0]), es[1..])
  }

  lemma BystanderWatches(s: State, e: Event, pid: nat, url: string)
    requires Enabled(s, e) && pid in s.procs && Mover(e) != Some(pid) && Watches(s.backend, s.procs[pid], url)
    ensures Watched(Next(s, e), url)
  {
    assert pid in Next(s, e).procs;
    OnlyTheMoverMoves(s, e, pid);
    assert Watches(s.backend, Next(s, e).procs[pid], url);
  }

  lemma LoopKeepsWatch(s: State, e: Event, key: string, pid: nat)
    requires Inv(s) && Enabled(s, e) && key in s.objects && Mover(e) == Some(pid)
    requires pid in s.procs && s.procs[pid].FanOut? && s.procs[pid].delivered > 0
    requires Url(s.backend, s.procs[pid].key) == Url(s.backend, key)
    requires !Refs(s.rows, Url(s.backend, key)) && !EndsBare(s, e)
    ensures Watched(Next(s, e), Url(s.backend, key))
  {
    var t, p, url := Next(s, e), s.procs[pid], Url(s.backend, key);
    assert ProcKnown(s, p);
    UsedUrlIsKnown(s, p.key);
    UsedUrlIsKnown(s, key);
    if e.Finish? {
      var q :| q in s.procs && q != pid && Watches(s.backend, s.procs[q], url);
      BystanderWatches(s, e, q, url);
    } else {
      assert Watches(t.backend, t.procs[pid], url);
    }
  }

  lemma WatchKept(s: State, e: Event, key: string)
    requires Inv(s) && Enabled(s, e) && Clean(e) && key in s.objects && key in Next(s, e).objects
    requires Watched(s, Url(s.backend, key)) && !Refs(s.rows, Url(s.backend, key)) && !EndsBare(s, e)
    ensures Watched(Next(s, e), Url(s.backend, key)) || Refs(Next(s, e).rows, Url(s.backend, key))
  {
    var t, url := Next(s, e), Url(s.backend, key);
    var pid :| pid in s.procs && Watches(s.backend, s.procs[pid], url);
    if Owes(s.backend, s.procs[pid], url) {
      ObligationKept(s, e, key);
    } else if Mover(e) != Some(pid) {
      BystanderWatches(s, e, pid, url);
    } else {
      LoopKeepsWatch(s, e, key, pid);
    }
  }

  lemma UnwatchedIsSwept(s: State, e: Event, key: string)
    requires Inv(s) && Enabled(s, e) && Clean(e) && key in s.objects
    requires Refs(s.rows, Url(s.backend, key)) && !Refs(Next(s, e).rows, Url(s.backend, key))
    requires !Watched(Next(s, e), Url(s.backend, key))
    ensures SweepsUnseen(s, e)
  {
    var t, url := Next(s, e), Url(s.backend, key);
    UsedUrlIsKnown(s, key);
    var id :| id in s.rows && s.rows[id].bucketUrl == Some(url);
    assert id !in t.rows && s.rows[id].envelope == None;
    assert e.AckDeleteRow? || e.PruneDeleteRows?;
    assert ProcKnown(s, s.procs[e.pid]);
    assert !Watches(t.backend, t.procs[e.pid], url);
    forall q | q in s.procs && q != e.pid ensures !Watches(s.backend, s.procs[q], url) {
      assert t.procs[q] == s.procs[q];
    }
  }

  lemma NoneOrphanedStep(s: State, e: Event)
    requires Inv(s) && Enabled(s, e) && Clean(e) && NoneOrphaned(s) && !Orphans(s, e)
    ensures NoneOrphaned(Next(s, e))
  {
    var t := Next(s, e);
    forall key | key in t.objects ensures !Orphaned(t, key) {
      var url := Url(s.backend, key);
      if key !in s.objects {
        assert e.Upload? && Watches(t.backend, t.procs[e.pid], url);
      } else if Refs(s.rows, url) {
        if !Refs(t.rows, url) && !Watched(t, url) {
          UnwatchedIsSwept(s, e, key);
        }
      } else {
        assert !Orphaned(s, key);
        WatchKept(s, e, key);
      }
    }
  }

  /** A step of a goroutine that nobody else follows, and that stops watching. */
  lemma UnwatchedAfter(s: State, e: Event, pid: nat, url: string)
    requires Enabled(s, e) && Mover(e) == Some(pid) && !WatchedByOther(s, pid, url)
    requires pid in Next(s, e).procs && !Watches(s.backend, Next(s, e).procs[pid], url)
    ensures !Watched(Next(s, e), url)
  {
    var t := Next(s, e);
    forall q | q in t.procs ensures !Watches(t.backend, t.procs[q], url) {
      if q != pid {
        OnlyTheMoverMoves(s, e, q);
      }
    }
  }

  lemma OrphaningOrphans(s: State, e: Event)
    requires Inv(s) && Enabled(s, e) && Clean(e) && Orphans(s, e)
    ensures !NoneOrphaned(Next(s, e))
  {
    if EndsBare(s, e) {
      var key := s.procs[e.pid].key;
      UnwatchedAfter(s, e, e.pid, Url(s.backend, key));
      assert Orphaned(Next(s, e), key);
    } else {
      var key :| && key in s.objects && !Refs(WithoutExpired(s.rows, s.now), Url(s.backend, key))
                 && Url(s.backend, key) !in s.procs[e.pid].candidates && !WatchedByOther(s, e.pid, Url(s.backend, key));
      UnwatchedAfter(s, e, e.pid, Url(s.backend, key));
      assert Orphaned(Next(s, e), key);
    }
  }

  lemma NoNewRow(s: State, e: Event, key: string)
    requires Inv(s) && Enabled(s, e) && Orphaned(s, key)
    ensures !Refs(Next(s, e).rows, Url(s.backend, key))
  {
    var url := Url(s.backend, key);
    UsedUrlIsKnown(s, key);
    assert e.Store? ==> !Watches(s.backend, s.procs[e.pid], url);
    if Refs(Next(s, e).rows, url) {
      RefsGrowOnlyByStore(s, e, url);
    }
  }

  lemma ObjectStays(s: State, e: Event, key: string)
    requires Inv(s) && Enabled(s, e) && Orphaned(s, key)
    ensures key in Next(s, e).objects
  {
    UsedUrlIsKnown(s, key);
    if Mover(e).Some? && Mover(e).value in s.procs {
      assert ProcKnown(s, s.procs[Mover(e).value]);
      assert !Watches(s.backend, s.procs[Mover(e).value], Url(s.backend, key));
    }
  }

  lemma UnwatchingMover(s: State, e: Event, url: string)
    requires Enabled(s, e) && Mover(e).Some? && Mover(e).value in s.procs
    requires !Watches(s.backend, s.procs[Mover(e).value], url)
    ensures !Watches(s.backend, Next(s, e).procs[Mover(e).value], url)
  {}

  lemma OrphanUnwatched(s: State, e: Event, key: string, q: nat)
    requires Inv(s) && Enabled(s, e) && Orphaned(s, key) && q in Next(s, e).procs
    ensures !Watches(s.backend, Next(s, e).procs[q], Url(s.backend, key))
  {
    if Mover(e) != Some(q) {
      OnlyTheMoverMoves(s, e, q);
    } else if q in s.procs {
      assert !Watches(s.backend, s.procs[q], Url(s.backend, key));
      UnwatchingMover(s, e, Url(s.backend, key));
    } else {
      UsedUrlIsKnown(s, key);
      if e.Upload? {
        KeyRoundTrip(s.backend, e.key);
      }
    }
  }

  /** What nobody watches stays as it is. */
  lemma OrphanStays(s: State, e: Event, key: string)
    requires Inv(s) && Enabled(s, e) && Orphaned(s, key)
    ensures Orphaned(Next(s, e), key)
  {
    var t, url := Next(s, e), Url(s.backend, key);
    NoNewRow(s, e, key);
    forall q | q in t.procs ensures !Watches(t.backend, t.procs[q], url) {
      OrphanUnwatched(s, e, key, q);
    }
    ObjectStays(s, e, key);
  }

  lemma {:induction false} OrphanedForGood(s: State, es: seq<Event>, key: string)
    requires Inv(s) && ValidRun(s, es) && Orphaned(s, key)
    ensures Orphaned(After(s, es), key)
    decreases |es|
  {
    if es != [] {
      OrphanStays(s, es[0], key);
      InvStep(s, es[0]);
      OrphanedForGood(Next(s, es[0]), es[1..], key);
    }
  }

  lemma {:induction false} OrphansRun(s: State, es: seq<Event>)
    requires Inv(s) && CleanRun(s, es) && NoneOrphaned(s) && ValidRun(s, es)
    ensures NoneOrphaned(After(s, es)) <==> NeverOrphans(s, es)
    decreases |es|
  {
    if es != [] {
      var t := Next(s, es[0]);
      InvStep(s, es[0]);
      if Orphans(s, es[0]) {
        OrphaningOrphans(s, es[0]);
        var key :| key in t.objects && Orphaned(t, key);
        OrphanedForGood(t, es[1..], key);
      } else {
        NoneOrphanedStep(s, es[0]);
        OrphansRun(t, es[1..]);
      }
    }
  }

  predicate Quiet(s: State) {
    forall pid :: pid in s.procs ==> s.procs[pid].Done?
  }

  /** Main reclamation result, for every failure-free run: once all goroutines have ended, an object
      is still stored only if a message row points at it, if and only if no DELETE ever removed the
      last rows of an object its SELECT had not seen expire and no loop ended after its rows had gone
      that way. What is left behind is left for good. */
  lemma NoOrphansExactly(backend: Backend, es: seq<Event>)
    requires CleanRun(Init(backend), es) && ValidRun(Init(backend), es) && Quiet(After(Init(backend), es))
    ensures var s := After(Init(backend), es);
            (forall key :: key in s.objects ==> Refs(s.rows, Url(backend, key))) <==> NeverOrphans(Init(backend), es)
  {
    OrphansRun(Init(backend), es);
    BackendKept(Init(backend), es);
    var s := After(Init(backend), es);
    forall key | key in s.objects ensures Orphaned(s, key) <==> !Refs(s.rows, Url(backend, key)) {
      assert !Watched(s, Url(backend, key));
    }
  }

  // ---- Sweeps that see one instant ----------------------------------------------------------

  lemma UnexpiredStillRefers(rows: Table, now: int, id: nat)
    requires id in rows && rows[id].bucketUrl.Some? && Unexpired(rows[id], now)
    ensures Refs(WithoutExpired(rows, now), rows[id].bucketUrl.value)
  {
    assert WithoutExpired(rows, now)[id] == rows[id];
  }

  lemma LoopIsNotAlone(s: State, pid: nat)
    requires Inv(s) && Accounted(s) && pid in s.procs && s.procs[pid].FanOut? && s.procs[pid].delivered > 0
    requires s.procs[pid].key in s.objects
    ensures var url := Url(s.backend, s.procs[pid].key); Refs(s.rows, url) || WatchedByOther(s, pid, url)
  {
    var key := s.procs[pid].key;
    if !Refs(s.rows, Url(s.backend, key)) {
      var q :| q in s.procs && Owes(s.backend, s.procs[q], Url(s.backend, key));
      assert q != pid && Watches(s.backend, s.procs[q], Url(s.backend, key));
    }
  }

  lemma OneInstantNeverOrphans(s: State, e: Event)
    requires Inv(s) && Enabled(s, e) && Clean(e) && OneInstant(s, e) && SelectionsComplete(s) && Accounted(s)
    ensures !Orphans(s, e)
  {
    if e.PruneDeleteRows? {
      forall key | key in s.objects && Refs(s.rows, Url(s.backend, key)) && !Refs(WithoutExpired(s.rows, s.now), Url(s.backend, key))
        ensures Url(s.backend, key) in s.procs[e.pid].candidates
      {
        var id :| id in s.rows && s.rows[id].bucketUrl == Some(Url(s.backend, key));
        if Unexpired(s.rows[id], s.now) {
          UnexpiredStillRefers(s.rows, s.now, id);
        }
      }
    }
    if e.Finish? && s.procs[e.pid].delivered > 0 && s.procs[e.pid].key in s.objects {
      LoopIsNotAlone(s, e.pid);
    }
  }

  lemma {:induction false} OneInstantRunNeverOrphans(s: State, es: seq<Event>)
    requires Inv(s) && CleanRun(s, es) && ValidRun(s, es) && OneInstantRun(s, es) && SelectionsComplete(s) && Accounted(s)
    ensures NeverOrphans(s, es)
    decreases |es|
  {
    if es != [] {
      InvStep(s, es[0]);
      SelectionsStep(s, es[0]);
      AccountedStep(s, es[0]);
      OneInstantNeverOrphans(s, es[0]);
      OneInstantRunNeverOrphans(Next(s, es[0]), es[1..]);
    }
  }

  /** In particular nothing is left behind when every sweep's SELECT and DELETE see one instant. */
  lemma NoOrphans(backend: Backend, es: seq<Event>)
    requires CleanRun(Init(backend), es) && ValidRun(Init(backend), es) && OneInstantRun(Init(backend), es)
    ensures var s := After(Init(backend), es);
            Quiet(s) ==> forall key :: key in s.objects ==> Refs(s.rows, Url(backend, key))
  {
    OneInstantRunNeverOrphans(Init(backend), es);
    if Quiet(After(Init(backend), es)) {
      NoOrphansExactly(backend, es);
    }
  }

  /** Builds a failure-free run backwards, one step at a time. */
  lemma PrependClean(s: State, e: Event, t: State, es: seq<Event>) returns (longer: seq<Event>)
    requires Enabled(s, e) && Clean(e) && Next(s, e) == t && CleanRun(t, es) && ValidRun(t, es)
    ensures CleanRun(s, longer) && ValidRun(s, longer) && After(s, longer) == After(t, es)
  {
    longer := [e] + es;
    assert longer[1..] == es;
  }

  function OneRow(backend: Backend): Table {
    map[0 := Message("a", "s", None, Some(Url(backend, "k")), 1)]
  }

  function GapState(backend: Backend, now: int, rows: Table, sweep: Option<Proc>): State {
    State(backend, now, rows, 1, {"k"}, {"k"},
          if sweep.None? then map[0 := Done] else map[0 := Done, 1 := sweep.value])
  }

  /** A sweep that selects at instant 0 and deletes at instant 1. */
  lemma GapSweep(backend: Backend) returns (es: seq<Event>)
    ensures var s := GapState(backend, 0, OneRow(backend), None); CleanRun(s, es) && ValidRun(s, es)
    ensures After(GapState(backend, 0, OneRow(backend), None), es) == GapState(backend, 1, map[], Some(Done))
  {
    var rows := OneRow(backend);
    var s3 := GapState(backend, 0, rows, None);
    var s4 := GapState(backend, 0, rows, Some(PruneDelete({}, 0)));
    var s5 := GapState(backend, 1, rows, Some(PruneDelete({}, 0)));
    var s6 := GapState(backend, 1, map[], Some(PruneCount({}, {})));
    var s7 := GapState(backend, 1, map[], Some(Done));
    es := PrependClean(s6, PruneReport(1), s7, []);
    assert WithoutExpired(rows, 1) == map[];
    es := PrependClean(s5, PruneDeleteRows(1, true), s6, es);
    es := PrependClean(s4, Tick(1), s5, es);
    assert ExpiredUrls(rows, 0) - {} == {};
    es := PrependClean(s3, PruneSelect(1, {}), s4, es);
  }

  /** A row that expires between the two statements leaves its object behind for good. */
  lemma SweepGapOrphans(backend: Backend) returns (es: seq<Event>)
    ensures ValidRun(Init(backend), es)
    ensures var s := After(Init(backend), es);
            CleanRun(Init(backend), es) && Quiet(s) && "k" in s.objects && !Refs(s.rows, Url(backend, "k"))
  {
    var s0 := Init(backend);
    var s1 := State(backend, 0, map[], 0, {"k"}, {"k"}, map[0 := FanOut("k", ["a"], 0)]);
    var s2 := State(backend, 0, OneRow(backend), 1, {"k"}, {"k"}, map[0 := FanOut("k", [], 1)]);
    es := GapSweep(backend);
    es := PrependClean(s2, Finish(0, true), GapState(backend, 0, OneRow(backend), None), es);
    assert ["a"][1..] == [];
    es := PrependClean(s1, Store(0, "s", 1), s2, es);
    es := PrependClean(s0, Upload(0, "k", ["a"]), s1, es);
  }
}
