/** Which objects are deleted and which are left, read off the events and the pointer rows that stand. */
module BucketObjects {
  import opened Text
  import opened Storage
  import opened Messages
  import opened BucketRefs
  import opened BucketHistory

  /** Some pointer row stands at this URL. */
  ghost predicate Pointed(backend: Backend, es: seq<Event>, url: string) {
    exists row, m :: Stands(backend, es, row, m) && m.bucketUrl == Some(url)
  }

  lemma PointedExactly(backend: Backend, es: seq<Event>, url: string)
    requires ValidRun(Init(backend), es)
    ensures Refs(After(Init(backend), es).rows, url) <==> Pointed(backend, es, url)
  {
    var s := After(Init(backend), es);
    if Refs(s.rows, url) {
      var row :| row in s.rows && s.rows[row].bucketUrl == Some(url);
      PointerRowsAreStoredExactly(backend, es, row, s.rows[row]);
      assert Stands(backend, es, row, s.rows[row]);
    }
    if Pointed(backend, es, url) {
      var row, m :| Stands(backend, es, row, m) && m.bucketUrl == Some(url);
      PointerRowsAreStoredExactly(backend, es, row, m);
      assert s.rows[row].bucketUrl == Some(url);
    }
  }

  /** An acknowledgement goes on to delete the object exactly if its count succeeds and no pointer row stands
      at the object any more, and a sweep reports a URL exactly if the same holds for it. */
  lemma CountsDecideExactly(backend: Backend, es: seq<Event>, pid: nat, url: string, ok: bool)
    requires ValidRun(Init(backend), es)
    ensures var s := After(Init(backend), es);
            && (pid in s.procs && s.procs[pid] == AckCount(url) ==>
                  Next(s, AckCountRows(pid, ok)).procs[pid] == if ok && !Pointed(backend, es, url) then AckObject(url) else Proc.Done)
            && (Enabled(s, PruneCountUrl(pid, url, ok)) ==>
                  var p := s.procs[pid];
                  Next(s, PruneCountUrl(pid, url, ok)).procs[pid] ==
                  PruneCount(p.todo - {url}, if ok && !Pointed(backend, es, url) then p.dead + {url} else p.dead))
  {
    CountIsReferenceTest(After(Init(backend), es).rows, url);
    PointedExactly(backend, es, url);
  }

  // ---- The end of a loop ---------------------------------------------------------------------------

  /** How many rows this loop has inserted. */
  function Stores(es: seq<Event>, pid: nat): nat {
    if es == [] then 0
    else Stores(es[..|es| - 1], pid) + (if es[|es| - 1].Store? && es[|es| - 1].pid == pid then 1 else 0)
  }

  ghost predicate Delivered(s: State, es: seq<Event>) {
    forall pid :: if pid in s.procs then s.procs[pid].FanOut? ==> s.procs[pid].delivered == Stores(es, pid) else Stores(es, pid) == 0
  }

  lemma DeliveredStep(s: State, es: seq<Event>, e: Event)
    requires Delivered(s, es) && Enabled(s, e)
    ensures Delivered(Next(s, e), es + [e])
  {
    var t := Next(s, e);
    assert (es + [e])[..|es|] == es;
    forall pid
      ensures if pid in t.procs then t.procs[pid].FanOut? ==> t.procs[pid].delivered == Stores(es + [e], pid) else Stores(es + [e], pid) == 0
    {
      assert if pid in s.procs then s.procs[pid].FanOut? ==> s.procs[pid].delivered == Stores(es, pid) else Stores(es, pid) == 0;
    }
  }

  lemma {:induction false} DeliveredRun(backend: Backend, es: seq<Event>)
    requires ValidRun(Init(backend), es)
    ensures Delivered(After(Init(backend), es), es)
    decreases |es|
  {
    if es != [] {
      var front, last := es[..|es| - 1], es[|es| - 1];
      LastStep(Init(backend), es);
      DeliveredRun(backend, front);
      DeliveredStep(After(Init(backend), front), front, last);
      assert es == front + [last];
    }
  }

  /** A loop that inserted no row takes its object back, unless the delete fails; any other leaves the
      objects alone. */
  lemma LoopsTakeBackExactly(backend: Backend, es: seq<Event>, pid: nat, ok: bool, key: string, rs: seq<string>)
    requires ValidRun(Init(backend), es) && Enabled(After(Init(backend), es), Finish(pid, ok)) && Upload(pid, key, rs) in es
    ensures var s := After(Init(backend), es);
            Next(s, Finish(pid, ok)).objects == s.objects - if ok && Stores(es, pid) == 0 then {key} else {}
  {
    ToldRun(backend, es);
    DeliveredRun(backend, es);
    assert LoopAt(After(Init(backend), es).procs[pid], key, rs, Moves(es, pid));
  }

  // ---- What a failed upload leaves -----------------------------------------------------------------

  /** This goroutine has nothing to do with the key. */
  ghost predicate Ignores(p: Proc, key: string) {
    match p
    case FanOut(k, _, _) => k != key
    case AckDelete(_, url) => KeyFromUrl(url) != key
    case AckCount(url) => KeyFromUrl(url) != key
    case AckObject(url) => KeyFromUrl(url) != key
    case PruneDelete(candidates, _) => forall u :: u in candidates ==> KeyFromUrl(u) != key
    case PruneCount(todo, dead) => forall u :: u in todo || u in dead ==> KeyFromUrl(u) != key
    case PruneObjects(dead) => forall u :: u in dead ==> KeyFromUrl(u) != key
    case Done => true
  }

  predicate RowsIgnore(s: State, key: string) {
    forall row :: row in s.rows && s.rows[row].bucketUrl.Some? ==> KeyFromUrl(s.rows[row].bucketUrl.value) != key
  }

  ghost predicate Abandoned(s: State, key: string, left: bool) {
    && key in s.used && (key in s.objects <==> left)
    && (forall pid :: pid in s.procs ==> Ignores(s.procs[pid], key))
    && RowsIgnore(s, key)
  }

  lemma IgnoringGoesOn(s: State, e: Event, key: string, pid: nat)
    requires Enabled(s, e) && key in s.used && pid in Next(s, e).procs
    requires (pid in s.procs ==> Ignores(s.procs[pid], key)) && RowsIgnore(s, key)
    ensures Ignores(Next(s, e).procs[pid], key)
  {}

  lemma RowsGoOnIgnoring(s: State, e: Event, key: string)
    requires Inv(s) && Enabled(s, e) && RowsIgnore(s, key)
    requires e.Store? ==> Ignores(s.procs[e.pid], key)
    ensures RowsIgnore(Next(s, e), key)
  {
    if e.Store? {
      assert ProcKnown(s, s.procs[e.pid]);
      UsedUrlIsKnown(s, s.procs[e.pid].key);
    }
  }

  lemma LeftAlone(s: State, e: Event, key: string)
    requires Enabled(s, e) && key in s.used
    requires Mover(e).Some? && Mover(e).value in s.procs ==> Ignores(s.procs[Mover(e).value], key)
    ensures key in Next(s, e).used && (key in Next(s, e).objects <==> key in s.objects)
  {}

  lemma AbandonedStays(s: State, e: Event, key: string, left: bool)
    requires Inv(s) && Enabled(s, e) && Abandoned(s, key, left)
    ensures Abandoned(Next(s, e), key, left)
  {
    LeftAlone(s, e, key);
    RowsGoOnIgnoring(s, e, key);
    forall pid | pid in Next(s, e).procs ensures Ignores(Next(s, e).procs[pid], key) {
      IgnoringGoesOn(s, e, key, pid);
    }
  }

  lemma AbandonedAtOnce(s: State, e: Event)
    requires Inv(s) && Enabled(s, e) && e.UploadFails?
    ensures Abandoned(Next(s, e), e.key, e.partial)
  {
    var t := Next(s, e);
    forall pid | pid in t.procs ensures Ignores(t.procs[pid], e.key) {
      assert ProcKnown(s, s.procs[pid]);
    }
  }

  /** A failed upload leaves a file exactly if the store had created one, and nobody ever deletes it. */
  lemma {:induction false} FailedUploadsLeaveExactly(backend: Backend, es: seq<Event>, key: string, partial: bool)
    requires ValidRun(Init(backend), es) && UploadFails(key, partial) in es
    ensures var s := After(Init(backend), es); (key in s.objects <==> partial) && Abandoned(s, key, partial)
    decreases |es|
  {
    var front, last := es[..|es| - 1], es[|es| - 1];
    LastStep(Init(backend), es);
    ToldRun(backend, front);
    if UploadFails(key, partial) in front {
      FailedUploadsLeaveExactly(backend, front, key, partial);
      AbandonedStays(After(Init(backend), front), last, key, partial);
    } else {
      assert es == front + [last];
      AbandonedAtOnce(After(Init(backend), front), last);
    }
  }
}
