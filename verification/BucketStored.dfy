/** Whole runs of the bucket handlers: exactly which steps leave a message row pointing at an object
    that is gone, and what the fan-out loops must avoid so that none does. */
module BucketStored {
  import opened Text
  import opened Storage
  import opened Messages
  import opened BucketRefs
  import BucketHandlers

  /** Every row's object is stored. */
  predicate Stored(s: State) {
    BucketHandlers.Stored(s.backend, s.rows, s.objects)
  }

  /** The loop inserts a row for an object that somebody has already deleted. */
  predicate StoresToDeleted(s: State, e: Event)
    requires Enabled(s, e)
  {
    e.Store? && s.procs[e.pid].key !in s.objects
  }

  /** An acknowledgement or a sweep carries out a delete although a row points at the object. */
  predicate DeletesReferenced(s: State, e: Event)
    requires Enabled(s, e)
  {
    match e
    case AckDeleteObject(pid, ok) => ok && Refs(s.rows, s.procs[pid].url)
    case PruneDeleteObject(_, url, ok) => ok && Refs(s.rows, url)
    case _ => false
  }

  predicate Strays(s: State, e: Event)
    requires Enabled(s, e)
  {
    StoresToDeleted(s, e) || DeletesReferenced(s, e)
  }

  predicate NeverStrays(s: State, es: seq<Event>)
    requires ValidRun(s, es)
    decreases |es|
  {
    es != [] ==> !Strays(s, es[0]) && NeverStrays(Next(s, es[0]), es[1..])
  }

  predicate StoredThroughout(s: State, es: seq<Event>)
    requires ValidRun(s, es)
    decreases |es|
  {
    Stored(s) && (es != [] ==> StoredThroughout(Next(s, es[0]), es[1..]))
  }

  lemma StoringToDeleted(s: State, e: Event)
    requires Inv(s) && Enabled(s, e) && StoresToDeleted(s, e)
    ensures !Stored(Next(s, e))
  {
    var t, key := Next(s, e), s.procs[e.pid].key;
    assert ProcKnown(s, s.procs[e.pid]);
    UsedUrlIsKnown(s, key);
    assert t.rows[s.nextRow].bucketUrl == Some(Url(s.backend, key));
  }

  lemma DeletingReferenced(s: State, e: Event)
    requires Inv(s) && Enabled(s, e) && DeletesReferenced(s, e)
    ensures !Stored(Next(s, e))
  {
    var t := Next(s, e);
    var url := if e.AckDeleteObject? then s.procs[e.pid].url else e.url;
    var id :| id in s.rows && s.rows[id].bucketUrl == Some(url);
    assert t.rows[id].bucketUrl == Some(url) && KeyFromUrl(url) !in t.objects;
  }

  /** No other step takes away the object of a row. */
  lemma RowStaysStored(s: State, e: Event, id: nat)
    requires Inv(s) && Enabled(s, e) && Stored(s) && !Strays(s, e)
    requires id in s.rows && id in Next(s, e).rows && s.rows[id].bucketUrl.Some?
    ensures KeyFromUrl(s.rows[id].bucketUrl.value) in Next(s, e).objects
  {
    var t, url := Next(s, e), s.rows[id].bucketUrl.value;
    assert Known(s, url) && Refs(s.rows, url);
    assert Mover(e).Some? && Mover(e).value in s.procs ==> ProcKnown(s, s.procs[Mover(e).value]);
  }

  lemma StoredStepExactly(s: State, e: Event)
    requires Inv(s) && Enabled(s, e) && Stored(s)
    ensures Stored(Next(s, e)) <==> !Strays(s, e)
  {
    var t := Next(s, e);
    if StoresToDeleted(s, e) {
      StoringToDeleted(s, e);
    } else if DeletesReferenced(s, e) {
      DeletingReferenced(s, e);
    } else {
      InvStep(s, e);
      forall id | id in t.rows && t.rows[id].bucketUrl.Some? ensures KeyFromUrl(t.rows[id].bucketUrl.value) in t.objects {
        if id in s.rows {
          assert t.rows[id] == s.rows[id];
          RowStaysStored(s, e, id);
        } else {
          assert e.Store?;
          UsedUrlIsKnown(s, s.procs[e.pid].key);
        }
      }
    }
  }

  lemma {:induction false} StoredRun(s: State, es: seq<Event>)
    requires Inv(s) && ValidRun(s, es) && Stored(s)
    ensures StoredThroughout(s, es) <==> NeverStrays(s, es)
    decreases |es|
  {
    if es != [] {
      StoredStepExactly(s, es[0]);
      if !Strays(s, es[0]) {
        InvStep(s, es[0]);
        StoredRun(Next(s, es[0]), es[1..]);
      }
    }
  }

  /** Main result, for every run of uploads, inserts, acknowledgements and sweeps with arbitrary
      failures: every message row has its object at every moment if and only if no loop inserts a
      row for an object already deleted and no delete is carried out after a new row has appeared. */
  lemma RowsHaveTheirObjectsExactly(backend: Backend, es: seq<Event>)
    requires ValidRun(Init(backend), es)
    ensures StoredThroughout(Init(backend), es) <==> NeverStrays(Init(backend), es)
  {
    StoredRun(Init(backend), es);
  }

  // ---- The loops decide ---------------------------------------------------------------------

  /** The loop inserts a row while the object is stored and nobody has decided to delete it. */
  predicate InsertsInTime(s: State, e: Event)
    requires Enabled(s, e)
  {
    e.Store? ==> s.procs[e.pid].key in s.objects && !Decided(s, Url(s.backend, s.procs[e.pid].key))
  }

  predicate AlwaysInTime(s: State, es: seq<Event>)
    requires ValidRun(s, es)
    decreases |es|
  {
    es != [] ==> InsertsInTime(s, es[0]) && AlwaysInTime(Next(s, es[0]), es[1..])
  }

  ghost predicate DecisionsHold(s: State) {
    forall url :: Decided(s, url) ==> !Refs(s.rows, url)
  }

  lemma NoDecisionsFromStore(s: State, e: Event, url: string)
    requires Enabled(s, e) && e.Store? && Decided(Next(s, e), url)
    ensures Decided(s, url)
  {
    var t := Next(s, e);
    var pid :| pid in t.procs && HoldsDelete(t.procs[pid], url);
    assert s.procs[pid] == t.procs[pid];
  }

  lemma DecisionsHoldStep(s: State, e: Event)
    requires Inv(s) && Enabled(s, e) && DecisionsHold(s) && InsertsInTime(s, e)
    ensures DecisionsHold(Next(s, e)) && !Strays(s, e)
  {
    var t := Next(s, e);
    forall url | Decided(t, url) ensures !Refs(t.rows, url) {
      if !Decided(s, url) {
        DecisionsComeFromZeroCounts(s, e, url);
      }
      if Refs(t.rows, url) {
        RefsGrowOnlyByStore(s, e, url);
        NoDecisionsFromStore(s, e, url);
      }
    }
    if e.AckDeleteObject? {
      assert HoldsDelete(s.procs[e.pid], s.procs[e.pid].url);
    }
    if e.PruneDeleteObject? {
      assert HoldsDelete(s.procs[e.pid], e.url);
    }
  }

  lemma {:induction false} InTimeRun(s: State, es: seq<Event>)
    requires Inv(s) && ValidRun(s, es) && DecisionsHold(s) && AlwaysInTime(s, es)
    ensures NeverStrays(s, es)
    decreases |es|
  {
    if es != [] {
      DecisionsHoldStep(s, es[0]);
      InvStep(s, es[0]);
      InTimeRun(Next(s, es[0]), es[1..]);
    }
  }

  /** So the inserts alone decide: if every one of them finds its object stored and not decided
      upon, every row has its object at every moment, whatever else interleaves or fails. */
  lemma TimelyInsertsKeepObjects(backend: Backend, es: seq<Event>)
    requires ValidRun(Init(backend), es) && AlwaysInTime(Init(backend), es)
    ensures StoredThroughout(Init(backend), es)
  {
    InTimeRun(Init(backend), es);
    RowsHaveTheirObjectsExactly(backend, es);
  }
}
