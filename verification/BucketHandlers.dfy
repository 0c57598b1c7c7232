/** The handlers around shared bucket objects as they run one after another (handlers.go,
    main.go): the fan-out loop, the acknowledgement and the cleanup pass. Any of their calls may
    fail; what happens when they interleave is the business of BucketRefs and BucketReclaim. */
module BucketHandlers {
  import opened Text
  import opened Storage
  import opened Messages

  /** Every row's URL names an object that is still stored. */
  predicate Stored(backend: Backend, rows: Table, objects: set<string>) {
    forall id :: id in rows && rows[id].bucketUrl.Some? ==>
      var url := rows[id].bucketUrl.value;
      IsKey(KeyFromUrl(url)) && url == Url(backend, KeyFromUrl(url)) && KeyFromUrl(url) in objects
  }

  /** Every stored object has a row. */
  ghost predicate Reclaimed(backend: Backend, rows: Table, objects: set<string>) {
    forall key :: key in objects ==> IsKey(key) && Refs(rows, Url(backend, key))
  }

  /** The recipients, among the first n, whose queue is open and whose insert succeeds. */
  function Accepted(recipients: seq<string>, accepts: seq<bool>, n: nat): (rs: seq<string>)
    requires n <= |recipients| == |accepts|
    ensures |rs| <= n
  {
    if n == 0 then []
    else Accepted(recipients, accepts, n - 1) + if accepts[n - 1] then [recipients[n - 1]] else []
  }

  /** One pointer row per entry of `rs`, in order, after the rows that were there. */
  ghost predicate Appended(before: Table, first: nat, after: Table, rs: seq<string>, sender: string, url: string,
                           ttl: string -> int, now: int) {
    && (forall id :: id in after <==> id in before || first <= id < first + |rs|)
    && (forall id :: id in before && id < first ==> id in after && after[id] == before[id])
    && (forall i :: 0 <= i < |rs| ==>
          first + i in after && after[first + i] == Message(rs[i], sender, None, Some(url), now + ttl(rs[i])))
  }

  lemma AppendedKeepsStored(backend: Backend, before: Table, first: nat, after: Table, rs: seq<string>, sender: string,
                            key: string, ttl: string -> int, now: int, objects: set<string>)
    requires Appended(before, first, after, rs, sender, Url(backend, key), ttl, now) && IsKey(key)
    requires (forall id :: id in before ==> id < first) && Stored(backend, before, objects)
    ensures Stored(backend, after, objects + {key})
  {
    KeyRoundTrip(backend, key);
    forall id | id in after && id !in before ensures after[id].bucketUrl == Some(Url(backend, key)) {
      var i := id - first;
      assert after[first + i].recipient == rs[i];
    }
  }

  lemma AppendOne(before: Table, first: nat, after: Table, rs: seq<string>, r: string, sender: string, url: string,
                  ttl: string -> int, now: int)
    requires Appended(before, first, after, rs, sender, url, ttl, now) && forall id :: id in before ==> id < first
    ensures Appended(before, first, after[first + |rs| := Message(r, sender, None, Some(url), now + ttl(r))],
                     rs + [r], sender, url, ttl, now)
  {}

  lemma RefsGrow(rows: Table, more: Table)
    requires forall id :: id in rows ==> id in more && more[id] == rows[id]
    ensures forall url :: Refs(rows, url) ==> Refs(more, url)
  {
    forall url | Refs(rows, url) ensures Refs(more, url) {
      var id :| id in rows && rows[id].bucketUrl == Some(url);
      assert more[id].bucketUrl == Some(url);
    }
  }

  /** The object has a row if anyone accepted, and no other object lost one. */
  lemma AppendedIsReclaimed(backend: Backend, before: Table, first: nat, after: Table, rs: seq<string>, sender: string,
                            key: string, ttl: string -> int, now: int, objects: set<string>)
    requires Appended(before, first, after, rs, sender, Url(backend, key), ttl, now) && IsKey(key)
    requires (forall id :: id in before ==> id < first) && Reclaimed(backend, before, objects)
    ensures Reclaimed(backend, after, if rs == [] then objects else objects + {key})
  {
    RefsGrow(before, after);
    if rs != [] {
      assert after[first + 0].recipient == rs[0];
      assert Refs(after, Url(backend, key));
    }
  }

  lemma OneKeyPerUrl(backend: Backend, url: string)
    ensures forall key :: IsKey(key) && Url(backend, key) == url ==> key == KeyFromUrl(url)
  {
    forall key | IsKey(key) && Url(backend, key) == url ensures key == KeyFromUrl(url) {
      KeyRoundTrip(backend, key);
    }
  }

  lemma OnlyThisUrlLoses(rows: Table, id: nat, url: string)
    requires id in rows && rows[id].bucketUrl == Some(url)
    ensures forall u :: u != url && Refs(rows, u) ==> Refs(Without(rows, id), u)
  {
    forall u | u != url && Refs(rows, u) ensures Refs(Without(rows, id), u) {
      var other :| other in rows && rows[other].bucketUrl == Some(u);
      assert Without(rows, id)[other].bucketUrl == Some(u);
    }
  }

  lemma UrlIsOfItsKey(backend: Backend, rows: Table, objects: set<string>, url: string)
    requires Stored(backend, rows, objects) && Refs(rows, url)
    ensures IsKey(KeyFromUrl(url)) && url == Url(backend, KeyFromUrl(url))
  {}

  /** Deleting the object of an unreferenced URL takes no referenced object away. */
  lemma KeptUrls(backend: Backend, rows: Table, url: string)
    requires !Refs(rows, url) && url == Url(backend, KeyFromUrl(url))
    ensures forall id :: id in rows && rows[id].bucketUrl.Some? && rows[id].bucketUrl.value == Url(backend, KeyFromUrl(rows[id].bucketUrl.value)) ==>
              KeyFromUrl(rows[id].bucketUrl.value) != KeyFromUrl(url)
  {
    forall id | id in rows && rows[id].bucketUrl.Some? && rows[id].bucketUrl.value == Url(backend, KeyFromUrl(rows[id].bucketUrl.value))
      ensures KeyFromUrl(rows[id].bucketUrl.value) != KeyFromUrl(url)
    {
      assert rows[id].bucketUrl.value != url;
    }
  }

  class Relay {
    const pg: MessageTable
    const storage: ObjectStore

    ghost predicate Valid()
      reads this, pg
    {
      pg.Valid()
    }

    constructor (backend: Backend)
      ensures Valid() && storage.backend == backend && fresh(pg) && fresh(storage)
      ensures pg.rows == map[] && storage.objects == {}
    {
      pg := new MessageTable();
      storage := new ObjectStore(backend);
    }

    /** The loop over the recipients: one pointer row for each that accepts. */
    method FanOut(recipients: seq<string>, accepts: seq<bool>, sender: string, url: string, ttl: string -> int, now: int)
      returns (delivered: nat)
      requires Valid() && |recipients| == |accepts|
      modifies pg
      ensures Valid()
      ensures var rs := Accepted(recipients, accepts, |recipients|);
              delivered == |rs| && Appended(old(pg.rows), old(pg.next), pg.rows, rs, sender, url, ttl, now)
    {
      ghost var rows, first := pg.rows, pg.next;
      delivered := 0;
      for i := 0 to |recipients|
        invariant pg.Valid() && pg.next == first + delivered
        invariant delivered == |Accepted(recipients, accepts, i)|
        invariant Appended(rows, first, pg.rows, Accepted(recipients, accepts, i), sender, url, ttl, now)
      {
        if !accepts[i] {
          continue;
        }
        AppendOne(rows, first, pg.rows, Accepted(recipients, accepts, i), recipients[i], sender, url, ttl, now);
        var id := pg.StoreMessageSized(recipients[i], sender, None, Some(url), ttl(recipients[i]), now);
        delivered := delivered + 1;
      }
    }

    method BroadcastLargeFile(recipients: seq<string>, accepts: seq<bool>, sender: string, key: string,
                              ttl: string -> int, uploadFails: bool, created: bool, deleteFails: bool, now: int)
      requires Valid() && |recipients| == |accepts|
      requires IsKey(key) && key !in storage.objects
      requires Stored(storage.backend, pg.rows, storage.objects)
      modifies pg, storage
      ensures Valid() && Stored(storage.backend, pg.rows, storage.objects)
      ensures uploadFails ==>
                && pg.rows == old(pg.rows)
                && storage.objects == old(storage.objects) + if storage.backend.Local? && created then {key} else {}
      ensures !uploadFails ==>
                var rs := Accepted(recipients, accepts, |recipients|);
                && Appended(old(pg.rows), old(pg.next), pg.rows, rs, sender, Url(storage.backend, key), ttl, now)
                && storage.objects == old(storage.objects) + if rs == [] && !deleteFails then {} else {key}
      ensures !deleteFails && !(uploadFails && storage.backend.Local? && created) &&
              old(Reclaimed(storage.backend, pg.rows, storage.objects)) ==>
                Reclaimed(storage.backend, pg.rows, storage.objects)
    {
      ghost var rows, first, objects, backend := pg.rows, pg.next, storage.objects, storage.backend;
      ghost var rs := Accepted(recipients, accepts, |recipients|);
      var url := storage.Upload(key, uploadFails, created);
      if url.None? {
        return;
      }
      var delivered := FanOut(recipients, accepts, sender, url.value, ttl, now);
      AppendedKeepsStored(backend, rows, first, pg.rows, rs, sender, key, ttl, now, objects);
      if Reclaimed(backend, rows, objects) {
        AppendedIsReclaimed(backend, rows, first, pg.rows, rs, sender, key, ttl, now, objects);
      }
      if delivered == 0 {
        assert pg.rows == rows;
        var ok := storage.Delete(key, deleteFails);
        assert !deleteFails ==> storage.objects == objects;
      }
    }

    /** The acknowledgement of row `id` by `caller`. */
    method HandleFileReceived(caller: string, id: nat, rowFails: bool, countFails: bool, objectFails: bool)
      requires Valid() && Stored(storage.backend, pg.rows, storage.objects)
      modifies pg, storage
      ensures Valid() && Stored(storage.backend, pg.rows, storage.objects)
      ensures var mine := id in old(pg.rows) && old(pg.rows)[id].recipient == caller && old(pg.rows)[id].bucketUrl.Some?;
              && pg.rows == (if mine && !rowFails then Without(old(pg.rows), id) else old(pg.rows))
              && storage.objects ==
                 (if mine && !countFails && !objectFails && !Refs(pg.rows, old(pg.rows)[id].bucketUrl.value)
                  then old(storage.objects) - {KeyFromUrl(old(pg.rows)[id].bucketUrl.value)}
                  else old(storage.objects))
      ensures !rowFails && !countFails && !objectFails && old(Reclaimed(storage.backend, pg.rows, storage.objects)) ==>
                Reclaimed(storage.backend, pg.rows, storage.objects)
    {
      ghost var rows := pg.rows;
      if id !in pg.rows || pg.rows[id].bucketUrl.None? || pg.rows[id].recipient != caller {
        return;
      }
      var url := pg.rows[id].bucketUrl.value;
      var key := KeyFromUrl(url);
      OneKeyPerUrl(storage.backend, url);
      if !rowFails {
        pg.DeleteMessage(id);
        OnlyThisUrlLoses(rows, id, url);
      }
      if key != "" && !countFails {
        CountIsReferenceTest(pg.rows, url);
        if CountByBucket(pg.rows, url) == 0 {
          var ok := storage.Delete(key, objectFails);
          KeptUrls(storage.backend, pg.rows, url);
        }
      }
    }

    /** One tick of the cleanup worker; `stuck` are the objects whose delete fails. */
    method Cleanup(now: int, stuck: set<string>)
      requires Valid() && Stored(storage.backend, pg.rows, storage.objects)
      modifies pg, storage
      ensures Valid() && pg.rows == WithoutExpired(old(pg.rows), now) && Stored(storage.backend, pg.rows, storage.objects)
      ensures storage.objects <= old(storage.objects)
      ensures forall key :: IsKey(key) && key in old(storage.objects) ==>
                (key in storage.objects <==>
                 key in stuck || (Refs(old(pg.rows), Url(storage.backend, key)) ==> Refs(pg.rows, Url(storage.backend, key))))
      ensures stuck == {} && old(Reclaimed(storage.backend, pg.rows, storage.objects)) ==>
                Reclaimed(storage.backend, pg.rows, storage.objects)
    {
      ghost var rows, objects, backend := pg.rows, storage.objects, storage.backend;
      var urls := pg.PruneExpiredMessages(now);
      RefsGrow(pg.rows, rows);
      var todo := urls;
      while todo != {}
        invariant todo <= urls && pg.Valid() && pg.rows == WithoutExpired(rows, now)
        invariant Stored(backend, pg.rows, storage.objects) && storage.objects <= objects
        invariant forall key :: IsKey(key) && key in objects ==>
                    (key in storage.objects <==> key in stuck || Url(backend, key) !in urls - todo)
        decreases todo
      {
        var url :| url in todo;
        todo := todo - {url};
        var key := KeyFromUrl(url);
        UrlIsOfItsKey(backend, rows, objects, url);
        OneKeyPerUrl(backend, url);
        if key != "" {
          var ok := storage.Delete(key, key in stuck);
          KeptUrls(backend, pg.rows, url);
        }
      }
    }
  }
}
