/** The offline queue of the in-memory Redis mode (redis.go): every arrival drops the
    expired entries in place and then keeps the newest thousand. */
module MemoryQueue {
  import opened Numbers

  const MAX_QUEUE_LEN := 1000

  /** A queued payload with its expiry; the filter and the cap never look at the payload. */
  datatype Entry<T> = Entry(payload: T, expires: int)

  datatype Payload = Payload(sender: string, envelope: string, contentType: string)

  function Live<T>(q: seq<Entry<T>>, now: int): (r: seq<Entry<T>>)
    ensures |r| <= |q|
  {
    if q == [] then []
    else if q[0].expires > now then [q[0]] + Live(q[1..], now)
    else Live(q[1..], now)
  }

  function Newest<T>(q: seq<Entry<T>>): (r: seq<Entry<T>>)
    ensures |r| <= MAX_QUEUE_LEN && |r| <= |q|
  {
    if |q| > MAX_QUEUE_LEN then q[|q| - MAX_QUEUE_LEN..] else q
  }

  function Enqueue<T>(q: seq<Entry<T>>, e: Entry<T>, now: int): seq<Entry<T>> {
    Newest(Live(q + [e], now))
  }

  lemma {:induction false} LiveConcat<T>(p: seq<Entry<T>>, q: seq<Entry<T>>, now: int)
    ensures Live(p + q, now) == Live(p, now) + Live(q, now)
  {
    if p == [] {
      assert p + q == q;
    } else {
      assert (p + q)[1..] == p[1..] + q;
      LiveConcat(p[1..], q, now);
    }
  }

  /** The filter loop writes back into the slice it is ranging over. Entries it has not
      read yet are never overwritten, so it computes the filter of the original. */
  method FilterInPlace<T>(a: array<Entry<T>>, now: int) returns (kept: nat)
    modifies a
    ensures kept <= a.Length
    ensures a[..kept] == Live(old(a[..]), now) && a[kept..] == old(a[kept..])
  {
    kept := 0;
    for i := 0 to a.Length
      invariant kept <= i
      invariant a[..kept] == Live(old(a[..i]), now)
      invariant a[kept..] == old(a[kept..])
    {
      assert a[i] == a[kept..][i - kept] == old(a[kept..])[i - kept] == old(a[i]);
      LiveConcat(old(a[..i]), [old(a[i])], now);
      assert old(a[..i + 1]) == old(a[..i]) + [old(a[i])];
      if a[i].expires > now {
        ghost var before := a[..kept];
        ghost var after := a[kept + 1..];
        assert after == a[kept..][1..] == old(a[kept + 1..]);
        a[kept] := a[i];
        assert a[..kept + 1] == before + [old(a[i])];
        assert a[kept + 1..] == after;
        kept := kept + 1;
      }
    }
    assert old(a[..a.Length]) == old(a[..]);
  }

  class RedisQueues {
    var memoryQueue: map<string, seq<Entry<Payload>>>

    function Queue(recipient: string): seq<Entry<Payload>>
      reads this
    {
      if recipient in memoryQueue then memoryQueue[recipient] else []
    }

    constructor ()
      ensures memoryQueue == map[]
    {
      memoryQueue := map[];
    }

    method AddMessageToQueue(recipient: string, sender: string, envelope: string, contentType: string,
                             ttl: int, now: int)
      modifies this
      ensures memoryQueue ==
              old(memoryQueue)[recipient := Enqueue(old(Queue(recipient)), Entry(Payload(sender, envelope, contentType), now + ttl), now)]
    {
      var q := Queue(recipient) + [Entry(Payload(sender, envelope, contentType), now + ttl)];
      var backing := new Entry<Payload>[|q|](i requires 0 <= i < |q| => q[i]);
      assert backing[..] == q;
      var kept := FilterInPlace(backing, now);
      var pruned := backing[..kept];
      if |pruned| > MAX_QUEUE_LEN {
        pruned := pruned[|pruned| - MAX_QUEUE_LEN..];
      }
      memoryQueue := memoryQueue[recipient := pruned];
    }

    method FetchAndClearQueue(recipient: string, now: int) returns (active: seq<Entry<Payload>>)
      modifies this
      ensures active == Live(old(Queue(recipient)), now)
      ensures memoryQueue == old(memoryQueue) - {recipient}
    {
      active := [];
      if recipient !in memoryQueue {
        assert memoryQueue - {recipient} == memoryQueue;
        return;
      }
      var q := memoryQueue[recipient];
      for i := 0 to |q|
        invariant active == Live(q[..i], now) && memoryQueue == old(memoryQueue)
      {
        LiveConcat(q[..i], [q[i]], now);
        assert q[..i + 1] == q[..i] + [q[i]];
        if q[i].expires > now {
          active := active + [q[i]];
        }
      }
      assert q[..|q|] == q;
      memoryQueue := memoryQueue - {recipient};
    }
  }

  // ---- The queue against the full log of arrivals ---------------------------

  /** One AddMessageToQueue call since the queue was last fetched. */
  datatype Arrival<T> = Arrival(entry: Entry<T>, at: int)

  /** The queue after the first n arrivals. */
  function QueueOf<T>(log: seq<Arrival<T>>, n: nat): seq<Entry<T>>
    requires n <= |log|
  {
    if n == 0 then [] else Enqueue(QueueOf(log, n - 1), log[n - 1].entry, log[n - 1].at)
  }

  predicate Ordered<T>(log: seq<Arrival<T>>) {
    forall i, j :: 0 <= i < j < |log| ==> log[i].at <= log[j].at
  }

  function Entries<T>(log: seq<Arrival<T>>): (es: seq<Entry<T>>)
    ensures |es| == |log| && forall i :: 0 <= i < |log| ==> es[i] == log[i].entry
  {
    seq(|log|, i requires 0 <= i < |log| => log[i].entry)
  }

  lemma QueueIsBounded<T>(log: seq<Arrival<T>>, n: nat)
    requires n <= |log|
    ensures |QueueOf(log, n)| <= MAX_QUEUE_LEN
  {
    if n > 0 {
      assert QueueOf(log, n) == Newest(Live(QueueOf(log, n - 1) + [log[n - 1].entry], log[n - 1].at));
    }
  }

  // Positions in the log, carried through the same filter and cap.

  predicate InRange(ks: seq<nat>, n: nat) {
    forall i :: 0 <= i < |ks| ==> ks[i] < n
  }

  predicate Increasing(ks: seq<nat>) {
    forall i, j :: 0 <= i < j < |ks| ==> ks[i] < ks[j]
  }

  function LiveAt<T>(log: seq<Arrival<T>>, ks: seq<nat>, n: nat, now: int): (r: seq<nat>)
    requires n <= |log| && InRange(ks, n)
    ensures |r| <= |ks| && InRange(r, n)
  {
    if ks == [] then []
    else if log[ks[0]].entry.expires > now then [ks[0]] + LiveAt(log, ks[1..], n, now)
    else LiveAt(log, ks[1..], n, now)
  }

  function NewestAt(ks: seq<nat>): (r: seq<nat>)
    ensures |r| <= |ks| && forall n :: InRange(ks, n) ==> InRange(r, n)
  {
    if |ks| > MAX_QUEUE_LEN then ks[|ks| - MAX_QUEUE_LEN..] else ks
  }

  function KeptNext<T>(log: seq<Arrival<T>>, n: nat, before: seq<nat>): (ks: seq<nat>)
    requires 0 < n <= |log| && InRange(before, n - 1)
    ensures InRange(ks, n)
  {
    NewestAt(LiveAt(log, before + [n - 1], n, log[n - 1].at))
  }

  /** The log positions of the queued entries, oldest first. */
  function Kept<T>(log: seq<Arrival<T>>, n: nat): (ks: seq<nat>)
    requires n <= |log|
    ensures InRange(ks, n)
  {
    if n == 0 then [] else KeptNext(log, n, Kept(log, n - 1))
  }

  lemma {:induction false} LiveAtMembers<T>(log: seq<Arrival<T>>, ks: seq<nat>, n: nat, now: int, k: nat)
    requires n <= |log| && InRange(ks, n)
    ensures k in LiveAt(log, ks, n, now) <==> k in ks && k < n && log[k].entry.expires > now
  {
    if ks != [] {
      LiveAtMembers(log, ks[1..], n, now, k);
      assert k in ks <==> k == ks[0] || k in ks[1..];
    }
  }

  lemma {:induction false} LiveAtAbove<T>(log: seq<Arrival<T>>, ks: seq<nat>, n: nat, now: int, low: nat)
    requires n <= |log| && InRange(ks, n) && forall i :: 0 <= i < |ks| ==> low < ks[i]
    ensures forall i :: 0 <= i < |LiveAt(log, ks, n, now)| ==> low < LiveAt(log, ks, n, now)[i]
  {
    if ks != [] {
      LiveAtAbove(log, ks[1..], n, now, low);
    }
  }

  lemma {:induction false} LiveAtIncreasing<T>(log: seq<Arrival<T>>, ks: seq<nat>, n: nat, now: int)
    requires n <= |log| && InRange(ks, n) && Increasing(ks)
    ensures Increasing(LiveAt(log, ks, n, now))
  {
    if ks != [] {
      LiveAtIncreasing(log, ks[1..], n, now);
      LiveAtAbove(log, ks[1..], n, now, ks[0]);
    }
  }

  function At<T>(log: seq<Arrival<T>>, ks: seq<nat>): (es: seq<Entry<T>>)
    requires InRange(ks, |log|)
    ensures |es| == |ks| && forall i :: 0 <= i < |ks| ==> es[i] == log[ks[i]].entry
  {
    seq(|ks|, i requires 0 <= i < |ks| => log[ks[i]].entry)
  }

  lemma {:induction false} LiveAtIsLive<T>(log: seq<Arrival<T>>, ks: seq<nat>, n: nat, now: int)
    requires n <= |log| && InRange(ks, n)
    ensures At(log, LiveAt(log, ks, n, now)) == Live(At(log, ks), now)
  {
    if ks != [] {
      LiveAtIsLive(log, ks[1..], n, now);
      assert At(log, ks)[1..] == At(log, ks[1..]);
    }
  }

  lemma CapCommutes<T>(log: seq<Arrival<T>>, ks: seq<nat>)
    requires InRange(ks, |log|) && Increasing(ks)
    ensures At(log, NewestAt(ks)) == Newest(At(log, ks)) && Increasing(NewestAt(ks))
  {}

  lemma OneArrival<T>(log: seq<Arrival<T>>, n: nat, before: seq<nat>)
    requires 0 < n <= |log| && InRange(before, n - 1) && Increasing(before)
    ensures Increasing(KeptNext(log, n, before))
    ensures At(log, KeptNext(log, n, before)) == Enqueue(At(log, before), log[n - 1].entry, log[n - 1].at)
  {
    var ks, now := before + [n - 1], log[n - 1].at;
    LiveAtIncreasing(log, ks, n, now);
    assert At(log, ks) == At(log, before) + [log[n - 1].entry];
    LiveAtIsLive(log, ks, n, now);
    CapCommutes(log, LiveAt(log, ks, n, now));
  }

  /** Send order is kept: the queue is the log read at strictly increasing positions. */
  lemma {:induction false} QueueKeepsSendOrder<T>(log: seq<Arrival<T>>, n: nat)
    requires n <= |log|
    ensures Increasing(Kept(log, n)) && QueueOf(log, n) == At(log, Kept(log, n))
  {
    if n > 0 {
      QueueKeepsSendOrder(log, n - 1);
      OneArrival(log, n, Kept(log, n - 1));
    }
  }

  lemma {:induction false} IncreasingGap(ks: seq<nat>, i: nat, bound: nat)
    requires Increasing(ks) && i < |ks| && InRange(ks, bound + 1)
    ensures bound - ks[i] >= |ks| - 1 - i
    decreases |ks| - i
  {
    if i + 1 < |ks| {
      IncreasingGap(ks, i + 1, bound);
    }
  }

  lemma DroppedByCap(live: seq<nat>, k: nat, bound: nat)
    requires Increasing(live) && InRange(live, bound + 1) && k in live && k !in NewestAt(live)
    ensures bound - k >= MAX_QUEUE_LEN
  {
    var j :| 0 <= j < |live| && live[j] == k;
    var r := NewestAt(live);
    assert forall m :: 0 <= m < |r| ==> live[m + (|live| - |r|)] == r[m] && r[m] in r;
    assert j < |live| - |r| by {
      assert forall m :: |live| - |r| <= m < |live| ==> live[m] == r[m - (|live| - |r|)];
    }
    IncreasingGap(live, j, bound);
  }

  lemma DroppedOnArrival<T>(log: seq<Arrival<T>>, n: nat, before: seq<nat>, k: nat)
    requires 0 < n <= |log| && InRange(before, n - 1) && Increasing(before)
    requires (k in before || k == n - 1) && k < n && log[k].entry.expires > log[n - 1].at
    requires k !in KeptNext(log, n, before)
    ensures n - 1 - k >= MAX_QUEUE_LEN
  {
    var ks := before + [n - 1];
    assert ks[|before|] == n - 1;
    LiveAtMembers(log, ks, n, log[n - 1].at, k);
    LiveAtIncreasing(log, ks, n, log[n - 1].at);
    DroppedByCap(LiveAt(log, ks, n, log[n - 1].at), k, n - 1);
  }

  /** The cap takes an unexpired message only behind at least a thousand later ones. */
  lemma {:induction false} CapNeedsAThousandLater<T>(log: seq<Arrival<T>>, n: nat, i: nat)
    requires Ordered(log) && i < n <= |log|
    requires i !in Kept(log, n) && log[i].entry.expires > log[n - 1].at
    ensures n - 1 - i >= MAX_QUEUE_LEN
  {
    if i == n - 1 || i in Kept(log, n - 1) {
      QueueKeepsSendOrder(log, n - 1);
      DroppedOnArrival(log, n, Kept(log, n - 1), i);
    } else {
      CapNeedsAThousandLater(log, n - 1, i);
    }
  }

  // ---- The newest thousand unexpired entries of the full log -------------------------

  function Positions(n: nat): (ks: seq<nat>)
    ensures |ks| == n && (forall i :: 0 <= i < n ==> ks[i] == i) && InRange(ks, n) && Increasing(ks)
  {
    seq(n, i requires 0 <= i => i)
  }

  /** The entries after position i that are unexpired. */
  function LaterLive<T>(log: seq<Arrival<T>>, i: nat, now: int): set<nat> {
    set j: nat | i < j < |log| && log[j].entry.expires > now
  }

  /** Whatever is unexpired and missing from the queue lies behind a thousand entries that are
      unexpired as well. */
  ghost predicate MissingAreOutdone<T>(log: seq<Arrival<T>>, now: int) {
    forall i: nat :: i < |log| && log[i].entry.expires > now && i !in Kept(log, |log|) ==>
      |LaterLive(log, i, now)| >= MAX_QUEUE_LEN
  }

  lemma CapTakesTheOldest(live: seq<nat>, i: nat, j: nat)
    requires Increasing(live) && i in NewestAt(live) && j in live && i < j
    ensures j in NewestAt(live)
  {
    var r := NewestAt(live);
    var a, b :| 0 <= a < |r| && r[a] == i && 0 <= b < |live| && live[b] == j;
    var cut := |live| - |r|;
    assert r[a] == live[cut + a];
    assert forall m :: 0 <= m <= cut + a ==> live[m] <= live[cut + a];
    assert r[b - cut] == j;
  }

  lemma KeptIncrease<T>(log: seq<Arrival<T>>, n: nat)
    requires n <= |log|
    ensures Increasing(Kept(log, n))
  {
    QueueKeepsSendOrder(log, n);
  }

  lemma LatestOnArrival<T>(log: seq<Arrival<T>>, n: nat, before: seq<nat>, i: nat, j: nat)
    requires i < j < n <= |log| && InRange(before, n - 1) && Increasing(before)
    requires i in KeptNext(log, n, before) && log[n - 1].at < log[j].entry.expires
    ensures i in before && (j in before || j == n - 1 ==> j in KeptNext(log, n, before))
  {
    var ks, now := before + [n - 1], log[n - 1].at;
    assert ks[|before|] == n - 1;
    LiveAtIncreasing(log, ks, n, now);
    LiveAtMembers(log, ks, n, now, i);
    LiveAtMembers(log, ks, n, now, j);
    if j in before || j == n - 1 {
      CapTakesTheOldest(LiveAt(log, ks, n, now), i, j);
    }
  }

  /** An entry that is queued and unexpired has every later unexpired one queued behind it. */
  lemma {:induction false} KeptAreTheLatest<T>(log: seq<Arrival<T>>, n: nat, i: nat, j: nat)
    requires Ordered(log) && i < j < n <= |log| && i in Kept(log, n)
    requires log[n - 1].at < log[j].entry.expires
    ensures j in Kept(log, n)
  {
    KeptIncrease(log, n - 1);
    var before := Kept(log, n - 1);
    LatestOnArrival(log, n, before, i, j);
    if j < n - 1 {
      KeptAreTheLatest(log, n - 1, i, j);
    }
  }

  lemma {:induction false} IncreasingSize(ks: seq<nat>, members: set<nat>)
    requires Increasing(ks) && forall k: nat :: k in members <==> k in ks
    ensures |members| == |ks|
  {
    if ks == [] {
      assert members == {};
    } else {
      var last := |ks| - 1;
      assert forall i :: 0 <= i < last ==> ks[i] < ks[last];
      assert forall k: nat :: k in ks <==> k in ks[..last] || k == ks[last];
      IncreasingSize(ks[..last], members - {ks[last]});
    }
  }

  /** How many unexpired entries follow position live[p]. */
  lemma LaterLiveAreTheRest<T>(log: seq<Arrival<T>>, live: seq<nat>, p: nat, now: int)
    requires Increasing(live) && p < |live|
    requires forall k: nat :: k in live <==> k < |log| && log[k].entry.expires > now
    ensures |LaterLive(log, live[p], now)| == |live| - 1 - p
  {
    var rest := live[p + 1..];
    assert forall j: nat :: j in LaterLive(log, live[p], now) <==> j in rest by {
      forall j: nat ensures j in LaterLive(log, live[p], now) <==> j in rest {
        if j in LaterLive(log, live[p], now) {
          var q :| 0 <= q < |live| && live[q] == j;
          assert forall m :: 0 <= m <= p ==> live[m] <= live[p];
          assert rest[q - p - 1] == j;
        }
        if j in rest {
          var q :| 0 <= q < |rest| && rest[q] == j;
          assert live[p + 1 + q] == j && live[p] < live[p + 1 + q];
        }
      }
    }
    IncreasingSize(rest, LaterLive(log, live[p], now));
  }

  /** The newest thousand positions are those with fewer than a thousand behind them. */
  lemma NewestAreFollowedByFew<T>(log: seq<Arrival<T>>, live: seq<nat>, k: nat, now: int)
    requires Increasing(live) && k in live
    requires forall j: nat :: j in live <==> j < |log| && log[j].entry.expires > now
    ensures k in NewestAt(live) <==> |LaterLive(log, k, now)| < MAX_QUEUE_LEN
  {
    var p :| 0 <= p < |live| && live[p] == k;
    LaterLiveAreTheRest(log, live, p, now);
    var r := NewestAt(live);
    var cut := |live| - |r|;
    if p >= cut {
      assert r[p - cut] == k;
    }
    if q :| 0 <= q < |r| && r[q] == k {
      assert live[cut + q] == k;
    }
  }

  lemma {:induction false} IncreasingAreTheirMembers(a: seq<nat>, b: seq<nat>)
    requires Increasing(a) && Increasing(b) && forall k: nat :: k in a <==> k in b
    ensures a == b
  {
    var members := set k | k in a;
    IncreasingSize(a, members);
    IncreasingSize(b, members);
    if a != [] {
      var m := |a| - 1;
      assert a[m] in b && b[m] in a;
      var i, j :| 0 <= i <= m && b[i] == a[m] && 0 <= j <= m && a[j] == b[m];
      assert a[m] == b[m];
      forall k: nat ensures k in a[..m] <==> k in b[..m] {
        assert k in a <==> k in a[..m] || k == a[m];
        assert k in b <==> k in b[..m] || k == b[m];
        assert forall i :: 0 <= i < m ==> a[i] < a[m] && b[i] < b[m];
      }
      IncreasingAreTheirMembers(a[..m], b[..m]);
      assert a == a[..m] + [a[m]] && b == b[..m] + [b[m]];
    }
  }

  lemma {:induction false} MembersFewer(a: seq<nat>, b: seq<nat>, x: nat)
    requires Increasing(a) && Increasing(b) && (forall k: nat :: k in a ==> k in b) && x in b && x !in a
    ensures |a| < |b|
  {
    var few, many := set k | k in a, set k | k in b;
    IncreasingSize(a, few);
    IncreasingSize(b, many);
    SubsetSize(few, many - {x});
  }

  lemma LaterIsKept<T>(log: seq<Arrival<T>>, n: nat, k: nat, j: nat, now: int)
    requires Ordered(log) && 0 < n == |log| && log[n - 1].at <= now && k in Kept(log, n) && j in LaterLive(log, k, now)
    ensures j in Kept(log, n)
  {
    KeptAreTheLatest(log, n, k, j);
  }

  /** A queue of at most a thousand that holds everything unexpired after k has k among the newest. */
  lemma KeptAreNewest<T>(log: seq<Arrival<T>>, kept: seq<nat>, all: seq<nat>, k: nat, now: int)
    requires Increasing(all) && k in all && forall j: nat :: j in all <==> j < |log| && log[j].entry.expires > now
    requires Increasing(kept) && |kept| <= MAX_QUEUE_LEN && k in kept
    requires forall j :: j in LaterLive(log, k, now) ==> j in kept
    ensures k in NewestAt(all)
  {
    var members := set j | j in kept;
    IncreasingSize(kept, members);
    SubsetSize(LaterLive(log, k, now), members - {k});
    NewestAreFollowedByFew(log, all, k, now);
  }

  /** What a fetch finds and what it should find, as log positions. */
  lemma FetchedPositions<T>(log: seq<Arrival<T>>, now: int)
    requires Ordered(log) && (log != [] ==> log[|log| - 1].at <= now)
    ensures var n := |log|;
            var got, all := LiveAt(log, Kept(log, n), n, now), LiveAt(log, Positions(n), n, now);
            && Increasing(got) && Increasing(all) && Increasing(NewestAt(all))
            && Live(QueueOf(log, n), now) == At(log, got) && Newest(Live(Entries(log), now)) == At(log, NewestAt(all))
            && (forall k: nat :: k in got <==> k in Kept(log, n) && log[k].entry.expires > now)
            && (forall k: nat :: k in all <==> k < n && log[k].entry.expires > now)
            && (forall k: nat :: k in got ==> k in NewestAt(all))
  {
    var n := |log|;
    var kept := Kept(log, n);
    var got, all := LiveAt(log, kept, n, now), LiveAt(log, Positions(n), n, now);
    QueueKeepsSendOrder(log, n);
    LiveAtIncreasing(log, kept, n, now);
    LiveAtIncreasing(log, Positions(n), n, now);
    LiveAtIsLive(log, kept, n, now);
    LiveAtIsLive(log, Positions(n), n, now);
    assert At(log, Positions(n)) == Entries(log);
    CapCommutes(log, all);
    forall k: nat
      ensures k in got <==> k in kept && log[k].entry.expires > now
      ensures k in all <==> k < n && log[k].entry.expires > now
    {
      assert k in kept ==> k < n;
      assert k < n ==> Positions(n)[k] == k;
      LiveAtMembers(log, kept, n, now, k);
      LiveAtMembers(log, Positions(n), n, now, k);
    }
    forall k: nat | k in got ensures k in NewestAt(all) {
      forall j | j in LaterLive(log, k, now) ensures j in kept {
        LaterIsKept(log, n, k, j, now);
      }
      QueueIsBounded(log, n);
      KeptAreNewest(log, kept, all, k, now);
    }
  }

  /** Main result, for any mix of lifetimes: a fetch returns the newest thousand unexpired entries
      of the full log exactly when every unexpired entry that the queue has lost has at least a
      thousand later ones that are still unexpired. */
  lemma FetchesTheNewestExactly<T>(log: seq<Arrival<T>>, now: int)
    requires Ordered(log) && (log != [] ==> log[|log| - 1].at <= now)
    ensures Live(QueueOf(log, |log|), now) == Newest(Live(Entries(log), now)) <==> MissingAreOutdone(log, now)
  {
    var n := |log|;
    var got, all := LiveAt(log, Kept(log, n), n, now), LiveAt(log, Positions(n), n, now);
    FetchedPositions(log, now);
    if MissingAreOutdone(log, now) {
      forall k: nat ensures k in got <==> k in NewestAt(all) {
        if k in NewestAt(all) {
          NewestAreFollowedByFew(log, all, k, now);
        }
      }
      IncreasingAreTheirMembers(got, NewestAt(all));
    } else {
      var i: nat :| i < n && log[i].entry.expires > now && i !in Kept(log, n) && |LaterLive(log, i, now)| < MAX_QUEUE_LEN;
      NewestAreFollowedByFew(log, all, i, now);
      MembersFewer(got, NewestAt(all), i);
      assert |At(log, got)| < |At(log, NewestAt(all))|;
    }
  }

  // ---- Nondecreasing expiries ------------------------------------------------

  predicate ExpiriesOrdered<T>(q: seq<Entry<T>>) {
    forall i, j :: 0 <= i < j < |q| ==> q[i].expires <= q[j].expires
  }

  /** How many leading entries have expired. */
  function Cut<T>(q: seq<Entry<T>>, now: int): (c: nat)
    ensures c <= |q|
  {
    if q == [] || q[0].expires > now then 0 else 1 + Cut(q[1..], now)
  }

  lemma {:induction false} AllLive<T>(q: seq<Entry<T>>, now: int)
    requires forall i :: 0 <= i < |q| ==> q[i].expires > now
    ensures Live(q, now) == q
  {
    if q != [] {
      AllLive(q[1..], now);
    }
  }

  lemma {:induction false} LiveIsASuffix<T>(q: seq<Entry<T>>, now: int)
    requires ExpiriesOrdered(q)
    ensures Live(q, now) == q[Cut(q, now)..]
    ensures forall i :: 0 <= i < |q| ==> (i < Cut(q, now) <==> q[i].expires <= now)
  {
    if q != [] && q[0].expires > now {
      AllLive(q, now);
    } else if q != [] {
      LiveIsASuffix(q[1..], now);
      forall i | 0 < i < |q| ensures i < Cut(q, now) <==> q[i].expires <= now {
        assert q[i] == q[1..][i - 1];
      }
    }
  }

  lemma {:induction false} CutOfASuffix<T>(q: seq<Entry<T>>, b: nat, now: int)
    requires ExpiriesOrdered(q) && b <= |q|
    ensures b + Cut(q[b..], now) == Max(b, Cut(q, now))
  {
    LiveIsASuffix(q, now);
    LiveIsASuffix(q[b..], now);
    var c, d := Cut(q, now), Cut(q[b..], now);
    assert c < |q| ==> q[c].expires > now;
    assert c > 0 ==> q[c - 1].expires <= now;
    assert d < |q| - b ==> q[b..][d].expires > now && q[b..][d] == q[b + d];
    assert d > 0 ==> q[b..][d - 1].expires <= now && q[b..][d - 1] == q[b + d - 1];
  }

  lemma DropDrop<T>(q: seq<Entry<T>>, b: nat, c: nat)
    requires b + c <= |q|
    ensures q[b..][c..] == q[b + c..]
  {}

  lemma LiveOfASuffix<T>(q: seq<Entry<T>>, b: nat, now: int)
    requires ExpiriesOrdered(q) && b <= |q|
    ensures Live(q[b..], now) == q[Max(b, Cut(q, now))..]
  {
    CutOfASuffix(q, b, now);
    LiveIsASuffix(q[b..], now);
    DropDrop(q, b, Cut(q[b..], now));
  }

  lemma CutGrows<T>(q: seq<Entry<T>>, t: int, now: int)
    requires ExpiriesOrdered(q) && t <= now
    ensures Cut(q, t) <= Cut(q, now)
  {
    LiveIsASuffix(q, t);
    LiveIsASuffix(q, now);
    assert Cut(q, t) > 0 ==> q[Cut(q, t) - 1].expires <= t;
  }

  lemma CutOfAPrefix<T>(q: seq<Entry<T>>, n: nat, t: int)
    requires ExpiriesOrdered(q) && n <= |q|
    ensures Cut(q[..n], t) <= Cut(q, t)
  {
    LiveIsASuffix(q, t);
    LiveIsASuffix(q[..n], t);
    var c := Cut(q[..n], t);
    assert c > 0 ==> q[..n][c - 1].expires <= t && q[c - 1] == q[..n][c - 1];
  }

  /** Where the queue starts in the log. */
  function Start<T>(q: seq<Entry<T>>, now: int): (b: nat)
    ensures b <= |q|
  {
    Max(Cut(q, now), |q| - MAX_QUEUE_LEN)
  }

  lemma SnocOfASuffix<T>(all: seq<Entry<T>>, n: nat, b: nat)
    requires 0 < n <= |all| && b <= n - 1
    ensures all[..n - 1][b..] + [all[n - 1]] == all[..n][b..]
  {}

  lemma NewestOfASuffix<T>(q: seq<Entry<T>>, b: nat)
    requires b <= |q|
    ensures Newest(q[b..]) == q[Max(b, |q| - MAX_QUEUE_LEN)..]
  {}

  lemma SuffixAfterArrival<T>(q: seq<Entry<T>>, b: nat, now: int)
    requires ExpiriesOrdered(q) && b <= Start(q, now)
    ensures Newest(Live(q[b..], now)) == q[Start(q, now)..]
  {
    LiveOfASuffix(q, b, now);
    NewestOfASuffix(q, Max(b, Cut(q, now)));
  }

  lemma ArrivalOnASuffix<T>(log: seq<Arrival<T>>, all: seq<Entry<T>>, n: nat, b: nat)
    requires all == Entries(log) && ExpiriesOrdered(all) && 0 < n <= |log| && b <= n - 1
    requires QueueOf(log, n - 1) == all[..n - 1][b..] && b <= Start(all[..n], log[n - 1].at)
    ensures QueueOf(log, n) == all[..n][Start(all[..n], log[n - 1].at)..]
  {
    SnocOfASuffix(all, n, b);
    SuffixAfterArrival(all[..n], b, log[n - 1].at);
  }

  lemma StartGrows<T>(all: seq<Entry<T>>, n: nat, t: int, now: int)
    requires ExpiriesOrdered(all) && 1 < n <= |all| && t <= now
    ensures Start(all[..n - 1], t) <= Start(all[..n], now)
  {
    assert all[..n][..n - 1] == all[..n - 1];
    CutOfAPrefix(all[..n], n - 1, t);
    CutGrows(all[..n], t, now);
  }

  lemma {:induction false} SuffixOfTheLog<T>(log: seq<Arrival<T>>, all: seq<Entry<T>>, n: nat)
    requires Ordered(log) && all == Entries(log) && ExpiriesOrdered(all) && 0 < n <= |log|
    ensures QueueOf(log, n) == all[..n][Start(all[..n], log[n - 1].at)..]
  {
    if n == 1 {
      ArrivalOnASuffix(log, all, n, 0);
    } else {
      SuffixOfTheLog(log, all, n - 1);
      StartGrows(all, n, log[n - 2].at, log[n - 1].at);
      ArrivalOnASuffix(log, all, n, Start(all[..n - 1], log[n - 2].at));
    }
  }

  /** With nondecreasing expiries the queue is the last thousand unexpired entries of the
      full log, at every later instant at which it is fetched. */
  lemma OrderedExpiriesRefine<T>(log: seq<Arrival<T>>, now: int)
    requires Ordered(log) && ExpiriesOrdered(Entries(log))
    requires log != [] ==> log[|log| - 1].at <= now
    ensures Live(QueueOf(log, |log|), now) == Newest(Live(Entries(log), now))
  {
    if log != [] {
      var all := Entries(log);
      assert all[..|log|] == all;
      SuffixOfTheLog(log, all, |log|);
      CutGrows(all, log[|log| - 1].at, now);
      LiveOfASuffix(all, Start(all, log[|log| - 1].at), now);
      LiveIsASuffix(all, now);
      NewestOfASuffix(all, Cut(all, now));
    }
  }

  // ---- Mixed lifetimes ---------------------------------------------------------

  lemma {:induction false} NoneLive<T>(q: seq<Entry<T>>, now: int)
    requires forall i :: 0 <= i < |q| ==> q[i].expires <= now
    ensures Live(q, now) == []
  {
    if q != [] {
      NoneLive(q[1..], now);
    }
  }

  lemma NewestTwice<T>(q: seq<Entry<T>>, e: Entry<T>)
    ensures Newest(Newest(q) + [e]) == Newest(q + [e])
  {
    if |q| >= MAX_QUEUE_LEN {
      assert Newest(q) == q[|q| - MAX_QUEUE_LEN..];
      assert Newest(q + [e]) == (q + [e])[|q| + 1 - MAX_QUEUE_LEN..];
    }
  }

  lemma UnexpiredArrival<T>(all: seq<Entry<T>>, n: nat, now: int)
    requires 0 < n <= |all| && forall i :: 0 <= i < n ==> all[i].expires > now
    ensures Enqueue(Newest(all[..n - 1]), all[n - 1], now) == Newest(all[..n])
  {
    var q := Newest(all[..n - 1]) + [all[n - 1]];
    AllLive(q, now);
    NewestTwice(all[..n - 1], all[n - 1]);
    assert all[..n - 1] + [all[n - 1]] == all[..n];
  }

  /** While nothing has expired the queue is simply the newest part of the log. */
  lemma {:induction false} UnexpiredBurst<T>(log: seq<Arrival<T>>, all: seq<Entry<T>>, n: nat, now: int)
    requires n <= |log| && all == Entries(log)
    requires forall i :: 0 <= i < n ==> log[i].at <= now < all[i].expires
    ensures QueueOf(log, n) == Newest(all[..n])
  {
    if n > 0 {
      UnexpiredBurst(log, all, n - 1, now);
      UnexpiredArrival(all, n, log[n - 1].at);
    }
  }

  /** A long-lived entry, a thousand and one short-lived ones, and one more after those expired. */
  function MixedLog(): (log: seq<Arrival<string>>)
    ensures |log| == MAX_QUEUE_LEN + 2
  {
    seq(MAX_QUEUE_LEN + 2, i =>
      if i == 0 then Arrival(Entry("long", 9), 0)
      else if i <= MAX_QUEUE_LEN then Arrival(Entry("short", 2), 0)
      else Arrival(Entry("last", 9), 3))
  }

  function Shorts(): (q: seq<Entry<string>>)
    ensures |q| == MAX_QUEUE_LEN && forall i :: 0 <= i < |q| ==> q[i] == Entry("short", 2)
  {
    seq(MAX_QUEUE_LEN, i => Entry("short", 2))
  }

  lemma MixedEntries()
    ensures Entries(MixedLog()) == [Entry("long", 9)] + (Shorts() + [Entry("last", 9)])
    ensures Newest(Entries(MixedLog())[..MAX_QUEUE_LEN + 1]) == Shorts()
  {}

  lemma ShortsThenLast()
    ensures Live(Shorts() + [Entry("last", 9)], 3) == [Entry("last", 9)]
  {
    NoneLive(Shorts(), 3);
    LiveConcat(Shorts(), [Entry("last", 9)], 3);
    AllLive([Entry("last", 9)], 3);
  }

  lemma MixedQueue()
    ensures QueueOf(MixedLog(), MAX_QUEUE_LEN + 2) == [Entry("last", 9)]
  {
    var log, n := MixedLog(), MAX_QUEUE_LEN + 2;
    MixedEntries();
    UnexpiredBurst(log, Entries(log), n - 1, 0);
    ShortsThenLast();
    assert log[n - 1] == Arrival(Entry("last", 9), 3);
    assert QueueOf(log, n) == Enqueue(Shorts(), Entry("last", 9), 3);
  }

  /** Mixed lifetimes break the refinement: a long-lived entry pushed out by the cap is
      missed once the thousand short-lived ones have expired. */
  lemma MixedLifetimesDiffer()
    ensures Ordered(MixedLog())
    ensures QueueOf(MixedLog(), |MixedLog()|) == [Entry("last", 9)]
    ensures Newest(Live(Entries(MixedLog()), 3)) == [Entry("long", 9), Entry("last", 9)]
  {
    MixedQueue();
    MixedEntries();
    ShortsThenLast();
    AllLive([Entry("long", 9)], 3);
    LiveConcat([Entry("long", 9)], Shorts() + [Entry("last", 9)], 3);
  }
}
