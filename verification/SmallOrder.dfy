/** The order of small envelopes: what one fetch hands over comes in the order in which it was queued. */
module SmallOrder {
  import opened MemoryQueue
  import opened SmallDelivery

  /** One hand-over out of a fetched list, and its index among all hand-overs. */
  datatype Sweep = Sweep(serial: nat, pid: nat, at: nat)

  /** A queue as a connecting recipient found it. */
  datatype Fetch = Fetch(queue: seq<Entry<Tag>>, at: int)

  /** `queued` lists the envelopes in the order in which they were queued, `swept` those handed over out
      of fetched lists, and `fetched` what each connecting recipient found. */
  datatype Past = Past(queued: seq<nat>, swept: seq<Sweep>, fetched: map<nat, Fetch>)

  function Nothing(): Past {
    Past([], [], map[])
  }

  function Recorded(s: State, e: Event, h: Past): Past
    requires Enabled(s, e)
  {
    match e
    case Enqueued(pid) => h.(queued := h.queued + [s.procs[pid].serial])
    case DrainQueue(pid) => h.(fetched := h.fetched[pid := Fetch(QueueFor(s, s.ids[s.procs[pid].conn]), s.now)])
    case HandDrained(pid) =>
      var tag := s.procs[pid].todo[0].payload;
      if tag.Small? then h.(swept := h.swept + [Sweep(tag.serial, pid, |s.handed|)]) else h
    case _ => h
  }

  function PastOf(s: State, es: seq<Event>, h: Past): Past
    requires ValidRun(s, es)
    decreases |es|
  {
    if es == [] then h else PastOf(Next(s, es[0]), es[1..], Recorded(s, es[0], h))
  }

  // ---- Lists in the order of queueing ------------------------------------------------------------

  /** One was queued before the other. */
  predicate Before(queued: seq<nat>, a: nat, b: nat) {
    exists i, j :: 0 <= i < j < |queued| && queued[i] == a && queued[j] == b
  }

  ghost predicate InOrder(q: seq<Entry<Tag>>, queued: seq<nat>) {
    && (forall i :: 0 <= i < |q| && q[i].payload.Small? ==> q[i].payload.serial in queued)
    && (forall i, j :: 0 <= i < j < |q| && q[i].payload.Small? && q[j].payload.Small? ==>
          Before(queued, q[i].payload.serial, q[j].payload.serial))
  }

  lemma BeforeKept(queued: seq<nat>, n: nat, a: nat, b: nat)
    requires Before(queued, a, b)
    ensures Before(queued + [n], a, b)
  {
    var i, j :| 0 <= i < j < |queued| && queued[i] == a && queued[j] == b;
    assert (queued + [n])[i] == a && (queued + [n])[j] == b;
  }

  lemma BeforeTheLast(queued: seq<nat>, n: nat, a: nat)
    requires a in queued
    ensures Before(queued + [n], a, n)
  {
    var i :| 0 <= i < |queued| && queued[i] == a;
    assert (queued + [n])[i] == a && (queued + [n])[|queued|] == n;
  }

  lemma NotBothWays(queued: seq<nat>, a: nat, b: nat)
    requires (forall i, j :: 0 <= i < j < |queued| ==> queued[i] != queued[j]) && Before(queued, a, b)
    ensures !Before(queued, b, a)
  {}

  lemma OrderKept(q: seq<Entry<Tag>>, queued: seq<nat>, n: nat)
    requires InOrder(q, queued)
    ensures InOrder(q, queued + [n])
  {
    forall i, j | 0 <= i < j < |q| && q[i].payload.Small? && q[j].payload.Small?
      ensures Before(queued + [n], q[i].payload.serial, q[j].payload.serial)
    {
      BeforeKept(queued, n, q[i].payload.serial, q[j].payload.serial);
    }
  }

  lemma SuffixInOrder(q: seq<Entry<Tag>>, k: nat, queued: seq<nat>)
    requires InOrder(q, queued) && k <= |q|
    ensures InOrder(q[k..], queued)
  {}

  lemma {:induction false} LiveInOrder(q: seq<Entry<Tag>>, now: int, queued: seq<nat>)
    requires InOrder(q, queued)
    ensures InOrder(Live(q, now), queued) && forall x :: x in Live(q, now) ==> x in q
  {
    if q != [] {
      var live := Live(q[1..], now);
      LiveInOrder(q[1..], now, queued);
      if q[0].payload.Small? {
        forall i | 0 <= i < |live| && live[i].payload.Small? ensures Before(queued, q[0].payload.serial, live[i].payload.serial) {
          assert live[i] in q[1..];
          var j :| 0 <= j < |q[1..]| && q[1..][j] == live[i];
          assert q[j + 1] == live[i];
        }
      }
    }
  }

  lemma SnocInOrder(q: seq<Entry<Tag>>, x: Entry<Tag>, queued: seq<nat>)
    requires InOrder(q, queued) && (x.payload.Small? ==> x.payload.serial !in queued)
    ensures InOrder(q + [x], if x.payload.Small? then queued + [x.payload.serial] else queued)
  {
    if x.payload.Small? {
      OrderKept(q, queued, x.payload.serial);
      forall i | 0 <= i < |q| && q[i].payload.Small? ensures Before(queued + [x.payload.serial], q[i].payload.serial, x.payload.serial) {
        BeforeTheLast(queued, x.payload.serial, q[i].payload.serial);
      }
    }
  }

  lemma EnqueueInOrder(q: seq<Entry<Tag>>, x: Entry<Tag>, now: int, queued: seq<nat>)
    requires InOrder(q, queued) && (x.payload.Small? ==> x.payload.serial !in queued)
    ensures InOrder(Enqueue(q, x, now), if x.payload.Small? then queued + [x.payload.serial] else queued)
  {
    var after := if x.payload.Small? then queued + [x.payload.serial] else queued;
    SnocInOrder(q, x, queued);
    LiveInOrder(q + [x], now, after);
    var live := Live(q + [x], now);
    SuffixInOrder(live, if |live| > MAX_QUEUE_LEN then |live| - MAX_QUEUE_LEN else 0, after);
    assert live[0..] == live;
  }

  // ---- What every step keeps -----------------------------------------------------------------------

  predicate Carrier(s: State, p: nat, n: nat) {
    p in s.procs && Carries(s.procs[p], n)
  }

  /** Who still carries an envelope has not queued it, and nobody else carries it. */
  ghost predicate SendersOk(s: State, queued: seq<nat>) {
    && (forall i, j :: 0 <= i < j < |queued| ==> queued[i] != queued[j])
    && (forall n :: n in queued ==> n < |s.recipients|)
    && (forall p, n: nat :: Carrier(s, p, n) ==> n < |s.recipients| && n !in queued)
    && (forall p, q, n: nat :: Carrier(s, p, n) && Carrier(s, q, n) ==> p == q)
  }

  ghost predicate QueuesOk(s: State, queued: seq<nat>) {
    forall id :: id in s.queues ==> InOrder(s.queues[id], queued)
  }

  /** The list that a connection works off is what is left of the one it fetched. */
  ghost predicate SuffixOf(todo: seq<Entry<Tag>>, f: Fetch) {
    exists k :: 0 <= k <= |Live(f.queue, f.at)| && todo == Live(f.queue, f.at)[k..]
  }

  ghost predicate SweepsOk(s: State, h: Past) {
    forall p :: p in s.procs && s.procs[p].Deliver? ==>
      InOrder(s.procs[p].todo, h.queued) && p in h.fetched && SuffixOf(s.procs[p].todo, h.fetched[p])
  }

  /** A hand-over is where it was recorded, and its list holds only what was queued later. */
  ghost predicate SweptOk(s: State, h: Past, x: Sweep) {
    && x.at < |s.handed| && s.handed[x.at].serial == x.serial && x.serial in h.queued
    && x.pid in s.procs && s.procs[x.pid].Deliver?
    && forall k :: 0 <= k < |s.procs[x.pid].todo| && s.procs[x.pid].todo[k].payload.Small? ==>
         Before(h.queued, x.serial, s.procs[x.pid].todo[k].payload.serial)
  }

  predicate PairOk(h: Past, x: Sweep, y: Sweep) {
    x.at < y.at && (x.pid == y.pid ==> Before(h.queued, x.serial, y.serial))
  }

  ghost predicate PastOk(s: State, h: Past) {
    && SendersOk(s, h.queued) && QueuesOk(s, h.queued) && SweepsOk(s, h)
    && (forall i :: 0 <= i < |h.swept| ==> SweptOk(s, h, h.swept[i]))
    && (forall i, j :: 0 <= i < j < |h.swept| ==> PairOk(h, h.swept[i], h.swept[j]))
  }

  lemma CarrierBefore(s: State, e: Event, p: nat, n: nat)
    requires Enabled(s, e) && Carrier(Next(s, e), p, n)
    ensures (Carrier(s, p, n) && !(e.Enqueued? && e.pid == p)) ||
            (e.Accept? && p == e.pid && n == |s.recipients|)
  {}

  lemma QueuedStep(s: State, e: Event, h: Past)
    requires Enabled(s, e) && SendersOk(s, h.queued)
    ensures var queued := Recorded(s, e, h).queued;
            && (forall i, j :: 0 <= i < j < |queued| ==> queued[i] != queued[j])
            && (forall n :: n in queued ==> n < |Next(s, e).recipients|)
  {
    if e.Enqueued? {
      var n := s.procs[e.pid].serial;
      assert Carrier(s, e.pid, n);
      assert forall i :: 0 <= i < |h.queued| ==> h.queued[i] in h.queued;
    }
  }

  lemma CarriedIsUnqueued(s: State, e: Event, h: Past, p: nat, n: nat)
    requires Enabled(s, e) && SendersOk(s, h.queued)
    requires (Carrier(s, p, n) && !(e.Enqueued? && e.pid == p)) ||
             (e.Accept? && p == e.pid && n == |s.recipients|)
    ensures n < |Next(s, e).recipients| && n !in Recorded(s, e, h).queued
  {
    if e.Enqueued? {
      assert Carrier(s, e.pid, s.procs[e.pid].serial);
    }
  }

  lemma SendersStep(s: State, e: Event, h: Past)
    requires Enabled(s, e) && SendersOk(s, h.queued)
    ensures SendersOk(Next(s, e), Recorded(s, e, h).queued)
  {
    var t, queued := Next(s, e), Recorded(s, e, h).queued;
    QueuedStep(s, e, h);
    forall p, n: nat | Carrier(t, p, n) ensures n < |t.recipients| && n !in queued {
      CarrierBefore(s, e, p, n);
      CarriedIsUnqueued(s, e, h, p, n);
    }
    forall p, q, n: nat | Carrier(t, p, n) && Carrier(t, q, n) ensures p == q {
      CarrierBefore(s, e, p, n);
      CarrierBefore(s, e, q, n);
    }
  }

  /** A list that a step leaves alone stays in order. */
  lemma StillInOrder(s: State, e: Event, h: Past, q: seq<Entry<Tag>>)
    requires Enabled(s, e) && InOrder(q, h.queued)
    ensures InOrder(q, Recorded(s, e, h).queued)
  {
    if e.Enqueued? {
      OrderKept(q, h.queued, s.procs[e.pid].serial);
    }
  }

  lemma EmptyInOrder(queued: seq<nat>)
    ensures InOrder([], queued)
  {}

  lemma QueuesStep(s: State, e: Event, h: Past)
    requires Enabled(s, e) && SendersOk(s, h.queued) && QueuesOk(s, h.queued)
    ensures QueuesOk(Next(s, e), Recorded(s, e, h).queued)
  {
    var t, queued := Next(s, e), Recorded(s, e, h).queued;
    if e.Enqueued? || e.QueueNuke? {
      AppendEffect(s, e);
      EmptyInOrder(h.queued);
      if e.Enqueued? {
        assert Carrier(s, e.pid, s.procs[e.pid].serial);
      }
      EnqueueInOrder(QueueFor(s, AppendedTo(s, e)), Appended(s, e), s.now, h.queued);
    }
    forall id | id in t.queues ensures InOrder(t.queues[id], queued) {
      if !((e.Enqueued? || e.QueueNuke?) && id == AppendedTo(s, e)) {
        StillInOrder(s, e, h, s.queues[id]);
      }
    }
  }

  lemma RestIsASuffix(todo: seq<Entry<Tag>>, f: Fetch)
    requires todo != [] && SuffixOf(todo, f)
    ensures SuffixOf(todo[1..], f)
  {
    var all := Live(f.queue, f.at);
    var k :| 0 <= k <= |all| && todo == all[k..];
    assert todo[1..] == all[k + 1..];
  }

  lemma SweepsStep(s: State, e: Event, h: Past)
    requires Enabled(s, e) && QueuesOk(s, h.queued) && SweepsOk(s, h)
    ensures SweepsOk(Next(s, e), Recorded(s, e, h))
  {
    var t, h' := Next(s, e), Recorded(s, e, h);
    forall p | p in t.procs && t.procs[p].Deliver?
      ensures InOrder(t.procs[p].todo, h'.queued) && p in h'.fetched && SuffixOf(t.procs[p].todo, h'.fetched[p])
    {
      if e.DrainQueue? && e.pid == p {
        var q := QueueFor(s, s.ids[s.procs[p].conn]);
        EmptyInOrder(h.queued);
        LiveInOrder(q, s.now, h.queued);
        assert Live(q, s.now)[0..] == Live(q, s.now);
      } else if e.HandDrained? && e.pid == p {
        SuffixInOrder(s.procs[p].todo, 1, h.queued);
        RestIsASuffix(s.procs[p].todo, h.fetched[p]);
      } else {
        StillInOrder(s, e, h, s.procs[p].todo);
      }
    }
  }

  lemma SweptStays(s: State, e: Event, h: Past, x: Sweep)
    requires Enabled(s, e) && SweptOk(s, h, x)
    ensures SweptOk(Next(s, e), Recorded(s, e, h), x)
  {
    var t, h' := Next(s, e), Recorded(s, e, h);
    SweepKeepsItsConnection(s, e, x.pid);
    var todo := s.procs[x.pid].todo;
    assert t.procs[x.pid].todo == if e.HandDrained? && e.pid == x.pid then todo[1..] else todo;
    forall k | 0 <= k < |t.procs[x.pid].todo| && t.procs[x.pid].todo[k].payload.Small?
      ensures Before(h'.queued, x.serial, t.procs[x.pid].todo[k].payload.serial)
    {
      var entry := t.procs[x.pid].todo[k];
      assert entry == todo[if e.HandDrained? && e.pid == x.pid then k + 1 else k];
      if e.Enqueued? {
        BeforeKept(h.queued, s.procs[e.pid].serial, x.serial, entry.payload.serial);
      }
    }
  }

  lemma NewlySwept(s: State, e: Event, h: Past, x: Sweep)
    requires Enabled(s, e) && SweepsOk(s, h) && e.HandDrained? && s.procs[e.pid].todo[0].payload.Small?
    requires x == Sweep(s.procs[e.pid].todo[0].payload.serial, e.pid, |s.handed|)
    ensures SweptOk(Next(s, e), Recorded(s, e, h), x)
  {
    var todo, rest := s.procs[e.pid].todo, Next(s, e).procs[e.pid].todo;
    assert rest == todo[1..];
    forall k | 0 <= k < |rest| && rest[k].payload.Small? ensures Before(h.queued, x.serial, rest[k].payload.serial) {
      assert rest[k] == todo[k + 1];
    }
  }

  lemma PairStays(s: State, e: Event, h: Past, x: Sweep, y: Sweep)
    requires Enabled(s, e) && PairOk(h, x, y)
    ensures PairOk(Recorded(s, e, h), x, y)
  {
    if e.Enqueued? && x.pid == y.pid {
      BeforeKept(h.queued, s.procs[e.pid].serial, x.serial, y.serial);
    }
  }

  lemma SweptStep(s: State, e: Event, h: Past)
    requires Enabled(s, e) && PastOk(s, h)
    ensures var h' := Recorded(s, e, h);
            && (forall i :: 0 <= i < |h'.swept| ==> SweptOk(Next(s, e), h', h'.swept[i]))
            && (forall i, j :: 0 <= i < j < |h'.swept| ==> PairOk(h', h'.swept[i], h'.swept[j]))
  {
    var h' := Recorded(s, e, h);
    var n := |h.swept|;
    forall i | 0 <= i < |h'.swept| ensures SweptOk(Next(s, e), h', h'.swept[i]) {
      if i < n {
        SweptStays(s, e, h, h.swept[i]);
      } else {
        NewlySwept(s, e, h, h'.swept[i]);
      }
    }
    forall i, j | 0 <= i < j < |h'.swept| ensures PairOk(h', h'.swept[i], h'.swept[j]) {
      if j < n {
        PairStays(s, e, h, h.swept[i], h.swept[j]);
      } else {
        assert SweptOk(s, h, h.swept[i]);
      }
    }
  }

  lemma PastStep(s: State, e: Event, h: Past)
    requires Enabled(s, e) && PastOk(s, h)
    ensures PastOk(Next(s, e), Recorded(s, e, h))
  {
    SendersStep(s, e, h);
    QueuesStep(s, e, h);
    SweepsStep(s, e, h);
    SweptStep(s, e, h);
  }

  lemma {:induction false} PastRun(s: State, es: seq<Event>, h: Past)
    requires ValidRun(s, es) && PastOk(s, h)
    ensures PastOk(After(s, es), PastOf(s, es, h))
    decreases |es|
  {
    if es != [] {
      PastStep(s, es[0], h);
      PastRun(Next(s, es[0]), es[1..], Recorded(s, es[0], h));
    }
  }

  // ---- Results -------------------------------------------------------------------------------------

  /** Main result, for every interleaving: of two envelopes that one fetch has handed over, the one
      queued first was handed over first. */
  lemma FetchedInSendOrder(es: seq<Event>, x: Sweep, y: Sweep)
    requires ValidRun(Init(), es)
    requires var h := PastOf(Init(), es, Nothing());
             x in h.swept && y in h.swept && x.pid == y.pid && Before(h.queued, x.serial, y.serial)
    ensures var s := After(Init(), es);
            x.at < y.at < |s.handed| && s.handed[x.at].serial == x.serial && s.handed[y.at].serial == y.serial
  {
    PastRun(Init(), es, Nothing());
    var s, h := After(Init(), es), PastOf(Init(), es, Nothing());
    var i :| 0 <= i < |h.swept| && h.swept[i] == x;
    var j :| 0 <= j < |h.swept| && h.swept[j] == y;
    assert SweptOk(s, h, h.swept[i]) && SweptOk(s, h, h.swept[j]);
    assert j < i ==> PairOk(h, h.swept[j], h.swept[i]);
    assert i < j ==> PairOk(h, h.swept[i], h.swept[j]);
    NotBothWays(h.queued, x.serial, y.serial);
  }

  /** And at every moment the list that a connection works off is a suffix of what was unexpired in the
      queue as it was fetched. */
  lemma WorkedOffFromTheFront(es: seq<Event>, pid: nat)
    requires ValidRun(Init(), es)
    requires var s := After(Init(), es); pid in s.procs && s.procs[pid].Deliver?
    ensures var f := PastOf(Init(), es, Nothing()).fetched; pid in f && SuffixOf(After(Init(), es).procs[pid].todo, f[pid])
  {
    PastRun(Init(), es, Nothing());
  }
}
