/** Sub-threshold envelopes in memory mode: a sender looks the recipient up and then either
    hands the envelope to the client it found or queues it; a connecting recipient drains the
    queue in one atomic step and hands the drained envelopes over one by one. */
module SmallDelivery {
  import opened MemoryQueue

  /** Accepted envelopes carry their serial number; nuke payloads share the queue. */
  datatype Tag = Small(serial: nat) | Nuke

  datatype Proc =
    | Lookup(serial: nat, ttl: int)
    | Hand(serial: nat, conn: nat)
    | Queue(serial: nat, ttl: int)
    | Drain(conn: nat)
    | Deliver(conn: nat, todo: seq<Entry<Tag>>)
    | Done

  datatype Handover = Handover(serial: nat, conn: nat)
  datatype Reason = Expired | Capped

  datatype State = State(
    now: int,
    recipients: seq<string>,                // recipient of each accepted envelope
    hub: map<string, nat>,
    ids: map<nat, string>,
    queues: map<string, seq<Entry<Tag>>>,
    procs: map<nat, Proc>,
    handed: seq<Handover>,
    dropped: map<nat, Reason>)

  datatype Event =
    | Tick(dt: nat)
    | Accept(pid: nat, recipient: string, ttl: int)
    | LookUp(pid: nat)
    | HandLive(pid: nat)
    | Enqueued(pid: nat)
    | QueueNuke(recipient: string, ttl: int)
    | Register(pid: nat, conn: nat, id: string)
    | Unregister(conn: nat)
    | DrainQueue(pid: nat)
    | HandDrained(pid: nat)

  function Init(): State {
    State(0, [], map[], map[], map[], map[], [], map[])
  }

  predicate In(s: State, pid: nat) {
    pid in s.procs
  }

  predicate Enabled(s: State, e: Event) {
    match e
    case Tick(_) => true
    case Accept(pid, _, _) => pid !in s.procs
    case LookUp(pid) => In(s, pid) && s.procs[pid].Lookup? && s.procs[pid].serial < |s.recipients|
    case HandLive(pid) => In(s, pid) && s.procs[pid].Hand?
    case Enqueued(pid) => In(s, pid) && s.procs[pid].Queue? && s.procs[pid].serial < |s.recipients|
    case QueueNuke(_, _) => true
    case Register(pid, conn, _) => pid !in s.procs && conn !in s.ids
    case Unregister(conn) => conn in s.ids
    case DrainQueue(pid) => In(s, pid) && s.procs[pid].Drain? && s.procs[pid].conn in s.ids
    case HandDrained(pid) => In(s, pid) && s.procs[pid].Deliver? && s.procs[pid].todo != []
  }

  function Goto(s: State, pid: nat, p: Proc): State {
    s.(procs := s.procs[pid := p])
  }

  function QueueFor(s: State, id: string): seq<Entry<Tag>> {
    if id in s.queues then s.queues[id] else []
  }

  function Serials(q: seq<Entry<Tag>>): set<nat> {
    set i | 0 <= i < |q| && q[i].payload.Small? :: q[i].payload.serial
  }

  /** What the filter and the cap took out of q, and why. */
  function Lost(q: seq<Entry<Tag>>, left: seq<Entry<Tag>>, now: int): map<nat, Reason> {
    map n | n in Serials(q) && n !in Serials(left) :: if n in Serials(Live(q, now)) then Capped else Expired
  }

  function Append(s: State, id: string, tag: Tag, ttl: int): State {
    var e := Entry(tag, s.now + ttl);
    var left := Enqueue(QueueFor(s, id), e, s.now);
    s.(queues := s.queues[id := left], dropped := s.dropped + Lost(QueueFor(s, id) + [e], left, s.now))
  }

  function Next(s: State, e: Event): State
    requires Enabled(s, e)
  {
    match e
    case Tick(dt) => s.(now := s.now + dt)
    case Accept(pid, recipient, ttl) =>
      Goto(s, pid, Lookup(|s.recipients|, ttl)).(recipients := s.recipients + [recipient])
    case LookUp(pid) =>
      var p := s.procs[pid];
      var id := s.recipients[p.serial];
      Goto(s, pid, if id in s.hub then Hand(p.serial, s.hub[id]) else Queue(p.serial, p.ttl))
    case HandLive(pid) =>
      var p := s.procs[pid];
      Goto(s, pid, Done).(handed := s.handed + [Handover(p.serial, p.conn)])
    case Enqueued(pid) =>
      var p := s.procs[pid];
      Append(Goto(s, pid, Done), s.recipients[p.serial], Small(p.serial), p.ttl)
    case QueueNuke(recipient, ttl) => Append(s, recipient, Nuke, ttl)
    case Register(pid, conn, id) => Goto(s, pid, Drain(conn)).(hub := s.hub[id := conn], ids := s.ids[conn := id])
    case Unregister(conn) =>
      var id := s.ids[conn];
      if id in s.hub && s.hub[id] == conn then s.(hub := s.hub - {id}) else s
    case DrainQueue(pid) =>
      var conn := s.procs[pid].conn;
      var q := QueueFor(s, s.ids[conn]);
      var live := Live(q, s.now);
      Goto(s, pid, Deliver(conn, live))
      .(queues := s.queues - {s.ids[conn]}, dropped := s.dropped + Lost(q, live, s.now))
    case HandDrained(pid) =>
      var p := s.procs[pid];
      Goto(s, pid, Deliver(p.conn, p.todo[1..]))
      .(handed := if p.todo[0].payload.Small? then s.handed + [Handover(p.todo[0].payload.serial, p.conn)] else s.handed)
  }

  predicate ValidRun(s: State, es: seq<Event>)
    decreases |es|
  {
    es == [] || (Enabled(s, es[0]) && ValidRun(Next(s, es[0]), es[1..]))
  }

  function After(s: State, es: seq<Event>): State
    requires ValidRun(s, es)
    decreases |es|
  {
    if es == [] then s else After(Next(s, es[0]), es[1..])
  }

  // ---- Where an envelope is -----------------------------------------------------

  /** A concrete slot of the state that can hold an envelope. */
  datatype Slot =
    | AtSender(pid: nat)
    | InQueue(id: string, i: nat)
    | InSweep(pid: nat, i: nat)
    | HandedOver(i: nat)
    | DroppedAs(reason: Reason)

  predicate Carries(p: Proc, n: nat) {
    (p.Lookup? || p.Hand? || p.Queue?) && p.serial == n
  }

  predicate HasAt(q: seq<Entry<Tag>>, n: nat, i: nat) {
    i < |q| && q[i].payload == Small(n)
  }

  predicate Occupies(s: State, n: nat, slot: Slot) {
    match slot
    case AtSender(pid) => pid in s.procs && Carries(s.procs[pid], n)
    case InQueue(id, i) => id in s.queues && HasAt(s.queues[id], n, i)
    case InSweep(pid, i) => pid in s.procs && s.procs[pid].Deliver? && HasAt(s.procs[pid].todo, n, i)
    case HandedOver(i) => i < |s.handed| && s.handed[i].serial == n
    case DroppedAs(reason) => n in s.dropped && s.dropped[n] == reason
  }

  // ---- The invariant, phrased with a place for every serial number ----------------

  datatype Place = Sender(pid: nat) | Queued(id: string) | Sweeping(pid: nat) | Handed | Dropped

  /** No envelope sits twice in one list. */
  predicate Distinct(q: seq<Entry<Tag>>) {
    forall i, j :: 0 <= i < j < |q| && q[i].payload.Small? ==> q[i].payload != q[j].payload
  }

  ghost predicate Holds(s: State, n: nat, p: Place) {
    match p
    case Sender(pid) => pid in s.procs && Carries(s.procs[pid], n)
    case Queued(id) => id in s.queues && n in Serials(s.queues[id])
    case Sweeping(pid) => pid in s.procs && s.procs[pid].Deliver? && n in Serials(s.procs[pid].todo)
    case Handed => exists i :: 0 <= i < |s.handed| && s.handed[i].serial == n
    case Dropped => n in s.dropped
  }

  ghost predicate ListsOk(s: State) {
    && (forall id :: id in s.queues ==> Distinct(s.queues[id]))
    && (forall pid :: pid in s.procs && s.procs[pid].Deliver? ==> Distinct(s.procs[pid].todo))
    && (forall i, j :: 0 <= i < j < |s.handed| ==> s.handed[i].serial != s.handed[j].serial)
  }

  /** Every accepted envelope is held at its one place and nowhere else. */
  ghost predicate Placed(s: State, place: seq<Place>) {
    && |place| == |s.recipients|
    && (forall n: nat :: n < |place| ==> Holds(s, n, place[n]))
    && (forall n: nat, p :: Holds(s, n, p) ==> n < |place| && p == place[n])
  }

  // Lists under the filter and the cap.

  lemma ConsSerials(x: Entry<Tag>, q: seq<Entry<Tag>>)
    ensures Serials([x] + q) == Serials(q) + (if x.payload.Small? then {x.payload.serial} else {})
  {
    var all := [x] + q;
    forall n | n in Serials(all) ensures n in Serials(q) || x.payload == Small(n) {
      var i :| 0 <= i < |all| && all[i].payload == Small(n);
      assert i > 0 ==> q[i - 1].payload == Small(n);
    }
    forall n | n in Serials(q) ensures n in Serials(all) {
      var i :| 0 <= i < |q| && q[i].payload == Small(n);
      assert all[i + 1].payload == Small(n);
    }
    assert all[0] == x;
  }

  lemma ConsDistinct(x: Entry<Tag>, q: seq<Entry<Tag>>, sub: seq<Entry<Tag>>)
    requires Distinct([x] + q) && Serials(sub) <= Serials(q) && Distinct(sub)
    ensures Distinct([x] + sub)
  {
    if x.payload.Small? {
      assert x.payload.serial !in Serials(q) by {
        forall i | 0 <= i < |q| ensures q[i].payload != x.payload {
          assert ([x] + q)[i + 1] == q[i] && ([x] + q)[0] == x;
        }
      }
      forall i | 0 <= i < |sub| ensures sub[i].payload != x.payload {
        assert sub[i].payload.Small? ==> sub[i].payload.serial in Serials(sub);
      }
    }
    assert forall i :: 0 < i < |sub| + 1 ==> ([x] + sub)[i] == sub[i - 1];
  }

  lemma {:induction false} LiveIsASublist(q: seq<Entry<Tag>>, now: int)
    ensures Serials(Live(q, now)) <= Serials(q)
    ensures Distinct(q) ==> Distinct(Live(q, now))
  {
    if q != [] {
      var rest := q[1..];
      LiveIsASublist(rest, now);
      assert forall i :: 0 <= i < |rest| ==> rest[i] == q[i + 1];
      assert Serials(rest) <= Serials(q) by {
        forall n | n in Serials(rest) ensures n in Serials(q) {
          var i :| 0 <= i < |rest| && rest[i].payload == Small(n);
          assert q[i + 1].payload == Small(n);
        }
      }
      if q[0].expires > now {
        ConsSerials(q[0], Live(rest, now));
        ConsSerials(q[0], rest);
        assert q == [q[0]] + rest;
        if Distinct(q) {
          ConsDistinct(q[0], rest, Live(rest, now));
        }
      }
    }
  }

  lemma SnocList(q: seq<Entry<Tag>>, x: Entry<Tag>)
    requires Distinct(q) && (x.payload.Small? ==> x.payload.serial !in Serials(q))
    ensures Distinct(q + [x])
    ensures Serials(q + [x]) == Serials(q) + (if x.payload.Small? then {x.payload.serial} else {})
  {
    var all := q + [x];
    forall n | n in Serials(all) ensures n in Serials(q) || x.payload == Small(n) {
      var i :| 0 <= i < |all| && all[i].payload == Small(n);
      assert i < |q| ==> q[i].payload == Small(n);
    }
    forall n | n in Serials(q) ensures n in Serials(all) {
      var i :| 0 <= i < |q| && q[i].payload == Small(n);
      assert all[i].payload == Small(n);
    }
    assert all[|q|] == x;
    forall i | 0 <= i < |q| && q[i].payload.Small? ensures q[i].payload != x.payload {
      assert q[i].payload.serial in Serials(q);
    }
  }

  lemma TailSerials(q: seq<Entry<Tag>>, b: nat)
    requires b <= |q|
    ensures Serials(q[b..]) <= Serials(q) && (Distinct(q) ==> Distinct(q[b..]))
  {
    forall n | n in Serials(q[b..]) ensures n in Serials(q) {
      var i :| 0 <= i < |q[b..]| && q[b..][i].payload == Small(n);
      assert q[b + i].payload == Small(n);
    }
  }

  lemma EnqueueList(q: seq<Entry<Tag>>, x: Entry<Tag>, now: int)
    requires Distinct(q) && (x.payload.Small? ==> x.payload.serial !in Serials(q))
    ensures Distinct(Enqueue(q, x, now)) && Serials(Enqueue(q, x, now)) <= Serials(q + [x])
    ensures Serials(q + [x]) == Serials(q) + (if x.payload.Small? then {x.payload.serial} else {})
  {
    SnocList(q, x);
    LiveIsASublist(q + [x], now);
    var live := Live(q + [x], now);
    TailSerials(live, if |live| > MAX_QUEUE_LEN then |live| - MAX_QUEUE_LEN else 0);
    assert live[0..] == live;
  }

  // ---- One step moves exactly the envelopes it touches ----------------------------

  /** The queue an appending step writes, the entry it appends and the result. */
  function AppendedTo(s: State, e: Event): string
    requires Enabled(s, e) && (e.Enqueued? || e.QueueNuke?)
  {
    if e.Enqueued? then s.recipients[s.procs[e.pid].serial] else e.recipient
  }

  function Appended(s: State, e: Event): Entry<Tag>
    requires Enabled(s, e) && (e.Enqueued? || e.QueueNuke?)
  {
    if e.Enqueued? then Entry(Small(s.procs[e.pid].serial), s.now + s.procs[e.pid].ttl) else Entry(Nuke, s.now + e.ttl)
  }

  function Left(s: State, e: Event): seq<Entry<Tag>>
    requires Enabled(s, e) && (e.Enqueued? || e.QueueNuke?)
  {
    Enqueue(QueueFor(s, AppendedTo(s, e)), Appended(s, e), s.now)
  }

  function Move(s: State, e: Event, n: nat, p: Place): Place
    requires Enabled(s, e)
  {
    match e
    case HandLive(pid) => if p == Sender(pid) then Handed else p
    case Enqueued(pid) =>
      if p == Sender(pid) || p == Queued(AppendedTo(s, e)) then
        if n in Serials(Left(s, e)) then Queued(AppendedTo(s, e)) else Dropped
      else p
    case QueueNuke(id, _) =>
      if p == Queued(id) then if n in Serials(Left(s, e)) then Queued(id) else Dropped else p
    case DrainQueue(pid) =>
      var id := s.ids[s.procs[pid].conn];
      if p == Queued(id) then if n in Serials(Live(QueueFor(s, id), s.now)) then Sweeping(pid) else Dropped else p
    case HandDrained(pid) =>
      if p == Sweeping(pid) && s.procs[pid].todo[0].payload == Small(n) then Handed else p
    case _ => p
  }

  function NextPlace(s: State, e: Event, place: seq<Place>): seq<Place>
    requires Enabled(s, e)
  {
    var moved := seq(|place|, n requires 0 <= n < |place| => Move(s, e, n, place[n]));
    if e.Accept? then moved + [Sender(e.pid)] else moved
  }

  lemma AppendFacts(s: State, e: Event, place: seq<Place>)
    requires Enabled(s, e) && (e.Enqueued? || e.QueueNuke?) && ListsOk(s) && Placed(s, place)
    ensures var q := QueueFor(s, AppendedTo(s, e)); var x := Appended(s, e);
            && Distinct(q) && Distinct(Left(s, e)) && Serials(Left(s, e)) <= Serials(q + [x])
            && Serials(q + [x]) == Serials(q) + (if x.payload.Small? then {x.payload.serial} else {})
            && (x.payload.Small? ==> x.payload.serial !in Serials(q))
  {
    var id := AppendedTo(s, e);
    var x := Appended(s, e);
    if e.Enqueued? {
      var n := x.payload.serial;
      assert Holds(s, n, Sender(e.pid));
      assert !Holds(s, n, Queued(id));
    }
    EnqueueList(QueueFor(s, id), x, s.now);
  }

  lemma AppendForward(s: State, e: Event, place: seq<Place>, n: nat)
    requires Enabled(s, e) && (e.Enqueued? || e.QueueNuke?) && ListsOk(s) && Placed(s, place) && n < |place|
    ensures Holds(Next(s, e), n, Move(s, e, n, place[n]))
  {
    AppendFacts(s, e, place);
    var t := Next(s, e);
    assert Holds(s, n, place[n]);
    assert t.handed == s.handed;
  }

  predicate Touched(s: State, e: Event, n: nat, p: Place)
    requires Enabled(s, e) && (e.Enqueued? || e.QueueNuke?)
  {
    p == Queued(AppendedTo(s, e)) || (p == Dropped && n !in s.dropped)
  }

  lemma AppendGives(s: State, id: string, tag: Tag, ttl: int)
    ensures var t, x := Append(s, id, tag, ttl), Entry(tag, s.now + ttl);
            && t.queues == s.queues[id := Enqueue(QueueFor(s, id), x, s.now)]
            && t.dropped == s.dropped + Lost(QueueFor(s, id) + [x], Enqueue(QueueFor(s, id), x, s.now), s.now)
  {}

  lemma AppendEffect(s: State, e: Event)
    requires Enabled(s, e) && (e.Enqueued? || e.QueueNuke?)
    ensures var t, id := Next(s, e), AppendedTo(s, e);
            && t.queues == s.queues[id := Left(s, e)]
            && t.dropped == s.dropped + Lost(QueueFor(s, id) + [Appended(s, e)], Left(s, e), s.now)
  {
    if e.Enqueued? {
      AppendGives(Goto(s, e.pid, Done), AppendedTo(s, e), Small(s.procs[e.pid].serial), s.procs[e.pid].ttl);
    } else {
      AppendGives(s, e.recipient, Nuke, e.ttl);
    }
  }

  lemma TouchedIsQueuedOrNew(s: State, e: Event, n: nat, p: Place)
    requires Enabled(s, e) && (e.Enqueued? || e.QueueNuke?) && Holds(Next(s, e), n, p) && Touched(s, e, n, p)
    requires Serials(Left(s, e)) <= Serials(QueueFor(s, AppendedTo(s, e)) + [Appended(s, e)])
    ensures n in Serials(QueueFor(s, AppendedTo(s, e)) + [Appended(s, e)])
    ensures p == if n in Serials(Left(s, e)) then Queued(AppendedTo(s, e)) else Dropped
  {
    AppendEffect(s, e);
  }

  lemma InQueueHolds(s: State, n: nat, id: string)
    requires n in Serials(QueueFor(s, id))
    ensures Holds(s, n, Queued(id))
  {}

  /** Where an envelope that the filter or the cap has touched was before. */
  lemma TouchedBefore(s: State, e: Event, place: seq<Place>, n: nat, p: Place)
    requires Enabled(s, e) && (e.Enqueued? || e.QueueNuke?) && ListsOk(s) && Placed(s, place)
    requires Holds(Next(s, e), n, p) && Touched(s, e, n, p)
    ensures Holds(s, n, Queued(AppendedTo(s, e))) || (e.Enqueued? && Holds(s, n, Sender(e.pid)))
    ensures p == if n in Serials(Left(s, e)) then Queued(AppendedTo(s, e)) else Dropped
  {
    AppendFacts(s, e, place);
    TouchedIsQueuedOrNew(s, e, n, p);
    if n in Serials(QueueFor(s, AppendedTo(s, e))) {
      InQueueHolds(s, n, AppendedTo(s, e));
    }
  }

  lemma UntouchedBefore(s: State, e: Event, place: seq<Place>, n: nat, p: Place)
    requires Enabled(s, e) && (e.Enqueued? || e.QueueNuke?) && Holds(Next(s, e), n, p) && !Touched(s, e, n, p)
    ensures Holds(s, n, p) && !(e.Enqueued? && p == Sender(e.pid))
  {
    assert Next(s, e).handed == s.handed;
  }

  lemma AppendBackward(s: State, e: Event, place: seq<Place>, n: nat, p: Place)
    requires Enabled(s, e) && (e.Enqueued? || e.QueueNuke?) && ListsOk(s) && Placed(s, place) && Holds(Next(s, e), n, p)
    ensures n < |place| && p == Move(s, e, n, place[n])
  {
    if Touched(s, e, n, p) {
      TouchedBefore(s, e, place, n, p);
    } else {
      UntouchedBefore(s, e, place, n, p);
      assert p == place[n];
    }
  }

  lemma DrainForward(s: State, e: Event, place: seq<Place>, n: nat)
    requires Enabled(s, e) && e.DrainQueue? && ListsOk(s) && Placed(s, place) && n < |place|
    ensures Holds(Next(s, e), n, Move(s, e, n, place[n]))
  {
    var id := s.ids[s.procs[e.pid].conn];
    LiveIsASublist(QueueFor(s, id), s.now);
    var t := Next(s, e);
    assert Holds(s, n, place[n]);
    assert t.handed == s.handed;
  }

  lemma DrainBackward(s: State, e: Event, place: seq<Place>, n: nat, p: Place)
    requires Enabled(s, e) && e.DrainQueue? && ListsOk(s) && Placed(s, place) && Holds(Next(s, e), n, p)
    ensures n < |place| && p == Move(s, e, n, place[n])
  {
    var id := s.ids[s.procs[e.pid].conn];
    LiveIsASublist(QueueFor(s, id), s.now);
    var t := Next(s, e);
    assert t.handed == s.handed;
    if p == Sweeping(e.pid) || (p == Dropped && n !in s.dropped) {
      assert Holds(s, n, Queued(id));
    } else {
      assert Holds(s, n, p);
      assert p != Queued(id);
    }
  }

  lemma HandedSnoc(s: State, t: State, n: nat, k: nat, conn: nat)
    requires t.handed == s.handed + [Handover(k, conn)]
    ensures Holds(t, n, Handed) <==> Holds(s, n, Handed) || n == k
  {
    assert t.handed[|s.handed|].serial == k;
    forall i | 0 <= i < |s.handed| ensures t.handed[i] == s.handed[i] {}
    if i :| 0 <= i < |t.handed| && t.handed[i].serial == n {
      assert i < |s.handed| ==> s.handed[i].serial == n;
    }
    if i :| 0 <= i < |s.handed| && s.handed[i].serial == n {
      assert t.handed[i].serial == n;
    }
  }

  /** Taking the first entry off a list without repetitions. */
  lemma HeadSerials(q: seq<Entry<Tag>>)
    requires q != [] && Distinct(q)
    ensures Distinct(q[1..])
    ensures Serials(q) == Serials(q[1..]) + (if q[0].payload.Small? then {q[0].payload.serial} else {})
    ensures q[0].payload.Small? ==> q[0].payload.serial !in Serials(q[1..])
  {
    ConsSerials(q[0], q[1..]);
    assert [q[0]] + q[1..] == q;
    TailSerials(q, 1);
    forall i | 0 <= i < |q[1..]| ensures q[0].payload.Small? ==> q[1..][i].payload != q[0].payload {
      assert q[1..][i] == q[i + 1];
    }
  }

  lemma HandDrainedFacts(s: State, e: Event, place: seq<Place>, n: nat)
    requires Enabled(s, e) && e.HandDrained? && ListsOk(s)
    ensures Next(s, e).procs[e.pid].Deliver?
    ensures var todo, rest := s.procs[e.pid].todo, Next(s, e).procs[e.pid].todo;
            && (n in Serials(todo) <==> n in Serials(rest) || todo[0].payload == Small(n))
            && (todo[0].payload == Small(n) ==> n !in Serials(rest))
    ensures Holds(Next(s, e), n, Handed) <==> Holds(s, n, Handed) || s.procs[e.pid].todo[0].payload == Small(n)
  {
    var todo := s.procs[e.pid].todo;
    HeadSerials(todo);
    if todo[0].payload.Small? {
      HandedSnoc(s, Next(s, e), n, todo[0].payload.serial, s.procs[e.pid].conn);
    } else {
      assert Next(s, e).handed == s.handed;
    }
  }

  lemma HandDrainedForward(s: State, e: Event, place: seq<Place>, n: nat)
    requires Enabled(s, e) && e.HandDrained? && ListsOk(s) && Placed(s, place) && n < |place|
    ensures Holds(Next(s, e), n, Move(s, e, n, place[n]))
  {
    HandDrainedFacts(s, e, place, n);
    assert Holds(s, n, place[n]);
  }

  lemma HandDrainedBackward(s: State, e: Event, place: seq<Place>, n: nat, p: Place)
    requires Enabled(s, e) && e.HandDrained? && ListsOk(s) && Placed(s, place) && Holds(Next(s, e), n, p)
    ensures n < |place| && p == Move(s, e, n, place[n])
  {
    HandDrainedFacts(s, e, place, n);
    if p == Handed && s.procs[e.pid].todo[0].payload == Small(n) {
      assert Holds(s, n, Sweeping(e.pid));
    } else {
      assert Holds(s, n, p);
    }
  }

  predicate Plain(e: Event) {
    !e.Enqueued? && !e.QueueNuke? && !e.DrainQueue? && !e.HandDrained?
  }

  lemma PlainForward(s: State, e: Event, place: seq<Place>, n: nat)
    requires Enabled(s, e) && Plain(e) && Placed(s, place) && n < |place|
    ensures Holds(Next(s, e), n, Move(s, e, n, place[n]))
  {
    assert Holds(s, n, place[n]);
    if e.HandLive? {
      HandedSnoc(s, Next(s, e), n, s.procs[e.pid].serial, s.procs[e.pid].conn);
    } else {
      assert Next(s, e).handed == s.handed;
    }
  }

  lemma PlainBackward(s: State, e: Event, place: seq<Place>, n: nat, p: Place)
    requires Enabled(s, e) && Plain(e) && Placed(s, place) && Holds(Next(s, e), n, p)
    ensures (e.Accept? && n == |place| && p == Sender(e.pid)) || (n < |place| && p == Move(s, e, n, place[n]))
  {
    var t := Next(s, e);
    if e.HandLive? {
      var k := s.procs[e.pid].serial;
      HandedSnoc(s, t, n, k, s.procs[e.pid].conn);
      assert Holds(s, k, Sender(e.pid));
      assert (p == Handed && n == k) || Holds(s, n, p);
    } else if e.Accept? && p == Sender(e.pid) {
      assert n == |place|;
    } else {
      assert t.handed == s.handed;
      assert Holds(s, n, p);
    }
  }

  lemma Forward(s: State, e: Event, place: seq<Place>, n: nat)
    requires Enabled(s, e) && ListsOk(s) && Placed(s, place) && n < |place|
    ensures Holds(Next(s, e), n, Move(s, e, n, place[n]))
  {
    if e.Enqueued? || e.QueueNuke? {
      AppendForward(s, e, place, n);
    } else if e.DrainQueue? {
      DrainForward(s, e, place, n);
    } else if e.HandDrained? {
      HandDrainedForward(s, e, place, n);
    } else {
      PlainForward(s, e, place, n);
    }
  }

  lemma Backward(s: State, e: Event, place: seq<Place>, n: nat, p: Place)
    requires Enabled(s, e) && ListsOk(s) && Placed(s, place) && Holds(Next(s, e), n, p)
    ensures (e.Accept? && n == |place| && p == Sender(e.pid)) || (n < |place| && p == Move(s, e, n, place[n]))
  {
    if e.Enqueued? || e.QueueNuke? {
      AppendBackward(s, e, place, n, p);
    } else if e.DrainQueue? {
      DrainBackward(s, e, place, n, p);
    } else if e.HandDrained? {
      HandDrainedBackward(s, e, place, n, p);
    } else {
      PlainBackward(s, e, place, n, p);
    }
  }

  lemma PlacedStep(s: State, e: Event, place: seq<Place>)
    requires Enabled(s, e) && ListsOk(s) && Placed(s, place)
    ensures Placed(Next(s, e), NextPlace(s, e, place))
  {
    var t, next := Next(s, e), NextPlace(s, e, place);
    forall n: nat | n < |next| ensures Holds(t, n, next[n]) {
      if n < |place| {
        Forward(s, e, place, n);
      }
    }
    forall n: nat, p | Holds(t, n, p) ensures n < |next| && p == next[n] {
      Backward(s, e, place, n, p);
    }
  }

  lemma HandoversStep(s: State, e: Event, place: seq<Place>)
    requires Enabled(s, e) && ListsOk(s) && Placed(s, place)
    ensures forall i, j :: 0 <= i < j < |Next(s, e).handed| ==> Next(s, e).handed[i].serial != Next(s, e).handed[j].serial
  {
    var t := Next(s, e);
    if t.handed != s.handed {
      var k := t.handed[|s.handed|].serial;
      if e.HandLive? {
        assert Holds(s, k, Sender(e.pid));
      } else {
        assert s.procs[e.pid].todo[0].payload == Small(k);
        assert Holds(s, k, Sweeping(e.pid));
      }
      assert !Holds(s, k, Handed);
      forall i | 0 <= i < |s.handed| ensures s.handed[i].serial != k {}
    }
  }

  lemma ListsStep(s: State, e: Event, place: seq<Place>)
    requires Enabled(s, e) && ListsOk(s) && Placed(s, place)
    ensures ListsOk(Next(s, e))
  {
    HandoversStep(s, e, place);
    if e.Enqueued? || e.QueueNuke? {
      AppendFacts(s, e, place);
    } else if e.DrainQueue? {
      LiveIsASublist(QueueFor(s, s.ids[s.procs[e.pid].conn]), s.now);
    } else if e.HandDrained? {
      HeadSerials(s.procs[e.pid].todo);
    }
  }

  // ---- Handed to the right identity -------------------------------------------------

  predicate ConnOf(s: State, conn: nat, n: nat) {
    n < |s.recipients| && conn in s.ids && s.ids[conn] == s.recipients[n]
  }

  ghost predicate ConnsOk(s: State) {
    && (forall id :: id in s.hub ==> s.hub[id] in s.ids && s.ids[s.hub[id]] == id)
    && (forall pid :: pid in s.procs && s.procs[pid].Hand? ==> ConnOf(s, s.procs[pid].conn, s.procs[pid].serial))
  }

  predicate RightPlace(s: State, n: nat, p: Place) {
    match p
    case Queued(id) => n < |s.recipients| && id == s.recipients[n]
    case Sweeping(pid) => pid in s.procs && s.procs[pid].Deliver? && ConnOf(s, s.procs[pid].conn, n)
    case _ => true
  }

  ghost predicate RoutesOk(s: State, place: seq<Place>) {
    && ConnsOk(s)
    && |place| == |s.recipients|
    && (forall n: nat :: n < |place| ==> RightPlace(s, n, place[n]))
    && (forall h :: h in s.handed ==> ConnOf(s, h.conn, h.serial))
  }

  lemma ConnOfKept(s: State, e: Event, conn: nat, n: nat)
    requires Enabled(s, e) && ConnOf(s, conn, n)
    ensures ConnOf(Next(s, e), conn, n)
  {}

  lemma ConnsStep(s: State, e: Event)
    requires Enabled(s, e) && ConnsOk(s)
    ensures ConnsOk(Next(s, e))
  {
    var t := Next(s, e);
    forall pid | pid in t.procs && t.procs[pid].Hand? ensures ConnOf(t, t.procs[pid].conn, t.procs[pid].serial) {
      if pid in s.procs && s.procs[pid] == t.procs[pid] {
        ConnOfKept(s, e, s.procs[pid].conn, s.procs[pid].serial);
      }
    }
  }

  lemma SweepKeepsItsConnection(s: State, e: Event, pid: nat)
    requires Enabled(s, e) && pid in s.procs && s.procs[pid].Deliver?
    ensures pid in Next(s, e).procs && Next(s, e).procs[pid].Deliver? && Next(s, e).procs[pid].conn == s.procs[pid].conn
  {}

  lemma SettledPlaceKept(s: State, e: Event, n: nat, p: Place)
    requires Enabled(s, e) && Holds(s, n, p) && RightPlace(s, n, p) && !p.Sweeping?
    ensures RightPlace(Next(s, e), n, Move(s, e, n, p))
  {}

  lemma RightPlaceKept(s: State, e: Event, place: seq<Place>, n: nat)
    requires Enabled(s, e) && Placed(s, place) && n < |place| && RightPlace(s, n, place[n])
    ensures RightPlace(Next(s, e), n, Move(s, e, n, place[n]))
  {
    assert Holds(s, n, place[n]);
    if place[n].Sweeping? {
      SweepKeepsItsConnection(s, e, place[n].pid);
      ConnOfKept(s, e, s.procs[place[n].pid].conn, n);
    } else {
      SettledPlaceKept(s, e, n, place[n]);
    }
  }

  lemma HandedConn(s: State, e: Event, place: seq<Place>, h: Handover)
    requires Enabled(s, e) && Placed(s, place) && RoutesOk(s, place) && h in Next(s, e).handed
    ensures ConnOf(Next(s, e), h.conn, h.serial)
  {
    if h in s.handed {
      ConnOfKept(s, e, h.conn, h.serial);
    } else {
      assert h == Next(s, e).handed[|s.handed|];
      if e.HandDrained? {
        assert s.procs[e.pid].todo[0].payload == Small(h.serial);
        assert Holds(s, h.serial, Sweeping(e.pid));
        assert RightPlace(s, h.serial, place[h.serial]);
      }
    }
  }

  lemma RoutesStep(s: State, e: Event, place: seq<Place>)
    requires Enabled(s, e) && Placed(s, place) && RoutesOk(s, place)
    ensures RoutesOk(Next(s, e), NextPlace(s, e, place))
  {
    ConnsStep(s, e);
    var t, next := Next(s, e), NextPlace(s, e, place);
    forall n: nat | n < |next| ensures RightPlace(t, n, next[n]) {
      if n < |place| {
        RightPlaceKept(s, e, place, n);
      }
    }
    forall h | h in t.handed ensures ConnOf(t, h.conn, h.serial) {
      HandedConn(s, e, place, h);
    }
  }

  lemma {:induction false} InvRun(s: State, es: seq<Event>, place: seq<Place>) returns (last: seq<Place>)
    requires ValidRun(s, es) && ListsOk(s) && Placed(s, place) && RoutesOk(s, place)
    ensures var t := After(s, es); ListsOk(t) && Placed(t, last) && RoutesOk(t, last)
    decreases |es|
  {
    last := place;
    if es != [] {
      ListsStep(s, es[0], place);
      PlacedStep(s, es[0], place);
      RoutesStep(s, es[0], place);
      last := InvRun(Next(s, es[0]), es[1..], NextPlace(s, es[0], place));
    }
  }

  // ---- Results ------------------------------------------------------------------------

  function PlaceOf(slot: Slot): Place {
    match slot
    case AtSender(pid) => Sender(pid)
    case InQueue(id, _) => Queued(id)
    case InSweep(pid, _) => Sweeping(pid)
    case HandedOver(_) => Handed
    case DroppedAs(_) => Dropped
  }

  lemma OccupiesHolds(s: State, n: nat, slot: Slot)
    requires Occupies(s, n, slot)
    ensures Holds(s, n, PlaceOf(slot))
  {
    match slot
    case InQueue(id, i) => assert s.queues[id][i].payload == Small(n);
    case InSweep(pid, i) => assert s.procs[pid].todo[i].payload == Small(n);
    case _ =>
  }

  lemma OneSlotPerPlace(s: State, n: nat, a: Slot, b: Slot)
    requires ListsOk(s) && Occupies(s, n, a) && Occupies(s, n, b) && PlaceOf(a) == PlaceOf(b)
    ensures a == b
  {
    match a
    case InQueue(id, i) =>
      var q := s.queues[id];
      assert Distinct(q) && q[i].payload == q[b.i].payload == Small(n);
    case InSweep(pid, i) =>
      var q := s.procs[pid].todo;
      assert Distinct(q) && q[i].payload == q[b.i].payload == Small(n);
    case _ =>
  }

  lemma HoldsOccupies(s: State, n: nat, p: Place) returns (slot: Slot)
    requires Holds(s, n, p)
    ensures Occupies(s, n, slot)
  {
    match p
    case Sender(pid) => slot := AtSender(pid);
    case Queued(id) =>
      var i :| 0 <= i < |s.queues[id]| && s.queues[id][i].payload == Small(n);
      slot := InQueue(id, i);
    case Sweeping(pid) =>
      var i :| 0 <= i < |s.procs[pid].todo| && s.procs[pid].todo[i].payload == Small(n);
      slot := InSweep(pid, i);
    case Handed =>
      var i :| 0 <= i < |s.handed| && s.handed[i].serial == n;
      slot := HandedOver(i);
    case Dropped => slot := DroppedAs(s.dropped[n]);
  }

  /** Main result: in every interleaving each accepted envelope occupies exactly one slot, so
      none is lost silently, duplicated, or handed over twice. */
  lemma ExactlyOnePlace(es: seq<Event>, n: nat)
    requires ValidRun(Init(), es) && n < |After(Init(), es).recipients|
    ensures exists slot :: Occupies(After(Init(), es), n, slot)
    ensures forall a, b :: Occupies(After(Init(), es), n, a) && Occupies(After(Init(), es), n, b) ==> a == b
  {
    var place := InvRun(Init(), es, []);
    var s := After(Init(), es);
    var slot := HoldsOccupies(s, n, place[n]);
    forall a, b | Occupies(s, n, a) && Occupies(s, n, b) ensures a == b {
      OccupiesHolds(s, n, a);
      OccupiesHolds(s, n, b);
      OneSlotPerPlace(s, n, a, b);
    }
  }

  lemma {:induction false} LiveKeepsExactly(q: seq<Entry<Tag>>, now: int, n: nat)
    ensures n in Serials(Live(q, now)) <==> exists i: nat :: HasAt(q, n, i) && q[i].expires > now
  {
    if q != [] {
      var rest := q[1..];
      LiveKeepsExactly(rest, now, n);
      ConsSerials(q[0], Live(rest, now));
      if i: nat :| HasAt(rest, n, i) && rest[i].expires > now {
        assert HasAt(q, n, i + 1);
      }
      if i: nat :| HasAt(q, n, i) && q[i].expires > now {
        assert i > 0 ==> HasAt(rest, n, i - 1);
      }
      if q[0].payload == Small(n) {
        assert HasAt(q, n, 0);
      }
    }
  }

  /** The queue a step filters, as it stands just before the filter. */
  function Filtered(s: State, e: Event): seq<Entry<Tag>>
    requires Enabled(s, e)
  {
    if e.Enqueued? || e.QueueNuke? then QueueFor(s, AppendedTo(s, e)) + [Appended(s, e)]
    else if e.DrainQueue? then QueueFor(s, s.ids[s.procs[e.pid].conn])
    else []
  }

  /** What a filtering step adds to the dropped ones. */
  lemma DropsAreLost(s: State, e: Event, n: nat) returns (left: seq<Entry<Tag>>)
    requires Enabled(s, e) && n !in s.dropped && n in Next(s, e).dropped
    ensures n in Lost(Filtered(s, e), left, s.now) && Next(s, e).dropped[n] == Lost(Filtered(s, e), left, s.now)[n]
    ensures e.Enqueued? || e.QueueNuke? || e.DrainQueue?
    ensures left == if e.DrainQueue? then Live(Filtered(s, e), s.now) else Newest(Live(Filtered(s, e), s.now))
  {
    if e.Enqueued? || e.QueueNuke? {
      AppendEffect(s, e);
      left := Left(s, e);
    } else {
      left := Live(Filtered(s, e), s.now);
    }
  }

  /** A drop is booked as expired only for an entry past its expiry, and as capped only for an
      unexpired entry that arrived at a queue with more than a thousand unexpired ones. No step
      but an arrival or a fetch drops anything. */
  lemma DropsHaveTheirReason(s: State, e: Event, n: nat)
    requires Enabled(s, e) && n !in s.dropped && n in Next(s, e).dropped
    ensures var q := Filtered(s, e);
            && (exists i: nat :: HasAt(q, n, i))
            && match Next(s, e).dropped[n]
               case Expired => forall i: nat :: HasAt(q, n, i) ==> q[i].expires <= s.now
               case Capped =>
                 && (e.Enqueued? || e.QueueNuke?)
                 && (exists i: nat :: HasAt(q, n, i) && q[i].expires > s.now) && |Live(q, s.now)| > MAX_QUEUE_LEN
  {
    var q := Filtered(s, e);
    var left := DropsAreLost(s, e, n);
    LiveKeepsExactly(q, s.now, n);
    var i :| 0 <= i < |q| && q[i].payload == Small(n);
    assert HasAt(q, n, i);
  }

  /** Whatever is handed over goes to a connection of the envelope's own recipient. */
  lemma HandedToItsRecipient(es: seq<Event>, h: Handover)
    requires ValidRun(Init(), es) && h in After(Init(), es).handed
    ensures var s := After(Init(), es);
            h.serial < |s.recipients| && h.conn in s.ids && s.ids[h.conn] == s.recipients[h.serial]
  {
    var place := InvRun(Init(), es, []);
  }
}
