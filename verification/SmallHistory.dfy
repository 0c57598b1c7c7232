/** The queues of the memory mode, read off the events alone: each is the queue of the envelopes sent to
    its recipient, in the order of queueing, since the recipient last connected. */
module SmallHistory {
  import opened Numbers
  import opened Text
  import opened MemoryQueue
  import opened SmallDelivery

  /** An accepted envelope: its number, whom it was sent to, and how long it may wait. */
  datatype Sent = Sent(serial: nat, recipient: string, ttl: int)

  /** The clock after these events. */
  function Clock(es: seq<Event>): int {
    if es == [] then 0 else Clock(es[..|es| - 1]) + (if es[|es| - 1].Tick? then es[|es| - 1].dt else 0)
  }

  function Accepts(es: seq<Event>): nat {
    if es == [] then 0 else Accepts(es[..|es| - 1]) + (if es[|es| - 1].Accept? then 1 else 0)
  }

  /** What this goroutine was started to deliver. */
  function Carried(es: seq<Event>, pid: nat): Option<Sent> {
    if es == [] then None
    else
      var front, last := es[..|es| - 1], es[|es| - 1];
      if last.Accept? && last.pid == pid then Some(Sent(Accepts(front), last.recipient, last.ttl)) else Carried(front, pid)
  }

  /** Whose connection this goroutine serves. */
  function Serves(es: seq<Event>, pid: nat): Option<string> {
    if es == [] then None
    else
      var front, last := es[..|es| - 1], es[|es| - 1];
      if last.Register? && last.pid == pid then Some(last.id) else Serves(front, pid)
  }

  /** The log after one more event. */
  function Logged(es: seq<Event>, e: Event, id: string, log: seq<Arrival<Tag>>): seq<Arrival<Tag>> {
    match e
    case Enqueued(pid) =>
      var c := Carried(es, pid);
      if c.Some? && c.value.recipient == id
      then log + [Arrival(Entry(Small(c.value.serial), Clock(es) + c.value.ttl), Clock(es))] else log
    case QueueNuke(recipient, ttl) =>
      if recipient == id then log + [Arrival(Entry(Tag.Nuke, Clock(es) + ttl), Clock(es))] else log
    case DrainQueue(pid) => if Serves(es, pid) == Some(id) then [] else log
    case _ => log
  }

  /** All that was queued for this id since it was last fetched. */
  function Log(es: seq<Event>, id: string): seq<Arrival<Tag>> {
    if es == [] then [] else Logged(es[..|es| - 1], es[|es| - 1], id, Log(es[..|es| - 1], id))
  }

  // ---- What the program counters remember ----------------------------------------------------------

  ghost predicate ProcTold(s: State, es: seq<Event>, pid: nat)
    requires pid in s.procs
  {
    match s.procs[pid]
    case Lookup(n, ttl) => n < |s.recipients| && Carried(es, pid) == Some(Sent(n, s.recipients[n], ttl))
    case Queue(n, ttl) => n < |s.recipients| && Carried(es, pid) == Some(Sent(n, s.recipients[n], ttl))
    case Drain(conn) => conn in s.ids && Serves(es, pid) == Some(s.ids[conn])
    case _ => true
  }

  ghost predicate Told(s: State, es: seq<Event>) {
    && s.now == Clock(es) && |s.recipients| == Accepts(es)
    && (forall pid :: pid in s.procs ==> ProcTold(s, es, pid))
  }

  lemma Longer(es: seq<Event>, e: Event)
    ensures (es + [e])[..|es|] == es && (es + [e])[|es|] == e
    ensures Clock(es + [e]) == Clock(es) + (if e.Tick? then e.dt else 0)
    ensures Accepts(es + [e]) == Accepts(es) + (if e.Accept? then 1 else 0)
    ensures forall id :: Log(es + [e], id) == Logged(es, e, id, Log(es, id))
  {
    assert (es + [e])[..|es|] == es;
  }

  lemma LongerFor(es: seq<Event>, e: Event, pid: nat)
    ensures Carried(es + [e], pid) ==
            if e.Accept? && e.pid == pid then Some(Sent(Accepts(es), e.recipient, e.ttl)) else Carried(es, pid)
    ensures Serves(es + [e], pid) == if e.Register? && e.pid == pid then Some(e.id) else Serves(es, pid)
  {
    assert (es + [e])[..|es|] == es;
  }

  lemma ToldStep(s: State, es: seq<Event>, e: Event)
    requires Told(s, es) && Enabled(s, e)
    ensures Told(Next(s, e), es + [e])
  {
    var t := Next(s, e);
    Longer(es, e);
    forall pid | pid in t.procs ensures ProcTold(t, es + [e], pid) {
      LongerFor(es, e, pid);
      assert pid in s.procs ==> ProcTold(s, es, pid);
    }
  }

  lemma {:induction false} SameFront<T>(log: seq<Arrival<T>>, a: Arrival<T>, n: nat)
    requires n <= |log|
    ensures QueueOf(log + [a], n) == QueueOf(log, n)
  {
    if n > 0 {
      SameFront(log, a, n - 1);
    }
  }

  lemma OneMore<T>(log: seq<Arrival<T>>, a: Arrival<T>)
    ensures QueueOf(log + [a], |log| + 1) == Enqueue(QueueOf(log, |log|), a.entry, a.at)
  {
    SameFront(log, a, |log|);
  }

  /** The log records each arrival of this id as the queue takes it. */
  lemma ArrivalIsLogged(s: State, es: seq<Event>, e: Event, id: string)
    requires Told(s, es) && Enabled(s, e) && (e.Enqueued? || e.QueueNuke?)
    ensures Logged(es, e, id, Log(es, id)) ==
            if AppendedTo(s, e) == id then Log(es, id) + [Arrival(Appended(s, e), s.now)] else Log(es, id)
  {
    if e.Enqueued? {
      assert ProcTold(s, es, e.pid);
    }
  }

  lemma QueueStep(s: State, es: seq<Event>, e: Event, id: string, log: seq<Arrival<Tag>>)
    requires Told(s, es) && Enabled(s, e) && log == Log(es, id) && QueueFor(s, id) == QueueOf(log, |log|)
    ensures var more := Logged(es, e, id, log); QueueFor(Next(s, e), id) == QueueOf(more, |more|)
  {
    if e.Enqueued? || e.QueueNuke? {
      AppendEffect(s, e);
      ArrivalIsLogged(s, es, e, id);
      OneMore(log, Arrival(Appended(s, e), s.now));
    } else if e.DrainQueue? {
      assert ProcTold(s, es, e.pid);
    }
  }

  ghost predicate InTime(es: seq<Event>, log: seq<Arrival<Tag>>) {
    Ordered(log) && (log != [] ==> log[|log| - 1].at <= Clock(es))
  }

  lemma LogStaysInTime(es: seq<Event>, e: Event, id: string)
    requires InTime(es, Log(es, id))
    ensures InTime(es + [e], Log(es + [e], id))
  {
    Longer(es, e);
  }

  lemma {:induction false} LogIsInTime(es: seq<Event>, id: string)
    ensures InTime(es, Log(es, id))
    decreases |es|
  {
    if es != [] {
      var front := es[..|es| - 1];
      LogIsInTime(front, id);
      LogStaysInTime(front, es[|es| - 1], id);
      assert es == front + [es[|es| - 1]];
    }
  }

  /** The last step of a run apart. */
  lemma {:induction false} LastStep(s: State, es: seq<Event>)
    requires ValidRun(s, es) && es != []
    ensures var front, last := es[..|es| - 1], es[|es| - 1];
            ValidRun(s, front) && Enabled(After(s, front), last) && After(s, es) == Next(After(s, front), last)
    decreases |es|
  {
    if |es| > 1 {
      LastStep(Next(s, es[0]), es[1..]);
      assert es[1..][..|es| - 2] == es[..|es| - 1][1..];
    }
  }

  lemma {:induction false} ToldRun(es: seq<Event>)
    requires ValidRun(Init(), es)
    ensures Told(After(Init(), es), es)
    decreases |es|
  {
    if es != [] {
      var front, last := es[..|es| - 1], es[|es| - 1];
      LastStep(Init(), es);
      ToldRun(front);
      ToldStep(After(Init(), front), front, last);
      assert es == front + [last];
    }
  }

  /** The last to register for this id is this connection, and it has not left. */
  predicate Online(es: seq<Event>, id: string, conn: nat) {
    exists i :: 0 <= i < |es| && es[i].Register? && es[i].id == id && es[i].conn == conn &&
      forall j :: i < j < |es| ==> es[j] != Unregister(conn) && !(es[j].Register? && es[j].id == id)
  }

  lemma OnlineNext(es: seq<Event>, e: Event, id: string, conn: nat)
    ensures Online(es + [e], id, conn) <==>
            (e.Register? && e.id == id && e.conn == conn) ||
            (Online(es, id, conn) && e != Unregister(conn) && !(e.Register? && e.id == id))
  {
    var more := es + [e];
    assert forall i :: 0 <= i < |es| ==> more[i] == es[i];
    if Online(more, id, conn) {
      var i :| 0 <= i < |more| && more[i].Register? && more[i].id == id && more[i].conn == conn &&
        forall j :: i < j < |more| ==> more[j] != Unregister(conn) && !(more[j].Register? && more[j].id == id);
      assert i < |es| ==> es[i] == more[i] && forall j :: i < j < |es| ==> es[j] == more[j];
      assert more[|es|] == e;
    }
    if e.Register? && e.id == id && e.conn == conn {
      assert more[|es|] == e;
    } else if Online(es, id, conn) && e != Unregister(conn) && !(e.Register? && e.id == id) {
      var i :| 0 <= i < |es| && es[i].Register? && es[i].id == id && es[i].conn == conn &&
        forall j :: i < j < |es| ==> es[j] != Unregister(conn) && !(es[j].Register? && es[j].id == id);
      assert more[i] == es[i] && forall j :: i < j < |more| ==> more[j] == if j < |es| then es[j] else e;
    }
  }

  predicate InHub(s: State, id: string, conn: nat) {
    id in s.hub && s.hub[id] == conn
  }

  ghost predicate HubKnown(s: State) {
    forall id :: id in s.hub ==> s.hub[id] in s.ids && s.ids[s.hub[id]] == id
  }

  lemma HubEntryStep(s: State, e: Event, id: string, conn: nat)
    requires HubKnown(s) && Enabled(s, e)
    ensures HubKnown(Next(s, e))
    ensures InHub(Next(s, e), id, conn) <==>
            (e.Register? && e.id == id && e.conn == conn) ||
            (InHub(s, id, conn) && e != Unregister(conn) && !(e.Register? && e.id == id))
  {}

  /** The map has a connection for an id exactly when it is the last to have registered for it and has
      not left since. */
  lemma {:induction false} HubIsTheLastRegistered(es: seq<Event>, id: string, conn: nat)
    requires ValidRun(Init(), es)
    ensures HubKnown(After(Init(), es))
    ensures InHub(After(Init(), es), id, conn) <==> Online(es, id, conn)
    decreases |es|
  {
    if es != [] {
      var front, last := es[..|es| - 1], es[|es| - 1];
      LastStep(Init(), es);
      HubIsTheLastRegistered(front, id, conn);
      HubEntryStep(After(Init(), front), last, id, conn);
      OnlineNext(front, last, id, conn);
      assert es == front + [last];
    }
  }

  // ---- Results -------------------------------------------------------------------------------------

  /** Main result, for every interleaving: the queue of an id is what AddMessageToQueue makes of the
      envelopes and nukes queued for it since it was last fetched, each under its own lifetime, in the
      order of queueing. */
  lemma {:induction false} QueuesAreTheirLogs(es: seq<Event>, id: string)
    requires ValidRun(Init(), es)
    ensures QueueFor(After(Init(), es), id) == QueueOf(Log(es, id), |Log(es, id)|)
    decreases |es|
  {
    if es != [] {
      var front, last := es[..|es| - 1], es[|es| - 1];
      LastStep(Init(), es);
      ToldRun(front);
      QueuesAreTheirLogs(front, id);
      QueueStep(After(Init(), front), front, last, id, Log(front, id));
    }
  }

  /** Main result: a connecting recipient is handed the newest thousand unexpired of all that was queued
      since the last fetch, exactly when every unexpired one that the queue has lost has at least a
      thousand later ones that are still unexpired. */
  lemma ConnectingFetchesTheNewestExactly(es: seq<Event>, pid: nat, id: string)
    requires ValidRun(Init(), es) && Enabled(After(Init(), es), DrainQueue(pid)) && Serves(es, pid) == Some(id)
    ensures var p := Next(After(Init(), es), DrainQueue(pid)).procs[pid];
            p.Deliver? &&
            (p.todo == Newest(Live(Entries(Log(es, id)), Clock(es))) <==> MissingAreOutdone(Log(es, id), Clock(es)))
  {
    ToldRun(es);
    assert ProcTold(After(Init(), es), es, pid);
    QueuesAreTheirLogs(es, id);
    LogIsInTime(es, id);
    FetchesTheNewestExactly(Log(es, id), Clock(es));
  }

  /** Main result on senders: a lookup finds exactly the connection that registered last for the recipient
      and has not left since, and without one the envelope is to be queued. */
  lemma LookupFindsTheConnectedExactly(es: seq<Event>, pid: nat, sent: Sent)
    requires ValidRun(Init(), es) && Enabled(After(Init(), es), LookUp(pid)) && Carried(es, pid) == Some(sent)
    ensures var p := Next(After(Init(), es), LookUp(pid)).procs[pid];
            && (forall conn :: p == Hand(sent.serial, conn) <==> Online(es, sent.recipient, conn))
            && (p == Queue(sent.serial, sent.ttl) <==> !exists conn :: Online(es, sent.recipient, conn))
  {
    var s := After(Init(), es);
    ToldRun(es);
    assert ProcTold(s, es, pid);
    forall conn ensures InHub(s, sent.recipient, conn) <==> Online(es, sent.recipient, conn) {
      HubIsTheLastRegistered(es, sent.recipient, conn);
    }
  }

  /** Every accepted envelope is for the recipient it was sent to. */
  lemma {:induction false} RecipientsAsSent(es: seq<Event>, i: nat)
    requires ValidRun(Init(), es) && i < |es| && es[i].Accept?
    ensures var rs := After(Init(), es).recipients;
            Accepts(es[..i]) < |rs| && rs[Accepts(es[..i])] == es[i].recipient
    decreases |es|
  {
    var front, last := es[..|es| - 1], es[|es| - 1];
    LastStep(Init(), es);
    ToldRun(front);
    if i < |front| {
      RecipientsAsSent(front, i);
      assert front[..i] == es[..i];
    }
  }
}
