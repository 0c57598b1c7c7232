/** Envelopes that wait in the queue of a recipient who is connected. A queue is only fetched when
    its recipient connects, so an envelope queued after that fetch stays there until the next one,
    although the recipient is online. */
module WaitingEnvelopes {
  import opened MemoryQueue
  import opened SmallDelivery

  /** A fetch of this id's queue is still to come. */
  predicate Draining(s: State, id: string) {
    exists pid :: pid in s.procs && s.procs[pid].Drain? && s.procs[pid].conn in s.ids && s.ids[s.procs[pid].conn] == id
  }

  /** No envelope waits for a connected recipient without a fetch on its way. */
  ghost predicate Tended(s: State) {
    forall id :: id in s.hub && Serials(QueueFor(s, id)) != {} ==> Draining(s, id)
  }

  /** An envelope is queued for a connected recipient whose fetch is already over. */
  predicate Late(s: State, e: Event)
    requires Enabled(s, e)
  {
    && e.Enqueued? && Serials(Left(s, e)) != {}
    && AppendedTo(s, e) in s.hub && !Draining(s, AppendedTo(s, e))
  }

  lemma DrainingKept(s: State, e: Event, id: string)
    requires Enabled(s, e) && Draining(s, id) && !(e.DrainQueue? && s.ids[s.procs[e.pid].conn] == id)
    ensures Draining(Next(s, e), id)
  {
    var pid :| pid in s.procs && s.procs[pid].Drain? && s.procs[pid].conn in s.ids && s.ids[s.procs[pid].conn] == id;
    assert pid in Next(s, e).procs && Next(s, e).procs[pid] == s.procs[pid];
  }

  lemma QueueingStartsNoFetch(s: State, e: Event, id: string)
    requires Enabled(s, e) && e.Enqueued? && Draining(Next(s, e), id)
    ensures Draining(s, id)
  {
    var t := Next(s, e);
    var pid :| pid in t.procs && t.procs[pid].Drain? && t.procs[pid].conn in t.ids && t.ids[t.procs[pid].conn] == id;
    assert pid in s.procs && s.procs[pid] == t.procs[pid];
  }

  lemma NukesAddNothing(q: seq<Entry<Tag>>, x: Entry<Tag>, now: int)
    requires x.payload.Nuke?
    ensures Serials(Enqueue(q, x, now)) <= Serials(q)
  {
    forall n | n in Serials(q + [x]) ensures n in Serials(q) {
      var i :| 0 <= i < |q + [x]| && (q + [x])[i].payload == Small(n);
      assert i < |q| && q[i].payload == Small(n);
    }
    LiveIsASublist(q + [x], now);
    var live := Live(q + [x], now);
    TailSerials(live, if |live| > MAX_QUEUE_LEN then |live| - MAX_QUEUE_LEN else 0);
    assert live[0..] == live;
  }

  /** A queue without envelopes only gets one by an enqueueing sender. */
  lemma OnlySendersFill(s: State, e: Event, id: string)
    requires Enabled(s, e) && Serials(QueueFor(Next(s, e), id)) != {} && Serials(QueueFor(s, id)) == {}
    ensures e.Enqueued? && id == AppendedTo(s, e)
  {
    if e.Enqueued? || e.QueueNuke? {
      AppendEffect(s, e);
    }
    if e.QueueNuke? && id == e.recipient {
      NukesAddNothing(QueueFor(s, id), Appended(s, e), s.now);
    }
  }

  lemma RegisteringFetches(s: State, e: Event, id: string)
    requires Enabled(s, e) && id in Next(s, e).hub && id !in s.hub
    ensures Draining(Next(s, e), id)
  {
    assert e.Register? && e.id == id;
    assert Next(s, e).procs[e.pid] == Drain(e.conn) && Next(s, e).ids[e.conn] == id;
  }

  lemma TendedAt(s: State, e: Event, id: string)
    requires Enabled(s, e) && Tended(s) && !Late(s, e)
    requires id in Next(s, e).hub && Serials(QueueFor(Next(s, e), id)) != {}
    ensures Draining(Next(s, e), id)
  {
    if id !in s.hub {
      RegisteringFetches(s, e, id);
    } else if Serials(QueueFor(s, id)) != {} {
      DrainingKept(s, e, id);
    } else {
      OnlySendersFill(s, e, id);
      AppendEffect(s, e);
      DrainingKept(s, e, id);
    }
  }

  lemma TendedStepExactly(s: State, e: Event)
    requires Enabled(s, e) && Tended(s)
    ensures Tended(Next(s, e)) <==> !Late(s, e)
  {
    var t := Next(s, e);
    if Late(s, e) {
      var id := AppendedTo(s, e);
      AppendEffect(s, e);
      if Draining(t, id) {
        QueueingStartsNoFetch(s, e, id);
      }
      assert id in t.hub && Serials(QueueFor(t, id)) != {};
    } else {
      forall id | id in t.hub && Serials(QueueFor(t, id)) != {} ensures Draining(t, id) {
        TendedAt(s, e, id);
      }
    }
  }

  ghost predicate TendedThroughout(s: State, es: seq<Event>)
    requires ValidRun(s, es)
    decreases |es|
  {
    Tended(s) && (es != [] ==> TendedThroughout(Next(s, es[0]), es[1..]))
  }

  predicate NeverLate(s: State, es: seq<Event>)
    requires ValidRun(s, es)
    decreases |es|
  {
    es != [] ==> !Late(s, es[0]) && NeverLate(Next(s, es[0]), es[1..])
  }

  lemma {:induction false} TendedRun(s: State, es: seq<Event>)
    requires ValidRun(s, es) && Tended(s)
    ensures TendedThroughout(s, es) <==> NeverLate(s, es)
    decreases |es|
  {
    if es != [] {
      TendedStepExactly(s, es[0]);
      if !Late(s, es[0]) {
        TendedRun(Next(s, es[0]), es[1..]);
      }
    }
  }

  /** Main result: in any interleaving no envelope is ever left waiting for a connected recipient
      exactly when no sender queues for one who has come online and fetched since its lookup. */
  lemma NothingWaitsForTheConnectedExactly(es: seq<Event>)
    requires ValidRun(Init(), es)
    ensures TendedThroughout(Init(), es) <==> NeverLate(Init(), es)
  {
    TendedRun(Init(), es);
  }

  // ---- When senders are quick enough ---------------------------------------------------------

  /** A recipient registers while some sender that missed it has not queued yet. */
  predicate Crosses(s: State, e: Event) {
    e.Register? && exists pid ::
      pid in s.procs && s.procs[pid].Queue? && s.procs[pid].serial < |s.recipients| && s.recipients[s.procs[pid].serial] == e.id
  }

  predicate NeverCrosses(s: State, es: seq<Event>)
    requires ValidRun(s, es)
    decreases |es|
  {
    es != [] ==> !Crosses(s, es[0]) && NeverCrosses(Next(s, es[0]), es[1..])
  }

  /** Whoever is about to queue missed a recipient who is still away. */
  ghost predicate MissedTheAbsent(s: State) {
    forall pid :: pid in s.procs && s.procs[pid].Queue? && s.procs[pid].serial < |s.recipients| ==>
      s.recipients[s.procs[pid].serial] !in s.hub
  }

  predicate Numbered(p: Proc) {
    p.Lookup? || p.Hand? || p.Queue?
  }

  ghost predicate SerialsKnown(s: State) {
    forall pid :: pid in s.procs && Numbered(s.procs[pid]) ==> s.procs[pid].serial < |s.recipients|
  }

  lemma SerialsStep(s: State, e: Event)
    requires Enabled(s, e) && SerialsKnown(s)
    ensures SerialsKnown(Next(s, e)) && s.recipients <= Next(s, e).recipients
  {}

  lemma AbsentStep(s: State, e: Event)
    requires Enabled(s, e) && SerialsKnown(s) && MissedTheAbsent(s) && !Crosses(s, e)
    ensures MissedTheAbsent(Next(s, e))
  {
    var t := Next(s, e);
    SerialsStep(s, e);
    forall pid | pid in t.procs && t.procs[pid].Queue? && t.procs[pid].serial < |t.recipients|
      ensures t.recipients[t.procs[pid].serial] !in t.hub
    {
      if pid in s.procs && s.procs[pid] == t.procs[pid] {
        assert s.recipients[s.procs[pid].serial] !in s.hub;
      } else {
        assert e.LookUp? && e.pid == pid;
      }
    }
  }

  lemma {:induction false} UncrossedIsNeverLate(s: State, es: seq<Event>)
    requires ValidRun(s, es) && SerialsKnown(s) && MissedTheAbsent(s) && NeverCrosses(s, es)
    ensures NeverLate(s, es)
    decreases |es|
  {
    if es != [] {
      SerialsStep(s, es[0]);
      AbsentStep(s, es[0]);
      UncrossedIsNeverLate(Next(s, es[0]), es[1..]);
    }
  }

  /** In particular nothing waits when no recipient connects between a sender's lookup and its
      queueing: senders queue only for recipients who are away. */
  lemma PromptSendersLeaveNothingWaiting(es: seq<Event>)
    requires ValidRun(Init(), es) && NeverCrosses(Init(), es)
    ensures TendedThroughout(Init(), es)
  {
    UncrossedIsNeverLate(Init(), es);
    NothingWaitsForTheConnectedExactly(es);
  }

  // ---- The crossing is real --------------------------------------------------------------------

  lemma Prepend(s: State, e: Event, t: State, es: seq<Event>) returns (longer: seq<Event>)
    requires Enabled(s, e) && Next(s, e) == t && ValidRun(t, es)
    ensures ValidRun(s, longer) && After(s, longer) == After(t, es)
  {
    longer := [e] + es;
    assert longer[1..] == es;
  }

  function Crossing(hub: map<string, nat>, ids: map<nat, string>, procs: map<nat, Proc>): State {
    State(0, ["u"], hub, ids, map[], procs, [], map[])
  }

  lemma MissThenConnect(s: State, rest: seq<Event>) returns (es: seq<Event>)
    requires s == Crossing(map["u" := 7], map[7 := "u"], map[0 := Queue(0, 9), 1 := Drain(7)]) && ValidRun(s, rest)
    ensures ValidRun(Init(), es) && After(Init(), es) == After(s, rest)
  {
    var s1 := Crossing(map[], map[], map[0 := Lookup(0, 9)]);
    var s2 := Crossing(map[], map[], map[0 := Queue(0, 9)]);
    es := Prepend(s2, Register(1, 7, "u"), s, rest);
    es := Prepend(s1, LookUp(0), s2, es);
    es := Prepend(Init(), Accept(0, "u", 9), s1, es);
  }

  lemma EmptyFetch(s: State)
    requires s == Crossing(map["u" := 7], map[7 := "u"], map[0 := Queue(0, 9), 1 := Drain(7)])
    ensures Enabled(s, DrainQueue(1))
    ensures Next(s, DrainQueue(1)) ==
            Crossing(map["u" := 7], map[7 := "u"], map[0 := Queue(0, 9), 1 := Deliver(7, [])])
  {
    assert Serials([]) == {};
    assert Lost([], [], 0) == map[];
  }

  lemma LastEnqueue(s: State)
    requires s == Crossing(map["u" := 7], map[7 := "u"], map[0 := Queue(0, 9), 1 := Deliver(7, [])])
    ensures Enabled(s, Enqueued(0))
    ensures var t := Next(s, Enqueued(0)); "u" in t.hub && 0 in Serials(QueueFor(t, "u")) && !Draining(t, "u")
  {
    AppendEffect(s, Enqueued(0));
    var x := Appended(s, Enqueued(0));
    assert [] + [x] == [x] && Live([x], 0) == [x];
    assert Left(s, Enqueued(0)) == [x] && x.payload == Small(0);
  }

  /** A sender misses the recipient, who connects and fetches an empty queue; then the sender
      queues. The envelope waits for the next connection of a recipient who is there. */
  lemma CrossingLeavesAnEnvelopeWaiting() returns (es: seq<Event>)
    ensures ValidRun(Init(), es)
    ensures var s := After(Init(), es); "u" in s.hub && 0 in Serials(QueueFor(s, "u")) && !Draining(s, "u")
  {
    var s3 := Crossing(map["u" := 7], map[7 := "u"], map[0 := Queue(0, 9), 1 := Drain(7)]);
    var s4 := Crossing(map["u" := 7], map[7 := "u"], map[0 := Queue(0, 9), 1 := Deliver(7, [])]);
    LastEnqueue(s4);
    es := Prepend(s4, Enqueued(0), Next(s4, Enqueued(0)), []);
    EmptyFetch(s3);
    es := Prepend(s3, DrainQueue(1), s4, es);
    es := MissThenConnect(s3, es);
  }
}
