/** Reference-counted bucket objects. Every upload fans its one object out over pointer
    rows; acknowledgements and prune sweeps take the rows away and delete the object once
    they count zero. Each goroutine is a program counter and every SQL statement or
    storage call is one step, so a run is any interleaving of them. */
module BucketRefs {
  import opened Text
  import opened Storage
  import opened Messages

  datatype Proc =
    | FanOut(key: string, queue: seq<string>, delivered: nat) // between two recipients of the loop
    | AckDelete(id: nat, url: string)                          // about to delete the pointer row
    | AckCount(url: string)                                    // about to count the other rows
    | AckObject(url: string)                                   // counted zero, about to delete the object
    | PruneDelete(candidates: set<string>, at: int)            // selected, about to delete expired rows
    | PruneCount(todo: set<string>, dead: set<string>)         // counting candidate by candidate
    | PruneObjects(dead: set<string>)                          // deleting the reported objects
    | Done

  datatype State = State(
    backend: Backend,
    now: int,
    rows: Table,
    nextRow: nat,
    objects: set<string>,
    used: set<string>,
    procs: map<nat, Proc>)

  datatype Event =
    | Tick(dt: nat)
    | Upload(pid: nat, key: string, recipients: seq<string>)
    | UploadFails(key: string, partial: bool)
    | Skip(pid: nat)                                // blocked recipient or failed insert
    | Store(pid: nat, sender: string, ttl: nat)
    | Finish(pid: nat, ok: bool)
    | StoreInline(recipient: string, sender: string, envelope: string, ttl: nat)
    | SweepInline(recipient: string)
    | AckStart(pid: nat, id: nat, caller: string)
    | AckDeleteRow(pid: nat, ok: bool)
    | AckCountRows(pid: nat, ok: bool)
    | AckDeleteObject(pid: nat, ok: bool)
    | PruneSelect(pid: nat, unread: set<string>)    // URLs whose row failed to scan
    | PruneDeleteRows(pid: nat, ok: bool)
    | PruneCountUrl(pid: nat, url: string, ok: bool)
    | PruneReport(pid: nat)
    | PruneDeleteObject(pid: nat, url: string, ok: bool)

  function Init(backend: Backend): State {
    State(backend, 0, map[], 0, {}, {}, map[])
  }

  predicate At(s: State, pid: nat) {
    pid in s.procs
  }

  predicate Enabled(s: State, e: Event) {
    match e
    case Tick(_) => true
    case Upload(pid, key, _) => pid !in s.procs && IsKey(key) && key !in s.used
    case UploadFails(key, _) => IsKey(key) && key !in s.used
    case Skip(pid) => At(s, pid) && s.procs[pid].FanOut? && s.procs[pid].queue != []
    case Store(pid, _, ttl) => At(s, pid) && s.procs[pid].FanOut? && s.procs[pid].queue != [] && ttl > 0
    case Finish(pid, _) => At(s, pid) && s.procs[pid].FanOut? && s.procs[pid].queue == []
    case StoreInline(_, _, _, ttl) => ttl > 0
    case SweepInline(_) => true
    case AckStart(pid, id, caller) =>
      pid !in s.procs && id in s.rows && s.rows[id].recipient == caller && s.rows[id].bucketUrl.Some?
    case AckDeleteRow(pid, _) => At(s, pid) && s.procs[pid].AckDelete?
    case AckCountRows(pid, _) => At(s, pid) && s.procs[pid].AckCount?
    case AckDeleteObject(pid, _) => At(s, pid) && s.procs[pid].AckObject?
    case PruneSelect(pid, _) => pid !in s.procs
    case PruneDeleteRows(pid, _) => At(s, pid) && s.procs[pid].PruneDelete?
    case PruneCountUrl(pid, url, _) => At(s, pid) && s.procs[pid].PruneCount? && url in s.procs[pid].todo
    case PruneReport(pid) => At(s, pid) && s.procs[pid].PruneCount? && s.procs[pid].todo == {}
    case PruneDeleteObject(pid, url, _) => At(s, pid) && s.procs[pid].PruneObjects? && url in s.procs[pid].dead
  }

  function Goto(s: State, pid: nat, p: Proc): State {
    s.(procs := s.procs[pid := p])
  }

  function Insert(s: State, m: Message): State {
    s.(rows := s.rows[s.nextRow := m], nextRow := s.nextRow + 1)
  }

  function Next(s: State, e: Event): State
    requires Enabled(s, e)
  {
    match e
    case Tick(dt) => s.(now := s.now + dt)
    case Upload(pid, key, recipients) =>
      Goto(s, pid, FanOut(key, recipients, 0)).(objects := s.objects + {key}, used := s.used + {key})
    case UploadFails(key, partial) =>
      s.(objects := if partial then s.objects + {key} else s.objects, used := s.used + {key})
    case Skip(pid) =>
      var p := s.procs[pid];
      Goto(s, pid, p.(queue := p.queue[1..]))
    case Store(pid, sender, ttl) =>
      var p := s.procs[pid];
      Insert(Goto(s, pid, FanOut(p.key, p.queue[1..], p.delivered + 1)),
             Message(p.queue[0], sender, None, Some(Url(s.backend, p.key)), s.now + ttl))
    case Finish(pid, ok) =>
      var p := s.procs[pid];
      Goto(s, pid, Done).(objects := if p.delivered == 0 && ok then s.objects - {p.key} else s.objects)
    case StoreInline(recipient, sender, envelope, ttl) =>
      Insert(s, Message(recipient, sender, Some(envelope), None, s.now + ttl))
    case SweepInline(recipient) => s.(rows := WithoutInline(s.rows, recipient))
    case AckStart(pid, id, _) => Goto(s, pid, AckDelete(id, s.rows[id].bucketUrl.value))
    case AckDeleteRow(pid, ok) =>
      // A failed row delete is only logged: the count follows either way.
      var p := s.procs[pid];
      Goto(s, pid, if KeyFromUrl(p.url) == "" then Done else AckCount(p.url))
      .(rows := if ok then Without(s.rows, p.id) else s.rows)
    case AckCountRows(pid, ok) =>
      var p := s.procs[pid];
      Goto(s, pid, if ok && CountByBucket(s.rows, p.url) == 0 then AckObject(p.url) else Done)
    case AckDeleteObject(pid, ok) =>
      Goto(s, pid, Done).(objects := if ok then s.objects - {KeyFromUrl(s.procs[pid].url)} else s.objects)
    case PruneSelect(pid, unread) =>
      Goto(s, pid, PruneDelete(ExpiredUrls(s.rows, s.now) - unread, s.now))
    case PruneDeleteRows(pid, ok) =>
      if ok then Goto(s, pid, PruneCount(s.procs[pid].candidates, {})).(rows := WithoutExpired(s.rows, s.now))
      else Goto(s, pid, Done)
    case PruneCountUrl(pid, url, ok) =>
      var p := s.procs[pid];
      var gone := ok && CountByBucket(s.rows, url) == 0;
      Goto(s, pid, PruneCount(p.todo - {url}, if gone then p.dead + {url} else p.dead))
    case PruneReport(pid) =>
      var p := s.procs[pid];
      Goto(s, pid, if p.dead == {} then Done else PruneObjects(p.dead))
    case PruneDeleteObject(pid, url, ok) =>
      var left := s.procs[pid].dead - {url};
      Goto(s, pid, if left == {} then Done else PruneObjects(left))
      .(objects := if ok then s.objects - {KeyFromUrl(url)} else s.objects)
  }

  predicate ValidRun(s: State, es: seq<Event>)
    decreases |es|
  {
    es == [] || (Enabled(s, es[0]) && ValidRun(Next(s, es[0]), es[1..]))
  }

  function After(s: State, es: seq<Event>): State
    requires ValidRun(s, es)
    decreases |es|
  {
    if es == [] then s else After(Next(s, es[0]), es[1..])
  }

  lemma {:induction false} RunsCompose(s: State, es: seq<Event>, fs: seq<Event>)
    requires ValidRun(s, es) && ValidRun(After(s, es), fs)
    ensures ValidRun(s, es + fs) && After(s, es + fs) == After(After(s, es), fs)
    decreases |es|
  {
    if es == [] {
      assert es + fs == fs;
    } else {
      RunsCompose(Next(s, es[0]), es[1..], fs);
      assert (es + fs)[1..] == es[1..] + fs;
    }
  }

  // ---- What every step keeps -----------------------------------------------

  predicate Known(s: State, url: string) {
    KeyFromUrl(url) in s.used && Url(s.backend, KeyFromUrl(url)) == url
  }

  ghost predicate ProcKnown(s: State, p: Proc) {
    match p
    case FanOut(key, _, delivered) => key in s.used && (delivered == 0 ==> !Refs(s.rows, Url(s.backend, key)))
    case AckDelete(id, url) =>
      Known(s, url) && id < s.nextRow && (id in s.rows ==> s.rows[id].bucketUrl == Some(url))
    case AckCount(url) => Known(s, url)
    case AckObject(url) => Known(s, url)
    case PruneDelete(candidates, at) => at <= s.now && forall u :: u in candidates ==> Known(s, u)
    case PruneCount(todo, dead) => forall u :: u in todo || u in dead ==> Known(s, u)
    case PruneObjects(dead) => forall u :: u in dead ==> Known(s, u)
    case Done => true
  }

  predicate Running(s: State, pid: nat, key: string) {
    pid in s.procs && s.procs[pid].FanOut? && s.procs[pid].key == key
  }

  ghost predicate RowsOk(s: State) {
    && s.objects <= s.used
    && (forall k :: k in s.used ==> IsKey(k))
    && (forall id :: id in s.rows ==> id < s.nextRow)
    && (forall id :: id in s.rows && s.rows[id].bucketUrl.Some? ==>
          Known(s, s.rows[id].bucketUrl.value) && s.rows[id].envelope == None)
  }

  ghost predicate ProcsOk(s: State) {
    forall pid :: pid in s.procs ==> ProcKnown(s, s.procs[pid])
  }

  ghost predicate OneLoopPerKey(s: State) {
    forall p, q, k :: Running(s, p, k) && Running(s, q, k) ==> p == q
  }

  ghost predicate Inv(s: State) {
    RowsOk(s) && ProcsOk(s) && OneLoopPerKey(s)
  }

  lemma UsedUrlIsKnown(s: State, key: string)
    requires RowsOk(s) && key in s.used
    ensures Known(s, Url(s.backend, key)) && KeyFromUrl(Url(s.backend, key)) == key
  {
    KeyRoundTrip(s.backend, key);
  }

  /** Only the loop of an object adds references to it. */
  lemma RefsGrowOnlyByStore(s: State, e: Event, url: string)
    requires Inv(s) && Enabled(s, e)
    requires Refs(Next(s, e).rows, url) && !Refs(s.rows, url)
    ensures e.Store? && url == Url(s.backend, s.procs[e.pid].key)
    ensures KeyFromUrl(url) == s.procs[e.pid].key && Running(s, e.pid, KeyFromUrl(url))
  {
    var t := Next(s, e);
    var id :| id in t.rows && t.rows[id].bucketUrl == Some(url);
    assert !(id in s.rows && s.rows[id].bucketUrl == Some(url));
    if e.Store? {
      UsedUrlIsKnown(s, s.procs[e.pid].key);
    }
  }

  lemma RowsStep(s: State, e: Event)
    requires Inv(s) && Enabled(s, e)
    ensures RowsOk(Next(s, e))
  {
    if e.Store? {
      UsedUrlIsKnown(s, s.procs[e.pid].key);
    }
    var t := Next(s, e);
    assert forall u :: Known(s, u) ==> Known(t, u);
  }

  lemma OneLoopStep(s: State, e: Event)
    requires Inv(s) && Enabled(s, e)
    ensures OneLoopPerKey(Next(s, e))
  {
    var t := Next(s, e);
    forall p, q, k | Running(t, p, k) && Running(t, q, k) ensures p == q {
      assert Running(s, p, k) || (e.Upload? && e.pid == p && k !in s.used);
      assert Running(s, q, k) || (e.Upload? && e.pid == q && k !in s.used);
    }
  }

  /** A goroutine that does not move keeps its facts, whatever the others do. */
  lemma BystanderKept(s: State, e: Event, pid: nat)
    requires Inv(s) && Enabled(s, e)
    requires pid in s.procs && pid in Next(s, e).procs && Next(s, e).procs[pid] == s.procs[pid]
    ensures ProcKnown(Next(s, e), s.procs[pid])
  {
    var t := Next(s, e);
    assert forall u :: Known(s, u) ==> Known(t, u);
    var p := s.procs[pid];
    if p.FanOut? && p.delivered == 0 && Refs(t.rows, Url(t.backend, p.key)) {
      UsedUrlIsKnown(s, p.key);
      assert Running(s, pid, p.key);
      RefsGrowOnlyByStore(s, e, Url(s.backend, p.key));
    }
  }

  function Mover(e: Event): Option<nat> {
    match e
    case Tick(_) => None
    case Upload(pid, _, _) => Some(pid)
    case UploadFails(_, _) => None
    case Skip(pid) => Some(pid)
    case Store(pid, _, _) => Some(pid)
    case Finish(pid, _) => Some(pid)
    case StoreInline(_, _, _, _) => None
    case SweepInline(_) => None
    case AckStart(pid, _, _) => Some(pid)
    case AckDeleteRow(pid, _) => Some(pid)
    case AckCountRows(pid, _) => Some(pid)
    case AckDeleteObject(pid, _) => Some(pid)
    case PruneSelect(pid, _) => Some(pid)
    case PruneDeleteRows(pid, _) => Some(pid)
    case PruneCountUrl(pid, _, _) => Some(pid)
    case PruneReport(pid) => Some(pid)
    case PruneDeleteObject(pid, _, _) => Some(pid)
  }

  lemma OnlyTheMoverMoves(s: State, e: Event, pid: nat)
    requires Enabled(s, e) && pid in Next(s, e).procs && Mover(e) != Some(pid)
    ensures pid in s.procs && Next(s, e).procs[pid] == s.procs[pid]
  {}

  lemma MoverOk(s: State, e: Event)
    requires Inv(s) && Enabled(s, e) && Mover(e).Some?
    ensures ProcKnown(Next(s, e), Next(s, e).procs[Mover(e).value])
  {
    var t := Next(s, e);
    assert forall u :: Known(s, u) ==> Known(t, u);
    if e.Upload? {
      KeyRoundTrip(s.backend, e.key);
      assert !Refs(s.rows, Url(s.backend, e.key));
    }
  }

  lemma InvStep(s: State, e: Event)
    requires Inv(s) && Enabled(s, e)
    ensures Inv(Next(s, e))
  {
    RowsStep(s, e);
    OneLoopStep(s, e);
    forall pid | pid in Next(s, e).procs ensures ProcKnown(Next(s, e), Next(s, e).procs[pid]) {
      if Mover(e) == Some(pid) {
        MoverOk(s, e);
      } else {
        OnlyTheMoverMoves(s, e, pid);
        BystanderKept(s, e, pid);
      }
    }
  }

  lemma {:induction false} InvRun(s: State, es: seq<Event>)
    requires Inv(s) && ValidRun(s, es)
    ensures Inv(After(s, es))
    decreases |es|
  {
    if es != [] {
      InvStep(s, es[0]);
      InvRun(Next(s, es[0]), es[1..]);
    }
  }

  // ---- Decisions to delete ---------------------------------------------------

  predicate HoldsDelete(p: Proc, url: string) {
    match p
    case AckObject(u) => u == url
    case PruneCount(_, dead) => url in dead
    case PruneObjects(dead) => url in dead
    case _ => false
  }

  /** Some goroutine has counted zero for this URL and not yet acted on it. */
  predicate Decided(s: State, url: string) {
    exists pid :: pid in s.procs && HoldsDelete(s.procs[pid], url)
  }

  /** The upload is over: no fan-out loop for this key is still running. */
  ghost predicate Settled(s: State, key: string) {
    key in s.used && forall pid :: !Running(s, pid, key)
  }

  /** This step deletes the object while a message row still points at it. */
  predicate Strands(s: State, e: Event, key: string)
    requires Enabled(s, e)
  {
    key in s.objects && key !in Next(s, e).objects && Refs(s.rows, Url(s.backend, key))
  }

  lemma DecisionsComeFromZeroCounts(s: State, e: Event, url: string)
    requires Inv(s) && Enabled(s, e) && Decided(Next(s, e), url) && !Decided(s, url)
    ensures !Refs(s.rows, url)
  {
    var t := Next(s, e);
    var pid :| pid in t.procs && HoldsDelete(t.procs[pid], url);
    assert pid in s.procs ==> !HoldsDelete(s.procs[pid], url);
    CountIsReferenceTest(s.rows, url);
    if Mover(e) != Some(pid) {
      OnlyTheMoverMoves(s, e, pid);
    }
  }

  /** A goroutine holding a zero count can reach the delete without any row being touched. */
  lemma {:induction false} ADecisionCanBeCarriedOut(s: State, pid: nat, key: string) returns (es: seq<Event>, e: Event)
    requires Inv(s) && pid in s.procs && key in s.objects
    requires HoldsDelete(s.procs[pid], Url(s.backend, key)) && Refs(s.rows, Url(s.backend, key))
    ensures ValidRun(s, es) && Enabled(After(s, es), e) && Strands(After(s, es), e, key)
    decreases if s.procs[pid].PruneCount? then |s.procs[pid].todo| + 1 else 0
  {
    var url := Url(s.backend, key);
    UsedUrlIsKnown(s, key);
    match s.procs[pid]
    case AckObject(_) => es, e := [], AckDeleteObject(pid, true);
    case PruneObjects(_) => es, e := [], PruneDeleteObject(pid, url, true);
    case PruneCount(todo, dead) =>
      var step := PruneReport(pid);
      if todo != {} {
        var u :| u in todo;
        step := PruneCountUrl(pid, u, false);
      }
      InvStep(s, step);
      var rest;
      rest, e := ADecisionCanBeCarriedOut(Next(s, step), pid, key);
      es := [step] + rest;
      assert es[1..] == rest;
  }

  /** If a message row points at the object, the object is there. */
  predicate Reachable(s: State, key: string) {
    Refs(s.rows, Url(s.backend, key)) ==> key in s.objects
  }

  /** ... and so it is after every continuation of any length. */
  ghost predicate ReachableForEver(s: State, key: string) {
    forall es :: ValidRun(s, es) ==> Reachable(After(s, es), key)
  }

  lemma StrandingKeepsTheRow(s: State, e: Event, key: string)
    requires Enabled(s, e) && Strands(s, e, key)
    ensures !Reachable(Next(s, e), key)
  {
    assert Next(s, e).rows == s.rows;
  }

  lemma {:induction false} BackendKept(s: State, es: seq<Event>)
    requires ValidRun(s, es)
    ensures After(s, es).backend == s.backend
    decreases |es|
  {
    if es != [] {
      BackendKept(Next(s, es[0]), es[1..]);
    }
  }

  /** Builds a concrete run backwards, one step at a time. */
  lemma Prepend(s: State, e: Event, t: State, es: seq<Event>) returns (longer: seq<Event>)
    requires Enabled(s, e) && Next(s, e) == t && ValidRun(t, es)
    ensures ValidRun(s, longer) && After(s, longer) == After(t, es)
  {
    longer := [e] + es;
    assert longer[1..] == es;
  }

  function TwoRecipientState(backend: Backend, rows: Table, nextRow: nat, loop: Proc, ack: Option<Proc>): State {
    State(backend, 0, rows, nextRow, {"k"}, {"k"},
          if ack.None? then map[0 := loop] else map[0 := loop, 1 := ack.value])
  }

  lemma FirstInsert(backend: Backend, url: string) returns (es: seq<Event>)
    requires url == Url(backend, "k")
    ensures ValidRun(Init(backend), es)
    ensures After(Init(backend), es) ==
            TwoRecipientState(backend, map[0 := Message("a", "s", None, Some(url), 9)], 1, FanOut("k", ["b"], 1), None)
  {
    var s1 := TwoRecipientState(backend, map[], 0, FanOut("k", ["a", "b"], 0), None);
    var s2 := Next(s1, Store(0, "s", 9));
    es := Prepend(s1, Store(0, "s", 9), s2, []);
    es := Prepend(Init(backend), Upload(0, "k", ["a", "b"]), s1, es);
  }

  lemma AckUntilCount(backend: Backend, rows: Table, url: string, loop: Proc) returns (es: seq<Event>)
    requires KeyFromUrl(url) == "k" && rows == map[0 := Message("a", "s", None, Some(url), 9)]
    ensures var s := TwoRecipientState(backend, rows, 1, loop, None);
            ValidRun(s, es) && After(s, es) == TwoRecipientState(backend, map[], 1, loop, Some(AckObject(url)))
  {
    var s2 := TwoRecipientState(backend, rows, 1, loop, None);
    var s3 := TwoRecipientState(backend, rows, 1, loop, Some(AckDelete(0, url)));
    var s4 := TwoRecipientState(backend, map[], 1, loop, Some(AckCount(url)));
    var s5 := TwoRecipientState(backend, map[], 1, loop, Some(AckObject(url)));
    assert Next(s4, AckCountRows(1, true)) == s5 by { CountIsReferenceTest(map[], url); }
    es := Prepend(s4, AckCountRows(1, true), s5, []);
    assert Next(s3, AckDeleteRow(1, true)) == s4 by { assert Without(rows, 0) == map[]; }
    es := Prepend(s3, AckDeleteRow(1, true), s4, es);
    es := Prepend(s2, AckStart(1, 0, "a"), s3, es);
  }

  /** An acknowledgement of the first row, taken between the two inserts of a loop, counts zero. */
  lemma CountBetweenInserts(backend: Backend) returns (es: seq<Event>)
    ensures ValidRun(Init(backend), es)
    ensures After(Init(backend), es) ==
            TwoRecipientState(backend, map[], 1, FanOut("k", ["b"], 1), Some(AckObject(Url(backend, "k"))))
  {
    KeyRoundTrip(backend, "k");
    var url := Url(backend, "k");
    var insert := FirstInsert(backend, url);
    var ack := AckUntilCount(backend, map[0 := Message("a", "s", None, Some(url), 9)], url, FanOut("k", ["b"], 1));
    RunsCompose(Init(backend), insert, ack);
    es := insert + ack;
  }

  /** The stale case is real: that goroutine's delete lands after the loop has ended and
      takes the object away from the second recipient. */
  lemma MidLoopCountStrands(backend: Backend) returns (es: seq<Event>, e: Event)
    ensures ValidRun(Init(backend), es) && Settled(After(Init(backend), es), "k")
    ensures Enabled(After(Init(backend), es), e) && Strands(After(Init(backend), es), e, "k")
  {
    KeyRoundTrip(backend, "k");
    var url := Url(backend, "k");
    var start := CountBetweenInserts(backend);
    var s := After(Init(backend), start);
    var s1 := Next(s, Store(0, "s", 9));
    assert s1.rows[1].bucketUrl == Some(url);
    var s2 := Next(s1, Finish(0, true));
    assert s2.procs == map[0 := Done, 1 := AckObject(url)];
    var rest := Prepend(s1, Finish(0, true), s2, []);
    rest := Prepend(s, Store(0, "s", 9), s1, rest);
    RunsCompose(Init(backend), start, rest);
    es, e := start + rest, AckDeleteObject(1, true);
  }

  /** The other case is real as well: the delete lands between the two inserts, and the second row
      points at an object that is gone from the start. Nobody holds a decision any more. */
  lemma MidLoopDeleteStrands(backend: Backend) returns (es: seq<Event>)
    ensures ValidRun(Init(backend), es)
    ensures var s := After(Init(backend), es);
            && Settled(s, "k") && !Decided(s, Url(backend, "k"))
            && Refs(s.rows, Url(backend, "k")) && "k" !in s.objects
  {
    KeyRoundTrip(backend, "k");
    var url := Url(backend, "k");
    var start := CountBetweenInserts(backend);
    var s := After(Init(backend), start);
    var s1 := Next(s, AckDeleteObject(1, true));
    assert s1.objects == {};
    var s2 := Next(s1, Store(0, "s", 9));
    assert s2.rows[1].bucketUrl == Some(url);
    var s3 := Next(s2, Finish(0, true));
    assert s3.procs == map[0 := Done, 1 := Done];
    var rest := Prepend(s2, Finish(0, true), s3, []);
    rest := Prepend(s1, Store(0, "s", 9), s2, rest);
    rest := Prepend(s, AckDeleteObject(1, true), s1, rest);
    RunsCompose(Init(backend), start, rest);
    es := start + rest;
  }
}
