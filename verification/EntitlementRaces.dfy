/** The premium cache of one user statement by statement (main.go, redis.go): a check that finds
    nothing cached SELECTs the row, reads the clock for the time left and then stores a copy, which
    reads the clock again; a purchase UPSERTs its row and stores a copy in the same two steps. */
module EntitlementRaces {
  import opened Text
  import opened Entitlements

  /** A cached copy: of which row of the history, and how long its writer took between the two clock
      reads that make up its expiry. */
  datatype Copy = Copy(hash: string, until: int, version: nat, late: int)

  datatype Proc =
    | Selecting                                   // nothing cached, about to SELECT
    | Posting(row: Row)                           // verified, about to UPSERT
    | Granting(row: Row, version: nat)            // holds that row, about to read the time left
    | Caching(row: Row, version: nat, read: int)  // read it then, about to store the copy
    | Done

  /** `rows` is the history of the user's row, the last one being in the table. */
  datatype State = State(now: int, rows: seq<Row>, cached: Option<Copy>, procs: map<nat, Proc>)

  datatype Event =
    | Tick(dt: nat)
    | Check(pid: nat)
    | Select(pid: nat, ok: bool)
    | Post(pid: nat, row: Row)
    | Upsert(pid: nat, ok: bool)
    | Remaining(pid: nat)
    | Store(pid: nat)
    | Restart                                     // goroutines and in-memory maps are lost

  function Init(now: int): State {
    State(now, [], None, map[])
  }

  predicate Enabled(s: State, e: Event) {
    match e
    case Tick(_) => true
    case Check(pid) => pid !in s.procs
    case Select(pid, _) => pid in s.procs && s.procs[pid].Selecting?
    case Post(pid, _) => pid !in s.procs
    case Upsert(pid, _) => pid in s.procs && s.procs[pid].Posting?
    case Remaining(pid) => pid in s.procs && s.procs[pid].Granting?
    case Store(pid) => pid in s.procs && s.procs[pid].Caching?
    case Restart => true
  }

  /** What a check reads in the cache. */
  predicate CachedYes(s: State) {
    s.cached.Some? && !(s.cached.value.until < s.now) && s.cached.value.hash != ""
  }

  /** What Postgres says. */
  predicate Entitled(s: State) {
    s.rows != [] && s.rows[|s.rows| - 1].expires > s.now && s.rows[|s.rows| - 1].hash != ""
  }

  /** The answer of a check that runs now, undisturbed. */
  predicate Answer(s: State) {
    CachedYes(s) || Entitled(s)
  }

  function Goto(s: State, pid: nat, p: Proc): State {
    s.(procs := s.procs[pid := p])
  }

  function Next(s: State, e: Event): State
    requires Enabled(s, e)
  {
    match e
    case Tick(dt) => s.(now := s.now + dt)
    case Check(pid) => Goto(s, pid, if CachedYes(s) then Done else Selecting)
    case Select(pid, ok) => Goto(s, pid, if ok && Entitled(s) then Granting(s.rows[|s.rows| - 1], |s.rows|) else Done)
    case Post(pid, row) => Goto(s, pid, Posting(row))
    case Upsert(pid, ok) =>
      var row := s.procs[pid].row;
      if ok then Goto(s, pid, Granting(row, |s.rows| + 1)).(rows := s.rows + [row]) else Goto(s, pid, Done)
    case Remaining(pid) =>
      var p := s.procs[pid];
      Goto(s, pid, if p.row.expires - s.now > 0 then Caching(p.row, p.version, s.now) else Done)
    case Store(pid) =>
      var p := s.procs[pid];
      Goto(s, pid, Done).(cached := Some(Copy(p.row.hash, s.now + (p.row.expires - p.read), p.version, s.now - p.read)))
    case Restart => s.(cached := None, procs := map[])
  }

  predicate ValidRun(s: State, es: seq<Event>)
    decreases |es|
  {
    es == [] || (Enabled(s, es[0]) && ValidRun(Next(s, es[0]), es[1..]))
  }

  function After(s: State, es: seq<Event>): State
    requires ValidRun(s, es)
    decreases |es|
  {
    if es == [] then s else After(Next(s, es[0]), es[1..])
  }

  // ---- What a copy is a copy of -------------------------------------------------------------------

  predicate IsRow(s: State, row: Row, version: nat) {
    0 < version <= |s.rows| && s.rows[version - 1] == row
  }

  predicate CopyOk(s: State, c: Copy) {
    c.late >= 0 && 0 < c.version <= |s.rows| && c.hash == s.rows[c.version - 1].hash && c.until == s.rows[c.version - 1].expires + c.late
  }

  predicate ProcOk(s: State, p: Proc) {
    match p
    case Granting(row, version) => IsRow(s, row, version)
    case Caching(row, version, read) => IsRow(s, row, version) && read <= s.now
    case _ => true
  }

  predicate Inv(s: State) {
    && (forall pid :: pid in s.procs ==> ProcOk(s, s.procs[pid]))
    && (s.cached.Some? ==> CopyOk(s, s.cached.value))
  }

  lemma InvStep(s: State, e: Event)
    requires Inv(s) && Enabled(s, e)
    ensures Inv(Next(s, e))
  {
    var t := Next(s, e);
    forall pid | pid in t.procs ensures ProcOk(t, t.procs[pid]) {
      assert pid in s.procs ==> ProcOk(s, s.procs[pid]);
    }
    assert e.Store? ==> ProcOk(s, s.procs[e.pid]);
  }

  lemma {:induction false} InvRun(s: State, es: seq<Event>)
    requires Inv(s) && ValidRun(s, es)
    ensures Inv(After(s, es))
    decreases |es|
  {
    if es != [] {
      InvStep(s, es[0]);
      InvRun(Next(s, es[0]), es[1..]);
    }
  }

  /** Main result on lifetimes, for every interleaving: a copy outlives the row it was made from by
      exactly the time that passed between its writer's two clock reads. A check answered from a copy
      of the present row differs from Postgres exactly from that row's expiry to the copy's. */
  lemma CopiesOutliveTheirRowExactly(start: int, es: seq<Event>)
    requires ValidRun(Init(start), es)
    ensures var s := After(Init(start), es);
            s.cached.Some? ==>
              var c := s.cached.value;
              && c.late >= 0 && 0 < c.version <= |s.rows| && c.until == s.rows[c.version - 1].expires + c.late
              && (c.version == |s.rows| ==>
                    (Answer(s) == Entitled(s) <==> !(c.hash != "" && s.rows[c.version - 1].expires <= s.now <= c.until)))
  {
    InvRun(Init(start), es);
  }

  // ---- Which copy is left ----------------------------------------------------------------------------

  /** About to store a copy of the present row. */
  predicate Holds(s: State, p: Proc) {
    (p.Granting? || p.Caching?) && p.version == |s.rows|
  }

  predicate Due(s: State) {
    exists pid :: pid in s.procs && Holds(s, s.procs[pid])
  }

  /** The cached copy is of the present row, or somebody is due to replace it by one. */
  predicate UpToDate(s: State) {
    s.cached.Some? ==> s.cached.value.version == |s.rows| || Due(s)
  }

  predicate DueBesides(s: State, p: nat) {
    exists pid :: pid in s.procs && pid != p && Holds(s, s.procs[pid])
  }

  /** A copy of a row that has been replaced since is stored after everybody with the new one is through. */
  predicate StoresOvertaken(s: State, e: Event)
    requires Enabled(s, e)
  {
    e.Store? && s.procs[e.pid].version < |s.rows| && !Due(s)
  }

  /** The last one to hold the new row finds it lapsed and leaves an older copy where it is. */
  predicate LeavesOvertaken(s: State, e: Event)
    requires Enabled(s, e)
  {
    && e.Remaining? && s.procs[e.pid].version == |s.rows| && s.procs[e.pid].row.expires <= s.now
    && s.cached.Some? && s.cached.value.version < |s.rows| && !DueBesides(s, e.pid)
  }

  predicate FallsBehind(s: State, e: Event)
    requires Enabled(s, e)
  {
    StoresOvertaken(s, e) || LeavesOvertaken(s, e)
  }

  predicate NeverFallsBehind(s: State, es: seq<Event>)
    requires ValidRun(s, es)
    decreases |es|
  {
    es != [] ==> !FallsBehind(s, es[0]) && NeverFallsBehind(Next(s, es[0]), es[1..])
  }

  predicate UpToDateThroughout(s: State, es: seq<Event>)
    requires ValidRun(s, es)
    decreases |es|
  {
    UpToDate(s) && (es != [] ==> UpToDateThroughout(Next(s, es[0]), es[1..]))
  }

  /** Others keep what they hold while no row is written. */
  lemma DueKept(s: State, e: Event, pid: nat)
    requires Enabled(s, e) && !e.Restart? && !(e.Upsert? && e.ok)
    requires pid in s.procs && Holds(s, s.procs[pid]) && (e.Remaining? || e.Store? ==> e.pid != pid)
    ensures Due(Next(s, e))
  {
    assert Holds(Next(s, e), Next(s, e).procs[pid]);
  }

  lemma UpsertIsDue(s: State, e: Event)
    requires Enabled(s, e) && e.Upsert? && e.ok
    ensures Due(Next(s, e))
  {
    assert Holds(Next(s, e), Next(s, e).procs[e.pid]);
  }

  lemma RemainingStep(s: State, e: Event)
    requires Inv(s) && UpToDate(s) && Enabled(s, e) && e.Remaining?
    ensures UpToDate(Next(s, e)) <==> !LeavesOvertaken(s, e)
  {
    var t := Next(s, e);
    if pid :| pid in s.procs && pid != e.pid && Holds(s, s.procs[pid]) {
      DueKept(s, e, pid);
    } else if Holds(t, t.procs[e.pid]) {
      assert Due(t);
    } else {
      assert forall pid :: pid in t.procs ==> pid == e.pid || !Holds(s, s.procs[pid]);
      assert !Due(t);
    }
  }

  lemma StoreStep(s: State, e: Event)
    requires Inv(s) && UpToDate(s) && Enabled(s, e) && e.Store?
    ensures UpToDate(Next(s, e)) <==> !StoresOvertaken(s, e)
  {
    var t := Next(s, e);
    assert ProcOk(s, s.procs[e.pid]);
    if s.procs[e.pid].version < |s.rows| {
      if Due(s) {
        var pid :| pid in s.procs && Holds(s, s.procs[pid]);
        DueKept(s, e, pid);
      } else {
        assert forall pid :: pid in t.procs ==> pid == e.pid || !Holds(s, s.procs[pid]);
        assert !Due(t);
      }
    }
  }

  lemma UpToDateStepExactly(s: State, e: Event)
    requires Inv(s) && UpToDate(s) && Enabled(s, e)
    ensures UpToDate(Next(s, e)) <==> !FallsBehind(s, e)
  {
    if e.Remaining? {
      RemainingStep(s, e);
    } else if e.Store? {
      StoreStep(s, e);
    } else if e.Upsert? && e.ok {
      UpsertIsDue(s, e);
    } else if !e.Restart? && Due(s) {
      var pid :| pid in s.procs && Holds(s, s.procs[pid]);
      DueKept(s, e, pid);
    }
  }

  lemma {:induction false} UpToDateRun(s: State, es: seq<Event>)
    requires Inv(s) && UpToDate(s) && ValidRun(s, es)
    ensures UpToDateThroughout(s, es) <==> NeverFallsBehind(s, es)
    decreases |es|
  {
    if es != [] {
      UpToDateStepExactly(s, es[0]);
      if !FallsBehind(s, es[0]) {
        InvStep(s, es[0]);
        UpToDateRun(Next(s, es[0]), es[1..]);
      }
    }
  }

  /** Main result on copies, for every interleaving of checks, purchases, failed statements and
      restarts: at every moment what is cached is a copy of the present row or due to be replaced by
      one, if and only if no copy of an overtaken row is stored when nobody with the present one is
      left, and nobody left finds the present one lapsed while an older copy is cached. */
  lemma CacheIsUpToDateExactly(start: int, es: seq<Event>)
    requires ValidRun(Init(start), es)
    ensures UpToDateThroughout(Init(start), es) <==> NeverFallsBehind(Init(start), es)
  {
    UpToDateRun(Init(start), es);
  }

  predicate Quiet(s: State) {
    forall pid :: pid in s.procs ==> s.procs[pid].Done?
  }

  lemma {:induction false} UpToDateAtTheEnd(s: State, es: seq<Event>)
    requires ValidRun(s, es) && UpToDateThroughout(s, es)
    ensures UpToDate(After(s, es))
    decreases |es|
  {
    if es != [] {
      UpToDateAtTheEnd(Next(s, es[0]), es[1..]);
    }
  }

  /** Then, once all goroutines have ended, the check agrees with Postgres except between the expiry of
      the row and that of its copy. */
  lemma ChecksAreTruthfulAtRest(start: int, es: seq<Event>)
    requires ValidRun(Init(start), es) && NeverFallsBehind(Init(start), es) && Quiet(After(Init(start), es))
    ensures var s := After(Init(start), es);
            Answer(s) == Entitled(s) <==>
            !(s.cached.Some? && s.cached.value.hash != "" && s.rows != [] &&
              s.rows[|s.rows| - 1].expires <= s.now <= s.cached.value.until)
  {
    CacheIsUpToDateExactly(start, es);
    UpToDateAtTheEnd(Init(start), es);
    CopiesOutliveTheirRowExactly(start, es);
    InvRun(Init(start), es);
  }

  // ---- One goroutine alone ------------------------------------------------------------------------

  lemma Prepend(s: State, e: Event, t: State, es: seq<Event>) returns (longer: seq<Event>)
    requires Enabled(s, e) && Next(s, e) == t && ValidRun(t, es)
    ensures ValidRun(s, longer) && After(s, longer) == After(t, es) && longer == [e] + es
  {
    longer := [e] + es;
    assert longer[1..] == es;
  }

  /** The statements of a purchase or check by this goroutine, none failing. */
  predicate Own(e: Event, pid: nat, row: Option<Row>) {
    || e == (if row.Some? then Event.Post(pid, row.value) else Event.Check(pid))
    || e == Select(pid, true) || e == Upsert(pid, true) || e == Remaining(pid) || e == Store(pid)
  }

  /** What is cached after the handler in one step, given the present row. */
  function CopyNow(s: State, row: Row): Option<Copy> {
    if row.expires > s.now then Some(Copy(row.hash, row.expires, |s.rows|, 0)) else s.cached
  }

  lemma GrantedAlone(s: State, pid: nat, row: Row, own: Option<Row>) returns (es: seq<Event>)
    requires pid in s.procs && s.procs[pid] == Granting(row, |s.rows|)
    ensures ValidRun(s, es) && After(s, es) == s.(cached := CopyNow(s, row), procs := s.procs[pid := Done])
    ensures forall e :: e in es ==> Own(e, pid, own)
  {
    var t := s.(cached := CopyNow(s, row), procs := s.procs[pid := Done]);
    if row.expires > s.now {
      var u := Goto(s, pid, Caching(row, |s.rows|, s.now));
      assert u.procs[pid := Done] == t.procs;
      es := Prepend(u, Store(pid), t, []);
      es := Prepend(s, Remaining(pid), u, es);
    } else {
      es := Prepend(s, Remaining(pid), t, []);
    }
  }

  /** Alone, without a pause and with no statement failing, a purchase leaves its own row in the table and,
      if any time is left, its copy in the cache. */
  lemma UndisturbedPurchaseIsOneStep(s: State, pid: nat, row: Row) returns (es: seq<Event>)
    requires pid !in s.procs
    ensures ValidRun(s, es) && forall e :: e in es ==> Own(e, pid, Some(row))
    ensures var t := s.(rows := s.rows + [row]);
            After(s, es) == t.(cached := CopyNow(t, row), procs := s.procs[pid := Done])
  {
    var s1 := Goto(s, pid, Posting(row));
    var s2 := Next(s1, Upsert(pid, true));
    assert s2.procs[pid := Done] == s.procs[pid := Done];
    es := GrantedAlone(s2, pid, row, Some(row));
    es := Prepend(s1, Upsert(pid, true), s2, es);
    es := Prepend(s, Event.Post(pid, row), s1, es);
  }

  /** And a check that finds nothing cached and an entitling row leaves its copy, and otherwise nothing. */
  lemma UndisturbedCheckIsOneStep(s: State, pid: nat) returns (es: seq<Event>)
    requires pid !in s.procs
    ensures ValidRun(s, es) && forall e :: e in es ==> Own(e, pid, None)
    ensures After(s, es) ==
            s.(cached := if !CachedYes(s) && Entitled(s) then CopyNow(s, s.rows[|s.rows| - 1]) else s.cached,
               procs := s.procs[pid := Done])
  {
    var s1 := Next(s, Event.Check(pid));
    if CachedYes(s) {
      es := Prepend(s, Event.Check(pid), s1, []);
      return;
    }
    var s2 := Next(s1, Select(pid, true));
    assert s2.procs[pid := Done] == s.procs[pid := Done];
    es := [];
    if Entitled(s) {
      es := GrantedAlone(s2, pid, s.rows[|s.rows| - 1], None);
    }
    es := Prepend(s1, Select(pid, true), s2, es);
    es := Prepend(s, Event.Check(pid), s1, es);
  }

  // ---- Both happen ------------------------------------------------------------------------------------

  /** For every delay: a writer that is held up between its two clock reads stores a copy that says yes
      for that long after the row has expired. */
  lemma HeldUpWriterLeavesALateCopy(delay: nat) returns (es: seq<Event>)
    requires delay > 0
    ensures ValidRun(Init(0), es)
    ensures var s := After(Init(0), es);
            Quiet(s) && CachedYes(s) && s.rows == [Row("k", 10)] && s.now == 10 + delay
  {
    var row := Row("k", 10);
    var copy := Copy("k", 10 + delay, 1, delay);
    var s1 := State(0, [], None, map[0 := Posting(row)]);
    var s2 := State(0, [row], None, map[0 := Granting(row, 1)]);
    var s3 := State(0, [row], None, map[0 := Caching(row, 1, 0)]);
    var s4 := s3.(now := delay);
    var s5 := State(delay, [row], Some(copy), map[0 := Done]);
    var s6 := s5.(now := 10 + delay);
    es := Prepend(s5, Tick(10), s6, []);
    es := Prepend(s4, Store(0), s5, es);
    es := Prepend(s3, Tick(delay), s4, es);
    es := Prepend(s2, Remaining(0), s3, es);
    es := Prepend(s1, Upsert(0, true), s2, es);
    es := Prepend(Init(0), Event.Post(0, row), s1, es);
  }

  /** The table holds both rows; a check still holds the first, the purchase of the second has stored
      its copy. */
  function Overtaken(now: int, first: Row, second: Row, copy: Copy, check: Proc): State {
    State(now, [first, second], Some(copy), map[1 := check, 2 := Done])
  }

  /** A check has read the first row after a restart. */
  lemma CheckHoldsTheFirst(first: Row, s: State, rest: seq<Event>) returns (es: seq<Event>)
    requires first == Row("k", 100) && s == State(0, [first], None, map[1 := Granting(first, 1)]) && ValidRun(s, rest)
    ensures ValidRun(Init(0), es) && After(Init(0), es) == After(s, rest)
  {
    var s1 := State(0, [], None, map[0 := Posting(first)]);
    var s2 := State(0, [first], None, map[0 := Granting(first, 1)]);
    var s3 := State(0, [first], None, map[]);
    var s4 := State(0, [first], None, map[1 := Selecting]);
    es := Prepend(s4, Select(1, true), s, rest);
    es := Prepend(s3, Event.Check(1), s4, es);
    es := Prepend(s2, Event.Restart, s3, es);
    es := Prepend(s1, Upsert(0, true), s2, es);
    es := Prepend(Init(0), Event.Post(0, first), s1, es);
  }

  lemma SecondIsStored(first: Row, second: Row, copy: Copy, rest: seq<Event>) returns (es: seq<Event>)
    requires second == Row("k", 50) && copy == Copy("k", 50, 2, 0) && first == Row("k", 100)
    requires ValidRun(Overtaken(0, first, second, copy, Granting(first, 1)), rest)
    ensures var s := State(0, [first], None, map[1 := Granting(first, 1)]);
            ValidRun(s, es) && After(s, es) == After(Overtaken(0, first, second, copy, Granting(first, 1)), rest)
  {
    var hold := Granting(first, 1);
    var s0 := State(0, [first], None, map[1 := hold]);
    var s1 := State(0, [first], None, map[1 := hold, 2 := Posting(second)]);
    var s2 := State(0, [first, second], None, map[1 := hold, 2 := Granting(second, 2)]);
    var s3 := State(0, [first, second], None, map[1 := hold, 2 := Caching(second, 2, 0)]);
    es := Prepend(s3, Store(2), Overtaken(0, first, second, copy, hold), rest);
    es := Prepend(s2, Remaining(2), s3, es);
    assert [first] + [second] == [first, second];
    es := Prepend(s1, Upsert(2, true), s2, es);
    es := Prepend(s0, Event.Post(2, second), s1, es);
  }

  /** A check that read the row before it was shortened stores its copy last: from the new expiry to the
      old one the cache says yes and Postgres no, with nobody left to mend it. */
  lemma OvertakenCheckLeavesAStaleCopy() returns (es: seq<Event>)
    ensures ValidRun(Init(0), es)
    ensures var s := After(Init(0), es);
            Quiet(s) && CachedYes(s) && !Entitled(s) && s.now == 60 && s.rows == [Row("k", 100), Row("k", 50)]
  {
    var first, second, copy := Row("k", 100), Row("k", 50), Copy("k", 50, 2, 0);
    var s1 := Overtaken(0, first, second, copy, Granting(first, 1));
    var s2 := Overtaken(0, first, second, copy, Caching(first, 1, 0));
    var s3 := Overtaken(0, first, second, Copy("k", 100, 1, 0), Done);
    es := Prepend(s3, Tick(60), s3.(now := 60), []);
    es := Prepend(s2, Store(1), s3, es);
    es := Prepend(s1, Remaining(1), s2, es);
    es := SecondIsStored(first, second, copy, es);
    es := CheckHoldsTheFirst(first, State(0, [first], None, map[1 := Granting(first, 1)]), es);
  }
}
