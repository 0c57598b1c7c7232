/** The weekly story budget statement by statement (db.go): posts of one user, from several devices,
    read the clock, SELECT the row, open a new week if it is due and charge it, all interleaved.
    Opening a week is an unconditional write, so it can wipe out what another post has charged. */
module BudgetRaces {
  import opened Text
  import opened SocialBudget

  /** What is to be charged; a look at the budget charges nothing. */
  datatype Job = JustLook | Spend(bytes: nat, isPlus: bool)

  datatype Proc =
    | Clocked(at: nat, job: Job)        // has read the clock
    | Inserting(at: nat, job: Job)      // found no row
    | Resetting(at: nat, job: Job)      // found a row at least a week old
    | Charging(bytes: nat, isPlus: bool)
    | Done

  datatype Paid = Paid(bytes: nat, at: nat)

  /** `paid` lists the charges, `openings` the instants at which a week was opened. */
  datatype World = World(now: nat, row: Option<Budget>, procs: map<nat, Proc>, paid: seq<Paid>, openings: seq<nat>)

  datatype Step =
    | Wait(dt: nat)
    | Begin(pid: nat, job: Job)
    | Select(pid: nat, ok: bool)
    | Insert(pid: nat, ok: bool)
    | Reset(pid: nat, ok: bool)
    | Charge(pid: nat, ok: bool)
    | Lose                              // a wipe deletes the row

  function Start(now: nat): World {
    World(now, None, map[], [], [])
  }

  predicate Enabled(w: World, e: Step) {
    match e
    case Wait(_) => true
    case Begin(pid, _) => pid !in w.procs
    case Select(pid, _) => pid in w.procs && w.procs[pid].Clocked?
    case Insert(pid, _) => pid in w.procs && w.procs[pid].Inserting?
    case Reset(pid, _) => pid in w.procs && w.procs[pid].Resetting?
    case Charge(pid, _) => pid in w.procs && w.procs[pid].Charging?
    case Lose => true
  }

  function Goto(w: World, pid: nat, p: Proc): World {
    w.(procs := w.procs[pid := p])
  }

  function Toward(job: Job): Proc {
    if job.Spend? then Charging(job.bytes, job.isPlus) else Done
  }

  /** A week opened with this clock reading. */
  function Open(w: World, at: nat): World {
    w.(row := Some(Budget(0, at)), openings := w.openings + [w.now])
  }

  function Next(w: World, e: Step): World
    requires Enabled(w, e)
  {
    match e
    case Wait(dt) => w.(now := w.now + dt)
    case Begin(pid, job) => Goto(w, pid, Clocked(w.now, job))
    case Select(pid, ok) =>
      var p := w.procs[pid];
      Goto(w, pid,
           if !ok then Done
           else if w.row.None? then Inserting(p.at, p.job)
           else if p.at - w.row.value.weekStart >= WEEK then Resetting(p.at, p.job)
           else Toward(p.job))
    case Insert(pid, ok) =>
      var p := w.procs[pid];
      // ON CONFLICT DO NOTHING
      if !ok then Goto(w, pid, Done)
      else if w.row.None? then Goto(Open(w, p.at), pid, Toward(p.job))
      else Goto(w, pid, Toward(p.job))
    case Reset(pid, ok) =>
      var p := w.procs[pid];
      if !ok then Goto(w, pid, Done)
      else if w.row.Some? then Goto(Open(w, p.at), pid, Toward(p.job))
      else Goto(w, pid, Toward(p.job))
    case Charge(pid, ok) =>
      var p := w.procs[pid];
      if ok && w.row.Some? && Consumed(w.row.value, p.bytes, p.isPlus).Some?
      then Goto(w, pid, Done).(row := Consumed(w.row.value, p.bytes, p.isPlus), paid := w.paid + [Paid(p.bytes, w.now)])
      else Goto(w, pid, Done)
    case Lose => w.(row := None)
  }

  predicate ValidRun(w: World, es: seq<Step>)
    decreases |es|
  {
    es == [] || (Enabled(w, es[0]) && ValidRun(Next(w, es[0]), es[1..]))
  }

  function After(w: World, es: seq<Step>): World
    requires ValidRun(w, es)
    decreases |es|
  {
    if es == [] then w else After(Next(w, es[0]), es[1..])
  }

  /** The bytes charged at or after an instant, among the first n charges. */
  function PaidSince(paid: seq<Paid>, n: nat, from: nat): nat
    requires n <= |paid|
  {
    if n == 0 then 0 else PaidSince(paid, n - 1, from) + (if paid[n - 1].at >= from then paid[n - 1].bytes else 0)
  }

  function Since(paid: seq<Paid>, from: nat): nat {
    PaidSince(paid, |paid|, from)
  }

  lemma {:induction false} PaidPrefix(paid: seq<Paid>, p: Paid, n: nat, from: nat)
    requires n <= |paid|
    ensures PaidSince(paid + [p], n, from) == PaidSince(paid, n, from)
  {
    if n > 0 {
      PaidPrefix(paid, p, n - 1, from);
    }
  }

  lemma PaidSnoc(paid: seq<Paid>, p: Paid, from: nat)
    ensures Since(paid + [p], from) == Since(paid, from) + (if p.at >= from then p.bytes else 0)
  {
    PaidPrefix(paid, p, |paid|, from);
  }

  // ---- Exactly when the row tells the truth -----------------------------------------------------

  /** bytes_used is what was charged since week_start. */
  predicate Truthful(w: World) {
    w.row.Some? ==> w.row.value.bytesUsed == Since(w.paid, w.row.value.weekStart)
  }

  /** A week is opened although bytes were charged since the clock was read for it. */
  predicate Erases(w: World, e: Step)
    requires Enabled(w, e)
  {
    match e
    case Insert(pid, ok) => ok && w.row.None? && Since(w.paid, w.procs[pid].at) > 0
    case Reset(pid, ok) => ok && w.row.Some? && Since(w.paid, w.procs[pid].at) > 0
    case _ => false
  }

  predicate NeverErases(w: World, es: seq<Step>)
    requires ValidRun(w, es)
    decreases |es|
  {
    es != [] ==> !Erases(w, es[0]) && NeverErases(Next(w, es[0]), es[1..])
  }

  predicate TruthfulThroughout(w: World, es: seq<Step>)
    requires ValidRun(w, es)
    decreases |es|
  {
    Truthful(w) && (es != [] ==> TruthfulThroughout(Next(w, es[0]), es[1..]))
  }

  predicate ProcClocked(w: World, p: Proc) {
    p.Clocked? || p.Inserting? || p.Resetting? ==> p.at <= w.now
  }

  /** No stamp lies in the future and no budget above the Plus limit. */
  predicate Sane(w: World) {
    && (forall pid :: pid in w.procs ==> ProcClocked(w, w.procs[pid]))
    && (w.row.Some? ==> w.row.value.weekStart <= w.now && w.row.value.bytesUsed <= PLUS_BUDGET)
  }

  lemma SaneStep(w: World, e: Step)
    requires Sane(w) && Enabled(w, e)
    ensures Sane(Next(w, e))
  {
    var t := Next(w, e);
    forall pid | pid in t.procs ensures ProcClocked(t, t.procs[pid]) {
      assert pid in w.procs ==> ProcClocked(w, w.procs[pid]);
    }
    assert e.Insert? || e.Reset? ==> ProcClocked(w, w.procs[e.pid]);
  }

  lemma TruthfulStepExactly(w: World, e: Step)
    requires Sane(w) && Truthful(w) && Enabled(w, e)
    ensures Truthful(Next(w, e)) <==> !Erases(w, e)
  {
    if e.Charge? && w.row.Some? {
      PaidSnoc(w.paid, Paid(w.procs[e.pid].bytes, w.now), w.row.value.weekStart);
    }
  }

  lemma {:induction false} TruthfulRun(w: World, es: seq<Step>)
    requires Sane(w) && Truthful(w) && ValidRun(w, es)
    ensures TruthfulThroughout(w, es) <==> NeverErases(w, es)
    decreases |es|
  {
    if es != [] {
      TruthfulStepExactly(w, es[0]);
      if !Erases(w, es[0]) {
        SaneStep(w, es[0]);
        TruthfulRun(Next(w, es[0]), es[1..]);
      }
    }
  }

  /** Main result, for every interleaving, failed statements and wipes included: the row states at every
      moment what was charged since its week began, if and only if no post opens a week with a clock
      reading at or after which another has charged bytes. */
  lemma BudgetIsTruthfulExactly(start: nat, es: seq<Step>)
    requires ValidRun(Start(start), es)
    ensures TruthfulThroughout(Start(start), es) <==> NeverErases(Start(start), es)
  {
    TruthfulRun(Start(start), es);
  }

  lemma {:induction false} TruthfulAtTheEnd(w: World, es: seq<Step>)
    requires Sane(w) && ValidRun(w, es)
    ensures Sane(After(w, es)) && (TruthfulThroughout(w, es) ==> Truthful(After(w, es)))
    decreases |es|
  {
    if es != [] {
      SaneStep(w, es[0]);
      TruthfulAtTheEnd(Next(w, es[0]), es[1..]);
    }
  }

  /** Then the bytes charged since the week began fit the budget. */
  lemma WeekFitsTheBudget(start: nat, es: seq<Step>)
    requires ValidRun(Start(start), es) && NeverErases(Start(start), es)
    ensures var w := After(Start(start), es);
            w.row.Some? ==> Since(w.paid, w.row.value.weekStart) <= 100 * 1024 * 1024
  {
    TruthfulAtTheEnd(Start(start), es);
    BudgetIsTruthfulExactly(start, es);
  }

  // ---- What racing posts can charge --------------------------------------------------------------

  function OpenedSince(openings: seq<nat>, n: nat, from: nat): nat
    requires n <= |openings|
  {
    if n == 0 then 0 else OpenedSince(openings, n - 1, from) + (if openings[n - 1] >= from then 1 else 0)
  }

  function Openings(w: World, from: nat): nat {
    OpenedSince(w.openings, |w.openings|, from)
  }

  lemma {:induction false} OpenedPrefix(openings: seq<nat>, at: nat, n: nat, from: nat)
    requires n <= |openings|
    ensures OpenedSince(openings + [at], n, from) == OpenedSince(openings, n, from)
  {
    if n > 0 {
      OpenedPrefix(openings, at, n - 1, from);
    }
  }

  /** What the row still knows of the last budget; all of it may be forgotten once the row is gone. */
  function Remembered(w: World): nat {
    if w.row.Some? then w.row.value.bytesUsed else PLUS_BUDGET
  }

  ghost predicate Capped(w: World, from: nat) {
    && (forall i :: 0 <= i < |w.paid| ==> w.paid[i].at <= w.now)
    && (from <= w.now ==> Since(w.paid, from) <= PLUS_BUDGET * Openings(w, from) + Remembered(w))
  }

  lemma {:induction false} NothingYet(paid: seq<Paid>, n: nat, from: nat)
    requires n <= |paid| && forall i :: 0 <= i < n ==> paid[i].at < from
    ensures PaidSince(paid, n, from) == 0
  {
    if n > 0 {
      NothingYet(paid, n - 1, from);
    }
  }

  lemma CappedStep(w: World, e: Step, from: nat)
    requires Sane(w) && Capped(w, from) && Enabled(w, e)
    ensures Capped(Next(w, e), from)
  {
    var t := Next(w, e);
    if w.now < from {
      NothingYet(w.paid, |w.paid|, from);
    }
    if e.Charge? {
      PaidSnoc(w.paid, Paid(w.procs[e.pid].bytes, w.now), from);
    }
    OpenedPrefix(w.openings, w.now, |w.openings|, from);
  }

  lemma {:induction false} CappedRun(w: World, es: seq<Step>, from: nat)
    requires Sane(w) && Capped(w, from) && ValidRun(w, es)
    ensures Sane(After(w, es)) && Capped(After(w, es), from)
    decreases |es|
  {
    if es != [] {
      CappedStep(w, es[0], from);
      SaneStep(w, es[0]);
      CappedRun(Next(w, es[0]), es[1..], from);
    }
  }

  /** In every interleaving what is charged from any instant on is at most one budget for each week
      opened since, and one more. */
  lemma OneBudgetPerOpening(start: nat, es: seq<Step>, from: nat)
    requires ValidRun(Start(start), es) && from <= After(Start(start), es).now
    ensures var w := After(Start(start), es); Since(w.paid, from) <= 100 * 1024 * 1024 * (Openings(w, from) + 1)
  {
    CappedRun(Start(start), es, from);
  }

  // ---- One post alone ---------------------------------------------------------------------------

  lemma Prepend(w: World, e: Step, t: World, es: seq<Step>) returns (longer: seq<Step>)
    requires Enabled(w, e) && Next(w, e) == t && ValidRun(t, es)
    ensures ValidRun(w, longer) && After(w, longer) == After(t, es) && longer == [e] + es
  {
    longer := [e] + es;
    assert longer[1..] == es;
  }

  /** The statements of this goroutine, none failing. */
  predicate Own(e: Step, pid: nat, job: Job) {
    e == Begin(pid, job) || e == Select(pid, true) || e == Insert(pid, true) || e == Reset(pid, true) || e == Step.Charge(pid, true)
  }

  /** What the row and the charges are after the whole handler in one step. */
  function InOneStep(w: World, pid: nat, job: Job): World {
    var b := Opened(w.row, w.now);
    var paid := if job.Spend? then Consumed(b, job.bytes, job.isPlus) else None;
    World(w.now, Some(if paid.Some? then paid.value else b), w.procs[pid := Done],
          if paid.Some? then w.paid + [Paid(job.bytes, w.now)] else w.paid,
          if w.row == Some(b) then w.openings else w.openings + [w.now])
  }

  lemma ChargedAlone(w: World, pid: nat, job: Job) returns (es: seq<Step>)
    requires pid in w.procs && w.procs[pid] == Toward(job) && w.row == Some(Opened(w.row, w.now))
    ensures ValidRun(w, es) && After(w, es) == InOneStep(w, pid, job) && forall e :: e in es ==> Own(e, pid, job)
  {
    if job.Spend? {
      es := Prepend(w, Step.Charge(pid, true), InOneStep(w, pid, job), []);
    } else {
      assert w.procs[pid := Done] == w.procs;
      es := [];
    }
  }

  lemma OpenedAlone(w: World, pid: nat, job: Job) returns (es: seq<Step>)
    requires pid in w.procs && w.row != Some(Opened(w.row, w.now))
    requires w.procs[pid] == if w.row.None? then Inserting(w.now, job) else Resetting(w.now, job)
    ensures ValidRun(w, es) && After(w, es) == InOneStep(w, pid, job) && forall e :: e in es ==> Own(e, pid, job)
  {
    var t := Goto(Open(w, w.now), pid, Toward(job));
    es := ChargedAlone(t, pid, job);
    assert t.procs[pid := Done] == w.procs[pid := Done];
    es := Prepend(w, if w.row.None? then Insert(pid, true) else Reset(pid, true), t, es);
  }

  /** Alone, without a pause and with no statement failing, a post opens the week if it is due and
      charges it as `SocialBudget` has it. */
  lemma UndisturbedPostIsOneStep(w: World, pid: nat, job: Job) returns (es: seq<Step>)
    requires pid !in w.procs
    ensures ValidRun(w, es) && After(w, es) == InOneStep(w, pid, job) && forall e :: e in es ==> Own(e, pid, job)
  {
    var t := Goto(w, pid, Clocked(w.now, job));
    var u := Next(t, Select(pid, true));
    if w.row == Some(Opened(w.row, w.now)) {
      es := ChargedAlone(u, pid, job);
    } else {
      es := OpenedAlone(u, pid, job);
    }
    assert u.procs[pid := Done] == w.procs[pid := Done];
    es := Prepend(t, Select(pid, true), u, es);
    es := Prepend(w, Begin(pid, job), t, es);
  }

  // ---- Posts that all find the week over -----------------------------------------------------------

  const ALL := Spend(PLUS_BUDGET, true)

  function Racer(i: nat, j: nat): Proc {
    if i <= j then Done else Resetting(WEEK, ALL)
  }

  /** n posts found the week over, and the first j of them have opened it again and charged everything. */
  function Racing(n: nat, j: nat): World {
    World(WEEK, Some(if j == 0 then Budget(PLUS_BUDGET, 0) else Budget(PLUS_BUDGET, WEEK)),
          map i: nat | i <= n :: Racer(i, j),
          [Paid(PLUS_BUDGET, 1)] + seq(j, _ => Paid(PLUS_BUDGET, WEEK)),
          [0] + seq(j, _ => WEEK))
  }

  lemma OneMoreRaces(n: nat, j: nat, rest: seq<Step>) returns (es: seq<Step>)
    requires j < n && ValidRun(Racing(n, j + 1), rest)
    ensures ValidRun(Racing(n, j), es) && After(Racing(n, j), es) == After(Racing(n, j + 1), rest)
  {
    var w, t := Racing(n, j), Racing(n, j + 1);
    var mid := Next(w, Reset(j + 1, true));
    assert mid.openings == t.openings;
    assert Next(mid, Step.Charge(j + 1, true)).paid == t.paid;
    assert Next(mid, Step.Charge(j + 1, true)).procs == t.procs;
    es := Prepend(mid, Step.Charge(j + 1, true), t, rest);
    es := Prepend(w, Reset(j + 1, true), mid, es);
  }

  lemma {:induction false} AllRace(n: nat, j: nat) returns (es: seq<Step>)
    requires j <= n
    ensures ValidRun(Racing(n, j), es) && After(Racing(n, j), es) == Racing(n, n)
    decreases n - j
  {
    es := [];
    if j < n {
      es := AllRace(n, j + 1);
      es := OneMoreRaces(n, j, es);
    }
  }

  lemma OneMoreLinesUp(n: nat, rest: seq<Step>) returns (es: seq<Step>)
    requires ValidRun(Racing(n + 1, 0), rest)
    ensures ValidRun(Racing(n, 0), es) && After(Racing(n, 0), es) == After(Racing(n + 1, 0), rest)
  {
    var w, t := Racing(n, 0), Racing(n + 1, 0);
    var mid := Next(w, Begin(n + 1, ALL));
    assert Next(mid, Select(n + 1, true)).procs == t.procs;
    es := Prepend(mid, Select(n + 1, true), t, rest);
    es := Prepend(w, Begin(n + 1, ALL), mid, es);
  }

  lemma {:induction false} AllLineUp(m: nat, n: nat, rest: seq<Step>) returns (es: seq<Step>)
    requires m <= n && ValidRun(Racing(n, 0), rest)
    ensures ValidRun(Racing(m, 0), es) && After(Racing(m, 0), es) == After(Racing(n, 0), rest)
    decreases n - m
  {
    es := rest;
    if m < n {
      es := AllLineUp(m + 1, n, rest);
      es := OneMoreLinesUp(m, es);
    }
  }

  /** The first week is opened at 0 and spent at 1. */
  lemma FirstWeek(rest: seq<Step>) returns (es: seq<Step>)
    requires ValidRun(Racing(0, 0), rest)
    ensures ValidRun(Start(0), es) && After(Start(0), es) == After(Racing(0, 0), rest)
  {
    var w1 := World(0, None, map[0 := Clocked(0, ALL)], [], []);
    var w2 := World(0, None, map[0 := Inserting(0, ALL)], [], []);
    var w3 := World(0, Some(Budget(0, 0)), map[0 := Charging(PLUS_BUDGET, true)], [], [0]);
    var w4 := w3.(now := 1);
    var w5 := Racing(0, 0).(now := 1);
    assert seq(0, _ => WEEK) == [] && seq(0, _ => Paid(PLUS_BUDGET, WEEK)) == [];
    assert w5.procs == map[0 := Done] && w5.paid == [Paid(PLUS_BUDGET, 1)] && w5.openings == [0];
    es := Prepend(w5, Wait(WEEK - 1), Racing(0, 0), rest);
    es := Prepend(w4, Step.Charge(0, true), w5, es);
    es := Prepend(w3, Wait(1), w4, es);
    es := Prepend(w2, Insert(0, true), w3, es);
    es := Prepend(w1, Select(0, true), w2, es);
    es := Prepend(Start(0), Begin(0, ALL), w1, es);
  }

  lemma {:induction false} RacersPaid(n: nat, m: nat)
    requires m <= n
    ensures PaidSince(Racing(n, n).paid, m + 1, WEEK) == PLUS_BUDGET * m
    ensures PaidSince(Racing(n, n).paid, m + 1, 1) == PLUS_BUDGET * (m + 1)
    ensures OpenedSince(Racing(n, n).openings, m + 1, 1) == m
  {
    if m > 0 {
      RacersPaid(n, m - 1);
    }
  }

  /** For every number k: k posts that find the week over in the same instant charge k whole budgets to
      one week, while the row states one, and the bound above is reached. */
  lemma RacingPostsMultiplyTheBudget(k: nat) returns (es: seq<Step>)
    requires k > 0
    ensures ValidRun(Start(0), es)
    ensures var w := After(Start(0), es);
            && w.row == Some(Budget(PLUS_BUDGET, WEEK)) && Since(w.paid, WEEK) == PLUS_BUDGET * k
            && Openings(w, 1) == k && Since(w.paid, 1) == PLUS_BUDGET * (Openings(w, 1) + 1)
  {
    es := AllRace(k, 0);
    es := AllLineUp(0, k, es);
    es := FirstWeek(es);
    RacersPaid(k, k);
  }
}
