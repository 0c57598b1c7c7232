/** The daily issuance quota of the handshake (redis.go AllowIssuance). The day is read before the
    lock, so a call can count for a day that is over; if the map is too large by then, its trim
    drops the counters of the running day. */
module HandshakeQuota {
  import opened Counters
  import opened Numbers
  import opened Handshake

  /** The log has a call of this address for this day. */
  predicate Own(f: Fact, ip: string, d: nat) {
    f.Asked? && f.ip == ip && f.day == d
  }

  /** A trim that drops this day's counters. */
  predicate Drops(f: Fact, d: nat) {
    f.Trimmed? && f.day != d
  }

  /** For one address and day: the calls, those allowed, the mints that followed, the calls since the
      counter was last dropped, and how often a counter that stood above zero was dropped. */
  datatype Tally = Tally(asks: nat, grants: nat, mints: nat, since: nat, drops: nat)

  function Counted(t: Tally, f: Fact, ip: string, d: nat): Tally {
    if Own(f, ip, d) then t.(asks := t.asks + 1, grants := if f.allowed then t.grants + 1 else t.grants, since := t.since + 1)
    else if Drops(f, d) then t.(since := 0, drops := if t.since > 0 then t.drops + 1 else t.drops)
    else if f.IssueMinted? && f.ip == ip && f.day == d then t.(mints := t.mints + 1)
    else t
  }

  function TallyOf(log: seq<Fact>, n: nat, ip: string, d: nat): Tally
    requires n <= |log|
  {
    if n == 0 then Tally(0, 0, 0, 0, 0) else Counted(TallyOf(log, n - 1, ip, d), log[n - 1], ip, d)
  }

  function Tallied(log: seq<Fact>, ip: string, d: nat): Tally {
    TallyOf(log, |log|, ip, d)
  }

  lemma {:induction false} TallyOfPrefix(log: seq<Fact>, fs: seq<Fact>, n: nat, ip: string, d: nat)
    requires n <= |log|
    ensures TallyOf(log + fs, n, ip, d) == TallyOf(log, n, ip, d)
  {
    if n > 0 {
      TallyOfPrefix(log, fs, n - 1, ip, d);
    }
  }

  lemma TallySnoc(log: seq<Fact>, f: Fact, ip: string, d: nat)
    ensures Tallied(log + [f], ip, d) == Counted(Tallied(log, ip, d), f, ip, d)
  {
    TallyOfPrefix(log, [f], |log|, ip, d);
  }

  lemma {:induction false} TallyUnaffected(log: seq<Fact>, fs: seq<Fact>, ip: string, d: nat)
    requires forall f :: f in fs ==> !f.Asked? && !f.Trimmed? && !f.IssueMinted?
    ensures Tallied(log + fs, ip, d) == Tallied(log, ip, d)
    decreases |fs|
  {
    if fs == [] {
      assert log + fs == log;
    } else {
      TallySnoc(log, fs[0], ip, d);
      TallyUnaffected(log + [fs[0]], fs[1..], ip, d);
      assert log + [fs[0]] + fs[1..] == log + fs;
    }
  }

  // ---- The counter is the calls since the last trim ------------------------------------------

  ghost predicate CountersOk(cfg: Config, s: State) {
    forall ip, d :: Count(s.issuance, IssuanceKey(cfg, ip, d)) == Tallied(s.log, ip, d).since
  }

  /** Each call was allowed exactly if fewer than the cap were counted since the last trim. */
  ghost predicate Answered(cap: nat, log: seq<Fact>) {
    forall k :: 0 <= k < |log| && log[k].Asked? ==>
      (log[k].allowed <==> TallyOf(log, k, log[k].ip, log[k].day).since < cap)
  }

  ghost predicate Lawful(cfg: Config, s: State) {
    CountersOk(cfg, s) && Answered(cfg.dailyCap, s.log)
  }

  lemma AnsweredSnoc(cap: nat, log: seq<Fact>, f: Fact)
    requires Answered(cap, log) && (f.Asked? ==> (f.allowed <==> Tallied(log, f.ip, f.day).since < cap))
    ensures Answered(cap, log + [f])
  {
    var all := log + [f];
    forall k | 0 <= k < |all| && all[k].Asked? ensures all[k].allowed <==> TallyOf(all, k, all[k].ip, all[k].day).since < cap {
      TallyOfPrefix(log, [f], k, all[k].ip, all[k].day);
    }
  }

  lemma {:induction false} AnsweredBy(cap: nat, log: seq<Fact>, fs: seq<Fact>)
    requires Answered(cap, log) && forall f :: f in fs ==> !f.Asked?
    ensures Answered(cap, log + fs)
    decreases |fs|
  {
    if fs == [] {
      assert log + fs == log;
    } else {
      AnsweredSnoc(cap, log, fs[0]);
      AnsweredBy(cap, log + [fs[0]], fs[1..]);
      assert log + [fs[0]] + fs[1..] == log + fs;
    }
  }

  /** What a call writes to the log. */
  lemma AskFacts(cfg: Config, s: State, conn: nat)
    requires Enabled(s, Ask(conn, true))
    ensures var c := s.conns[conn];
            var key := IssuanceKey(cfg, c.ip, c.pc.day);
            Handle(cfg, s, Ask(conn, true)).facts ==
            [Asked(conn, c.ip, c.pc.day, Count(s.issuance, key) < cfg.dailyCap)] +
            if Trims(s.issuance, key) then [Trimmed(conn, c.pc.day)] else []
  {
    var c := s.conns[conn];
    OwnStampIsCurrent("issuance:", c.ip, cfg.day(c.pc.day));
  }

  lemma AskTally(cfg: Config, s: State, conn: nat, ip: string, d: nat)
    requires IsStamp(cfg.day) && Enabled(s, Ask(conn, true)) && CountersOk(cfg, s)
    ensures var t := Next(cfg, s, Ask(conn, true));
            Count(t.issuance, IssuanceKey(cfg, ip, d)) == Tallied(t.log, ip, d).since
  {
    var c := s.conns[conn];
    var key := IssuanceKey(cfg, c.ip, c.pc.day);
    var asked := Asked(conn, c.ip, c.pc.day, Count(s.issuance, key) < cfg.dailyCap);
    AskFacts(cfg, s, conn);
    assert cfg.day(c.pc.day) == cfg.day(d) ==> c.pc.day == d;
    BumpCountsExactly(s.issuance, "issuance:", c.ip, cfg.day(c.pc.day), ip, cfg.day(d));
    TallySnoc(s.log, asked, ip, d);
    if Trims(s.issuance, key) {
      TallySnoc(s.log + [asked], Trimmed(conn, c.pc.day), ip, d);
      assert s.log + [asked] + [Trimmed(conn, c.pc.day)] == s.log + Handle(cfg, s, Ask(conn, true)).facts;
    } else {
      assert s.log + [asked] == s.log + Handle(cfg, s, Ask(conn, true)).facts;
    }
  }

  lemma AskAnswered(cfg: Config, s: State, conn: nat)
    requires Enabled(s, Ask(conn, true)) && Lawful(cfg, s)
    ensures Answered(cfg.dailyCap, Next(cfg, s, Ask(conn, true)).log)
  {
    var c := s.conns[conn];
    var key := IssuanceKey(cfg, c.ip, c.pc.day);
    var asked := Asked(conn, c.ip, c.pc.day, Count(s.issuance, key) < cfg.dailyCap);
    AskFacts(cfg, s, conn);
    assert Count(s.issuance, key) == Tallied(s.log, c.ip, c.pc.day).since;
    AnsweredSnoc(cfg.dailyCap, s.log, asked);
    if Trims(s.issuance, key) {
      AnsweredSnoc(cfg.dailyCap, s.log + [asked], Trimmed(conn, c.pc.day));
      assert s.log + [asked] + [Trimmed(conn, c.pc.day)] == s.log + Handle(cfg, s, Ask(conn, true)).facts;
    } else {
      assert s.log + [asked] == s.log + Handle(cfg, s, Ask(conn, true)).facts;
    }
  }

  lemma OtherSteps(cfg: Config, s: State, e: Event)
    requires Enabled(s, e) && !(e.Ask? && e.storeOk)
    ensures Next(cfg, s, e).issuance == s.issuance
    ensures Mover(e).Some? ==> forall f :: f in Handle(cfg, s, e).facts ==> !f.Asked? && !f.Trimmed?
  {}

  lemma OtherFacts(cfg: Config, s: State, e: Event)
    requires Enabled(s, e) && Mover(e).Some? && !(e.Issue? && e.storeOk)
    ensures forall f :: f in Handle(cfg, s, e).facts ==> !f.IssueMinted?
  {}

  lemma OtherTally(cfg: Config, s: State, e: Event, ip: string, d: nat)
    requires Enabled(s, e) && !(e.Ask? && e.storeOk)
    ensures Tallied(Next(cfg, s, e).log, ip, d).since == Tallied(s.log, ip, d).since
  {
    OtherSteps(cfg, s, e);
    if e.Issue? && e.storeOk {
      TallySnoc(s.log, IssueMinted(e.conn, s.conns[e.conn].ip, s.conns[e.conn].pc.day), ip, d);
    } else if Mover(e).Some? {
      assert !e.Issue? || !e.storeOk;
      OtherFacts(cfg, s, e);
      TallyUnaffected(s.log, Handle(cfg, s, e).facts, ip, d);
    }
  }

  lemma LawStep(cfg: Config, s: State, e: Event)
    requires IsStamp(cfg.day) && Lawful(cfg, s) && Enabled(s, e)
    ensures Lawful(cfg, Next(cfg, s, e))
  {
    var t := Next(cfg, s, e);
    if e.Ask? && e.storeOk {
      AskAnswered(cfg, s, e.conn);
      forall ip, d ensures Count(t.issuance, IssuanceKey(cfg, ip, d)) == Tallied(t.log, ip, d).since {
        AskTally(cfg, s, e.conn, ip, d);
      }
    } else {
      OtherSteps(cfg, s, e);
      if Mover(e).Some? {
        AnsweredBy(cfg.dailyCap, s.log, Handle(cfg, s, e).facts);
      }
      forall ip, d ensures Count(t.issuance, IssuanceKey(cfg, ip, d)) == Tallied(t.log, ip, d).since {
        OtherTally(cfg, s, e, ip, d);
      }
    }
  }

  lemma {:induction false} LawRun(cfg: Config, s: State, es: seq<Event>)
    requires IsStamp(cfg.day) && Lawful(cfg, s) && ValidRun(cfg, s, es)
    ensures Lawful(cfg, After(cfg, s, es))
    decreases |es|
  {
    if es != [] {
      LawStep(cfg, s, es[0]);
      LawRun(cfg, Next(cfg, s, es[0]), es[1..]);
    }
  }

  /** Main result on the quota, for every run: a call is allowed exactly if fewer than `dailyCap` calls
      of its address and day were counted since a trim last dropped that day's counters. */
  lemma CallsAreCountedSinceTheLastTrim(cfg: Config, start: nat, es: seq<Event>, k: nat)
    requires IsStamp(cfg.day) && ValidRun(cfg, Init(start), es)
    requires var log := After(cfg, Init(start), es).log; k < |log| && log[k].Asked?
    ensures var log := After(cfg, Init(start), es).log;
            log[k].allowed <==> TallyOf(log, k, log[k].ip, log[k].day).since < cfg.dailyCap
  {
    LawRun(cfg, Init(start), es);
  }

  // ---- What that allows ---------------------------------------------------------------------------

  /** Two calls of this address for this day have a trim between them that dropped its counter. */
  ghost predicate Forgotten(log: seq<Fact>, ip: string, d: nat) {
    exists i, j, k :: 0 <= i < j < k < |log| && Own(log[i], ip, d) && Drops(log[j], d) && Own(log[k], ip, d)
  }

  ghost predicate LostBy(log: seq<Fact>, n: nat, ip: string, d: nat)
    requires n <= |log|
  {
    exists i, j :: 0 <= i < j < n && Own(log[i], ip, d) && Drops(log[j], d)
  }

  ghost predicate ForgottenBy(log: seq<Fact>, n: nat, ip: string, d: nat)
    requires n <= |log|
  {
    exists k :: 0 <= k < n && Own(log[k], ip, d) && LostBy(log, k, ip, d)
  }

  lemma ForgottenByAll(log: seq<Fact>, ip: string, d: nat)
    ensures Forgotten(log, ip, d) <==> ForgottenBy(log, |log|, ip, d)
  {
    if Forgotten(log, ip, d) {
      var i, j, k :| 0 <= i < j < k < |log| && Own(log[i], ip, d) && Drops(log[j], d) && Own(log[k], ip, d);
      assert LostBy(log, k, ip, d);
    }
  }

  lemma {:induction false} SomeOwn(log: seq<Fact>, n: nat, ip: string, d: nat)
    requires n <= |log|
    ensures TallyOf(log, n, ip, d).since <= TallyOf(log, n, ip, d).asks
    ensures TallyOf(log, n, ip, d).asks > 0 <==> exists i :: 0 <= i < n && Own(log[i], ip, d)
  {
    if n > 0 {
      SomeOwn(log, n - 1, ip, d);
      assert Own(log[n - 1], ip, d) ==> !Drops(log[n - 1], d);
    }
  }

  /** Something was lost exactly when the counter stands below the number of calls. */
  lemma {:induction false} LostExactly(log: seq<Fact>, n: nat, ip: string, d: nat)
    requires n <= |log|
    ensures LostBy(log, n, ip, d) <==> TallyOf(log, n, ip, d).since < TallyOf(log, n, ip, d).asks
  {
    if n > 0 {
      LostExactly(log, n - 1, ip, d);
      SomeOwn(log, n - 1, ip, d);
      if Drops(log[n - 1], d) && TallyOf(log, n - 1, ip, d).asks > 0 {
        var i :| 0 <= i < n - 1 && Own(log[i], ip, d);
        assert LostBy(log, n, ip, d);
      }
      if LostBy(log, n - 1, ip, d) {
        var i, j :| 0 <= i < j < n - 1 && Own(log[i], ip, d) && Drops(log[j], d);
        assert LostBy(log, n, ip, d);
      }
      if LostBy(log, n, ip, d) && !Drops(log[n - 1], d) {
        var i, j :| 0 <= i < j < n && Own(log[i], ip, d) && Drops(log[j], d);
        assert j < n - 1;
        assert LostBy(log, n - 1, ip, d);
      }
    }
  }

  /** Below the cap all calls are allowed; above it, exactly as many as the cap unless forgotten. */
  predicate Law(cap: nat, t: Tally, forgotten: bool) {
    && (t.asks <= cap ==> t.grants == t.asks)
    && Min(cap, t.asks) <= t.grants && (cap == 0 ==> t.grants == 0)
    && (!forgotten ==> t.grants == Min(cap, t.asks) && (t.since == t.asks || t.since == 0))
    && (forgotten && 0 < cap < t.asks ==> t.grants > cap)
  }

  lemma LawSnoc(cap: nat, t: Tally, forgotten: bool, f: Fact, ip: string, d: nat, forgotten': bool)
    requires Law(cap, t, forgotten) && t.since <= t.asks && (forgotten ==> t.since < t.asks)
    requires Own(f, ip, d) ==> (f.allowed <==> t.since < cap)
    requires forgotten' <==> forgotten || (Own(f, ip, d) && t.since < t.asks)
    ensures Law(cap, Counted(t, f, ip, d), forgotten')
  {}

  lemma ForgottenStep(log: seq<Fact>, n: nat, ip: string, d: nat)
    requires 0 < n <= |log|
    ensures ForgottenBy(log, n, ip, d) <==>
            ForgottenBy(log, n - 1, ip, d) || (Own(log[n - 1], ip, d) && LostBy(log, n - 1, ip, d))
  {}

  lemma ForgottenIsLost(log: seq<Fact>, n: nat, ip: string, d: nat)
    requires n <= |log|
    ensures ForgottenBy(log, n, ip, d) ==> LostBy(log, n, ip, d)
  {
    if ForgottenBy(log, n, ip, d) {
      var k :| 0 <= k < n && Own(log[k], ip, d) && LostBy(log, k, ip, d);
      var i, j :| 0 <= i < j < k && Own(log[i], ip, d) && Drops(log[j], d);
      assert LostBy(log, n, ip, d);
    }
  }

  lemma {:induction false} GrantsLaw(cap: nat, log: seq<Fact>, n: nat, ip: string, d: nat)
    requires n <= |log| && Answered(cap, log)
    ensures Law(cap, TallyOf(log, n, ip, d), ForgottenBy(log, n, ip, d))
  {
    if n > 0 {
      GrantsLaw(cap, log, n - 1, ip, d);
      SomeOwn(log, n - 1, ip, d);
      LostExactly(log, n - 1, ip, d);
      ForgottenStep(log, n, ip, d);
      ForgottenIsLost(log, n - 1, ip, d);
      LawSnoc(cap, TallyOf(log, n - 1, ip, d), ForgottenBy(log, n - 1, ip, d), log[n - 1], ip, d, ForgottenBy(log, n, ip, d));
    }
  }

  /** Fact k, if it is a call of this address and day, was allowed exactly if fewer than the cap came before. */
  predicate AsFirst(cap: nat, log: seq<Fact>, k: nat, ip: string, d: nat)
    requires k < |log|
  {
    Own(log[k], ip, d) ==> (log[k].allowed <==> TallyOf(log, k, ip, d).asks < cap)
  }

  /** The first `cap` calls among n facts are the ones allowed. */
  predicate FirstOnes(cap: nat, log: seq<Fact>, n: nat, ip: string, d: nat)
    requires n <= |log|
  {
    forall k :: 0 <= k < n ==> AsFirst(cap, log, k, ip, d)
  }

  lemma OneMoreFirst(cap: nat, t: Tally, f: Fact, ip: string, d: nat)
    requires t.grants == Min(cap, t.asks) && (Own(f, ip, d) ==> (f.allowed <==> t.asks < cap))
    ensures Counted(t, f, ip, d).grants == Min(cap, Counted(t, f, ip, d).asks)
  {}

  lemma {:induction false} FirstOnesAreCounted(cap: nat, log: seq<Fact>, n: nat, ip: string, d: nat)
    requires n <= |log| && FirstOnes(cap, log, n, ip, d)
    ensures TallyOf(log, n, ip, d).grants == Min(cap, TallyOf(log, n, ip, d).asks)
  {
    if n > 0 {
      FirstOnesAreCounted(cap, log, n - 1, ip, d);
      assert AsFirst(cap, log, n - 1, ip, d);
      OneMoreFirst(cap, TallyOf(log, n - 1, ip, d), log[n - 1], ip, d);
    }
  }

  lemma {:induction false} AsksBefore(log: seq<Fact>, k: nat, n: nat, ip: string, d: nat)
    requires k < n <= |log|
    ensures TallyOf(log, k, ip, d).asks + (if Own(log[k], ip, d) then 1 else 0) <= TallyOf(log, n, ip, d).asks
    decreases n
  {
    if k < n - 1 {
      AsksBefore(log, k, n - 1, ip, d);
    }
  }

  lemma AllowedAsFirst(cap: nat, log: seq<Fact>, k: nat, ip: string, d: nat)
    requires Answered(cap, log) && k < |log|
    requires cap == 0 || Tallied(log, ip, d).asks <= cap || !Forgotten(log, ip, d)
    ensures AsFirst(cap, log, k, ip, d)
  {
    SomeOwn(log, k, ip, d);
    AsksBefore(log, k, |log|, ip, d);
    LostExactly(log, k, ip, d);
    if Own(log[k], ip, d) && LostBy(log, k, ip, d) {
      assert ForgottenBy(log, |log|, ip, d);
      ForgottenByAll(log, ip, d);
    }
  }

  /** The first `dailyCap` calls of an address and day are the ones allowed, each by its position in
      the run, if and only if there were no more calls than that, or no trim for another day fell
      between two of them. */
  lemma GrantsAreTheFirstAsksExactly(cfg: Config, start: nat, es: seq<Event>, ip: string, d: nat)
    requires IsStamp(cfg.day) && ValidRun(cfg, Init(start), es)
    ensures var log := After(cfg, Init(start), es).log;
            var t := Tallied(log, ip, d);
            && (FirstOnes(cfg.dailyCap, log, |log|, ip, d) <==>
                cfg.dailyCap == 0 || t.asks <= cfg.dailyCap || !Forgotten(log, ip, d))
            && (t.grants == Min(cfg.dailyCap, t.asks) <==> FirstOnes(cfg.dailyCap, log, |log|, ip, d))
  {
    LawRun(cfg, Init(start), es);
    var log := After(cfg, Init(start), es).log;
    GrantsLaw(cfg.dailyCap, log, |log|, ip, d);
    ForgottenByAll(log, ip, d);
    if FirstOnes(cfg.dailyCap, log, |log|, ip, d) {
      FirstOnesAreCounted(cfg.dailyCap, log, |log|, ip, d);
    } else {
      var k :| 0 <= k < |log| && !AsFirst(cfg.dailyCap, log, k, ip, d);
      if cfg.dailyCap == 0 || Tallied(log, ip, d).asks <= cfg.dailyCap || !Forgotten(log, ip, d) {
        AllowedAsFirst(cfg.dailyCap, log, k, ip, d);
      }
    }
  }

  lemma CapTimes(cap: nat, drops: nat)
    ensures cap * (drops + 1) == cap * drops + cap
  {}

  lemma {:induction false} GrantsPerDrop(cap: nat, log: seq<Fact>, n: nat, ip: string, d: nat)
    requires n <= |log| && Answered(cap, log)
    ensures var t := TallyOf(log, n, ip, d); t.grants <= cap * t.drops + Min(cap, t.since)
  {
    if n > 0 {
      GrantsPerDrop(cap, log, n - 1, ip, d);
      CapTimes(cap, TallyOf(log, n - 1, ip, d).drops);
    }
  }

  /** However often that happens, each time adds at most another cap's worth. */
  lemma GrantsAreBounded(cfg: Config, start: nat, es: seq<Event>, ip: string, d: nat)
    requires IsStamp(cfg.day) && ValidRun(cfg, Init(start), es)
    ensures var t := Tallied(After(cfg, Init(start), es).log, ip, d);
            t.grants <= cfg.dailyCap * (t.drops + 1)
  {
    LawRun(cfg, Init(start), es);
    var log := After(cfg, Init(start), es).log;
    GrantsPerDrop(cfg.dailyCap, log, |log|, ip, d);
    CapTimes(cfg.dailyCap, Tallied(log, ip, d).drops);
  }

  // ---- Mints and failed puzzles ----------------------------------------------------------

  ghost predicate HasMinted(log: seq<Fact>, c: nat) {
    exists k :: 0 <= k < |log| && log[k].IssueMinted? && log[k].conn == c
  }

  ghost predicate HasAsked(log: seq<Fact>, c: nat) {
    exists k :: 0 <= k < |log| && log[k].Asked? && log[k].conn == c
  }

  /** Once a connection has minted, failed its puzzle or asked for quota it is past that point. */
  ghost predicate ConnPast(s: State, c: nat) {
    && (HasMinted(s.log, c) ==> c in s.conns && (s.conns[c].pc.Admitted? || s.conns[c].pc.Registered?))
    && (HasAsked(s.log, c) ==>
          c in s.conns &&
          (s.conns[c].pc.MintToken? || s.conns[c].pc.Admitted? || s.conns[c].pc.Registered? || s.conns[c].pc.Closed?))
    && (PuzzleFailed(c) in s.log ==>
          && c in s.conns && !HasAsked(s.log, c)
          && (s.conns[c].pc.CountStrike? || s.conns[c].pc.ArmCooldown? || s.conns[c].pc.Closed?))
  }

  ghost predicate MintsDistinct(log: seq<Fact>) {
    forall i, j :: 0 <= i < j < |log| && log[i].IssueMinted? && log[j].IssueMinted? ==> log[i].conn != log[j].conn
  }

  ghost predicate AsksDistinct(log: seq<Fact>) {
    forall i, j :: 0 <= i < j < |log| && log[i].Asked? && log[j].Asked? ==> log[i].conn != log[j].conn
  }

  ghost predicate PastOk(s: State) {
    MintsDistinct(s.log) && AsksDistinct(s.log) && forall c :: ConnPast(s, c)
  }

  lemma HistoryAppend(log: seq<Fact>, fs: seq<Fact>, c: nat)
    ensures HasMinted(log + fs, c) <==> HasMinted(log, c) || HasMinted(fs, c)
    ensures HasAsked(log + fs, c) <==> HasAsked(log, c) || HasAsked(fs, c)
    ensures PuzzleFailed(c) in log + fs <==> PuzzleFailed(c) in log || PuzzleFailed(c) in fs
  {
    var all := log + fs;
    if k :| 0 <= k < |all| && all[k].IssueMinted? && all[k].conn == c {
      assert k >= |log| ==> fs[k - |log|] == all[k];
    }
    if k :| 0 <= k < |all| && all[k].Asked? && all[k].conn == c {
      assert k >= |log| ==> fs[k - |log|] == all[k];
    }
    if k :| 0 <= k < |fs| && fs[k].IssueMinted? && fs[k].conn == c {
      assert all[|log| + k] == fs[k];
    }
    if k :| 0 <= k < |fs| && fs[k].Asked? && fs[k].conn == c {
      assert all[|log| + k] == fs[k];
    }
    if k :| 0 <= k < |log| && log[k].IssueMinted? && log[k].conn == c {
      assert all[k] == log[k];
    }
    if k :| 0 <= k < |log| && log[k].Asked? && log[k].conn == c {
      assert all[k] == log[k];
    }
  }

  lemma FactsAreTheMovers(cfg: Config, s: State, e: Event)
    requires Enabled(s, e) && Mover(e).Some?
    ensures forall f :: f in Handle(cfg, s, e).facts ==> f.conn == Mover(e).value
  {}

  /** Which steps write which facts. */
  lemma FactKinds(cfg: Config, s: State, e: Event)
    requires Enabled(s, e) && Mover(e).Some?
    ensures var c, fs := Mover(e).value, Handle(cfg, s, e).facts;
            && (HasAsked(fs, c) ==> e.Ask? && e.storeOk)
            && (HasMinted(fs, c) ==> e.Issue? && e.storeOk)
            && (PuzzleFailed(c) in fs ==> e.Solve? && e.solution != Right)
  {}

  lemma MoverPast(cfg: Config, s: State, e: Event)
    requires Enabled(s, e) && Mover(e).Some? && ConnPast(s, Mover(e).value)
    ensures ConnPast(Next(cfg, s, e), Mover(e).value)
  {
    HistoryAppend(s.log, Handle(cfg, s, e).facts, Mover(e).value);
    FactKinds(cfg, s, e);
  }

  lemma ConnPastStep(cfg: Config, s: State, e: Event, c: nat)
    requires Enabled(s, e) && ConnPast(s, c)
    ensures ConnPast(Next(cfg, s, e), c)
  {
    if Mover(e).Some? {
      FactsAreTheMovers(cfg, s, e);
      HistoryAppend(s.log, Handle(cfg, s, e).facts, c);
      if Mover(e).value == c {
        MoverPast(cfg, s, e);
      }
    }
  }

  lemma MintsStep(cfg: Config, s: State, e: Event)
    requires Enabled(s, e) && PastOk(s)
    ensures MintsDistinct(Next(cfg, s, e).log)
  {
    var t := Next(cfg, s, e);
    if e.Issue? && e.storeOk {
      assert ConnPast(s, e.conn);
      assert !HasMinted(s.log, e.conn);
    } else if Mover(e).Some? {
      var fs := Handle(cfg, s, e).facts;
      assert forall k :: 0 <= k < |fs| ==> !fs[k].IssueMinted?;
      assert forall j :: |s.log| <= j < |t.log| ==> t.log[j] == fs[j - |s.log|];
    }
  }

  lemma DistinctSnoc(log: seq<Fact>, f: Fact)
    requires AsksDistinct(log) && (f.Asked? ==> !HasAsked(log, f.conn))
    ensures AsksDistinct(log + [f])
  {}

  lemma {:induction false} DistinctBy(log: seq<Fact>, fs: seq<Fact>)
    requires AsksDistinct(log) && forall f :: f in fs ==> !f.Asked?
    ensures AsksDistinct(log + fs)
    decreases |fs|
  {
    if fs == [] {
      assert log + fs == log;
    } else {
      DistinctSnoc(log, fs[0]);
      DistinctBy(log + [fs[0]], fs[1..]);
      assert log + [fs[0]] + fs[1..] == log + fs;
    }
  }

  lemma AsksStep(cfg: Config, s: State, e: Event)
    requires Enabled(s, e) && PastOk(s)
    ensures AsksDistinct(Next(cfg, s, e).log)
  {
    if e.Ask? && e.storeOk {
      AskFacts(cfg, s, e.conn);
      assert ConnPast(s, e.conn);
      var fs := Handle(cfg, s, e).facts;
      DistinctSnoc(s.log, fs[0]);
      DistinctBy(s.log + [fs[0]], fs[1..]);
      assert s.log + [fs[0]] + fs[1..] == s.log + fs;
    } else if Mover(e).Some? {
      OtherSteps(cfg, s, e);
      DistinctBy(s.log, Handle(cfg, s, e).facts);
    }
  }

  lemma PastStep(cfg: Config, s: State, e: Event)
    requires PastOk(s) && Enabled(s, e)
    ensures PastOk(Next(cfg, s, e))
  {
    MintsStep(cfg, s, e);
    AsksStep(cfg, s, e);
    forall c ensures ConnPast(Next(cfg, s, e), c) {
      ConnPastStep(cfg, s, e, c);
    }
  }

  lemma {:induction false} PastRun(cfg: Config, s: State, es: seq<Event>)
    requires PastOk(s) && ValidRun(cfg, s, es)
    ensures PastOk(After(cfg, s, es))
    decreases |es|
  {
    if es != [] {
      PastStep(cfg, s, es[0]);
      PastRun(cfg, Next(cfg, s, es[0]), es[1..]);
    }
  }

  /** A connection mints at most once on the issuance path, and one whose puzzle failed never
      touches the daily counter. */
  lemma OneMintAndNoQuotaForFailures(cfg: Config, start: nat, es: seq<Event>)
    requires ValidRun(cfg, Init(start), es)
    ensures var log := After(cfg, Init(start), es).log;
            MintsDistinct(log) && forall c :: PuzzleFailed(c) in log ==> !HasAsked(log, c)
  {
    PastRun(cfg, Init(start), es);
    var s := After(cfg, Init(start), es);
    forall c | PuzzleFailed(c) in s.log ensures !HasAsked(s.log, c) {
      assert ConnPast(s, c);
    }
  }

  // ---- Connections within the cap -------------------------------------------------------------

  function Grantees(log: seq<Fact>, n: nat, ip: string, d: nat): set<nat>
    requires n <= |log|
  {
    set k | 0 <= k < n && Own(log[k], ip, d) && log[k].allowed :: log[k].conn
  }

  function Minters(log: seq<Fact>, n: nat, ip: string, d: nat): set<nat>
    requires n <= |log|
  {
    set k | 0 <= k < n && log[k].IssueMinted? && log[k].ip == ip && log[k].day == d :: log[k].conn
  }

  lemma GranteesSnoc(log: seq<Fact>, n: nat, ip: string, d: nat)
    requires 0 < n <= |log| && AsksDistinct(log)
    ensures var before, f := Grantees(log, n - 1, ip, d), log[n - 1];
            Grantees(log, n, ip, d) == (if Own(f, ip, d) && f.allowed then before + {f.conn} else before) &&
            (f.Asked? ==> f.conn !in before)
  {}

  lemma {:induction false} GranteesAreGrants(log: seq<Fact>, n: nat, ip: string, d: nat)
    requires n <= |log| && AsksDistinct(log)
    ensures |Grantees(log, n, ip, d)| == TallyOf(log, n, ip, d).grants
  {
    if n == 0 {
      assert Grantees(log, 0, ip, d) == {};
    } else {
      GranteesSnoc(log, n, ip, d);
      GranteesAreGrants(log, n - 1, ip, d);
    }
  }

  lemma MintersSnoc(log: seq<Fact>, n: nat, ip: string, d: nat)
    requires 0 < n <= |log| && MintsDistinct(log)
    ensures var before, f := Minters(log, n - 1, ip, d), log[n - 1];
            Minters(log, n, ip, d) == (if f.IssueMinted? && f.ip == ip && f.day == d then before + {f.conn} else before) &&
            (f.IssueMinted? ==> f.conn !in before)
  {}

  lemma {:induction false} MintersAreMints(log: seq<Fact>, n: nat, ip: string, d: nat)
    requires n <= |log| && MintsDistinct(log)
    ensures |Minters(log, n, ip, d)| == TallyOf(log, n, ip, d).mints
  {
    if n == 0 {
      assert Minters(log, 0, ip, d) == {};
    } else {
      MintersSnoc(log, n, ip, d);
      MintersAreMints(log, n - 1, ip, d);
    }
  }

  /** Not more connections of an address are let through to the mint for a day than the cap, if and
      only if it asked no more often than that or no trim for another day fell between its calls. */
  lemma GranteesWithinCapExactly(cfg: Config, start: nat, es: seq<Event>, ip: string, d: nat)
    requires IsStamp(cfg.day) && ValidRun(cfg, Init(start), es)
    ensures var log := After(cfg, Init(start), es).log;
            |Grantees(log, |log|, ip, d)| <= cfg.dailyCap <==>
            cfg.dailyCap == 0 || Tallied(log, ip, d).asks <= cfg.dailyCap || !Forgotten(log, ip, d)
  {
    PastRun(cfg, Init(start), es);
    LawRun(cfg, Init(start), es);
    var log := After(cfg, Init(start), es).log;
    GranteesAreGrants(log, |log|, ip, d);
    GrantsLaw(cfg.dailyCap, log, |log|, ip, d);
    ForgottenByAll(log, ip, d);
  }

  lemma MintersWereGranted(cfg: Config, log: seq<Fact>, ip: string, d: nat)
    requires LogOk(cfg, log)
    ensures Minters(log, |log|, ip, d) <= Grantees(log, |log|, ip, d)
  {
    forall c | c in Minters(log, |log|, ip, d) ensures c in Grantees(log, |log|, ip, d) {
      var k :| 0 <= k < |log| && log[k] == IssueMinted(c, ip, d);
      assert FactOk(cfg, log[..k], log[k]);
      var j :| 0 <= j < k && log[..k][j] == Asked(c, ip, d, true);
      assert Own(log[j], ip, d) && log[j].allowed && log[j].conn == c;
    }
  }

  /** Only connections let through mint, so within those limits no more than the cap do. */
  lemma MintersWithinCap(cfg: Config, start: nat, es: seq<Event>, ip: string, d: nat)
    requires IsStamp(cfg.day) && ValidRun(cfg, Init(start), es)
    ensures var log := After(cfg, Init(start), es).log;
            && Minters(log, |log|, ip, d) <= Grantees(log, |log|, ip, d)
            && (Tallied(log, ip, d).asks <= cfg.dailyCap || !Forgotten(log, ip, d) ==> |Minters(log, |log|, ip, d)| <= cfg.dailyCap)
  {
    InvRun(cfg, Init(start), es);
    var log := After(cfg, Init(start), es).log;
    MintersWereGranted(cfg, log, ip, d);
    SubsetSize(Minters(log, |log|, ip, d), Grantees(log, |log|, ip, d));
    GranteesWithinCapExactly(cfg, start, es, ip, d);
  }
}
