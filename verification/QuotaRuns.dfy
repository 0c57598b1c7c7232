/** Runs that exceed the daily cap: address "x" spends its quota of day one while calls of address "o",
    which read day zero, wait for the lock. Each of them, once other addresses have filled the map,
    drops the counter of "x", which then has the whole quota again. Every connection has a challenge
    of its own and mints a token of its own. */
module QuotaRuns {
  import opened Counters
  import opened Handshake
  import opened HandshakeQuota
  import opened HandshakeRuns

  // ---- The states on the way -------------------------------------------------------------------

  function OfX(s: State): Tally {
    Tallied(s.log, "x", 1)
  }

  /** Connections below t hold day zero for "o", those from n on are unused, and nobody is punished. */
  predicate Seating(ps: seq<Passport>, s: State, n: nat, t: nat) {
    && t <= n <= |ps| && s.cooldown == map[]
    && (forall c :: c in s.conns ==> c < n && s.conns[c].challenge == ps[c].challenge)
    && (forall c: nat :: c < t ==> c in s.conns && s.conns[c] == Conn("o", ps[c].challenge, AskAt(ps[c].who, 0)))
  }

  /** In day one, with n connections so far and t stale calls waiting. */
  ghost predicate Ready(cfg: Config, ps: seq<Passport>, s: State, n: nat, t: nat) {
    s.now / DAY == 1 && Seating(ps, s, n, t) && Lawful(cfg, s)
  }

  /** One more connection, waiting with day zero or past that point. */
  lemma SeatOneMore(ps: seq<Passport>, s: State, u: State, n: nat, t: nat, ip: string, pc: Pc)
    requires Seating(ps, s, n, t) && n < |ps| && u.cooldown == s.cooldown
    requires u.conns == s.conns[n := Conn(ip, ps[n].challenge, pc)]
    ensures Seating(ps, u, n + 1, t)
    ensures t == n && ip == "o" && pc == AskAt(ps[n].who, 0) ==> Seating(ps, u, n + 1, n + 1)
  {}

  lemma SeatMoved(ps: seq<Passport>, s: State, u: State, n: nat, t: nat, ip: string, pc: Pc)
    requires Seating(ps, s, n + 1, t) && t <= n && u.cooldown == s.cooldown
    requires u.conns == s.conns[n := Conn(ip, ps[n].challenge, pc)]
    ensures Seating(ps, u, n + 1, t)
  {}

  lemma IsReady(cfg: Config, ps: seq<Passport>, u: State, n: nat, t: nat)
    requires u.now / DAY == 1 && Seating(ps, u, n, t) && Lawful(cfg, u)
    ensures Ready(cfg, ps, u, n, t)
  {}

  /** A call with today's date: counted, and allowed if the counter stood below the cap. */
  lemma Call(cfg: Config, ps: seq<Passport>, p: Passport, s: State, c: nat, ip: string) returns (u: State)
    requires IsStamp(cfg.day) && Lawful(cfg, s)
    requires c in s.conns && s.conns[c] == Conn(ip, p.challenge, AskAt(p.who, 1))
    ensures Reaches(cfg, ps, s, [Ask(c, true)], u) && Lawful(cfg, u) && u.now == s.now && u.cooldown == s.cooldown
    ensures u.issuance == Bumped(s.issuance, IssuanceKey(cfg, ip, 1), cfg.day(1))
    ensures var allowed := Count(s.issuance, IssuanceKey(cfg, ip, 1)) < cfg.dailyCap;
            && u.conns == s.conns[c := Conn(ip, p.challenge, if allowed then MintToken(p.who, 1) else Closed)]
            && OfX(u) == Counted(OfX(s), Asked(c, ip, 1, allowed), "x", 1)
  {
    u := Next(cfg, s, Ask(c, true));
    Step(cfg, ps, s, Ask(c, true), u);
    LawStep(cfg, s, Ask(c, true));
    AskFacts(cfg, s, c);
    var asked := Asked(c, ip, 1, Count(s.issuance, IssuanceKey(cfg, ip, 1)) < cfg.dailyCap);
    BumpCountsExactly(s.issuance, "issuance:", ip, cfg.day(1), ip, cfg.day(1));
    TallySnoc(s.log, asked, "x", 1);
    TallySnoc(s.log + [asked], Trimmed(c, 1), "x", 1);
    assert u.log == s.log + [asked] || u.log == s.log + [asked] + [Trimmed(c, 1)];
  }

  lemma Mint(cfg: Config, ps: seq<Passport>, p: Passport, s: State, c: nat, ip: string) returns (u: State)
    requires IsStamp(cfg.day) && Lawful(cfg, s)
    requires c in s.conns && s.conns[c] == Conn(ip, p.challenge, MintToken(p.who, 1)) && c < |ps| && p == ps[c]
    ensures Reaches(cfg, ps, s, [Issue(c, true, p.minted)], u) && Lawful(cfg, u) && u.now == s.now && u.issuance == s.issuance
    ensures u.cooldown == s.cooldown && u.conns == s.conns[c := Conn(ip, p.challenge, Admitted(p.who))]
    ensures OfX(u) == Counted(OfX(s), IssueMinted(c, ip, 1), "x", 1)
  {
    u := Next(cfg, s, Issue(c, true, p.minted));
    Step(cfg, ps, s, Issue(c, true, p.minted), u);
    LawStep(cfg, s, Issue(c, true, p.minted));
    TallySnoc(s.log, IssueMinted(c, ip, 1), "x", 1);
  }

  /** What one whole handshake of an address adds to the tally of "x". */
  function Served(cap: nat, t: Tally, ip: string): Tally {
    if ip != "x" then t
    else if t.since < cap then t.(asks := t.asks + 1, grants := t.grants + 1, mints := t.mints + 1, since := t.since + 1)
    else t.(asks := t.asks + 1, since := t.since + 1)
  }

  lemma Entered(cfg: Config, ps: seq<Passport>, p: Passport, s: State, n: nat, ip: string) returns (es: seq<Event>, u: State)
    requires IsStamp(cfg.day) && Holds(cfg, p) && s.cooldown == map[] && n !in s.conns && Lawful(cfg, s)
    ensures Reaches(cfg, ps, s, es, u) && Lawful(cfg, u) && u.now == s.now && u.issuance == s.issuance && OfX(u) == OfX(s)
    ensures u.cooldown == s.cooldown && u.conns == s.conns[n := Conn(ip, p.challenge, AskAt(p.who, s.now / DAY))]
  {
    var facts;
    es, facts := Enter(cfg, ps, p, s, n, ip);
    u := At(s, n, ip, p, AskAt(p.who, s.now / DAY), facts);
    LawRun(cfg, s, es);
    TallyUnaffected(s.log, facts, "x", 1);
  }

  /** Its call, and its mint if it was allowed. */
  lemma CallAndMint(cfg: Config, ps: seq<Passport>, p: Passport, s: State, n: nat, ip: string) returns (es: seq<Event>, u: State, pc: Pc)
    requires IsStamp(cfg.day) && Lawful(cfg, s) && n in s.conns && s.conns[n] == Conn(ip, p.challenge, AskAt(p.who, 1))
    requires n < |ps| && p == ps[n]
    ensures Reaches(cfg, ps, s, es, u) && Lawful(cfg, u) && u.now == s.now && u.cooldown == s.cooldown
    ensures u.conns == s.conns[n := Conn(ip, p.challenge, pc)]
    ensures u.issuance == Bumped(s.issuance, IssuanceKey(cfg, ip, 1), cfg.day(1)) && OfX(u) == Served(cfg.dailyCap, OfX(s), ip)
  {
    u := Call(cfg, ps, p, s, n, ip);
    es, pc := [Ask(n, true)], u.conns[n].pc;
    assert Count(s.issuance, IssuanceKey(cfg, "x", 1)) == OfX(s).since;
    if pc.MintToken? {
      var called := u;
      u := Mint(cfg, ps, p, called, n, ip);
      Then(cfg, ps, s, es, called, [Issue(n, true, p.minted)], u);
      es, pc := es + [Issue(n, true, p.minted)], Admitted(p.who);
    }
  }

  lemma Serve(cfg: Config, ps: seq<Passport>, s: State, n: nat, t: nat, ip: string) returns (es: seq<Event>, u: State)
    requires IsStamp(cfg.day) && AllHold(cfg, ps) && Ready(cfg, ps, s, n, t) && n < |ps|
    ensures Reaches(cfg, ps, s, es, u) && Ready(cfg, ps, u, n + 1, t)
    ensures u.issuance == Bumped(s.issuance, IssuanceKey(cfg, ip, 1), cfg.day(1)) && OfX(u) == Served(cfg.dailyCap, OfX(s), ip)
  {
    var enter, mid := Entered(cfg, ps, ps[n], s, n, ip);
    var call, pc;
    call, u, pc := CallAndMint(cfg, ps, ps[n], mid, n, ip);
    Then(cfg, ps, s, enter, mid, call, u);
    es := enter + call;
    SeatOneMore(ps, s, mid, n, t, ip, AskAt(ps[n].who, 1));
    SeatMoved(ps, mid, u, n, t, ip, pc);
    IsReady(cfg, ps, u, n + 1, t);
  }

  // ---- "x" spends its quota --------------------------------------------------------------------------

  /** The map is far from full, before and after "x" is in it. */
  predicate Small(cfg: Config, s: State) {
    |s.issuance| <= if Count(s.issuance, IssuanceKey(cfg, "x", 1)) == 0 then 1 else 2
  }

  lemma SmallStays(cfg: Config, s: State, u: State)
    requires IsStamp(cfg.day) && Small(cfg, s) && u.issuance == Bumped(s.issuance, IssuanceKey(cfg, "x", 1), cfg.day(1))
    ensures Small(cfg, u)
  {
    var m, key := s.issuance, IssuanceKey(cfg, "x", 1);
    assert m[key := Count(m, key) + 1].Keys == m.Keys + {key};
    assert Count(m, key) > 0 ==> key in m.Keys && m.Keys + {key} == m.Keys;
  }

  lemma {:induction false} Spend(cfg: Config, ps: seq<Passport>, s: State, n: nat, t: nat, m: nat)
    returns (es: seq<Event>, u: State)
    requires IsStamp(cfg.day) && AllHold(cfg, ps) && Ready(cfg, ps, s, n, t) && Small(cfg, s)
    requires OfX(s).since + m == cfg.dailyCap && n + m <= |ps|
    ensures Reaches(cfg, ps, s, es, u) && Ready(cfg, ps, u, n + m, t) && Small(cfg, u)
    ensures OfX(u) == OfX(s).(asks := OfX(s).asks + m, grants := OfX(s).grants + m, mints := OfX(s).mints + m, since := cfg.dailyCap)
    decreases m
  {
    if m == 0 {
      es, u := [], s;
    } else {
      var one, mid := Serve(cfg, ps, s, n, t, "x");
      SmallStays(cfg, s, mid);
      var rest;
      rest, u := Spend(cfg, ps, mid, n + 1, t, m - 1);
      Then(cfg, ps, s, one, mid, rest, u);
      es := one + rest;
    }
  }

  // ---- Other addresses fill the map --------------------------------------------------------------------

  lemma {:induction false} ServeMany(cfg: Config, ps: seq<Passport>, s: State, n: nat, t: nat, ips: seq<string>)
    returns (es: seq<Event>, u: State)
    requires IsStamp(cfg.day) && AllHold(cfg, ps) && Ready(cfg, ps, s, n, t) && "x" !in ips && n + |ips| <= |ps|
    ensures Reaches(cfg, ps, s, es, u) && Ready(cfg, ps, u, n + |ips|, t) && OfX(u) == OfX(s)
    ensures u.issuance == BumpedBy(s.issuance, "issuance:", ips, cfg.day(1))
    decreases |ips|
  {
    if ips == [] {
      es, u := [], s;
    } else {
      var one, mid := Serve(cfg, ps, s, n, t, ips[0]);
      var rest;
      rest, u := ServeMany(cfg, ps, mid, n + 1, t, ips[1..]);
      Then(cfg, ps, s, one, mid, rest, u);
      es := one + rest;
    }
  }

  lemma Crowd(cfg: Config, ps: seq<Passport>, s: State, n: nat, t: nat) returns (es: seq<Event>, u: State, n': nat)
    requires IsStamp(cfg.day) && AllHold(cfg, ps) && Ready(cfg, ps, s, n, t) && Small(cfg, s) && n + TRIM_ABOVE <= |ps|
    ensures Reaches(cfg, ps, s, es, u) && n' <= n + TRIM_ABOVE && Ready(cfg, ps, u, n', t) && OfX(u) == OfX(s)
    ensures |u.issuance| == TRIM_ABOVE && forall key :: key in u.issuance ==> Current(key, cfg.day(1))
  {
    var ips := FillUp(s.issuance, "issuance:", cfg.day(1), "x");
    es, u := ServeMany(cfg, ps, s, n, t, ips);
    n' := n + |ips|;
  }

  // ---- A stale call drops the counter of "x" -------------------------------------------------------------

  lemma StaleFacts(cfg: Config, ps: seq<Passport>, s: State, c: nat)
    requires IsStamp(cfg.day) && c in s.conns && c < |ps| && s.conns[c] == Conn("o", ps[c].challenge, AskAt(ps[c].who, 0))
    requires |s.issuance| == TRIM_ABOVE && forall key :: key in s.issuance ==> Current(key, cfg.day(1))
    ensures var allowed := 0 < cfg.dailyCap;
            Handle(cfg, s, Ask(c, true)).facts == [Asked(c, "o", 0, allowed)] + [Trimmed(c, 0)]
    ensures |Next(cfg, s, Ask(c, true)).issuance| == 1
  {
    assert cfg.day(0) != cfg.day(1);
    StaleCallForgets(s.issuance, "issuance:", "o", cfg.day(0), cfg.day(1));
    AskFacts(cfg, s, c);
  }

  lemma StaleTally(cfg: Config, ps: seq<Passport>, s: State, c: nat)
    requires IsStamp(cfg.day) && c in s.conns && c < |ps| && s.conns[c] == Conn("o", ps[c].challenge, AskAt(ps[c].who, 0))
    requires |s.issuance| == TRIM_ABOVE && (forall key :: key in s.issuance ==> Current(key, cfg.day(1))) && OfX(s).since > 0
    ensures OfX(Next(cfg, s, Ask(c, true))) == OfX(s).(since := 0, drops := OfX(s).drops + 1)
  {
    var asked := Asked(c, "o", 0, 0 < cfg.dailyCap);
    StaleFacts(cfg, ps, s, c);
    assert Next(cfg, s, Ask(c, true)).log == s.log + [asked] + [Trimmed(c, 0)];
    TallySnoc(s.log, asked, "x", 1);
    TallySnoc(s.log + [asked], Trimmed(c, 0), "x", 1);
  }

  lemma SmallAfter(cfg: Config, u: State)
    requires Lawful(cfg, u) && |u.issuance| == 1 && OfX(u).since == 0
    ensures Small(cfg, u)
  {
    assert Count(u.issuance, IssuanceKey(cfg, "x", 1)) == OfX(u).since;
  }

  lemma StaleEffect(cfg: Config, ps: seq<Passport>, s: State, c: nat, u: State)
    requires IsStamp(cfg.day) && c in s.conns && c < |ps| && s.conns[c] == Conn("o", ps[c].challenge, AskAt(ps[c].who, 0)) && Lawful(cfg, s)
    requires |s.issuance| == TRIM_ABOVE && (forall key :: key in s.issuance ==> Current(key, cfg.day(1))) && OfX(s).since > 0
    requires u == Next(cfg, s, Ask(c, true))
    ensures Reaches(cfg, ps, s, [Ask(c, true)], u)
    ensures Lawful(cfg, u)
    ensures Small(cfg, u)
    ensures OfX(u) == OfX(s).(since := 0, drops := OfX(s).drops + 1)
  {
    Step(cfg, ps, s, Ask(c, true), u);
    LawStep(cfg, s, Ask(c, true));
    StaleFacts(cfg, ps, s, c);
    StaleTally(cfg, ps, s, c);
    SmallAfter(cfg, u);
  }

  lemma StaleSeating(cfg: Config, ps: seq<Passport>, s: State, n: nat, t: nat, u: State)
    requires Seating(ps, s, n, t) && t > 0 && u == Next(cfg, s, Ask(t - 1, true))
    ensures Seating(ps, u, n, t - 1) && u.now == s.now
  {}

  lemma StaleCall(cfg: Config, ps: seq<Passport>, s: State, n: nat, t: nat) returns (u: State)
    requires IsStamp(cfg.day) && Ready(cfg, ps, s, n, t) && t > 0 && OfX(s).since > 0
    requires |s.issuance| == TRIM_ABOVE && forall key :: key in s.issuance ==> Current(key, cfg.day(1))
    ensures Reaches(cfg, ps, s, [Ask(t - 1, true)], u) && Ready(cfg, ps, u, n, t - 1) && Small(cfg, u)
    ensures OfX(u) == OfX(s).(since := 0, drops := OfX(s).drops + 1)
  {
    u := Next(cfg, s, Ask(t - 1, true));
    StaleSeating(cfg, ps, s, n, t, u);
    StaleEffect(cfg, ps, s, t - 1, u);
    IsReady(cfg, ps, u, n, t - 1);
  }

  // ---- The whole run ----------------------------------------------------------------------------------------

  function CapWorth(cap: nat, times: nat): nat {
    if times == 0 then 0 else CapWorth(cap, times - 1) + cap
  }

  lemma {:induction false} CapWorthIsProduct(cap: nat, times: nat)
    ensures CapWorth(cap, times) == cap * times
  {
    if times > 0 {
      CapWorthIsProduct(cap, times - 1);
      CapTimes(cap, times - 1);
    }
  }

  /** The connections that it takes to spend the quota and lose the counter this often. */
  function Needed(cap: nat, times: nat): nat {
    if times == 0 then 0 else Needed(cap, times - 1) + cap + TRIM_ABOVE
  }

  /** The waiting ones, those, and one more quota. */
  function Connections(cap: nat, times: nat): nat {
    times + Needed(cap, times) + cap
  }

  /** After spending its quota and losing its counter this often. */
  predicate Spent(cfg: Config, s: State, grants: nat, times: nat) {
    OfX(s).grants == OfX(s).mints == grants && OfX(s).since == 0 && OfX(s).drops == times
  }

  lemma SpendAndLose(cfg: Config, ps: seq<Passport>, s: State, n: nat, t: nat, times: nat)
    returns (es: seq<Event>, u: State, n': nat)
    requires IsStamp(cfg.day) && AllHold(cfg, ps) && cfg.dailyCap > 0
    requires Ready(cfg, ps, s, n, t) && Small(cfg, s) && t > 0 && Spent(cfg, s, CapWorth(cfg.dailyCap, times), times)
    requires n + cfg.dailyCap + TRIM_ABOVE <= |ps|
    ensures Reaches(cfg, ps, s, es, u) && n' <= n + cfg.dailyCap + TRIM_ABOVE && Ready(cfg, ps, u, n', t - 1) && Small(cfg, u)
    ensures Spent(cfg, u, CapWorth(cfg.dailyCap, times + 1), times + 1)
  {
    var spend, s1 := Spend(cfg, ps, s, n, t, cfg.dailyCap);
    var crowd, s2;
    crowd, s2, n' := Crowd(cfg, ps, s1, n + cfg.dailyCap, t);
    Then(cfg, ps, s, spend, s1, crowd, s2);
    u := StaleCall(cfg, ps, s2, n', t);
    Then(cfg, ps, s, spend + crowd, s2, [Ask(t - 1, true)], u);
    es := spend + crowd + [Ask(t - 1, true)];
  }

  lemma {:induction false} LoseMany(cfg: Config, ps: seq<Passport>, s: State, n: nat, t: nat, total: nat)
    returns (es: seq<Event>, u: State, n': nat)
    requires IsStamp(cfg.day) && AllHold(cfg, ps) && cfg.dailyCap > 0 && t <= total
    requires Ready(cfg, ps, s, n, t) && Small(cfg, s) && Spent(cfg, s, CapWorth(cfg.dailyCap, total - t), total - t)
    requires n + Needed(cfg.dailyCap, t) <= |ps|
    ensures Reaches(cfg, ps, s, es, u) && n' <= n + Needed(cfg.dailyCap, t) && Ready(cfg, ps, u, n', 0) && Small(cfg, u)
    ensures Spent(cfg, u, CapWorth(cfg.dailyCap, total), total)
    decreases t
  {
    if t == 0 {
      es, u, n' := [], s, n;
    } else {
      var one, mid, n1 := SpendAndLose(cfg, ps, s, n, t, total - t);
      var rest;
      rest, u, n' := LoseMany(cfg, ps, mid, n1, t - 1, total);
      Then(cfg, ps, s, one, mid, rest, u);
      es := one + rest;
    }
  }

  /** On day zero, with t calls of "o" waiting and nothing counted. */
  ghost predicate Waiting(cfg: Config, ps: seq<Passport>, s: State, t: nat) {
    s.now == 0 && s.issuance == map[] && Seating(ps, s, t, t) && Lawful(cfg, s) && OfX(s) == Tally(0, 0, 0, 0, 0)
  }

  lemma WaitOneMore(cfg: Config, ps: seq<Passport>, s: State, t: nat) returns (es: seq<Event>, u: State)
    requires IsStamp(cfg.day) && AllHold(cfg, ps) && Waiting(cfg, ps, s, t) && t < |ps|
    ensures Reaches(cfg, ps, s, es, u) && Waiting(cfg, ps, u, t + 1)
  {
    es, u := Entered(cfg, ps, ps[t], s, t, "o");
    SeatOneMore(ps, s, u, t, t, "o", AskAt(ps[t].who, 0));
  }

  lemma {:induction false} ManyWait(cfg: Config, ps: seq<Passport>, t: nat) returns (es: seq<Event>, u: State)
    requires IsStamp(cfg.day) && AllHold(cfg, ps) && t <= |ps|
    ensures Reaches(cfg, ps, Init(0), es, u) && Waiting(cfg, ps, u, t)
    decreases t
  {
    if t == 0 {
      es, u := [], Init(0);
    } else {
      var before, mid := ManyWait(cfg, ps, t - 1);
      var one;
      one, u := WaitOneMore(cfg, ps, mid, t - 1);
      Then(cfg, ps, Init(0), before, mid, one, u);
      es := before + one;
    }
  }

  lemma NextDay(cfg: Config, ps: seq<Passport>, s: State, t: nat) returns (u: State)
    requires IsStamp(cfg.day) && Waiting(cfg, ps, s, t)
    ensures Reaches(cfg, ps, s, [Tick(DAY)], u) && Ready(cfg, ps, u, t, t) && Small(cfg, u) && OfX(u) == OfX(s)
  {
    u := s.(now := DAY);
    Step(cfg, ps, s, Tick(DAY), u);
    LawStep(cfg, s, Tick(DAY));
  }

  predicate ChallengesFrom(ps: seq<Passport>, s: State) {
    forall c :: c in s.conns ==> c < |ps| && s.conns[c].challenge == ps[c].challenge
  }

  lemma LoseAndSpend(cfg: Config, ps: seq<Passport>, s: State, t: nat) returns (es: seq<Event>, u: State)
    requires IsStamp(cfg.day) && AllHold(cfg, ps) && cfg.dailyCap > 0
    requires Ready(cfg, ps, s, t, t) && Small(cfg, s) && OfX(s) == Tally(0, 0, 0, 0, 0)
    requires Connections(cfg.dailyCap, t) <= |ps|
    ensures Reaches(cfg, ps, s, es, u) && ChallengesFrom(ps, u)
    ensures OfX(u).drops == t && OfX(u).grants == OfX(u).mints == CapWorth(cfg.dailyCap, t + 1)
  {
    var lose, mid, n := LoseMany(cfg, ps, s, t, t, t);
    var last;
    last, u := Spend(cfg, ps, mid, n, 0, cfg.dailyCap);
    Then(cfg, ps, s, lose, mid, last, u);
    es := lose + last;
  }

  lemma WholeRun(cfg: Config, ps: seq<Passport>, times: nat) returns (es: seq<Event>, u: State)
    requires IsStamp(cfg.day) && AllHold(cfg, ps) && cfg.dailyCap > 0 && Connections(cfg.dailyCap, times) <= |ps|
    ensures Reaches(cfg, ps, Init(0), es, u) && ChallengesFrom(ps, u)
    ensures OfX(u).drops == times && OfX(u).grants == OfX(u).mints == CapWorth(cfg.dailyCap, times + 1)
  {
    var wait, s1 := ManyWait(cfg, ps, times);
    var s2 := NextDay(cfg, ps, s1, times);
    Then(cfg, ps, Init(0), wait, s1, [Tick(DAY)], s2);
    var rest;
    rest, u := LoseAndSpend(cfg, ps, s2, times);
    Then(cfg, ps, Init(0), wait + [Tick(DAY)], s2, rest, u);
    es := wait + [Tick(DAY)] + rest;
  }

  /** For every cap and every number of times the counter is dropped, some run lets one address
      through, and mint, that many caps' worth more than one for a single day, with a challenge and
      a token of its own for every connection. */
  lemma OvertakenDaysExceedTheCap(cfg: Config, ps: seq<Passport>, times: nat) returns (es: seq<Event>)
    requires IsStamp(cfg.day) && AllHold(cfg, ps) && cfg.dailyCap > 0 && Connections(cfg.dailyCap, times) <= |ps|
    ensures ValidRun(cfg, Init(0), es) && ChallengesDiffer(After(cfg, Init(0), es)) && MintsOwn(ps, es)
    ensures var log := After(cfg, Init(0), es).log;
            && Tallied(log, "x", 1).drops == times && Tallied(log, "x", 1).grants == cfg.dailyCap * (times + 1)
            && |Minters(log, |log|, "x", 1)| == cfg.dailyCap * (times + 1)
  {
    var u;
    es, u := WholeRun(cfg, ps, times);
    CapWorthIsProduct(cfg.dailyCap, times + 1);
    PastRun(cfg, Init(0), es);
    MintersAreMints(u.log, |u.log|, "x", 1);
  }

  /** No challenge comes twice, and the counter of this address and day is dropped this often. */
  predicate RunDrops(cfg: Config, start: nat, es: seq<Event>, ip: string, d: nat, times: nat) {
    && ValidRun(cfg, Init(start), es) && ChallengesDiffer(After(cfg, Init(start), es))
    && Tallied(After(cfg, Init(start), es).log, ip, d).drops == times
  }

  lemma MoreThanOne(cap: nat, times: nat)
    requires cap > 0 && times > 0
    ensures cap * (times + 1) > cap
  {
    CapTimes(cap, times);
    assert cap * times > 0;
  }

  /** Exactly: no run of such a relay lets more than the cap through for an address and a day if and
      only if no trim of a call with another day drops its counter. */
  lemma CapHoldsExactly(cfg: Config, ps: seq<Passport>, times: nat)
    requires IsStamp(cfg.day) && AllHold(cfg, ps) && cfg.dailyCap > 0 && Connections(cfg.dailyCap, times) <= |ps|
    ensures (forall start, es, ip, d :: RunDrops(cfg, start, es, ip, d, times) ==>
               Tallied(After(cfg, Init(start), es).log, ip, d).grants <= cfg.dailyCap) <==> times == 0
  {
    if times == 0 {
      forall start, es, ip, d | RunDrops(cfg, start, es, ip, d, times)
        ensures Tallied(After(cfg, Init(start), es).log, ip, d).grants <= cfg.dailyCap
      {
        GrantsAreBounded(cfg, start, es, ip, d);
      }
    } else {
      var es := OvertakenDaysExceedTheCap(cfg, ps, times);
      assert RunDrops(cfg, 0, es, "x", 1, times);
      MoreThanOne(cfg.dailyCap, times);
    }
  }
}
