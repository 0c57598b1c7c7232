/** The whole handshake against the strike machine: seen through its puzzle seats, every run of
    handshakes is a run of Strikes, so its bound on wrong answers holds for the handshake itself,
    whatever tokens, counters and other addresses do meanwhile. */
module HandshakeStrikes {
  import opened Counters
  import Strikes
  import opened Handshake

  /** The wrong answers among the first n facts. */
  function Wrongs(log: seq<Fact>, n: nat): seq<Strikes.Wrong>
    requires n <= |log|
  {
    if n == 0 then []
    else Wrongs(log, n - 1) + if log[n - 1].Wronged? then [Strikes.Wrong(log[n - 1].ip, log[n - 1].at)] else []
  }

  /** Between the cooldown check and the end of its punishment. */
  predicate AtPuzzle(c: Conn) {
    c.pc.AwaitSolution? || c.pc.CountStrike? || c.pc.ArmCooldown?
  }

  function SeatOf(c: Conn): Strikes.Seat
    requires AtPuzzle(c)
  {
    match c.pc
    case CountStrike(_, h) => Strikes.Counting(c.ip, h)
    case ArmCooldown(_, n) => Strikes.Arming(c.ip, n)
    case _ => Strikes.Solving(c.ip)
  }

  function Seats(conns: map<nat, Conn>): map<nat, Strikes.Seat> {
    map c | c in conns && AtPuzzle(conns[c]) :: SeatOf(conns[c])
  }

  /** What the strike machine sees of a handshake state; the lapses are its own bookkeeping. */
  function View(s: State, lapses: map<string, nat>): Strikes.State {
    Strikes.State(s.now, s.strikes, s.cooldown, Seats(s.conns), Wrongs(s.log, |s.log|), lapses)
  }

  /** The strike event of one handshake step, if it is one. */
  function Shadow(s: State, e: Event): seq<Strikes.Event>
    requires Enabled(s, e)
  {
    match e
    case Tick(dt) => [Strikes.Tick(dt)]
    case Cooldown(conn, storeOk) => if storeOk then [Strikes.Check(conn, s.conns[conn].ip)] else []
    case Solve(conn, solution) => if solution == WrongAnswer then [Strikes.Answer(conn)] else [Strikes.Leave(conn)]
    case Strike(conn) => [Strikes.Register(conn)]
    case Arm(conn) => [Strikes.Arm(conn)]
    case Drop(conn) => if PcOf(s, conn).AwaitSolution? then [Strikes.Leave(conn)] else []
    case _ => []
  }

  function LapsesAfter(s: State, e: Event, lapses: map<string, nat>): map<string, nat>
    requires Enabled(s, e)
  {
    if e.Arm? && PcOf(s, e.conn).strikes >= Strikes.STRIKE_LIMIT
    then lapses[s.conns[e.conn].ip := s.now + Strikes.COOLDOWN] else lapses
  }

  lemma {:induction false} WrongsOfPrefix(log: seq<Fact>, fs: seq<Fact>, n: nat)
    requires n <= |log|
    ensures Wrongs(log + fs, n) == Wrongs(log, n)
  {
    if n > 0 {
      WrongsOfPrefix(log, fs, n - 1);
    }
  }

  lemma {:induction false} WrongsAppend(log: seq<Fact>, fs: seq<Fact>, n: nat)
    requires n <= |fs|
    ensures Wrongs(log + fs, |log| + n) == Wrongs(log, |log|) + Wrongs(fs, n)
  {
    if n > 0 {
      WrongsAppend(log, fs, n - 1);
    } else {
      WrongsOfPrefix(log, fs, |log|);
    }
  }

  lemma {:induction false} NoneWronged(fs: seq<Fact>, n: nat)
    requires n <= |fs| && forall i :: 0 <= i < n ==> !fs[i].Wronged?
    ensures Wrongs(fs, n) == []
  {
    if n > 0 {
      NoneWronged(fs, n - 1);
    }
  }

  function NewlyWrong(s: State, e: Event): seq<Strikes.Wrong>
    requires Enabled(s, e)
  {
    if e.Solve? && e.solution == WrongAnswer then [Strikes.Wrong(s.conns[e.conn].ip, s.now)] else []
  }

  /** Only a well-formed wrong answer adds to the list. */
  lemma NewWrongs(cfg: Config, s: State, e: Event)
    requires Enabled(s, e) && Mover(e).Some?
    ensures var fs := Handle(cfg, s, e).facts; Wrongs(fs, |fs|) == NewlyWrong(s, e)
  {
    var fs := Handle(cfg, s, e).facts;
    if e.Solve? && e.solution == WrongAnswer {
      assert fs == [PuzzleFailed(e.conn), Wronged(e.conn, s.conns[e.conn].ip, s.now)];
      assert Wrongs(fs, 1) == Wrongs(fs, 0) == [];
    } else {
      NoneWronged(fs, |fs|);
    }
  }

  lemma LogAfter(cfg: Config, s: State, e: Event)
    requires Enabled(s, e)
    ensures Next(cfg, s, e).log == if Mover(e).Some? then s.log + Handle(cfg, s, e).facts else s.log
  {}

  lemma WrongsStep(cfg: Config, s: State, e: Event, log: seq<Fact>)
    requires Enabled(s, e) && log == if Mover(e).Some? then s.log + Handle(cfg, s, e).facts else s.log
    ensures Wrongs(log, |log|) == Wrongs(s.log, |s.log|) + NewlyWrong(s, e)
  {
    if Mover(e).Some? {
      NewWrongs(cfg, s, e);
      var fs := Handle(cfg, s, e).facts;
      WrongsAppend(s.log, fs, |fs|);
    }
  }

  lemma SeatUpdate(conns: map<nat, Conn>, conn: nat, c: Conn)
    ensures Seats(conns[conn := c]) == if AtPuzzle(c) then Seats(conns)[conn := SeatOf(c)] else Seats(conns) - {conn}
  {}

  lemma NoSeat(conns: map<nat, Conn>, conn: nat)
    requires conn in conns ==> !AtPuzzle(conns[conn])
    ensures Seats(conns) - {conn} == Seats(conns)
  {}

  /** Who sits at the puzzle after a step. */
  function SeatsAfter(cfg: Config, s: State, e: Event): map<nat, Strikes.Seat>
    requires Enabled(s, e)
  {
    match e
    case Cooldown(conn, storeOk) =>
      if storeOk && !Cooling(s.cooldown, s.conns[conn].ip, s.now)
      then Seats(s.conns)[conn := Strikes.Solving(s.conns[conn].ip)] else Seats(s.conns)
    case Solve(conn, solution) =>
      if solution == WrongAnswer then Seats(s.conns)[conn := Strikes.Counting(s.conns[conn].ip, s.now / HOUR)]
      else Seats(s.conns) - {conn}
    case Strike(conn) =>
      var ip, h := s.conns[conn].ip, PcOf(s, conn).hour;
      Seats(s.conns)[conn := Strikes.Arming(ip, Count(s.strikes, Strikes.StrikeKey(cfg.hour, ip, h)) + 1)]
    case Arm(conn) => Seats(s.conns) - {conn}
    case Drop(conn) => Seats(s.conns) - {conn}
    case _ => Seats(s.conns)
  }

  /** Only a passed cooldown check leads to the puzzle. */
  lemma MoverSits(cfg: Config, s: State, e: Event)
    requires Enabled(s, e) && Mover(e).Some? && !e.Cooldown? && !e.Solve? && !e.Strike? && !e.Arm? && !e.Drop?
    ensures !AtPuzzle(s.conns[e.conn]) && !AtPuzzle(s.conns[e.conn].(pc := Handle(cfg, s, e).pc))
  {}

  lemma ConnsAfter(cfg: Config, s: State, e: Event)
    requires Enabled(s, e) && Mover(e).Some?
    ensures Next(cfg, s, e).conns == s.conns[Mover(e).value := s.conns[Mover(e).value].(pc := Handle(cfg, s, e).pc)]
  {}

  /** The seat that the mover gets, if it gets one. */
  lemma PuzzleSeats(cfg: Config, s: State, e: Event, c: Conn)
    requires Enabled(s, e) && (e.Cooldown? || e.Solve? || e.Strike? || e.Arm? || e.Drop?)
    requires c == s.conns[e.conn].(pc := Handle(cfg, s, e).pc)
    ensures SeatsAfter(cfg, s, e) == if AtPuzzle(c) then Seats(s.conns)[e.conn := SeatOf(c)] else Seats(s.conns) - {e.conn}
  {
    if e.Cooldown? {
      NoSeat(s.conns, e.conn);
    }
  }

  lemma SeatsStep(cfg: Config, s: State, e: Event)
    requires Enabled(s, e)
    ensures Seats(Next(cfg, s, e).conns) == SeatsAfter(cfg, s, e)
  {
    if e.Connect? {
      SeatUpdate(s.conns, e.conn, Conn(e.ip, e.challenge, AwaitAuth));
      NoSeat(s.conns, e.conn);
    } else if e.Cooldown? || e.Solve? || e.Strike? || e.Arm? || e.Drop? {
      ConnsAfter(cfg, s, e);
      SeatUpdate(s.conns, e.conn, s.conns[e.conn].(pc := Handle(cfg, s, e).pc));
      PuzzleSeats(cfg, s, e, s.conns[e.conn].(pc := Handle(cfg, s, e).pc));
    } else if Mover(e).Some? {
      ConnsAfter(cfg, s, e);
      MoverSits(cfg, s, e);
      SeatUpdate(s.conns, e.conn, s.conns[e.conn].(pc := Handle(cfg, s, e).pc));
      NoSeat(s.conns, e.conn);
    }
  }

  function StrikesAfter(cfg: Config, s: State, e: Event): map<string, nat>
    requires Enabled(s, e)
  {
    if e.Strike? then
      var h := PcOf(s, e.conn).hour;
      Bumped(s.strikes, Strikes.StrikeKey(cfg.hour, s.conns[e.conn].ip, h), cfg.hour(h))
    else s.strikes
  }

  function CooldownAfter(s: State, e: Event): map<string, int>
    requires Enabled(s, e)
  {
    if e.Cooldown? && e.storeOk then Unlapsed(s.cooldown, s.now)
    else if e.Arm? then Strikes.Punished(s.cooldown, s.conns[e.conn].ip, PcOf(s, e.conn).strikes, s.now)
    else s.cooldown
  }

  /** The view after a step, in terms of the state before it. */
  function ViewAfter(cfg: Config, s: State, e: Event, lapses: map<string, nat>): Strikes.State
    requires Enabled(s, e)
  {
    Strikes.State(if e.Tick? then s.now + e.dt else s.now, StrikesAfter(cfg, s, e), CooldownAfter(s, e), SeatsAfter(cfg, s, e),
                  Wrongs(s.log, |s.log|) + NewlyWrong(s, e),
                  LapsesAfter(s, e, lapses))
  }

  lemma TablesStep(cfg: Config, s: State, e: Event)
    requires Enabled(s, e)
    ensures var t := Next(cfg, s, e);
            && t.now == (if e.Tick? then s.now + e.dt else s.now)
            && t.strikes == StrikesAfter(cfg, s, e) && t.cooldown == CooldownAfter(s, e)
  {}

  lemma ViewStep(cfg: Config, s: State, e: Event, lapses: map<string, nat>)
    requires Enabled(s, e)
    ensures View(Next(cfg, s, e), LapsesAfter(s, e, lapses)) == ViewAfter(cfg, s, e, lapses)
  {
    LogAfter(cfg, s, e);
    WrongsStep(cfg, s, e, Next(cfg, s, e).log);
    SeatsStep(cfg, s, e);
    TablesStep(cfg, s, e);
  }

  /** A step the strike machine does not see leaves its view alone. */
  lemma UnseenStep(cfg: Config, s: State, e: Event, lapses: map<string, nat>)
    requires Enabled(s, e) && Shadow(s, e) == []
    ensures ViewAfter(cfg, s, e, lapses) == View(s, lapses)
  {
    if e.Drop? {
      NoSeat(s.conns, e.conn);
    }
  }

  lemma SeatInView(s: State, lapses: map<string, nat>, conn: nat)
    requires conn in s.conns && AtPuzzle(s.conns[conn])
    ensures conn in View(s, lapses).seats && View(s, lapses).seats[conn] == SeatOf(s.conns[conn])
  {}

  lemma NoSeatInView(s: State, lapses: map<string, nat>, conn: nat)
    requires conn in s.conns ==> !AtPuzzle(s.conns[conn])
    ensures conn !in View(s, lapses).seats
  {}

  lemma ShadowEnabled(s: State, e: Event, lapses: map<string, nat>)
    requires Enabled(s, e) && Shadow(s, e) != []
    ensures |Shadow(s, e)| == 1 && Strikes.Enabled(View(s, lapses), Shadow(s, e)[0])
  {
    if e.Cooldown? {
      NoSeatInView(s, lapses, e.conn);
    } else if !e.Tick? {
      SeatInView(s, lapses, e.conn);
    }
  }

  lemma SeenCheck(cfg: Config, s: State, e: Event, lapses: map<string, nat>)
    requires Enabled(s, e) && (e.Tick? || e.Cooldown?) && Shadow(s, e) != []
    requires Strikes.Enabled(View(s, lapses), Shadow(s, e)[0])
    ensures Strikes.Next(cfg.hour, View(s, lapses), Shadow(s, e)[0]) == ViewAfter(cfg, s, e, lapses)
  {}

  lemma SeenAnswer(cfg: Config, s: State, e: Event, lapses: map<string, nat>)
    requires Enabled(s, e) && (e.Solve? || e.Drop?) && Shadow(s, e) != []
    requires Strikes.Enabled(View(s, lapses), Shadow(s, e)[0])
    ensures Strikes.Next(cfg.hour, View(s, lapses), Shadow(s, e)[0]) == ViewAfter(cfg, s, e, lapses)
  {
    SeatInView(s, lapses, e.conn);
  }

  lemma RegisterGives(hour: Stamp, v: Strikes.State, conn: nat, ip: string, h: nat)
    requires conn in v.seats && v.seats[conn] == Strikes.Counting(ip, h)
    ensures var key := Strikes.StrikeKey(hour, ip, h);
            Strikes.Next(hour, v, Strikes.Register(conn)) ==
            v.(strikes := Bumped(v.strikes, key, hour(h)), seats := v.seats[conn := Strikes.Arming(ip, Count(v.strikes, key) + 1)])
  {}

  /** The strike machine after an arming. */
  function Punished(v: Strikes.State, conn: nat, ip: string, n: nat): Strikes.State {
    Strikes.State(v.now, v.strikes, Strikes.Punished(v.cooldown, ip, n, v.now), v.seats - {conn}, v.wrongs,
                  if n >= Strikes.STRIKE_LIMIT then v.lapses[ip := v.now + Strikes.COOLDOWN] else v.lapses)
  }

  lemma ArmGives(hour: Stamp, v: Strikes.State, conn: nat, ip: string, n: nat)
    requires conn in v.seats && v.seats[conn] == Strikes.Arming(ip, n)
    ensures Strikes.Next(hour, v, Strikes.Arm(conn)) == Punished(v, conn, ip, n)
  {}

  lemma ArmViews(cfg: Config, s: State, conn: nat, lapses: map<string, nat>)
    requires Enabled(s, Arm(conn))
    ensures ViewAfter(cfg, s, Arm(conn), lapses) == Punished(View(s, lapses), conn, s.conns[conn].ip, PcOf(s, conn).strikes)
  {
    assert Wrongs(s.log, |s.log|) + [] == Wrongs(s.log, |s.log|);
  }

  lemma SeenStrike(cfg: Config, s: State, conn: nat, lapses: map<string, nat>)
    requires Enabled(s, Strike(conn))
    ensures Strikes.Enabled(View(s, lapses), Strikes.Register(conn))
    ensures Strikes.Next(cfg.hour, View(s, lapses), Strikes.Register(conn)) == ViewAfter(cfg, s, Strike(conn), lapses)
  {
    var ip, h := s.conns[conn].ip, PcOf(s, conn).hour;
    SeatInView(s, lapses, conn);
    RegisterGives(cfg.hour, View(s, lapses), conn, ip, h);
    assert Wrongs(s.log, |s.log|) + [] == Wrongs(s.log, |s.log|);
  }

  lemma SeenArm(cfg: Config, s: State, conn: nat, lapses: map<string, nat>)
    requires Enabled(s, Arm(conn))
    ensures Strikes.Enabled(View(s, lapses), Strikes.Arm(conn))
    ensures Strikes.Next(cfg.hour, View(s, lapses), Strikes.Arm(conn)) == ViewAfter(cfg, s, Arm(conn), lapses)
  {
    var ip, n := s.conns[conn].ip, PcOf(s, conn).strikes;
    SeatInView(s, lapses, conn);
    ArmGives(cfg.hour, View(s, lapses), conn, ip, n);
    ArmViews(cfg, s, conn, lapses);
  }

  /** A step it sees is one step of the strike machine. */
  lemma SeenStep(cfg: Config, s: State, e: Event, lapses: map<string, nat>)
    requires Enabled(s, e) && Shadow(s, e) != [] && Strikes.Enabled(View(s, lapses), Shadow(s, e)[0])
    ensures Strikes.Next(cfg.hour, View(s, lapses), Shadow(s, e)[0]) == ViewAfter(cfg, s, e, lapses)
  {
    if e.Tick? || e.Cooldown? {
      SeenCheck(cfg, s, e, lapses);
    } else if e.Solve? || e.Drop? {
      SeenAnswer(cfg, s, e, lapses);
    } else if e.Strike? {
      SeenStrike(cfg, s, e.conn, lapses);
    } else {
      SeenArm(cfg, s, e.conn, lapses);
    }
  }

  /** A handshake that read its hour before the clock moved on trims away the strikes of this address. */
  predicate Forgets(cfg: Config, s: State, e: Event, ip: string, h: nat)
    requires Enabled(s, e)
  {
    && e.Strike? && s.now / HOUR == h && cfg.hour(PcOf(s, e.conn).hour) != cfg.hour(h)
    && Trims(s.strikes, Strikes.StrikeKey(cfg.hour, s.conns[e.conn].ip, PcOf(s, e.conn).hour))
    && Count(s.strikes, Strikes.StrikeKey(cfg.hour, ip, h)) > 0
  }

  function TimesForgotten(cfg: Config, s: State, es: seq<Event>, ip: string, h: nat): nat
    requires ValidRun(cfg, s, es)
    decreases |es|
  {
    if es == [] then 0
    else (if Forgets(cfg, s, es[0], ip, h) then 1 else 0) + TimesForgotten(cfg, Next(cfg, s, es[0]), es[1..], ip, h)
  }

  /** Every handshake step is at most one step of the strike machine, and forgets what that forgets. */
  lemma StepIsAStep(cfg: Config, s: State, e: Event, lapses: map<string, nat>, ip: string, h: nat)
    requires Enabled(s, e)
    ensures var v, fs, v' := View(s, lapses), Shadow(s, e), View(Next(cfg, s, e), LapsesAfter(s, e, lapses));
            if fs == [] then v' == v && !Forgets(cfg, s, e, ip, h)
            else
              && |fs| == 1 && Strikes.Enabled(v, fs[0]) && Strikes.Next(cfg.hour, v, fs[0]) == v'
              && (Strikes.Forgets(cfg.hour, v, fs[0], ip, h) <==> Forgets(cfg, s, e, ip, h))
  {
    ViewStep(cfg, s, e, lapses);
    if Shadow(s, e) == [] {
      UnseenStep(cfg, s, e, lapses);
    } else {
      ShadowEnabled(s, e, lapses);
      SeenStep(cfg, s, e, lapses);
      if e.Strike? {
        SeatInView(s, lapses, e.conn);
      }
    }
  }

  function AtPuzzles(s: State, ip: string): set<nat> {
    set c | c in s.conns && AtPuzzle(s.conns[c]) && s.conns[c].ip == ip
  }

  lemma SeatedIsAtPuzzle(s: State, lapses: map<string, nat>, ip: string)
    ensures Strikes.Seated(View(s, lapses), ip) == AtPuzzles(s, ip)
  {}

  /** At no moment are more than k connections of this address between the check and their end. */
  predicate PuzzlesSideBySide(cfg: Config, s: State, es: seq<Event>, ip: string, k: nat)
    requires ValidRun(cfg, s, es)
    decreases |es|
  {
    |AtPuzzles(s, ip)| <= k && (es == [] || PuzzlesSideBySide(cfg, Next(cfg, s, es[0]), es[1..], ip, k))
  }

  /** The strike events of a whole run. */
  function ShadowRun(cfg: Config, s: State, es: seq<Event>): seq<Strikes.Event>
    requires ValidRun(cfg, s, es)
    decreases |es|
  {
    if es == [] then [] else Shadow(s, es[0]) + ShadowRun(cfg, Next(cfg, s, es[0]), es[1..])
  }

  /** The strike machine makes the same run: the run fs from v ends in v', side by side and forgetting
      as the handshakes do. */
  predicate Mirrors(hour: Stamp, v: Strikes.State, fs: seq<Strikes.Event>, v': Strikes.State, ip: string, k: nat, h: nat, times: nat) {
    && Strikes.ValidRun(hour, v, fs) && Strikes.SideBySide(hour, v, fs, ip, k)
    && Strikes.After(hour, v, fs) == v' && Strikes.TimesForgotten(hour, v, fs, ip, h) == times
  }

  lemma MirrorsMore(hour: Stamp, v: Strikes.State, f: Strikes.Event, fs: seq<Strikes.Event>, v': Strikes.State, ip: string, k: nat,
                    h: nat, times: nat)
    requires Strikes.Enabled(v, f) && |Strikes.Seated(v, ip)| <= k
    requires Mirrors(hour, Strikes.Next(hour, v, f), fs, v', ip, k, h, times)
    ensures Mirrors(hour, v, [f] + fs, v', ip, k, h, (if Strikes.Forgets(hour, v, f, ip, h) then 1 else 0) + times)
  {
    assert ([f] + fs)[1..] == fs;
  }

  /** Every run of handshakes is, seen through its puzzle seats, a run of the strike machine. */
  lemma {:induction false} RunIsARun(cfg: Config, s: State, es: seq<Event>, lapses: map<string, nat>, ip: string, k: nat, h: nat)
    returns (last: map<string, nat>)
    requires ValidRun(cfg, s, es) && PuzzlesSideBySide(cfg, s, es, ip, k)
    ensures Mirrors(cfg.hour, View(s, lapses), ShadowRun(cfg, s, es), View(After(cfg, s, es), last), ip, k, h,
                    TimesForgotten(cfg, s, es, ip, h))
    decreases |es|
  {
    SeatedIsAtPuzzle(s, lapses, ip);
    if es == [] {
      last := lapses;
    } else {
      var e, t, fs := es[0], Next(cfg, s, es[0]), ShadowRun(cfg, Next(cfg, s, es[0]), es[1..]);
      StepIsAStep(cfg, s, e, lapses, ip, h);
      last := RunIsARun(cfg, t, es[1..], LapsesAfter(s, e, lapses), ip, k, h);
      if Shadow(s, e) == [] {
        assert Shadow(s, e) + fs == fs;
      } else {
        var f := Shadow(s, e)[0];
        assert Shadow(s, e) == [f];
        MirrorsMore(cfg.hour, View(s, lapses), f, fs, View(After(cfg, s, es), last), ip, k, h,
                    TimesForgotten(cfg, t, es[1..], ip, h));
      }
    }
  }

  /** Main result, for every interleaving of full handshakes: if at most k connections of an address
      are at the puzzle at once, it gives at most 2 + 2k wrong well-formed answers in any clock hour,
      and two more for every time a handshake with an overtaken hour trims its strikes away. */
  lemma HandshakesAnswerWrongAtMost(cfg: Config, start: nat, es: seq<Event>, ip: string, k: nat, h: nat)
    requires ColonFree(cfg.hour) && ValidRun(cfg, Init(start), es)
    requires PuzzlesSideBySide(cfg, Init(start), es, ip, k)
    ensures var log := After(cfg, Init(start), es).log;
            Strikes.AllWrongs(Wrongs(log, |log|), ip, h) <= 2 + 2 * k + 2 * TimesForgotten(cfg, Init(start), es, ip, h)
  {
    assert View(Init(start), map[]) == Strikes.Init(start);
    var last := RunIsARun(cfg, Init(start), es, map[], ip, k, h);
    Strikes.WrongAnswersPerHour(cfg.hour, start, ShadowRun(cfg, Init(start), es), ip, k, h);
  }
}
