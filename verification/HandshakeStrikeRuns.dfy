/** The strike machine promises no more than handshakes do: in the mode that always asks for the puzzle,
    every run of it is played by full handshakes, each on a connection of its own. So the runs that
    reach its bound on wrong answers are runs of handshakes. */
module HandshakeStrikeRuns {
  import opened Counters
  import opened Handshake
  import opened HandshakeRuns
  import opened HandshakeStrikes
  import Strikes
  import StrikeRuns

  /** A run from s to t with at most k connections of `ip` at the puzzle, in which its strikes of hour h
      are forgotten f times. */
  predicate Plays(cfg: Config, s: State, es: seq<Event>, t: State, ip: string, k: nat, h: nat, f: nat) {
    && ValidRun(cfg, s, es) && After(cfg, s, es) == t
    && PuzzlesSideBySide(cfg, s, es, ip, k) && TimesForgotten(cfg, s, es, ip, h) == f
  }

  lemma PlayOne(cfg: Config, s: State, e: Event, t: State, ip: string, k: nat, h: nat)
    requires Enabled(s, e) && Next(cfg, s, e) == t && |AtPuzzles(s, ip)| <= k && |AtPuzzles(t, ip)| <= k
    ensures Plays(cfg, s, [e], t, ip, k, h, if Forgets(cfg, s, e, ip, h) then 1 else 0)
  {
    assert [e][1..] == [];
    assert PuzzlesSideBySide(cfg, t, [], ip, k);
  }

  lemma {:induction false} PlayOn(cfg: Config, s: State, es: seq<Event>, t: State, f: nat, fs: seq<Event>, u: State, g: nat,
                                  ip: string, k: nat, h: nat)
    requires Plays(cfg, s, es, t, ip, k, h, f) && Plays(cfg, t, fs, u, ip, k, h, g)
    ensures Plays(cfg, s, es + fs, u, ip, k, h, f + g)
    decreases |es|
  {
    if es == [] {
      assert es + fs == fs;
    } else {
      var next := Next(cfg, s, es[0]);
      PlayOn(cfg, next, es[1..], t, TimesForgotten(cfg, next, es[1..], ip, h), fs, u, g, ip, k, h);
      assert (es + fs)[1..] == es[1..] + fs;
    }
  }

  // ---- Up to the cooldown check -------------------------------------------------------------------

  predicate Early(e: Event) {
    e.Connect? || e.Auth? || e.Pow?
  }

  lemma EarlyStep(cfg: Config, s: State, e: Event, ip: string)
    requires Enabled(s, e) && Early(e)
    ensures AtPuzzles(Next(cfg, s, e), ip) == AtPuzzles(s, ip)
  {
    if !e.Connect? {
      MoverSits(cfg, s, e);
      ConnsAfter(cfg, s, e);
    }
  }

  lemma {:induction false} EarlyRun(cfg: Config, s: State, es: seq<Event>, ip: string, k: nat, h: nat)
    requires ValidRun(cfg, s, es) && (forall e :: e in es ==> Early(e)) && |AtPuzzles(s, ip)| <= k
    ensures Plays(cfg, s, es, After(cfg, s, es), ip, k, h, 0)
    ensures AtPuzzles(After(cfg, s, es), ip) == AtPuzzles(s, ip)
    decreases |es|
  {
    if es != [] {
      EarlyStep(cfg, s, es[0], ip);
      EarlyRun(cfg, Next(cfg, s, es[0]), es[1..], ip, k, h);
    }
  }

  // ---- Seats and connections ------------------------------------------------------------------------

  /** Connection r[c] sits where seat c does, and nobody else is at the puzzle. */
  ghost predicate Seated(seats: map<nat, Strikes.Seat>, conns: map<nat, Conn>, r: map<nat, nat>) {
    && (forall c :: c in seats ==> c in r && r[c] in conns && AtPuzzle(conns[r[c]]) && SeatOf(conns[r[c]]) == seats[c])
    && (forall c, d :: c in seats && d in seats && r[c] == r[d] ==> c == d)
    && (forall h :: h in conns && AtPuzzle(conns[h]) ==> exists c :: c in seats && r[c] == h)
  }

  lemma SeatMoves(seats: map<nat, Strikes.Seat>, conns: map<nat, Conn>, r: map<nat, nat>, c: nat, to: Conn)
    requires Seated(seats, conns, r) && c in seats
    ensures Seated(if AtPuzzle(to) then seats[c := SeatOf(to)] else seats - {c}, conns[r[c] := to], r)
  {
    var seats', conns' := if AtPuzzle(to) then seats[c := SeatOf(to)] else seats - {c}, conns[r[c] := to];
    forall h | h in conns' && AtPuzzle(conns'[h]) ensures exists d :: d in seats' && r[d] == h {
      if h == r[c] {
        assert c in seats';
      } else {
        var d :| d in seats && r[d] == h;
        assert d in seats';
      }
    }
  }

  lemma SeatTaken(seats: map<nat, Strikes.Seat>, conns: map<nat, Conn>, r: map<nat, nat>, c: nat, h: nat, to: Conn)
    requires Seated(seats, conns, r) && c !in seats && h !in conns
    ensures Seated(if AtPuzzle(to) then seats[c := SeatOf(to)] else seats, conns[h := to], r[c := h])
  {
    var seats', conns', r' := if AtPuzzle(to) then seats[c := SeatOf(to)] else seats, conns[h := to], r[c := h];
    forall g | g in conns' && AtPuzzle(conns'[g]) ensures exists d :: d in seats' && r'[d] == g {
      if g == h {
        assert c in seats';
      } else {
        var d :| d in seats && r[d] == g;
        assert d in seats' && r'[d] == g;
      }
    }
  }

  lemma {:induction false} ImageSize(a: set<nat>, r: map<nat, nat>)
    requires a <= r.Keys && forall c, d :: c in a && d in a && r[c] == r[d] ==> c == d
    ensures |set c | c in a :: r[c]| == |a|
    decreases a
  {
    if a != {} {
      var c :| c in a;
      ImageSize(a - {c}, r);
      assert (set d | d in a :: r[d]) == (set d | d in a - {c} :: r[d]) + {r[c]};
    }
  }

  lemma SeatedSize(v: Strikes.State, s: State, r: map<nat, nat>, ip: string)
    requires Seated(v.seats, s.conns, r)
    ensures |AtPuzzles(s, ip)| == |Strikes.Seated(v, ip)|
  {
    var here := Strikes.Seated(v, ip);
    assert forall c :: c in v.seats ==> v.seats[c].ip == s.conns[r[c]].ip;
    assert AtPuzzles(s, ip) == set c | c in here :: r[c];
    ImageSize(here, r);
  }

  // ---- One step of the strike machine ---------------------------------------------------------------

  predicate Tables(v: Strikes.State, s: State) {
    v.now == s.now && v.strikes == s.strikes && v.cooldown == s.cooldown && v.wrongs == Wrongs(s.log, |s.log|)
  }

  /** The handshakes are where the strike machine is, and the first n connections are used. */
  ghost predicate Tracks(v: Strikes.State, s: State, r: map<nat, nat>, p: nat -> Passport, n: nat) {
    && Tables(v, s) && Seated(v.seats, s.conns, r)
    && (forall c :: c in s.conns ==> c < n && s.conns[c].challenge == p(c).challenge)
  }

  /** The relay always asks for the puzzle, and every connection draws a challenge whose client can pay. */
  ghost predicate Licensed(cfg: Config, p: nat -> Passport) {
    cfg.mode == Always && forall c :: Holds(cfg, p(c))
  }

  /** The step of connection h that is seen as this event. */
  function Counterpart(f: Strikes.Event, h: nat): Event {
    match f
    case Tick(dt) => Tick(dt)
    case Check(_, _) => Cooldown(h, true)
    case Answer(_) => Solve(h, WrongAnswer)
    case Register(_) => Strike(h)
    case Arm(_) => Arm(h)
    case Leave(_) => Drop(h)
  }

  lemma TablesStep(cfg: Config, v: Strikes.State, s: State, f: Strikes.Event, e: Event)
    requires Tables(v, s) && Strikes.Enabled(v, f) && Enabled(s, e)
    requires f.Check? ==> e.Cooldown? && e.storeOk
    requires !f.Check? && !f.Tick? ==> f.conn in v.seats && Mover(e).Some? && e == Counterpart(f, Mover(e).value) &&
                                       AtPuzzle(s.conns[Mover(e).value]) && SeatOf(s.conns[Mover(e).value]) == v.seats[f.conn]
    requires f.Tick? ==> e == Tick(f.dt)
    ensures Tables(Strikes.Next(cfg.hour, v, f), Next(cfg, s, e))
  {
    ViewStep(cfg, s, e, map[]);
    assert v.wrongs + [] == v.wrongs;
  }

  /** Where a step leads the connection. */
  function Moved(cfg: Config, s: State, e: Event): Conn
    requires Enabled(s, e) && Mover(e).Some? && In(s, Mover(e).value)
  {
    s.conns[Mover(e).value].(pc := Handle(cfg, s, e).pc)
  }

  lemma SeatAfter(cfg: Config, v: Strikes.State, s: State, f: Strikes.Event, h: nat)
    requires Tables(v, s) && Strikes.Enabled(v, f) && !f.Tick? && !f.Check? && h in s.conns
    requires AtPuzzle(s.conns[h]) && SeatOf(s.conns[h]) == v.seats[f.conn]
    ensures var e := Counterpart(f, h);
            Enabled(s, e) && Strikes.Next(cfg.hour, v, f).seats ==
            (if AtPuzzle(Moved(cfg, s, e)) then v.seats[f.conn := SeatOf(Moved(cfg, s, e))] else v.seats - {f.conn})
  {}

  lemma SameForgetting(cfg: Config, v: Strikes.State, s: State, f: Strikes.Event, h: nat, ip: string, hour: nat)
    requires Tables(v, s) && Strikes.Enabled(v, f) && !f.Tick? && !f.Check? && h in s.conns
    requires AtPuzzle(s.conns[h]) && SeatOf(s.conns[h]) == v.seats[f.conn]
    ensures Enabled(s, Counterpart(f, h))
    ensures Forgets(cfg, s, Counterpart(f, h), ip, hour) <==> Strikes.Forgets(cfg.hour, v, f, ip, hour)
  {}

  lemma StillTracks(v: Strikes.State, s: State, r: map<nat, nat>, p: nat -> Passport, n: nat, c: nat, to: Conn, w: Strikes.State, t: State)
    requires Tracks(v, s, r, p, n) && c in v.seats && Tables(w, t)
    requires w.seats == if AtPuzzle(to) then v.seats[c := SeatOf(to)] else v.seats - {c}
    requires t.conns == s.conns[r[c] := to] && to.challenge == s.conns[r[c]].challenge
    ensures Tracks(w, t, r, p, n)
  {
    SeatMoves(v.seats, s.conns, r, c, to);
  }

  lemma TrackSeat(cfg: Config, p: nat -> Passport, v: Strikes.State, s: State, r: map<nat, nat>, n: nat, f: Strikes.Event,
                  e: Event, t: State, w: Strikes.State)
    requires Tracks(v, s, r, p, n) && Strikes.Enabled(v, f) && !f.Tick? && !f.Check? && w == Strikes.Next(cfg.hour, v, f)
    requires e == Counterpart(f, r[f.conn]) && Enabled(s, e) && t == Next(cfg, s, e)
    ensures Tracks(w, t, r, p, n)
  {
    SeatAfter(cfg, v, s, f, r[f.conn]);
    TablesStep(cfg, v, s, f, e);
    ConnsAfter(cfg, s, e);
    StillTracks(v, s, r, p, n, f.conn, Moved(cfg, s, e), w, t);
  }

  lemma TrackedSize(v: Strikes.State, s: State, r: map<nat, nat>, p: nat -> Passport, n: nat, ip: string)
    requires Tracks(v, s, r, p, n)
    ensures |AtPuzzles(s, ip)| == |Strikes.Seated(v, ip)|
  {
    SeatedSize(v, s, r, ip);
  }

  lemma SeatCounterpart(cfg: Config, p: nat -> Passport, v: Strikes.State, s: State, r: map<nat, nat>, n: nat, f: Strikes.Event,
                        ip: string, hour: nat)
    requires Tracks(v, s, r, p, n) && Strikes.Enabled(v, f) && !f.Tick? && !f.Check?
    ensures f.conn in r && Enabled(s, Counterpart(f, r[f.conn]))
    ensures Forgets(cfg, s, Counterpart(f, r[f.conn]), ip, hour) <==> Strikes.Forgets(cfg.hour, v, f, ip, hour)
  {
    SameForgetting(cfg, v, s, f, r[f.conn], ip, hour);
  }

  /** A step of somebody at the puzzle. */
  lemma PlaySeat(cfg: Config, p: nat -> Passport, v: Strikes.State, s: State, r: map<nat, nat>, n: nat, f: Strikes.Event,
                 w: Strikes.State, ip: string, k: nat, hour: nat) returns (es: seq<Event>, t: State)
    requires Tracks(v, s, r, p, n) && Strikes.Enabled(v, f) && !f.Tick? && !f.Check? && w == Strikes.Next(cfg.hour, v, f)
    requires |Strikes.Seated(v, ip)| <= k && |Strikes.Seated(w, ip)| <= k
    ensures Tracks(w, t, r, p, n)
    ensures Plays(cfg, s, es, t, ip, k, hour, if Strikes.Forgets(cfg.hour, v, f, ip, hour) then 1 else 0)
  {
    SeatCounterpart(cfg, p, v, s, r, n, f, ip, hour);
    var e := Counterpart(f, r[f.conn]);
    t := Next(cfg, s, e);
    TrackSeat(cfg, p, v, s, r, n, f, e, t, w);
    TrackedSize(v, s, r, p, n, ip);
    TrackedSize(w, t, r, p, n, ip);
    es := [e];
    PlayOne(cfg, s, e, t, ip, k, hour);
  }

  lemma PlayTick(cfg: Config, p: nat -> Passport, v: Strikes.State, s: State, r: map<nat, nat>, n: nat, f: Strikes.Event,
                 ip: string, k: nat, hour: nat) returns (es: seq<Event>, t: State)
    requires Tracks(v, s, r, p, n) && f.Tick? && |Strikes.Seated(v, ip)| <= k
    ensures Tracks(Strikes.Next(cfg.hour, v, f), t, r, p, n) && Plays(cfg, s, es, t, ip, k, hour, 0)
  {
    t := Next(cfg, s, Tick(f.dt));
    TablesStep(cfg, v, s, f, Tick(f.dt));
    SeatedSize(v, s, r, ip);
    SeatedSize(Strikes.Next(cfg.hour, v, f), t, r, ip);
    assert Strikes.Seated(Strikes.Next(cfg.hour, v, f), ip) == Strikes.Seated(v, ip);
    es := [Tick(f.dt)];
    PlayOne(cfg, s, Tick(f.dt), t, ip, k, hour);
  }

  lemma {:induction false} PlainWrongs(log: seq<Fact>, facts: seq<Fact>)
    requires Plain(facts)
    ensures Wrongs(log + facts, |log + facts|) == Wrongs(log, |log|)
  {
    WrongsAppend(log, facts, |facts|);
    NoneWronged(facts, |facts|);
  }

  /** A new connection signs in, pays the proof of work and is about to be checked. */
  lemma PlayArrival(cfg: Config, p: nat -> Passport, v: Strikes.State, s: State, n: nat, ip': string, ip: string, k: nat, hour: nat)
    returns (es: seq<Event>, t: State)
    requires Licensed(cfg, p) && Tables(v, s) && n !in s.conns && |AtPuzzles(s, ip)| <= k
    ensures Plays(cfg, s, es, t, ip, k, hour, 0) && Tables(v, t) && AtPuzzles(t, ip) == AtPuzzles(s, ip)
    ensures t.conns == s.conns[n := Conn(ip', p(n).challenge, CheckCooldown(p(n).who))]
  {
    var facts;
    es, facts := Pays(cfg, [], p(n), s, n, ip');
    t := At(s, n, ip', p(n), CheckCooldown(p(n).who), facts);
    EarlyRun(cfg, s, es, ip, k, hour);
    PlainWrongs(s.log, facts);
  }

  /** The cooldown check of a connection that has just arrived. */
  lemma CheckedSeat(cfg: Config, v: Strikes.State, s: State, n: nat, f: Strikes.Event)
    requires Tables(v, s) && f.Check? && Strikes.Enabled(v, f) && n in s.conns && s.conns[n].pc.CheckCooldown? && s.conns[n].ip == f.ip
    ensures Enabled(s, Cooldown(n, true)) && AtPuzzle(Moved(cfg, s, Cooldown(n, true))) == !Cooling(s.cooldown, f.ip, s.now)
    ensures var to := Moved(cfg, s, Cooldown(n, true));
            Strikes.Next(cfg.hour, v, f).seats == if AtPuzzle(to) then v.seats[f.conn := SeatOf(to)] else v.seats
  {}

  lemma TrackCheck(cfg: Config, p: nat -> Passport, v: Strikes.State, s: State, r: map<nat, nat>, n: nat, f: Strikes.Event,
                   mid: State, t: State, w: Strikes.State)
    requires Tracks(v, s, r, p, n) && f.Check? && Strikes.Enabled(v, f) && w == Strikes.Next(cfg.hour, v, f) && Tables(v, mid)
    requires mid.conns == s.conns[n := Conn(f.ip, p(n).challenge, CheckCooldown(p(n).who))]
    requires t == Next(cfg, mid, Cooldown(n, true))
    ensures Tracks(w, t, r[f.conn := n], p, n + 1)
  {
    var e := Cooldown(n, true);
    CheckedSeat(cfg, v, mid, n, f);
    TablesStep(cfg, v, mid, f, e);
    ConnsAfter(cfg, mid, e);
    var to := Moved(cfg, mid, e);
    assert t.conns == s.conns[n := to];
    SeatTaken(v.seats, s.conns, r, f.conn, n, to);
  }

  lemma PlayCheck(cfg: Config, p: nat -> Passport, v: Strikes.State, s: State, r: map<nat, nat>, n: nat, f: Strikes.Event,
                  w: Strikes.State, ip: string, k: nat, hour: nat) returns (es: seq<Event>, t: State)
    requires Licensed(cfg, p) && Tracks(v, s, r, p, n) && f.Check? && Strikes.Enabled(v, f) && w == Strikes.Next(cfg.hour, v, f)
    requires |Strikes.Seated(v, ip)| <= k && |Strikes.Seated(w, ip)| <= k
    ensures Tracks(w, t, r[f.conn := n], p, n + 1) && Plays(cfg, s, es, t, ip, k, hour, 0)
  {
    TrackedSize(v, s, r, p, n, ip);
    var arrive, mid := PlayArrival(cfg, p, v, s, n, f.ip, ip, k, hour);
    var e := Cooldown(n, true);
    t := Next(cfg, mid, e);
    TrackCheck(cfg, p, v, s, r, n, f, mid, t, w);
    TrackedSize(w, t, r[f.conn := n], p, n + 1, ip);
    PlayOne(cfg, mid, e, t, ip, k, hour);
    PlayOn(cfg, s, arrive, mid, 0, [e], t, 0, ip, k, hour);
    es := arrive + [e];
  }

  // ---- Whole runs ---------------------------------------------------------------------------------------

  lemma PlayStep(cfg: Config, p: nat -> Passport, v: Strikes.State, s: State, r: map<nat, nat>, n: nat, f: Strikes.Event,
                 w: Strikes.State, ip: string, k: nat, hour: nat)
    returns (es: seq<Event>, t: State, r': map<nat, nat>, n': nat)
    requires Licensed(cfg, p) && Tracks(v, s, r, p, n) && Strikes.Enabled(v, f) && w == Strikes.Next(cfg.hour, v, f)
    requires |Strikes.Seated(v, ip)| <= k && |Strikes.Seated(w, ip)| <= k
    ensures Tracks(w, t, r', p, n')
    ensures Plays(cfg, s, es, t, ip, k, hour, if Strikes.Forgets(cfg.hour, v, f, ip, hour) then 1 else 0)
  {
    r', n' := r, n;
    if f.Tick? {
      es, t := PlayTick(cfg, p, v, s, r, n, f, ip, k, hour);
    } else if f.Check? {
      es, t := PlayCheck(cfg, p, v, s, r, n, f, w, ip, k, hour);
      r', n' := r[f.conn := n], n + 1;
    } else {
      es, t := PlaySeat(cfg, p, v, s, r, n, f, w, ip, k, hour);
    }
  }

  lemma SideBySideNext(hour: Stamp, v: Strikes.State, fs: seq<Strikes.Event>, w: Strikes.State, ip: string, k: nat)
    requires fs != [] && Strikes.ValidRun(hour, v, fs) && Strikes.SideBySide(hour, v, fs, ip, k)
    requires w == Strikes.Next(hour, v, fs[0])
    ensures |Strikes.Seated(v, ip)| <= k && |Strikes.Seated(w, ip)| <= k
    ensures Strikes.ValidRun(hour, w, fs[1..]) && Strikes.SideBySide(hour, w, fs[1..], ip, k)
  {}

  lemma PlayedOn(cfg: Config, v: Strikes.State, s: State, fs: seq<Strikes.Event>, w: Strikes.State,
                 one: seq<Event>, mid: State, rest: seq<Event>, t: State, ip: string, k: nat, hour: nat)
    requires fs != [] && Strikes.ValidRun(cfg.hour, v, fs) && w == Strikes.Next(cfg.hour, v, fs[0])
    requires Plays(cfg, s, one, mid, ip, k, hour, if Strikes.Forgets(cfg.hour, v, fs[0], ip, hour) then 1 else 0)
    requires Plays(cfg, mid, rest, t, ip, k, hour, Strikes.TimesForgotten(cfg.hour, w, fs[1..], ip, hour))
    ensures Plays(cfg, s, one + rest, t, ip, k, hour, Strikes.TimesForgotten(cfg.hour, v, fs, ip, hour))
  {
    PlayOn(cfg, s, one, mid, if Strikes.Forgets(cfg.hour, v, fs[0], ip, hour) then 1 else 0, rest, t,
           Strikes.TimesForgotten(cfg.hour, w, fs[1..], ip, hour), ip, k, hour);
  }

  lemma {:induction false} PlayRun(cfg: Config, p: nat -> Passport, v: Strikes.State, s: State, r: map<nat, nat>, n: nat,
                                   fs: seq<Strikes.Event>, ip: string, k: nat, hour: nat)
    returns (es: seq<Event>, t: State, r': map<nat, nat>, n': nat)
    requires Licensed(cfg, p) && Tracks(v, s, r, p, n)
    requires Strikes.ValidRun(cfg.hour, v, fs) && Strikes.SideBySide(cfg.hour, v, fs, ip, k)
    ensures Plays(cfg, s, es, t, ip, k, hour, Strikes.TimesForgotten(cfg.hour, v, fs, ip, hour))
    ensures Tracks(Strikes.After(cfg.hour, v, fs), t, r', p, n')
    decreases |fs|
  {
    if fs == [] {
      es, t, r', n' := [], s, r, n;
      TrackedSize(v, s, r, p, n, ip);
    } else {
      var w := Strikes.Next(cfg.hour, v, fs[0]);
      SideBySideNext(cfg.hour, v, fs, w, ip, k);
      var one, mid, r1, n1 := PlayStep(cfg, p, v, s, r, n, fs[0], w, ip, k, hour);
      var rest;
      rest, t, r', n' := PlayRun(cfg, p, w, mid, r1, n1, fs[1..], ip, k, hour);
      PlayedOn(cfg, v, s, fs, w, one, mid, rest, t, ip, k, hour);
      es := one + rest;
    }
  }

  /** Main result: every run of the strike machine, with its side-by-side handshakes and its trims, is
      played by full handshakes that give the same wrong answers at the same instants. */
  lemma EveryStrikeRunIsPlayed(cfg: Config, p: nat -> Passport, start: nat, fs: seq<Strikes.Event>, ip: string, k: nat, hour: nat)
    returns (es: seq<Event>, n: nat)
    requires Licensed(cfg, p)
    requires Strikes.ValidRun(cfg.hour, Strikes.Init(start), fs) && Strikes.SideBySide(cfg.hour, Strikes.Init(start), fs, ip, k)
    ensures ValidRun(cfg, Init(start), es)
    ensures Plays(cfg, Init(start), es, After(cfg, Init(start), es), ip, k, hour,
                  Strikes.TimesForgotten(cfg.hour, Strikes.Init(start), fs, ip, hour))
    ensures var s := After(cfg, Init(start), es);
            && Wrongs(s.log, |s.log|) == Strikes.After(cfg.hour, Strikes.Init(start), fs).wrongs
            && forall c :: c in s.conns ==> c < n && s.conns[c].challenge == p(c).challenge
  {
    var t, r;
    es, t, r, n := PlayRun(cfg, p, Strikes.Init(start), Init(start), map[], 0, fs, ip, k, hour);
  }

  /** The first n challenges drawn are different. */
  predicate DrawnOnce(p: nat -> Passport, n: nat) {
    forall c: nat, d: nat :: c < d < n ==> p(c).challenge != p(d).challenge
  }

  /** That can be met: with a lenient enough relay, for as many connections as a run needs. */
  lemma LicencesExist(cfg: Config, n: nat) returns (lenient: Config, p: nat -> Passport)
    requires cfg.mode == Always && cfg.difficulty <= 64 && 0 < n < LETTERS * LETTERS
    ensures lenient == cfg.(crypto := lenient.crypto) && Licensed(lenient, p) && DrawnOnce(p, n)
  {
    var ps;
    lenient, ps := PassportsExist(cfg, n);
    p := (c: nat) => if c < n then ps[c] else ps[0];
  }

  /** For every number k of handshakes side by side and every number of trims: full handshakes reach the
      bound on wrong answers, on connections whose challenges do not repeat if those drawn do not. */
  lemma HandshakesReachTheBound(cfg: Config, p: nat -> Passport, k: nat, times: nat) returns (es: seq<Event>, n: nat)
    requires Licensed(cfg, p) && IsStamp(cfg.hour) && k > 0
    ensures ValidRun(cfg, Init(0), es)
    ensures Plays(cfg, Init(0), es, After(cfg, Init(0), es), "x", k, 1, times)
    ensures var s := After(cfg, Init(0), es);
            && Strikes.AllWrongs(Wrongs(s.log, |s.log|), "x", 1) == 2 + 2 * k + 2 * times
            && (forall c :: c in s.conns ==> c < n)
            && (DrawnOnce(p, n) ==> ChallengesDiffer(s))
  {
    var fs := StrikeRuns.WrongAnswersPerHourIsTight(cfg.hour, k, times);
    es, n := EveryStrikeRunIsPlayed(cfg, p, 0, fs, "x", k, 1);
  }

  /** The run has at most k connections of the address at the puzzle at once, and its strikes of the hour
      are forgotten this often. */
  predicate RunForgets(cfg: Config, start: nat, es: seq<Event>, ip: string, k: nat, h: nat, times: nat) {
    ValidRun(cfg, Init(start), es) && PuzzlesSideBySide(cfg, Init(start), es, ip, k) &&
    TimesForgotten(cfg, Init(start), es, ip, h) == times
  }

  /** Exactly, for full handshakes: no hour of such a run sees more than 2 + 2k wrong answers of an
      address if and only if no overtaken handshake trims its strikes away. */
  lemma HandshakeWrongsBoundedExactly(cfg: Config, p: nat -> Passport, k: nat, times: nat)
    requires Licensed(cfg, p) && IsStamp(cfg.hour) && k > 0
    ensures (forall start, es, ip, h :: RunForgets(cfg, start, es, ip, k, h, times) ==>
               var log := After(cfg, Init(start), es).log; Strikes.AllWrongs(Wrongs(log, |log|), ip, h) <= 2 + 2 * k)
            <==> times == 0
  {
    if times == 0 {
      forall start, es, ip, h | RunForgets(cfg, start, es, ip, k, h, times)
        ensures var log := After(cfg, Init(start), es).log; Strikes.AllWrongs(Wrongs(log, |log|), ip, h) <= 2 + 2 * k
      {
        HandshakesAnswerWrongAtMost(cfg, start, es, ip, k, h);
      }
    } else {
      var es, n := HandshakesReachTheBound(cfg, p, k, times);
      assert RunForgets(cfg, 0, es, "x", k, 1, times);
    }
  }
}
