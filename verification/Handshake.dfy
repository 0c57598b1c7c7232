/** The connection handshake (websocket.go ServeWS, puzzle.go). Any number of handshakes run
    side by side over the shared counters, cooldowns and token table; every frame read, clock
    read, database call and counter call is one step. `log` records what each step established. */
module Handshake {
  import opened CryptoOps
  import opened Text
  import opened Counters
  import DeviceTokens
  import Strikes

  const HOUR := Strikes.HOUR
  const DAY := DeviceTokens.DAY
  const CHALLENGE_LENGTH := 64

  datatype Mode = Off | Adaptive | Always

  /** The settings of the relay, the cryptography it calls, and how its clock prints days and hours. */
  datatype Config = Config(mode: Mode, dailyCap: nat, difficulty: nat, crypto: Crypto, day: Stamp, hour: Stamp)

  /** What an AUTH frame presents; the user is the one its key stands for. */
  datatype Claim = Claim(user: string, pubkey: string, signature: string, token: string)

  datatype Pc =
    | AwaitAuth
    | VerifyToken(who: Claim)                       // about to SELECT the user's row
    | JudgeToken(who: Claim, row: Option<DeviceTokens.Row>) // about to read the clock for that row
    | RotateToken(who: Claim)
    | AwaitPow(who: Claim, advertises: bool)
    | PeekCount(who: Claim)                         // about to read the day
    | PeekAt(who: Claim, day: nat)                  // about to look at that day's counter
    | CheckCooldown(who: Claim)
    | AwaitSolution(who: Claim)
    | CountStrike(who: Claim, hour: nat)            // rejected, the hour read, about to count
    | ArmCooldown(who: Claim, strikes: nat)         // counted, about to arm
    | AskIssuance(who: Claim)                       // about to read the day
    | AskAt(who: Claim, day: nat)                   // about to count for that day
    | MintToken(who: Claim, day: nat)
    | Admitted(who: Claim)
    | Registered(who: Claim)
    | Closed

  datatype Conn = Conn(ip: string, challenge: string, pc: Pc)

  datatype Fact =
    | Signed(conn: nat, who: Claim)
    | RowRead(conn: nat, user: string, row: Option<DeviceTokens.Row>)
    | TokenAccepted(conn: nat, who: Claim, row: Option<DeviceTokens.Row>, at: nat)
    | PowSolved(conn: nat, nonce: int)
    | NoPuzzle(conn: nat, advertises: bool, count: nat)
    | OffCooldown(conn: nat)
    | PuzzleSolved(conn: nat)
    | PuzzleFailed(conn: nat)
    | Wronged(conn: nat, ip: string, at: nat)       // the failed answer was well-formed
    | Asked(conn: nat, ip: string, day: nat, allowed: bool)
    | Trimmed(conn: nat, day: nat)                  // the call dropped the counters of all other days
    | IssueMinted(conn: nat, ip: string, day: nat)
    | Joined(conn: nat, who: Claim)

  datatype State = State(
    now: nat,
    issuance: map<string, nat>,
    strikes: map<string, nat>,
    cooldown: map<string, int>,
    rows: map<string, DeviceTokens.Row>,
    conns: map<nat, Conn>,
    log: seq<Fact>)

  datatype Solution = Right | WrongAnswer | NotASolution

  datatype Event =
    | Tick(dt: nat)
    | Revoke(user: string)
    | Connect(conn: nat, ip: string, challenge: string)
    | Auth(conn: nat, wellFormed: bool, pubkey: string, signature: string, token: string, storeUp: bool, advertises: bool)
    | ReadRow(conn: nat, storeOk: bool)
    | Judge(conn: nat)
    | Rotate(conn: nat, storeOk: bool, newToken: string)
    | Pow(conn: nat, wellFormed: bool, nonce: int)
    | ReadDay(conn: nat)
    | Peek(conn: nat, storeOk: bool)
    | Cooldown(conn: nat, storeOk: bool)
    | Solve(conn: nat, solution: Solution)
    | Strike(conn: nat)
    | Arm(conn: nat)
    | Ask(conn: nat, storeOk: bool)
    | Issue(conn: nat, storeOk: bool, newToken: string)
    | Join(conn: nat)
    | Drop(conn: nat)                               // a read that times out or fails

  function Init(now: nat): State {
    State(now, map[], map[], map[], map[], map[], [])
  }

  predicate In(s: State, conn: nat) {
    conn in s.conns
  }

  function PcOf(s: State, conn: nat): Pc
    requires conn in s.conns
  {
    s.conns[conn].pc
  }

  predicate Enabled(s: State, e: Event) {
    match e
    case Tick(_) => true
    case Revoke(_) => true
    case Connect(conn, _, challenge) => conn !in s.conns && |challenge| == CHALLENGE_LENGTH
    case Auth(conn, _, _, _, _, _, _) => In(s, conn) && PcOf(s, conn).AwaitAuth?
    case ReadRow(conn, _) => In(s, conn) && PcOf(s, conn).VerifyToken?
    case Judge(conn) => In(s, conn) && PcOf(s, conn).JudgeToken?
    case Rotate(conn, _, _) => In(s, conn) && PcOf(s, conn).RotateToken?
    case Pow(conn, _, _) => In(s, conn) && PcOf(s, conn).AwaitPow?
    case ReadDay(conn) => In(s, conn) && (PcOf(s, conn).PeekCount? || PcOf(s, conn).AskIssuance?)
    case Peek(conn, _) => In(s, conn) && PcOf(s, conn).PeekAt?
    case Cooldown(conn, _) => In(s, conn) && PcOf(s, conn).CheckCooldown?
    case Solve(conn, _) => In(s, conn) && PcOf(s, conn).AwaitSolution?
    case Strike(conn) => In(s, conn) && PcOf(s, conn).CountStrike?
    case Arm(conn) => In(s, conn) && PcOf(s, conn).ArmCooldown?
    case Ask(conn, _) => In(s, conn) && PcOf(s, conn).AskAt?
    case Issue(conn, _, _) => In(s, conn) && PcOf(s, conn).MintToken?
    case Join(conn) => In(s, conn) && PcOf(s, conn).Admitted?
    case Drop(conn) =>
      In(s, conn) && (PcOf(s, conn).AwaitAuth? || PcOf(s, conn).AwaitPow? || PcOf(s, conn).AwaitSolution?)
  }

  function RowOf(s: State, user: string): Option<DeviceTokens.Row> {
    if user in s.rows then Some(s.rows[user]) else None
  }

  function IssuanceKey(cfg: Config, ip: string, day: nat): string {
    Key("issuance:", ip, cfg.day(day))
  }

  /** The key stands for the user and signed this very challenge together with the token. */
  predicate Proves(cfg: Config, challenge: string, who: Claim) {
    cfg.crypto.identify(who.pubkey) == Some(who.user) && cfg.crypto.verify(who.pubkey, who.signature, challenge + who.token)
  }

  /** After a valid proof of work: refuse, skip the puzzle, look at the counter, or require it. */
  function AfterPow(mode: Mode, who: Claim, advertises: bool): Pc {
    if mode != Off && !advertises then Closed
    else if !advertises then AskIssuance(who)
    else if mode == Always then CheckCooldown(who)
    else PeekCount(who)
  }

  /** The connection that an event moves on. */
  function Mover(e: Event): Option<nat> {
    match e
    case Tick(_) => None
    case Revoke(_) => None
    case Connect(_, _, _) => None
    case Auth(conn, _, _, _, _, _, _) => Some(conn)
    case ReadRow(conn, _) => Some(conn)
    case Judge(conn) => Some(conn)
    case Rotate(conn, _, _) => Some(conn)
    case Pow(conn, _, _) => Some(conn)
    case ReadDay(conn) => Some(conn)
    case Peek(conn, _) => Some(conn)
    case Cooldown(conn, _) => Some(conn)
    case Solve(conn, _) => Some(conn)
    case Strike(conn) => Some(conn)
    case Arm(conn) => Some(conn)
    case Ask(conn, _) => Some(conn)
    case Issue(conn, _, _) => Some(conn)
    case Join(conn) => Some(conn)
    case Drop(conn) => Some(conn)
  }

  /** Where the connection goes and what the step establishes. */
  datatype Outcome = Outcome(pc: Pc, facts: seq<Fact>)

  function Handle(cfg: Config, s: State, e: Event): Outcome
    requires Enabled(s, e) && Mover(e).Some? && In(s, Mover(e).value)
  {
    var conn := Mover(e).value;
    var c := s.conns[conn];
    match e
    case Auth(_, wellFormed, pubkey, signature, token, storeUp, advertises) =>
      var user := cfg.crypto.identify(pubkey);
      if !wellFormed || user.None? || !storeUp then Outcome(Closed, [])
      else
        var who := Claim(user.value, pubkey, signature, token);
        if !Proves(cfg, c.challenge, who) then Outcome(Closed, [])
        else Outcome(if token != "" then VerifyToken(who) else AwaitPow(who, advertises), [Signed(conn, who)])
    case ReadRow(_, storeOk) =>
      var row := RowOf(s, c.pc.who.user);
      if storeOk then Outcome(JudgeToken(c.pc.who, row), [RowRead(conn, c.pc.who.user, row)]) else Outcome(Closed, [])
    case Judge(_) =>
      var v := DeviceTokens.Verified(c.pc.row, c.pc.who.token, s.now);
      if !v.valid then Outcome(Closed, [])
      else Outcome(if v.nearExpiry then RotateToken(c.pc.who) else Admitted(c.pc.who),
                   [TokenAccepted(conn, c.pc.who, c.pc.row, s.now)])
    case Rotate(_, _, _) => Outcome(Admitted(c.pc.who), [])
    case Pow(_, wellFormed, nonce) =>
      if !wellFormed || !VerifyPoW(cfg.crypto.hash, c.challenge, nonce, c.pc.who.pubkey, cfg.difficulty)
      then Outcome(Closed, [])
      else
        Outcome(AfterPow(cfg.mode, c.pc.who, c.pc.advertises),
                [PowSolved(conn, nonce)] + if cfg.mode == Off && !c.pc.advertises then [NoPuzzle(conn, false, 0)] else [])
    case ReadDay(_) =>
      Outcome(if c.pc.PeekCount? then PeekAt(c.pc.who, s.now / DAY) else AskAt(c.pc.who, s.now / DAY), [])
    case Peek(_, storeOk) =>
      var n := Count(s.issuance, IssuanceKey(cfg, c.ip, c.pc.day));
      if !storeOk || n >= 1 then Outcome(CheckCooldown(c.pc.who), [])
      else Outcome(AskIssuance(c.pc.who), [NoPuzzle(conn, true, n)])
    case Cooldown(_, storeOk) =>
      if !storeOk || Cooling(s.cooldown, c.ip, s.now) then Outcome(Closed, [])
      else Outcome(AwaitSolution(c.pc.who), [OffCooldown(conn)])
    case Solve(_, solution) =>
      (match solution
       case Right => Outcome(AskIssuance(c.pc.who), [PuzzleSolved(conn)])
       case WrongAnswer => Outcome(CountStrike(c.pc.who, s.now / HOUR), [PuzzleFailed(conn), Wronged(conn, c.ip, s.now)])
       case NotASolution => Outcome(Closed, [PuzzleFailed(conn)]))
    case Strike(_) =>
      Outcome(ArmCooldown(c.pc.who, Count(s.strikes, Strikes.StrikeKey(cfg.hour, c.ip, c.pc.hour)) + 1), [])
    case Arm(_) => Outcome(Closed, [])
    case Ask(_, storeOk) =>
      var key := IssuanceKey(cfg, c.ip, c.pc.day);
      var allowed := Count(Bumped(s.issuance, key, cfg.day(c.pc.day)), key) <= cfg.dailyCap;
      if !storeOk then Outcome(Closed, [])
      else Outcome(if allowed then MintToken(c.pc.who, c.pc.day) else Closed,
                   [Asked(conn, c.ip, c.pc.day, allowed)] +
                   if Trims(s.issuance, key) then [Trimmed(conn, c.pc.day)] else [])
    case Issue(_, storeOk, _) =>
      if storeOk then Outcome(Admitted(c.pc.who), [IssueMinted(conn, c.ip, c.pc.day)]) else Outcome(Closed, [])
    case Join(_) => Outcome(Registered(c.pc.who), [Joined(conn, c.pc.who)])
    case Drop(_) => Outcome(Closed, [])
  }

  /** What the step does to the shared tables. */
  function Effects(cfg: Config, s: State, e: Event): State
    requires Enabled(s, e)
  {
    match e
    case Tick(dt) => s.(now := s.now + dt)
    case Revoke(user) => if user in s.rows then s.(rows := s.rows[user := s.rows[user].(revoked := true)]) else s
    case Connect(conn, ip, challenge) => s.(conns := s.conns[conn := Conn(ip, challenge, AwaitAuth)])
    case Rotate(conn, storeOk, newToken) =>
      // A failed rotation is only logged: the presented token is still valid.
      var user := PcOf(s, conn).who.user;
      if storeOk then s.(rows := s.rows[user := DeviceTokens.Minted(RowOf(s, user), newToken, s.now)]) else s
    case Cooldown(_, storeOk) => if storeOk then s.(cooldown := Unlapsed(s.cooldown, s.now)) else s
    case Strike(conn) =>
      var h := PcOf(s, conn).hour;
      s.(strikes := Bumped(s.strikes, Strikes.StrikeKey(cfg.hour, s.conns[conn].ip, h), cfg.hour(h)))
    case Arm(conn) => s.(cooldown := Strikes.Punished(s.cooldown, s.conns[conn].ip, PcOf(s, conn).strikes, s.now))
    case Ask(conn, storeOk) =>
      var d := PcOf(s, conn).day;
      if storeOk then s.(issuance := Bumped(s.issuance, IssuanceKey(cfg, s.conns[conn].ip, d), cfg.day(d))) else s
    case Issue(conn, storeOk, newToken) =>
      var user := PcOf(s, conn).who.user;
      if storeOk then s.(rows := s.rows[user := DeviceTokens.Minted(RowOf(s, user), newToken, s.now)]) else s
    case _ => s
  }

  function Next(cfg: Config, s: State, e: Event): State
    requires Enabled(s, e)
  {
    var t := Effects(cfg, s, e);
    if Mover(e).None? then t
    else
      var conn, o := Mover(e).value, Handle(cfg, s, e);
      t.(conns := s.conns[conn := s.conns[conn].(pc := o.pc)], log := s.log + o.facts)
  }

  predicate ValidRun(cfg: Config, s: State, es: seq<Event>)
    decreases |es|
  {
    es == [] || (Enabled(s, es[0]) && ValidRun(cfg, Next(cfg, s, es[0]), es[1..]))
  }

  function After(cfg: Config, s: State, es: seq<Event>): State
    requires ValidRun(cfg, s, es)
    decreases |es|
  {
    if es == [] then s else After(cfg, Next(cfg, s, es[0]), es[1..])
  }

  // ---- What must precede an admission -------------------------------------------------

  /** The puzzle was solved outside any cooldown, or the rules of the mode did not ask for it. */
  predicate PuzzleGate(cfg: Config, log: seq<Fact>, conn: nat) {
    || (OffCooldown(conn) in log && PuzzleSolved(conn) in log)
    || (cfg.mode == Off && NoPuzzle(conn, false, 0) in log)
    || (cfg.mode != Always && NoPuzzle(conn, true, 0) in log)
  }

  /** It presented a nonce that solves the proof of work. */
  ghost predicate Worked(log: seq<Fact>, conn: nat) {
    exists nonce :: PowSolved(conn, nonce) in log
  }

  ghost predicate PaidTheGate(cfg: Config, log: seq<Fact>, conn: nat) {
    Worked(log, conn) && PuzzleGate(cfg, log, conn)
  }

  /** The row that was read for the user accepts the token. */
  ghost predicate Recognised(log: seq<Fact>, conn: nat, who: Claim) {
    exists row, at :: TokenAccepted(conn, who, row, at) in log
  }

  /** An allowed call to AllowIssuance and the mint that followed it. */
  predicate Issued(log: seq<Fact>, conn: nat, ip: string, d: nat) {
    Asked(conn, ip, d, true) in log && IssueMinted(conn, ip, d) in log
  }

  /** A valid signature, and either an accepted token or a paid, allowed and minted issuance. */
  ghost predicate Cleared(cfg: Config, log: seq<Fact>, conn: nat, who: Claim) {
    && Signed(conn, who) in log
    && (|| Recognised(log, conn, who)
        || (PaidTheGate(cfg, log, conn) && exists ip, d :: Issued(log, conn, ip, d)))
  }

  ghost predicate PcOk(cfg: Config, log: seq<Fact>, conn: nat, c: Conn) {
    match c.pc
    case AwaitAuth => true
    case VerifyToken(who) => Signed(conn, who) in log
    case JudgeToken(who, row) => Signed(conn, who) in log && RowRead(conn, who.user, row) in log
    case RotateToken(who) => Cleared(cfg, log, conn, who)
    case AwaitPow(who, _) => Signed(conn, who) in log
    case PeekCount(who) => Signed(conn, who) in log && Worked(log, conn) && cfg.mode != Always
    case PeekAt(who, _) => Signed(conn, who) in log && Worked(log, conn) && cfg.mode != Always
    case CheckCooldown(who) => Signed(conn, who) in log && Worked(log, conn)
    case AwaitSolution(who) => Signed(conn, who) in log && Worked(log, conn) && OffCooldown(conn) in log
    case CountStrike(_, _) => true
    case ArmCooldown(_, _) => true
    case AskIssuance(who) => Signed(conn, who) in log && PaidTheGate(cfg, log, conn)
    case AskAt(who, _) => Signed(conn, who) in log && PaidTheGate(cfg, log, conn)
    case MintToken(who, d) => Signed(conn, who) in log && PaidTheGate(cfg, log, conn) && Asked(conn, c.ip, d, true) in log
    case Admitted(who) => Cleared(cfg, log, conn, who)
    case Registered(who) => Cleared(cfg, log, conn, who)
    case Closed => true
  }

  /** A fact of the log came after everything it needs. */
  ghost predicate FactOk(cfg: Config, before: seq<Fact>, f: Fact) {
    match f
    case Joined(conn, who) => Cleared(cfg, before, conn, who)
    case TokenAccepted(conn, who, row, at) =>
      RowRead(conn, who.user, row) in before && DeviceTokens.Verified(row, who.token, at).valid
    case OffCooldown(conn) => Worked(before, conn)
    case PuzzleSolved(conn) => Worked(before, conn) && OffCooldown(conn) in before
    case PuzzleFailed(conn) => Worked(before, conn) && OffCooldown(conn) in before
    case Asked(conn, _, _, _) => PaidTheGate(cfg, before, conn)
    case IssueMinted(conn, ip, d) => Asked(conn, ip, d, true) in before
    case _ => true
  }

  ghost predicate LogOk(cfg: Config, log: seq<Fact>) {
    forall k :: 0 <= k < |log| ==> FactOk(cfg, log[..k], log[k])
  }

  ghost predicate Inv(cfg: Config, s: State) {
    && LogOk(cfg, s.log)
    && (forall c :: c in s.conns ==> PcOk(cfg, s.log, c, s.conns[c]))
  }

  lemma WorkedKept(log: seq<Fact>, f: Fact, conn: nat)
    ensures Worked(log, conn) ==> Worked(log + [f], conn)
  {
    if Worked(log, conn) {
      var nonce :| PowSolved(conn, nonce) in log;
      assert PowSolved(conn, nonce) in log + [f];
    }
  }

  lemma ClearedKept(cfg: Config, log: seq<Fact>, f: Fact, conn: nat, who: Claim)
    requires Cleared(cfg, log, conn, who)
    ensures Cleared(cfg, log + [f], conn, who)
  {
    if Recognised(log, conn, who) {
      var row, at :| TokenAccepted(conn, who, row, at) in log;
      assert TokenAccepted(conn, who, row, at) in log + [f];
    } else {
      WorkedKept(log, f, conn);
      var ip, d :| Issued(log, conn, ip, d);
      assert Issued(log + [f], conn, ip, d);
    }
  }

  lemma PcKept(cfg: Config, log: seq<Fact>, f: Fact, conn: nat, c: Conn)
    requires PcOk(cfg, log, conn, c)
    ensures PcOk(cfg, log + [f], conn, c)
  {
    WorkedKept(log, f, conn);
    if c.pc.RotateToken? || c.pc.Admitted? || c.pc.Registered? {
      ClearedKept(cfg, log, f, conn, c.pc.who);
    }
  }

  lemma LogSnoc(cfg: Config, log: seq<Fact>, f: Fact)
    requires LogOk(cfg, log) && FactOk(cfg, log, f)
    ensures LogOk(cfg, log + [f])
  {
    forall k | 0 <= k < |log| + 1 ensures FactOk(cfg, (log + [f])[..k], (log + [f])[k]) {
      assert (log + [f])[..k] == log[..k];
      assert log[..|log|] == log;
    }
  }

  lemma {:induction false} PcKeptBy(cfg: Config, log: seq<Fact>, fs: seq<Fact>, conn: nat, c: Conn)
    requires PcOk(cfg, log, conn, c)
    ensures PcOk(cfg, log + fs, conn, c)
    decreases |fs|
  {
    if fs == [] {
      assert log + fs == log;
    } else {
      PcKept(cfg, log, fs[0], conn, c);
      PcKeptBy(cfg, log + [fs[0]], fs[1..], conn, c);
      assert log + [fs[0]] + fs[1..] == log + fs;
    }
  }

  ghost predicate OutcomeOk(cfg: Config, s: State, conn: nat, o: Outcome)
    requires conn in s.conns
  {
    PcOk(cfg, s.log + o.facts, conn, s.conns[conn].(pc := o.pc)) &&
    (o.facts != [] ==> FactOk(cfg, s.log, o.facts[0])) &&
    (|o.facts| > 1 ==> |o.facts| == 2 && (o.facts[1].NoPuzzle? || o.facts[1].Wronged? || o.facts[1].Trimmed?))
  }

  lemma TokenPathOk(cfg: Config, s: State, e: Event)
    requires Inv(cfg, s) && Enabled(s, e) && (e.Auth? || e.ReadRow? || e.Judge? || e.Rotate?)
    ensures OutcomeOk(cfg, s, e.conn, Handle(cfg, s, e))
  {
    assert PcOk(cfg, s.log, e.conn, s.conns[e.conn]);
    var o := Handle(cfg, s, e);
    if e.Judge? && o.facts != [] {
      assert TokenAccepted(e.conn, s.conns[e.conn].pc.who, s.conns[e.conn].pc.row, s.now) in s.log + o.facts;
    } else {
      assert o.facts == [] ==> s.log + o.facts == s.log;
    }
  }

  lemma PowPathOk(cfg: Config, s: State, e: Event)
    requires Inv(cfg, s) && Enabled(s, e) && (e.Pow? || e.ReadDay? || e.Peek?)
    ensures OutcomeOk(cfg, s, e.conn, Handle(cfg, s, e))
  {
    assert PcOk(cfg, s.log, e.conn, s.conns[e.conn]);
    var o := Handle(cfg, s, e);
    assert o.facts == [] ==> s.log + o.facts == s.log;
  }

  lemma PuzzlePathOk(cfg: Config, s: State, e: Event)
    requires Inv(cfg, s) && Enabled(s, e) && (e.Cooldown? || e.Solve? || e.Strike? || e.Arm?)
    ensures OutcomeOk(cfg, s, e.conn, Handle(cfg, s, e))
  {
    assert PcOk(cfg, s.log, e.conn, s.conns[e.conn]);
    var o := Handle(cfg, s, e);
    assert o.facts == [] ==> s.log + o.facts == s.log;
  }

  lemma IssuePathOk(cfg: Config, s: State, e: Event)
    requires Inv(cfg, s) && Enabled(s, e) && (e.Ask? || e.Issue? || e.Join? || e.Drop?)
    ensures OutcomeOk(cfg, s, e.conn, Handle(cfg, s, e))
  {
    var c, o := s.conns[e.conn], Handle(cfg, s, e);
    assert PcOk(cfg, s.log, e.conn, c);
    if o.facts == [] {
      assert s.log + o.facts == s.log;
    } else {
      PcKept(cfg, s.log, o.facts[0], e.conn, c);
      if e.Issue? {
        assert Issued(s.log + o.facts, e.conn, c.ip, c.pc.day);
      }
    }
  }

  lemma HandleOk(cfg: Config, s: State, e: Event)
    requires Inv(cfg, s) && Enabled(s, e) && Mover(e).Some?
    ensures OutcomeOk(cfg, s, Mover(e).value, Handle(cfg, s, e))
  {
    if e.Auth? || e.ReadRow? || e.Judge? || e.Rotate? {
      TokenPathOk(cfg, s, e);
    } else if e.Pow? || e.ReadDay? || e.Peek? {
      PowPathOk(cfg, s, e);
    } else if e.Cooldown? || e.Solve? || e.Strike? || e.Arm? {
      PuzzlePathOk(cfg, s, e);
    } else {
      IssuePathOk(cfg, s, e);
    }
  }

  lemma LogStep(cfg: Config, log: seq<Fact>, fs: seq<Fact>)
    requires LogOk(cfg, log) && |fs| <= 2
    requires fs != [] ==> FactOk(cfg, log, fs[0])
    requires |fs| == 2 ==> fs[1].NoPuzzle? || fs[1].Wronged? || fs[1].Trimmed?
    ensures LogOk(cfg, log + fs)
  {
    if fs == [] {
      assert log + fs == log;
    } else {
      LogSnoc(cfg, log, fs[0]);
      if |fs| == 1 {
        assert log + fs == log + [fs[0]];
      } else {
        LogSnoc(cfg, log + [fs[0]], fs[1]);
        assert log + fs == log + [fs[0]] + [fs[1]];
      }
    }
  }

  lemma StandingStill(cfg: Config, s: State, e: Event)
    requires Inv(cfg, s) && Enabled(s, e) && Mover(e).None?
    ensures Inv(cfg, Next(cfg, s, e))
  {}

  lemma InvStep(cfg: Config, s: State, e: Event)
    requires Inv(cfg, s) && Enabled(s, e)
    ensures Inv(cfg, Next(cfg, s, e))
  {
    if Mover(e).None? {
      StandingStill(cfg, s, e);
    } else {
      var t, conn, o := Next(cfg, s, e), Mover(e).value, Handle(cfg, s, e);
      HandleOk(cfg, s, e);
      LogStep(cfg, s.log, o.facts);
      forall c | c in t.conns ensures PcOk(cfg, t.log, c, t.conns[c]) {
        if c != conn {
          PcKeptBy(cfg, s.log, o.facts, c, s.conns[c]);
        }
      }
    }
  }

  lemma {:induction false} InvRun(cfg: Config, s: State, es: seq<Event>)
    requires Inv(cfg, s) && ValidRun(cfg, s, es)
    ensures Inv(cfg, After(cfg, s, es))
    decreases |es|
  {
    if es != [] {
      InvStep(cfg, s, es[0]);
      InvRun(cfg, Next(cfg, s, es[0]), es[1..]);
    }
  }

  /** Main result: in every interleaving a connection that joins the hub had, earlier in the
      run, a valid signature and either an accepted token or, in this order of need, the proof
      of work, the puzzle the mode asks for, an allowed issuance and its mint. */
  lemma OnlyClearedConnectionsJoin(cfg: Config, start: nat, es: seq<Event>, k: nat)
    requires ValidRun(cfg, Init(start), es)
    requires var log := After(cfg, Init(start), es).log; k < |log| && log[k].Joined?
    ensures var log := After(cfg, Init(start), es).log; Cleared(cfg, log[..k], log[k].conn, log[k].who)
  {
    InvRun(cfg, Init(start), es);
    var log := After(cfg, Init(start), es).log;
    assert FactOk(cfg, log[..k], log[k]);
  }

  /** Nobody spends daily quota before paying the proof of work and passing the puzzle gate. */
  lemma QuotaIsAskedAfterTheGate(cfg: Config, start: nat, es: seq<Event>, k: nat)
    requires ValidRun(cfg, Init(start), es)
    requires var log := After(cfg, Init(start), es).log; k < |log| && log[k].Asked?
    ensures var log := After(cfg, Init(start), es).log; PaidTheGate(cfg, log[..k], log[k].conn)
  {
    InvRun(cfg, Init(start), es);
    var log := After(cfg, Init(start), es).log;
    assert FactOk(cfg, log[..k], log[k]);
  }

  // ---- What the facts stand for --------------------------------------------------------------

  /** What a step must have seen to write this fact. */
  predicate Grounds(cfg: Config, s: State, e: Event, f: Fact)
    requires Enabled(s, e)
  {
    match f
    case Signed(conn, who) =>
      && e.Auth? && e.conn == conn && e.wellFormed && e.storeUp
      && who.pubkey == e.pubkey && who.signature == e.signature && who.token == e.token
      && Proves(cfg, s.conns[conn].challenge, who)
    case RowRead(conn, user, row) => e == ReadRow(conn, true) && PcOf(s, conn).who.user == user && row == RowOf(s, user)
    case TokenAccepted(conn, who, row, at) =>
      && e == Judge(conn) && PcOf(s, conn) == JudgeToken(who, row) && at == s.now
      && DeviceTokens.Verified(row, who.token, at).valid
    case PowSolved(conn, nonce) =>
      && e.Pow? && e.conn == conn && e.nonce == nonce
      && VerifyPoW(cfg.crypto.hash, s.conns[conn].challenge, nonce, PcOf(s, conn).who.pubkey, cfg.difficulty)
    case NoPuzzle(conn, advertises, count) =>
      && count == 0
      && if advertises
         then cfg.mode != Always && e == Peek(conn, true) && Count(s.issuance, IssuanceKey(cfg, s.conns[conn].ip, PcOf(s, conn).day)) == 0
         else cfg.mode == Off && e.Pow? && e.conn == conn && !PcOf(s, conn).advertises
    case OffCooldown(conn) => e == Cooldown(conn, true) && !Cooling(s.cooldown, s.conns[conn].ip, s.now)
    case PuzzleSolved(conn) => e == Solve(conn, Right)
    case PuzzleFailed(conn) => e.Solve? && e.conn == conn && e.solution != Right
    case Wronged(conn, ip, at) => e == Solve(conn, WrongAnswer) && s.conns[conn].ip == ip && s.now == at
    case Asked(conn, ip, d, allowed) =>
      && e == Ask(conn, true) && s.conns[conn].ip == ip && d == PcOf(s, conn).day
      && (allowed <==> Count(s.issuance, IssuanceKey(cfg, ip, d)) < cfg.dailyCap)
    case Trimmed(conn, d) =>
      && e == Ask(conn, true) && d == PcOf(s, conn).day
      && |s.issuance[IssuanceKey(cfg, s.conns[conn].ip, d) := 0]| > TRIM_ABOVE
    case IssueMinted(conn, ip, d) => e.Issue? && e.conn == conn && e.storeOk && s.conns[conn].ip == ip
    case Joined(conn, who) => e == Join(conn) && PcOf(s, conn) == Admitted(who)
  }

  lemma SameSize(m: map<string, nat>, key: string, n: nat)
    ensures |m[key := n]| == |m[key := 0]|
  {
    assert m[key := n].Keys == m[key := 0].Keys;
  }

  lemma NewFactsHaveGrounds(cfg: Config, s: State, e: Event)
    requires Enabled(s, e) && Mover(e).Some? && PcOk(cfg, s.log, e.conn, s.conns[e.conn])
    ensures forall f :: f in Handle(cfg, s, e).facts ==> Grounds(cfg, s, e, f)
  {
    if e.Ask? {
      var ip, stamp := s.conns[e.conn].ip, cfg.day(s.conns[e.conn].pc.day);
      OwnStampIsCurrent("issuance:", ip, stamp);
      SameSize(s.issuance, Key("issuance:", ip, stamp), Count(s.issuance, Key("issuance:", ip, stamp)) + 1);
    }
  }

  /** Some step of the run had the grounds for this fact. */
  predicate Grounded(cfg: Config, s: State, es: seq<Event>, f: Fact)
    requires ValidRun(cfg, s, es)
    decreases |es|
  {
    es != [] &&
    (Grounds(cfg, s, es[0], f) || Grounded(cfg, Next(cfg, s, es[0]), es[1..], f))
  }

  lemma {:induction false} FactsAreGrounded(cfg: Config, s: State, es: seq<Event>, f: Fact)
    requires Inv(cfg, s) && ValidRun(cfg, s, es) && f in After(cfg, s, es).log
    ensures f in s.log || Grounded(cfg, s, es, f)
    decreases |es|
  {
    if es != [] {
      var t := Next(cfg, s, es[0]);
      InvStep(cfg, s, es[0]);
      FactsAreGrounded(cfg, t, es[1..], f);
      if f in t.log && f !in s.log {
        NewFactsHaveGrounds(cfg, s, es[0]);
      }
    }
  }

  /** No fact is written without what it says: whatever the log of a run records was so, in the
      tables and in the client's frames, at a step of that run. */
  lemma FactsHaveGrounds(cfg: Config, start: nat, es: seq<Event>, f: Fact)
    requires ValidRun(cfg, Init(start), es) && f in After(cfg, Init(start), es).log
    ensures Grounded(cfg, Init(start), es, f)
  {
    FactsAreGrounded(cfg, Init(start), es, f);
  }

  // ---- Whose signature it was ----------------------------------------------------------------

  /** What the facts of a connection say about its own challenge. */
  ghost predicate FactTrue(cfg: Config, s: State, f: Fact) {
    match f
    case Signed(conn, who) => conn in s.conns && !s.conns[conn].pc.AwaitAuth? && Proves(cfg, s.conns[conn].challenge, who)
    case PowSolved(conn, nonce) =>
      conn in s.conns && exists who ::
        Signed(conn, who) in s.log && VerifyPoW(cfg.crypto.hash, s.conns[conn].challenge, nonce, who.pubkey, cfg.difficulty)
    case _ => true
  }

  ghost predicate Truthful(cfg: Config, s: State) {
    && (forall f :: f in s.log ==> FactTrue(cfg, s, f))
    && (forall conn, who, who' :: Signed(conn, who) in s.log && Signed(conn, who') in s.log ==> who == who')
  }

  predicate ChallengesOk(s: State) {
    forall c :: c in s.conns ==> |s.conns[c].challenge| == CHALLENGE_LENGTH
  }

  /** The random challenges of the run did not repeat. */
  predicate ChallengesDiffer(s: State) {
    forall c, d :: c in s.conns && d in s.conns && s.conns[c].challenge == s.conns[d].challenge ==> c == d
  }

  lemma ConnsKept(cfg: Config, s: State, e: Event, c: nat)
    requires Enabled(s, e) && c in s.conns
    ensures c in Next(cfg, s, e).conns && Next(cfg, s, e).conns[c].challenge == s.conns[c].challenge
    ensures !s.conns[c].pc.AwaitAuth? ==> !Next(cfg, s, e).conns[c].pc.AwaitAuth?
  {}

  lemma FactStaysTrue(cfg: Config, s: State, e: Event, f: Fact)
    requires Enabled(s, e) && f in s.log && FactTrue(cfg, s, f)
    ensures FactTrue(cfg, Next(cfg, s, e), f)
  {
    var t := Next(cfg, s, e);
    if f.Signed? || f.PowSolved? {
      ConnsKept(cfg, s, e, f.conn);
    }
    if f.PowSolved? {
      var who :| Signed(f.conn, who) in s.log &&
        VerifyPoW(cfg.crypto.hash, s.conns[f.conn].challenge, f.nonce, who.pubkey, cfg.difficulty);
      assert Signed(f.conn, who) in t.log;
    }
  }

  lemma NewFactIsTrue(cfg: Config, s: State, e: Event, f: Fact)
    requires Inv(cfg, s) && Enabled(s, e) && Mover(e).Some? && f in Handle(cfg, s, e).facts
    ensures FactTrue(cfg, Next(cfg, s, e), f)
  {
    var t := Next(cfg, s, e);
    assert PcOk(cfg, s.log, e.conn, s.conns[e.conn]);
    if f.PowSolved? {
      assert Signed(e.conn, s.conns[e.conn].pc.who) in t.log;
    }
  }

  /** Only the AUTH frame of a connection that has none yet adds a claim. */
  lemma NewClaim(cfg: Config, s: State, e: Event, conn: nat, who: Claim)
    requires Enabled(s, e) && Signed(conn, who) in Next(cfg, s, e).log && Signed(conn, who) !in s.log
    ensures Mover(e) == Some(conn) && PcOf(s, conn).AwaitAuth? && Handle(cfg, s, e).facts == [Signed(conn, who)]
  {}

  lemma OneClaimEach(cfg: Config, s: State, e: Event)
    requires Truthful(cfg, s) && Enabled(s, e)
    ensures var t := Next(cfg, s, e);
            forall conn, who, who' :: Signed(conn, who) in t.log && Signed(conn, who') in t.log ==> who == who'
  {
    var t := Next(cfg, s, e);
    forall conn, who, who' | Signed(conn, who) in t.log && Signed(conn, who') in t.log ensures who == who' {
      assert Signed(conn, who) in s.log ==> FactTrue(cfg, s, Signed(conn, who));
      assert Signed(conn, who') in s.log ==> FactTrue(cfg, s, Signed(conn, who'));
      if Signed(conn, who) !in s.log {
        NewClaim(cfg, s, e, conn, who);
      }
      if Signed(conn, who') !in s.log {
        NewClaim(cfg, s, e, conn, who');
      }
    }
  }

  lemma TruthStep(cfg: Config, s: State, e: Event)
    requires Inv(cfg, s) && Truthful(cfg, s) && Enabled(s, e)
    ensures Truthful(cfg, Next(cfg, s, e))
  {
    var t := Next(cfg, s, e);
    OneClaimEach(cfg, s, e);
    forall f | f in t.log ensures FactTrue(cfg, t, f) {
      if f in s.log {
        FactStaysTrue(cfg, s, e, f);
      } else {
        NewFactIsTrue(cfg, s, e, f);
      }
    }
  }

  lemma ChallengesStep(cfg: Config, s: State, e: Event)
    requires ChallengesOk(s) && Enabled(s, e)
    ensures ChallengesOk(Next(cfg, s, e))
  {
    var t := Next(cfg, s, e);
    forall c | c in t.conns ensures |t.conns[c].challenge| == CHALLENGE_LENGTH {
      if c in s.conns {
        ConnsKept(cfg, s, e, c);
      }
    }
  }

  lemma {:induction false} TruthRun(cfg: Config, s: State, es: seq<Event>)
    requires Inv(cfg, s) && Truthful(cfg, s) && ChallengesOk(s) && ValidRun(cfg, s, es)
    ensures Truthful(cfg, After(cfg, s, es)) && ChallengesOk(After(cfg, s, es))
    decreases |es|
  {
    if es != [] {
      InvStep(cfg, s, es[0]);
      TruthStep(cfg, s, es[0]);
      ChallengesStep(cfg, s, es[0]);
      TruthRun(cfg, Next(cfg, s, es[0]), es[1..]);
    }
  }

  lemma AcceptedOnItsRow(cfg: Config, log: seq<Fact>, k: nat, conn: nat, who: Claim, row: Option<DeviceTokens.Row>, at: nat)
    requires LogOk(cfg, log) && k <= |log| && TokenAccepted(conn, who, row, at) in log[..k]
    ensures RowRead(conn, who.user, row) in log[..k] && DeviceTokens.Verified(row, who.token, at).valid
  {
    var j :| 0 <= j < k && log[..k][j] == TokenAccepted(conn, who, row, at);
    assert FactOk(cfg, log[..j], log[j]);
  }

  /** Main result on identity: whoever joins had signed this connection's own challenge, together with
      the token it presented, under a key that stands for the user; and either that token was
      accepted on the row read for that user, or the connection presented a nonce that solves the proof
      of work over this challenge and this key. */
  lemma JoinsAreSignedForThisChallenge(cfg: Config, start: nat, es: seq<Event>, k: nat)
    requires ValidRun(cfg, Init(start), es)
    requires var log := After(cfg, Init(start), es).log; k < |log| && log[k].Joined?
    ensures var s := After(cfg, Init(start), es);
            var conn, who := s.log[k].conn, s.log[k].who;
            && conn in s.conns && Proves(cfg, s.conns[conn].challenge, who)
            && (|| (exists row, at: nat :: TokenAccepted(conn, who, row, at) in s.log[..k] && RowRead(conn, who.user, row) in s.log[..k] &&
                      DeviceTokens.Verified(row, who.token, at).valid)
                || (exists nonce :: PowSolved(conn, nonce) in s.log[..k] &&
                      VerifyPoW(cfg.crypto.hash, s.conns[conn].challenge, nonce, who.pubkey, cfg.difficulty)))
  {
    OnlyClearedConnectionsJoin(cfg, start, es, k);
    InvRun(cfg, Init(start), es);
    TruthRun(cfg, Init(start), es);
    var s := After(cfg, Init(start), es);
    var conn, who := s.log[k].conn, s.log[k].who;
    assert Signed(conn, who) in s.log[..k];
    assert FactTrue(cfg, s, Signed(conn, who));
    if Recognised(s.log[..k], conn, who) {
      var row, at :| TokenAccepted(conn, who, row, at) in s.log[..k];
      AcceptedOnItsRow(cfg, s.log, k, conn, who, row, at);
    } else {
      var nonce :| PowSolved(conn, nonce) in s.log[..k];
      assert FactTrue(cfg, s, PowSolved(conn, nonce));
    }
  }

  /** The signature checks that connections of this state have passed. */
  function PassedChecks(s: State): set<Check> {
    set f | f in s.log && f.Signed? && f.conn in s.conns ::
      Check(f.who.pubkey, f.who.signature, s.conns[f.conn].challenge + f.who.token)
  }

  lemma PassedCheck(cfg: Config, s: State, conn: nat, who: Claim)
    requires Truthful(cfg, s) && Signed(conn, who) in s.log
    ensures conn in s.conns
    ensures var k := Check(who.pubkey, who.signature, s.conns[conn].challenge + who.token);
            k in PassedChecks(s) && CryptoOps.Passes(cfg.crypto, k)
  {
    assert FactTrue(cfg, s, Signed(conn, who));
  }

  /** No AUTH frame works twice: unless a random challenge repeats or a signature that was checked fits
      two of the texts it was checked for, two connections never get past the signature check with
      the same signature. */
  lemma SignaturesAreNotReplayed(cfg: Config, start: nat, es: seq<Event>, conn: nat, who: Claim, conn': nat, who': Claim)
    requires ValidRun(cfg, Init(start), es) && ChallengesDiffer(After(cfg, Init(start), es))
    requires Binding(cfg.crypto, PassedChecks(After(cfg, Init(start), es)))
    requires var log := After(cfg, Init(start), es).log; Signed(conn, who) in log && Signed(conn', who') in log
    requires who.signature == who'.signature
    ensures conn == conn' && who.token == who'.token
  {
    TruthRun(cfg, Init(start), es);
    var s := After(cfg, Init(start), es);
    PassedCheck(cfg, s, conn, who);
    PassedCheck(cfg, s, conn', who');
    var a, b := s.conns[conn].challenge + who.token, s.conns[conn'].challenge + who'.token;
    assert a == b;
    assert a[..CHALLENGE_LENGTH] == s.conns[conn].challenge && b[..CHALLENGE_LENGTH] == s.conns[conn'].challenge;
    assert a[CHALLENGE_LENGTH..] == who.token && b[CHALLENGE_LENGTH..] == who'.token;
  }
}
