/** What a handshake that nobody disturbs comes to, both ways: exactly which clients are let in. */
module HandshakeServed {
  import opened CryptoOps
  import opened Text
  import opened Counters
  import opened Handshake
  import DeviceTokens

  /** What a client brings to one connection, and the token that would be drawn for it. */
  datatype Visit = Visit(
    conn: nat,
    ip: string,
    challenge: string,
    pubkey: string,
    signature: string,
    token: string,
    advertises: bool,
    nonce: int,
    solution: Solution,
    newToken: string)

  predicate Over(pc: Pc) {
    pc.Registered? || pc.Closed?
  }

  /** The next step of the connection, all stores and reads working. */
  function Step(v: Visit, pc: Pc): Event
    requires !Over(pc)
  {
    match pc
    case AwaitAuth => Auth(v.conn, true, v.pubkey, v.signature, v.token, true, v.advertises)
    case VerifyToken(_) => ReadRow(v.conn, true)
    case JudgeToken(_, _) => Judge(v.conn)
    case RotateToken(_) => Rotate(v.conn, true, v.newToken)
    case AwaitPow(_, _) => Pow(v.conn, true, v.nonce)
    case PeekCount(_) => ReadDay(v.conn)
    case PeekAt(_, _) => Peek(v.conn, true)
    case CheckCooldown(_) => Cooldown(v.conn, true)
    case AwaitSolution(_) => Solve(v.conn, v.solution)
    case CountStrike(_, _) => Strike(v.conn)
    case ArmCooldown(_, _) => Arm(v.conn)
    case AskIssuance(_) => ReadDay(v.conn)
    case AskAt(_, _) => Ask(v.conn, true)
    case MintToken(_, _) => Issue(v.conn, true, v.newToken)
    case Admitted(_) => Join(v.conn)
  }

  predicate At(s: State, v: Visit, pc: Pc) {
    v.conn in s.conns && s.conns[v.conn] == Conn(v.ip, v.challenge, pc)
  }

  /** At most this many further steps of the connection. */
  function Served(cfg: Config, s: State, v: Visit, steps: nat): State
    requires v.conn in s.conns
    decreases steps
  {
    if steps == 0 || Over(PcOf(s, v.conn)) then s else Served(cfg, Next(cfg, s, Step(v, PcOf(s, v.conn))), v, steps - 1)
  }

  predicate LetIn(cfg: Config, s: State, v: Visit, steps: nat)
    requires v.conn in s.conns
  {
    var t := Served(cfg, s, v, steps);
    v.conn in t.conns && t.conns[v.conn].pc.Registered?
  }

  // ---- Stage by stage, from the end -----------------------------------------------------------

  lemma FromClosed(cfg: Config, s: State, v: Visit, steps: nat)
    requires v.conn in s.conns && PcOf(s, v.conn).Closed?
    ensures !LetIn(cfg, s, v, steps)
  {}

  lemma FromAdmitted(cfg: Config, s: State, v: Visit, who: Claim, steps: nat)
    requires At(s, v, Admitted(who)) && steps >= 1
    ensures LetIn(cfg, s, v, steps)
  {
    assert PcOf(Next(cfg, s, Join(v.conn)), v.conn) == Registered(who);
  }

  lemma FromMint(cfg: Config, s: State, v: Visit, who: Claim, pc: Pc, steps: nat)
    requires pc == RotateToken(who) || (pc.MintToken? && pc.who == who)
    requires At(s, v, pc) && steps >= 2
    ensures LetIn(cfg, s, v, steps)
  {
    FromAdmitted(cfg, Next(cfg, s, Step(v, pc)), v, who, steps - 1);
  }

  lemma FromJudge(cfg: Config, s: State, v: Visit, who: Claim, row: Option<DeviceTokens.Row>, steps: nat)
    requires At(s, v, JudgeToken(who, row)) && steps >= 3
    ensures LetIn(cfg, s, v, steps) <==> DeviceTokens.Verified(row, who.token, s.now).valid
  {
    var t := Next(cfg, s, Judge(v.conn));
    if PcOf(t, v.conn).RotateToken? {
      FromMint(cfg, t, v, who, RotateToken(who), steps - 1);
    } else if PcOf(t, v.conn).Admitted? {
      FromAdmitted(cfg, t, v, who, steps - 1);
    } else {
      FromClosed(cfg, t, v, steps - 1);
    }
  }

  lemma FromToken(cfg: Config, s: State, v: Visit, who: Claim, steps: nat)
    requires At(s, v, VerifyToken(who)) && steps >= 4
    ensures LetIn(cfg, s, v, steps) <==> DeviceTokens.Verified(RowOf(s, who.user), who.token, s.now).valid
  {
    FromJudge(cfg, Next(cfg, s, ReadRow(v.conn, true)), v, who, RowOf(s, who.user), steps - 1);
  }

  /** The calls of an address that the counter of a day has. */
  function Calls(cfg: Config, s: State, v: Visit, day: nat): nat {
    Count(s.issuance, IssuanceKey(cfg, v.ip, day))
  }

  lemma FromAskAt(cfg: Config, s: State, v: Visit, who: Claim, day: nat, steps: nat)
    requires At(s, v, AskAt(who, day)) && steps >= 3
    ensures LetIn(cfg, s, v, steps) <==> Calls(cfg, s, v, day) < cfg.dailyCap
  {
    var t := Next(cfg, s, Ask(v.conn, true));
    OwnStampIsCurrent("issuance:", v.ip, cfg.day(day));
    if Calls(cfg, s, v, day) < cfg.dailyCap {
      FromMint(cfg, t, v, who, MintToken(who, day), steps - 1);
    } else {
      FromClosed(cfg, t, v, steps - 1);
    }
  }

  lemma FromAsk(cfg: Config, s: State, v: Visit, who: Claim, steps: nat)
    requires At(s, v, AskIssuance(who)) && steps >= 4
    ensures LetIn(cfg, s, v, steps) <==> Calls(cfg, s, v, s.now / DAY) < cfg.dailyCap
  {
    FromAskAt(cfg, Next(cfg, s, ReadDay(v.conn)), v, who, s.now / DAY, steps - 1);
  }

  lemma FromStrike(cfg: Config, s: State, v: Visit, pc: Pc, steps: nat)
    requires pc.CountStrike? || pc.ArmCooldown?
    requires At(s, v, pc)
    ensures !LetIn(cfg, s, v, steps)
    decreases steps
  {
    if steps > 0 {
      var t := Next(cfg, s, Step(v, pc));
      if pc.CountStrike? {
        FromStrike(cfg, t, v, PcOf(t, v.conn), steps - 1);
      } else {
        FromClosed(cfg, t, v, steps - 1);
      }
    }
  }

  lemma FromPuzzle(cfg: Config, s: State, v: Visit, who: Claim, steps: nat)
    requires At(s, v, AwaitSolution(who)) && steps >= 5
    ensures LetIn(cfg, s, v, steps) <==> v.solution == Right && Calls(cfg, s, v, s.now / DAY) < cfg.dailyCap
  {
    var t := Next(cfg, s, Solve(v.conn, v.solution));
    match v.solution
    case Right => FromAsk(cfg, t, v, who, steps - 1);
    case WrongAnswer => FromStrike(cfg, t, v, PcOf(t, v.conn), steps - 1);
    case NotASolution => FromClosed(cfg, t, v, steps - 1);
  }

  /** No cooldown runs and the puzzle is solved. */
  predicate Passes(s: State, v: Visit) {
    !Cooling(s.cooldown, v.ip, s.now) && v.solution == Right
  }

  lemma FromCooldown(cfg: Config, s: State, v: Visit, who: Claim, steps: nat)
    requires At(s, v, CheckCooldown(who)) && steps >= 6
    ensures LetIn(cfg, s, v, steps) <==> Passes(s, v) && Calls(cfg, s, v, s.now / DAY) < cfg.dailyCap
  {
    var t := Next(cfg, s, Cooldown(v.conn, true));
    if Cooling(s.cooldown, v.ip, s.now) {
      FromClosed(cfg, t, v, steps - 1);
    } else {
      FromPuzzle(cfg, t, v, who, steps - 1);
    }
  }

  lemma FromPeekAt(cfg: Config, s: State, v: Visit, who: Claim, steps: nat)
    requires At(s, v, PeekAt(who, s.now / DAY)) && steps >= 7
    ensures LetIn(cfg, s, v, steps) <==>
            (Calls(cfg, s, v, s.now / DAY) == 0 || Passes(s, v)) && Calls(cfg, s, v, s.now / DAY) < cfg.dailyCap
  {
    var t := Next(cfg, s, Peek(v.conn, true));
    if Calls(cfg, s, v, s.now / DAY) == 0 {
      FromAsk(cfg, t, v, who, steps - 1);
    } else {
      FromCooldown(cfg, t, v, who, steps - 1);
    }
  }

  lemma FromPeek(cfg: Config, s: State, v: Visit, who: Claim, steps: nat)
    requires At(s, v, PeekCount(who)) && steps >= 8
    ensures LetIn(cfg, s, v, steps) <==>
            (Calls(cfg, s, v, s.now / DAY) == 0 || Passes(s, v)) && Calls(cfg, s, v, s.now / DAY) < cfg.dailyCap
  {
    FromPeekAt(cfg, Next(cfg, s, ReadDay(v.conn)), v, who, steps - 1);
  }

  /** What the mode asks of a client that has paid: nothing if the puzzle is off and it does not know it;
      else to know it, and to solve it unless the mode spares the first issuance of the day. */
  predicate Clears(cfg: Config, s: State, v: Visit) {
    if cfg.mode == Off && !v.advertises then true
    else v.advertises && ((cfg.mode != Always && Calls(cfg, s, v, s.now / DAY) == 0) || Passes(s, v))
  }

  lemma FromPow(cfg: Config, s: State, v: Visit, who: Claim, steps: nat)
    requires At(s, v, AwaitPow(who, v.advertises)) && steps >= 9
    ensures LetIn(cfg, s, v, steps) <==>
            && VerifyPoW(cfg.crypto.hash, v.challenge, v.nonce, who.pubkey, cfg.difficulty)
            && Clears(cfg, s, v) && Calls(cfg, s, v, s.now / DAY) < cfg.dailyCap
  {
    var t := Next(cfg, s, Pow(v.conn, true, v.nonce));
    match PcOf(t, v.conn)
    case Closed => FromClosed(cfg, t, v, steps - 1);
    case AskIssuance(_) => FromAsk(cfg, t, v, who, steps - 1);
    case CheckCooldown(_) => FromCooldown(cfg, t, v, who, steps - 1);
    case PeekCount(_) => FromPeek(cfg, t, v, who, steps - 1);
  }

  /** The key stands for a user and signed this challenge together with the token. */
  predicate SignsIn(cfg: Config, v: Visit) {
    cfg.crypto.identify(v.pubkey).Some? && cfg.crypto.verify(v.pubkey, v.signature, v.challenge + v.token)
  }

  lemma FromAuth(cfg: Config, s: State, v: Visit, steps: nat)
    requires At(s, v, AwaitAuth) && steps >= 10
    ensures LetIn(cfg, s, v, steps) <==>
            SignsIn(cfg, v) &&
            if v.token != "" then DeviceTokens.Verified(RowOf(s, cfg.crypto.identify(v.pubkey).value), v.token, s.now).valid
            else
              && VerifyPoW(cfg.crypto.hash, v.challenge, v.nonce, v.pubkey, cfg.difficulty)
              && Clears(cfg, s, v) && Calls(cfg, s, v, s.now / DAY) < cfg.dailyCap
  {
    if SignsIn(cfg, v) {
      var who := Claim(cfg.crypto.identify(v.pubkey).value, v.pubkey, v.signature, v.token);
      var t := Next(cfg, s, Step(v, AwaitAuth));
      if v.token != "" {
        FromToken(cfg, t, v, who, steps - 1);
      } else {
        FromPow(cfg, t, v, who, steps - 1);
      }
    } else {
      FromClosed(cfg, Next(cfg, s, Step(v, AwaitAuth)), v, steps - 1);
    }
  }

  /** Main result, from every state: a client that is not disturbed joins if and only if its key stands for
      a user and signed the challenge with the token, and either the user's row accepts the token now,
      or, without a token, its nonce solves the proof of work, it clears the puzzle as the mode asks,
      and its address has made fewer calls today than the cap. */
  lemma LetInExactly(cfg: Config, s: State, v: Visit)
    requires v.conn !in s.conns && |v.challenge| == CHALLENGE_LENGTH
    ensures Enabled(s, Connect(v.conn, v.ip, v.challenge))
    ensures LetIn(cfg, Next(cfg, s, Connect(v.conn, v.ip, v.challenge)), v, 10) <==>
            SignsIn(cfg, v) &&
            if v.token != "" then DeviceTokens.Verified(RowOf(s, cfg.crypto.identify(v.pubkey).value), v.token, s.now).valid
            else
              && VerifyPoW(cfg.crypto.hash, v.challenge, v.nonce, v.pubkey, cfg.difficulty)
              && Clears(cfg, s, v) && Calls(cfg, s, v, s.now / (24 * 3_600_000_000_000)) < cfg.dailyCap
  {
    FromAuth(cfg, Next(cfg, s, Connect(v.conn, v.ip, v.challenge)), v, 10);
  }
}
