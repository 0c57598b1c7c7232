/** Building runs of handshakes: passports, and one connection from its AUTH frame through proof of
    work and puzzle up to the quota. */
module HandshakeRuns {
  import opened CryptoOps
  import opened Text
  import opened Counters
  import opened Handshake

  /** A challenge drawn for a connection, a client that signs it and solves its proof of work, and the
      token drawn for it. */
  datatype Passport = Passport(challenge: string, who: Claim, nonce: int, minted: string)

  predicate Holds(cfg: Config, p: Passport) {
    && |p.challenge| == CHALLENGE_LENGTH && p.who.token == "" && Proves(cfg, p.challenge, p.who)
    && VerifyPoW(cfg.crypto.hash, p.challenge, p.nonce, p.who.pubkey, cfg.difficulty)
  }

  /** One for each connection, no challenge and no token drawn twice. */
  predicate AllHold(cfg: Config, ps: seq<Passport>) {
    && (forall i :: 0 <= i < |ps| ==> Holds(cfg, ps[i]))
    && (forall i, j :: 0 <= i < j < |ps| ==> ps[i].challenge != ps[j].challenge && ps[i].minted != ps[j].minted)
  }

  const LETTERS := 0xD000

  /** Two letters at the end of 64 tell this many challenges apart. */
  function Numbered(i: nat): (s: string)
    requires i < LETTERS * LETTERS
    ensures |s| == CHALLENGE_LENGTH && s[62] == (i / LETTERS) as char && s[63] == (i % LETTERS) as char
  {
    seq(62, _ => '0') + [(i / LETTERS) as char, (i % LETTERS) as char]
  }

  lemma NumberedDiffer(i: nat, j: nat)
    requires i < LETTERS * LETTERS && j < LETTERS * LETTERS && Numbered(i) == Numbered(j)
    ensures i == j
  {
    assert i == i / LETTERS * LETTERS + i % LETTERS && j == j / LETTERS * LETTERS + j % LETTERS;
  }

  /** There can be as many passports as a run needs, at any difficulty that has solutions at all. */
  lemma PassportsExist(cfg: Config, n: nat) returns (lenient: Config, ps: seq<Passport>)
    requires cfg.difficulty <= 64 && n < LETTERS * LETTERS
    ensures lenient == cfg.(crypto := lenient.crypto) && |ps| == n && AllHold(lenient, ps)
  {
    var zero: Digest := seq(32, _ => 0);
    lenient := cfg.(crypto := Crypto(_ => zero, _ => Some("u"), (_, _, _) => true));
    ps := seq(n, i requires 0 <= i < n => Passport(Numbered(i), Claim("u", "", "", ""), 0, Numbered(i)));
    forall j | 0 <= j < 64 ensures HexText(zero)[j] == '0' {
      HexTextAt(zero, j / 2);
    }
    assert HexText(zero)[..cfg.difficulty] == Zeros(cfg.difficulty);
    forall i, j | 0 <= i < j < n ensures Numbered(i) != Numbered(j) {
      if Numbered(i) == Numbered(j) {
        NumberedDiffer(i, j);
      }
    }
  }

  // ---- Building runs ----------------------------------------------------------------------

  /** Every connection mints the token drawn for it. */
  predicate MintsOwn(ps: seq<Passport>, es: seq<Event>) {
    forall e :: e in es && e.Issue? ==> e.conn < |ps| && e.newToken == ps[e.conn].minted
  }

  predicate Reaches(cfg: Config, ps: seq<Passport>, s: State, es: seq<Event>, t: State) {
    ValidRun(cfg, s, es) && After(cfg, s, es) == t && MintsOwn(ps, es)
  }

  lemma Step(cfg: Config, ps: seq<Passport>, s: State, e: Event, t: State)
    requires Enabled(s, e) && Next(cfg, s, e) == t && MintsOwn(ps, [e])
    ensures Reaches(cfg, ps, s, [e], t)
  {
    assert [e][1..] == [];
  }

  lemma {:induction false} Then(cfg: Config, ps: seq<Passport>, s: State, es: seq<Event>, t: State, fs: seq<Event>, u: State)
    requires Reaches(cfg, ps, s, es, t) && Reaches(cfg, ps, t, fs, u)
    ensures Reaches(cfg, ps, s, es + fs, u)
    decreases |es|
  {
    if es == [] {
      assert es + fs == fs;
    } else {
      Then(cfg, ps, Next(cfg, s, es[0]), es[1..], t, fs, u);
      assert (es + fs)[1..] == es[1..] + fs;
    }
  }

  // ---- One handshake up to the quota ---------------------------------------------------------

  function At(s: State, c: nat, ip: string, p: Passport, pc: Pc, facts: seq<Fact>): State {
    s.(conns := s.conns[c := Conn(ip, p.challenge, pc)], log := s.log + facts)
  }

  lemma Arrives(cfg: Config, ps: seq<Passport>, p: Passport, s: State, c: nat, ip: string)
    requires Holds(cfg, p) && c !in s.conns
    ensures Reaches(cfg, ps, s, [Connect(c, ip, p.challenge)], At(s, c, ip, p, AwaitAuth, []))
  {
    assert s.log + [] == s.log;
    Step(cfg, ps, s, Connect(c, ip, p.challenge), At(s, c, ip, p, AwaitAuth, []));
  }

  /** A step that only moves its connection on. */
  lemma Move(cfg: Config, ps: seq<Passport>, p: Passport, s: State, c: nat, ip: string, pc: Pc, facts: seq<Fact>, e: Event, pc': Pc, more: seq<Fact>)
    requires var t := At(s, c, ip, p, pc, facts);
             Enabled(t, e) && Mover(e) == Some(c) && !e.Issue? && Handle(cfg, t, e) == Outcome(pc', more) && Effects(cfg, t, e) == t
    ensures Reaches(cfg, ps, At(s, c, ip, p, pc, facts), [e], At(s, c, ip, p, pc', facts + more))
  {
    var t, u := At(s, c, ip, p, pc, facts), At(s, c, ip, p, pc', facts + more);
    assert t.conns[c := t.conns[c].(pc := pc')] == u.conns;
    assert s.log + facts + more == s.log + (facts + more);
    Step(cfg, ps, t, e, u);
  }

  /** Facts that neither touch the quota nor count a wrong answer. */
  predicate Plain(facts: seq<Fact>) {
    forall f :: f in facts ==> !f.Asked? && !f.Trimmed? && !f.IssueMinted? && !f.Wronged?
  }

  /** Signed and paid for, up to what the mode asks for next. */
  lemma Pays(cfg: Config, ps: seq<Passport>, p: Passport, s: State, c: nat, ip: string) returns (es: seq<Event>, facts: seq<Fact>)
    requires Holds(cfg, p) && c !in s.conns
    ensures Reaches(cfg, ps, s, es, At(s, c, ip, p, AfterPow(cfg.mode, p.who, cfg.mode != Off), facts))
    ensures Plain(facts) && forall e :: e in es ==> e.Connect? || e.Auth? || e.Pow?
  {
    var adv := cfg.mode != Off;
    var auth, pow := Auth(c, true, p.who.pubkey, p.who.signature, "", true, adv), Pow(c, true, p.nonce);
    assert Claim(p.who.user, p.who.pubkey, p.who.signature, "") == p.who;
    var solved := [PowSolved(c, p.nonce)] + if cfg.mode == Off then [NoPuzzle(c, false, 0)] else [];
    Arrives(cfg, ps, p, s, c, ip);
    Move(cfg, ps, p, s, c, ip, AwaitAuth, [], auth, AwaitPow(p.who, adv), [Signed(c, p.who)]);
    Then(cfg, ps, s, [Connect(c, ip, p.challenge)], At(s, c, ip, p, AwaitAuth, []), [auth],
         At(s, c, ip, p, AwaitPow(p.who, adv), [] + [Signed(c, p.who)]));
    facts := [] + [Signed(c, p.who)] + solved;
    Move(cfg, ps, p, s, c, ip, AwaitPow(p.who, adv), [] + [Signed(c, p.who)], pow, AfterPow(cfg.mode, p.who, adv), solved);
    es := [Connect(c, ip, p.challenge)] + [auth] + [pow];
    Then(cfg, ps, s, [Connect(c, ip, p.challenge)] + [auth], At(s, c, ip, p, AwaitPow(p.who, adv), [] + [Signed(c, p.who)]), [pow],
         At(s, c, ip, p, AfterPow(cfg.mode, p.who, adv), facts));
  }

  /** With no cooldown about, the puzzle is served and solved. */
  lemma Solves(cfg: Config, ps: seq<Passport>, p: Passport, s: State, c: nat, ip: string, facts: seq<Fact>) returns (es: seq<Event>, all: seq<Fact>)
    requires s.cooldown == map[] && Plain(facts)
    ensures Reaches(cfg, ps, At(s, c, ip, p, CheckCooldown(p.who), facts), es, At(s, c, ip, p, AskIssuance(p.who), all)) && Plain(all)
  {
    var checked := facts + [OffCooldown(c)];
    all := checked + [PuzzleSolved(c)];
    Move(cfg, ps, p, s, c, ip, CheckCooldown(p.who), facts, Cooldown(c, true), AwaitSolution(p.who), [OffCooldown(c)]);
    Move(cfg, ps, p, s, c, ip, AwaitSolution(p.who), checked, Solve(c, Right), AskIssuance(p.who), [PuzzleSolved(c)]);
    Then(cfg, ps, At(s, c, ip, p, CheckCooldown(p.who), facts), [Cooldown(c, true)], At(s, c, ip, p, AwaitSolution(p.who), checked),
         [Solve(c, Right)], At(s, c, ip, p, AskIssuance(p.who), all));
    es := [Cooldown(c, true)] + [Solve(c, Right)];
  }

  /** In the adaptive mode the day's counter says whether there is a puzzle. */
  lemma Peeks(cfg: Config, ps: seq<Passport>, p: Passport, s: State, c: nat, ip: string, facts: seq<Fact>) returns (es: seq<Event>, all: seq<Fact>)
    requires s.cooldown == map[] && Plain(facts)
    ensures Reaches(cfg, ps, At(s, c, ip, p, PeekCount(p.who), facts), es, At(s, c, ip, p, AskIssuance(p.who), all)) && Plain(all)
  {
    var today := s.now / DAY;
    var n := Count(s.issuance, IssuanceKey(cfg, ip, today));
    var start, mid := At(s, c, ip, p, PeekCount(p.who), facts), At(s, c, ip, p, PeekAt(p.who, today), facts + []);
    Move(cfg, ps, p, s, c, ip, PeekCount(p.who), facts, ReadDay(c), PeekAt(p.who, today), []);
    if n >= 1 {
      Move(cfg, ps, p, s, c, ip, PeekAt(p.who, today), facts + [], Peek(c, true), CheckCooldown(p.who), []);
      Then(cfg, ps, start, [ReadDay(c)], mid, [Peek(c, true)], At(s, c, ip, p, CheckCooldown(p.who), facts + [] + []));
      var rest;
      rest, all := Solves(cfg, ps, p, s, c, ip, facts + [] + []);
      Then(cfg, ps, start, [ReadDay(c)] + [Peek(c, true)], At(s, c, ip, p, CheckCooldown(p.who), facts + [] + []), rest,
           At(s, c, ip, p, AskIssuance(p.who), all));
      es := [ReadDay(c)] + [Peek(c, true)] + rest;
    } else {
      all := facts + [] + [NoPuzzle(c, true, n)];
      Move(cfg, ps, p, s, c, ip, PeekAt(p.who, today), facts + [], Peek(c, true), AskIssuance(p.who), [NoPuzzle(c, true, n)]);
      Then(cfg, ps, start, [ReadDay(c)], mid, [Peek(c, true)], At(s, c, ip, p, AskIssuance(p.who), all));
      es := [ReadDay(c)] + [Peek(c, true)];
    }
  }

  /** Whatever the mode asks for is done. */
  lemma Passage(cfg: Config, ps: seq<Passport>, p: Passport, s: State, c: nat, ip: string, facts: seq<Fact>) returns (es: seq<Event>, all: seq<Fact>)
    requires s.cooldown == map[] && Plain(facts)
    ensures Reaches(cfg, ps, At(s, c, ip, p, AfterPow(cfg.mode, p.who, cfg.mode != Off), facts), es, At(s, c, ip, p, AskIssuance(p.who), all))
    ensures Plain(all)
  {
    match cfg.mode
    case Off => es, all := [], facts;
    case Adaptive => es, all := Peeks(cfg, ps, p, s, c, ip, facts);
    case Always => es, all := Solves(cfg, ps, p, s, c, ip, facts);
  }

  /** A new connection up to the point where it holds today's date. */
  lemma Enter(cfg: Config, ps: seq<Passport>, p: Passport, s: State, c: nat, ip: string) returns (es: seq<Event>, facts: seq<Fact>)
    requires Holds(cfg, p) && s.cooldown == map[] && c !in s.conns
    ensures Reaches(cfg, ps, s, es, At(s, c, ip, p, AskAt(p.who, s.now / DAY), facts)) && Plain(facts)
  {
    var pays, before := Pays(cfg, ps, p, s, c, ip);
    var passage, all := Passage(cfg, ps, p, s, c, ip, before);
    var asks := At(s, c, ip, p, AskIssuance(p.who), all);
    Then(cfg, ps, s, pays, At(s, c, ip, p, AfterPow(cfg.mode, p.who, cfg.mode != Off), before), passage, asks);
    Move(cfg, ps, p, s, c, ip, AskIssuance(p.who), all, ReadDay(c), AskAt(p.who, s.now / DAY), []);
    facts := all + [];
    es := pays + passage + [ReadDay(c)];
    Then(cfg, ps, s, pays + passage, asks, [ReadDay(c)], At(s, c, ip, p, AskAt(p.who, s.now / DAY), facts));
  }
}
