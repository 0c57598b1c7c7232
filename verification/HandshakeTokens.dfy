/** The whole handshake against the device-token machine: seen through the row of one user, every run of
    handshakes is a run of DeviceTokens, so who is admitted, who rotates and how often is what holds there. */
module HandshakeTokens {
  import opened Text
  import opened Handshake
  import DeviceTokens

  predicate AtJudge(s: State, c: nat, user: string) {
    c in s.conns && s.conns[c].pc.JudgeToken? && s.conns[c].pc.who.user == user
  }

  predicate AtRotate(s: State, c: nat, user: string) {
    c in s.conns && s.conns[c].pc.RotateToken? && s.conns[c].pc.who.user == user
  }

  /** What the token machine sees of the handshakes; the histories are its own. */
  ghost predicate Seen(s: State, d: DeviceTokens.State, user: string) {
    && d.now == s.now && d.row == RowOf(s, user)
    && (forall c :: c in d.readings <==> AtJudge(s, c, user))
    && (forall c :: AtJudge(s, c, user) ==>
          d.readings[c].token == s.conns[c].pc.who.token && d.readings[c].row == s.conns[c].pc.row)
    && (forall c :: c in d.pending <==> AtRotate(s, c, user))
  }

  /** A mint that succeeds. */
  predicate Mints(e: Event) {
    (e.Rotate? || e.Issue?) && e.storeOk
  }

  /** The random tokens of the run did not repeat. */
  predicate TokensDrawnOnce(es: seq<Event>) {
    forall i, j :: 0 <= i < j < |es| && Mints(es[i]) && Mints(es[j]) ==> es[i].newToken != es[j].newToken
  }

  /** The event moves a connection of this user. */
  predicate Concerns(s: State, e: Event, user: string)
    requires Enabled(s, e)
  {
    (e.ReadRow? || e.Judge? || e.Rotate? || e.Issue?) && PcOf(s, e.conn).who.user == user
  }

  /** The event of the token machine that a step is, if it is one. */
  function TokenEvent(s: State, e: Event, user: string): seq<DeviceTokens.Event>
    requires Enabled(s, e)
  {
    if e.Tick? then [DeviceTokens.Tick(e.dt)]
    else if e.Revoke? then if e.user == user then [DeviceTokens.Revoke] else []
    else if !Concerns(s, e, user) then []
    else match e
         case ReadRow(conn, storeOk) => if storeOk then [DeviceTokens.Read(conn, PcOf(s, conn).who.token)] else []
         case Judge(conn) => [DeviceTokens.Judge(conn)]
         case Rotate(conn, storeOk, token) => if storeOk then [DeviceTokens.Rotate(conn, token)] else [DeviceTokens.Fail(conn)]
         case Issue(_, storeOk, token) => if storeOk then [DeviceTokens.Issue(token)] else []
         case _ => []
  }

  function TokenRun(cfg: Config, s: State, es: seq<Event>, user: string): seq<DeviceTokens.Event>
    requires ValidRun(cfg, s, es)
    decreases |es|
  {
    if es == [] then [] else TokenEvent(s, es[0], user) + TokenRun(cfg, Next(cfg, s, es[0]), es[1..], user)
  }

  function NewMints(s: State, e: Event, user: string): seq<DeviceTokens.Mint>
    requires Enabled(s, e)
  {
    if Mints(e) && Concerns(s, e, user) then [DeviceTokens.Mint(e.newToken, s.now)] else []
  }

  /** The user's successful mints in a run, and when. */
  function MintsOf(cfg: Config, s: State, es: seq<Event>, user: string): seq<DeviceTokens.Mint>
    requires ValidRun(cfg, s, es)
    decreases |es|
  {
    if es == [] then []
    else
      NewMints(s, es[0], user) + MintsOf(cfg, Next(cfg, s, es[0]), es[1..], user)
  }

  // ---- One step -------------------------------------------------------------------------------

  lemma OthersStay(cfg: Config, s: State, e: Event, c: nat)
    requires Enabled(s, e) && c in s.conns && Mover(e) != Some(c)
    ensures c in Next(cfg, s, e).conns && Next(cfg, s, e).conns[c] == s.conns[c]
  {}

  lemma RowAfter(cfg: Config, s: State, e: Event, user: string)
    requires Enabled(s, e)
    ensures RowOf(Next(cfg, s, e), user) ==
            if Mints(e) && Concerns(s, e, user) then Some(DeviceTokens.Minted(RowOf(s, user), e.newToken, s.now))
            else if e.Revoke? && e.user == user && user in s.rows then Some(s.rows[user].(revoked := true))
            else RowOf(s, user)
  {}

  /** Where the user's connections wait after a step. */
  lemma JudgesAfter(cfg: Config, s: State, e: Event, user: string, c: nat)
    requires Enabled(s, e)
    ensures AtJudge(Next(cfg, s, e), c, user) <==>
            (AtJudge(s, c, user) && !(e.Judge? && e.conn == c)) ||
            (e.ReadRow? && e.storeOk && e.conn == c && Concerns(s, e, user))
  {
    if c in s.conns && Mover(e) != Some(c) {
      OthersStay(cfg, s, e, c);
    }
  }

  lemma RotatesAfter(cfg: Config, s: State, e: Event, user: string, c: nat)
    requires Enabled(s, e)
    ensures AtRotate(Next(cfg, s, e), c, user) <==>
            (AtRotate(s, c, user) && !(e.Rotate? && e.conn == c)) ||
            (e.Judge? && e.conn == c && Concerns(s, e, user) &&
             DeviceTokens.Verified(PcOf(s, c).row, PcOf(s, c).who.token, s.now) == DeviceTokens.Verdict(true, true))
  {
    if c in s.conns && Mover(e) != Some(c) {
      OthersStay(cfg, s, e, c);
    }
  }

  lemma ReadingKept(cfg: Config, s: State, e: Event, user: string, c: nat)
    requires Enabled(s, e) && AtJudge(s, c, user) && AtJudge(Next(cfg, s, e), c, user)
    ensures Next(cfg, s, e).conns[c] == s.conns[c]
  {
    if Mover(e) != Some(c) {
      OthersStay(cfg, s, e, c);
    }
  }

  /** The token machine can make the step. */
  predicate CanFollow(s: State, d: DeviceTokens.State, e: Event, user: string)
    requires Enabled(s, e)
  {
    TokenEvent(s, e, user) != [] ==> DeviceTokens.Enabled(d, TokenEvent(s, e, user)[0])
  }

  function Follow(s: State, d: DeviceTokens.State, e: Event, user: string): DeviceTokens.State
    requires Enabled(s, e) && CanFollow(s, d, e, user)
  {
    if TokenEvent(s, e, user) == [] then d else DeviceTokens.Next(d, TokenEvent(s, e, user)[0])
  }

  lemma TokenStepEnabled(s: State, d: DeviceTokens.State, e: Event, user: string)
    requires Seen(s, d, user) && Enabled(s, e)
    requires Mints(e) && Concerns(s, e, user) ==> DeviceTokens.Fresh(d, e.newToken)
    ensures CanFollow(s, d, e, user)
  {
    if Concerns(s, e, user) {
      assert !AtJudge(s, e.conn, user) || e.Judge?;
    }
  }

  lemma RowFollows(cfg: Config, s: State, d: DeviceTokens.State, e: Event, user: string)
    requires Seen(s, d, user) && Enabled(s, e) && CanFollow(s, d, e, user)
    ensures var t, d' := Next(cfg, s, e), Follow(s, d, e, user);
            && d'.now == t.now && d'.row == RowOf(t, user)
            && d'.mints == d.mints + NewMints(s, e, user)
  {
    RowAfter(cfg, s, e, user);
  }

  lemma ReadingsFollow(cfg: Config, s: State, d: DeviceTokens.State, e: Event, user: string, c: nat)
    requires Seen(s, d, user) && Enabled(s, e) && CanFollow(s, d, e, user)
    ensures var t, d' := Next(cfg, s, e), Follow(s, d, e, user);
            && (c in d'.readings <==> AtJudge(t, c, user))
            && (AtJudge(t, c, user) ==> d'.readings[c].token == t.conns[c].pc.who.token && d'.readings[c].row == t.conns[c].pc.row)
  {
    JudgesAfter(cfg, s, e, user, c);
    if AtJudge(s, c, user) && AtJudge(Next(cfg, s, e), c, user) {
      ReadingKept(cfg, s, e, user, c);
    }
  }

  /** Who may rotate in the token machine after a step. */
  lemma PendingAfter(s: State, d: DeviceTokens.State, e: Event, user: string)
    requires Seen(s, d, user) && Enabled(s, e) && CanFollow(s, d, e, user)
    ensures Follow(s, d, e, user).pending.Keys ==
            if !Concerns(s, e, user) then d.pending.Keys
            else if e.Rotate? then d.pending.Keys - {e.conn}
            else if e.Judge? && DeviceTokens.Verified(PcOf(s, e.conn).row, PcOf(s, e.conn).who.token, s.now) ==
                                DeviceTokens.Verdict(true, true) then d.pending.Keys + {e.conn}
            else d.pending.Keys
  {
    if Concerns(s, e, user) && e.Judge? {
      assert AtJudge(s, e.conn, user);
    }
  }

  lemma PendingFollows(cfg: Config, s: State, d: DeviceTokens.State, e: Event, user: string, c: nat)
    requires Seen(s, d, user) && Enabled(s, e) && CanFollow(s, d, e, user)
    ensures c in Follow(s, d, e, user).pending <==> AtRotate(Next(cfg, s, e), c, user)
  {
    RotatesAfter(cfg, s, e, user, c);
    PendingAfter(s, d, e, user);
    assert c in Follow(s, d, e, user).pending <==> c in Follow(s, d, e, user).pending.Keys;
  }

  /** Every handshake step is at most one step of the token machine. */
  lemma StepIsATokenStep(cfg: Config, s: State, d: DeviceTokens.State, e: Event, user: string)
    requires Seen(s, d, user) && Enabled(s, e)
    requires Mints(e) && Concerns(s, e, user) ==> DeviceTokens.Fresh(d, e.newToken)
    ensures CanFollow(s, d, e, user) && Seen(Next(cfg, s, e), Follow(s, d, e, user), user)
    ensures Follow(s, d, e, user).mints ==
            d.mints + NewMints(s, e, user)
  {
    TokenStepEnabled(s, d, e, user);
    var t, d' := Next(cfg, s, e), Follow(s, d, e, user);
    RowFollows(cfg, s, d, e, user);
    forall c: nat
      ensures c in d'.readings <==> AtJudge(t, c, user)
      ensures AtJudge(t, c, user) ==> d'.readings[c].token == t.conns[c].pc.who.token && d'.readings[c].row == t.conns[c].pc.row
    {
      ReadingsFollow(cfg, s, d, e, user, c);
    }
    forall c: nat ensures c in d'.pending <==> AtRotate(t, c, user) {
      PendingFollows(cfg, s, d, e, user, c);
    }
  }

  // ---- Whole runs -----------------------------------------------------------------------------------

  ghost predicate AllFresh(d: DeviceTokens.State, es: seq<Event>) {
    forall i :: 0 <= i < |es| && Mints(es[i]) ==> DeviceTokens.Fresh(d, es[i].newToken)
  }

  /** The token machine makes this run. */
  ghost predicate Makes(d: DeviceTokens.State, fs: seq<DeviceTokens.Event>, d': DeviceTokens.State) {
    DeviceTokens.ValidRun(d, fs) && DeviceTokens.After(d, fs) == d'
  }

  lemma FollowedBy(s: State, d: DeviceTokens.State, e: Event, user: string, fs: seq<DeviceTokens.Event>, last: DeviceTokens.State)
    requires Enabled(s, e) && CanFollow(s, d, e, user) && Makes(Follow(s, d, e, user), fs, last)
    ensures Makes(d, TokenEvent(s, e, user) + fs, last)
  {
    var es := TokenEvent(s, e, user);
    assert |es| <= 1;
    if es == [] {
      assert es + fs == fs;
    } else {
      assert (es + fs)[1..] == fs;
    }
  }

  lemma StillFresh(d: DeviceTokens.State, es: seq<Event>, d': DeviceTokens.State, at: nat)
    requires es != [] && AllFresh(d, es) && TokensDrawnOnce(es)
    requires d'.mints == d.mints || (Mints(es[0]) && d'.mints == d.mints + [DeviceTokens.Mint(es[0].newToken, at)])
    ensures AllFresh(d', es[1..]) && TokensDrawnOnce(es[1..])
  {
    var rest := es[1..];
    forall i | 0 <= i < |rest| && Mints(rest[i]) ensures DeviceTokens.Fresh(d', rest[i].newToken) {
      assert rest[i] == es[i + 1];
      assert DeviceTokens.Fresh(d, es[i + 1].newToken);
    }
  }

  lemma Unrolled(cfg: Config, s: State, es: seq<Event>, user: string, t: State)
    requires es != [] && ValidRun(cfg, s, es) && t == Next(cfg, s, es[0])
    ensures ValidRun(cfg, t, es[1..]) && After(cfg, s, es) == After(cfg, t, es[1..])
    ensures TokenRun(cfg, s, es, user) == TokenEvent(s, es[0], user) + TokenRun(cfg, t, es[1..], user)
    ensures MintsOf(cfg, s, es, user) == NewMints(s, es[0], user) + MintsOf(cfg, t, es[1..], user)
  {}

  /** By the run fs the token machine has come from d to `last`, which matches u and adds these mints. */
  ghost predicate Matches(d: DeviceTokens.State, fs: seq<DeviceTokens.Event>, last: DeviceTokens.State, u: State, user: string,
                          mints: seq<DeviceTokens.Mint>) {
    Makes(d, fs, last) && Seen(u, last, user) && last.mints == d.mints + mints
  }

  lemma MatchesFromBefore(s: State, e: Event, d: DeviceTokens.State, user: string, d': DeviceTokens.State,
                          fs: seq<DeviceTokens.Event>, last: DeviceTokens.State, u: State, mints: seq<DeviceTokens.Mint>)
    requires Enabled(s, e) && CanFollow(s, d, e, user) && d' == Follow(s, d, e, user) && d'.mints == d.mints + NewMints(s, e, user)
    requires Matches(d', fs, last, u, user, mints)
    ensures Matches(d, TokenEvent(s, e, user) + fs, last, u, user, NewMints(s, e, user) + mints)
  {
    FollowedBy(s, d, e, user, fs, last);
  }

  lemma {:induction false} RunIsARun(cfg: Config, s: State, es: seq<Event>, d: DeviceTokens.State, user: string)
    returns (last: DeviceTokens.State)
    requires ValidRun(cfg, s, es) && Seen(s, d, user) && TokensDrawnOnce(es) && AllFresh(d, es)
    ensures Matches(d, TokenRun(cfg, s, es, user), last, After(cfg, s, es), user, MintsOf(cfg, s, es, user))
    decreases |es|
  {
    if es == [] {
      last := d;
    } else {
      var t := Next(cfg, s, es[0]);
      StepIsATokenStep(cfg, s, d, es[0], user);
      var d' := Follow(s, d, es[0], user);
      StillFresh(d, es, d', s.now);
      Unrolled(cfg, s, es, user, t);
      last := RunIsARun(cfg, t, es[1..], d', user);
      MatchesFromBefore(s, es[0], d, user, d', TokenRun(cfg, t, es[1..], user), last, After(cfg, t, es[1..]),
                        MintsOf(cfg, t, es[1..], user));
    }
  }

  /** What the token machine has come to after a run of handshakes from the start. */
  ghost predicate Tracked(cfg: Config, start: nat, es: seq<Event>, user: string, d: DeviceTokens.State)
    requires ValidRun(cfg, Init(start), es)
  {
    && Makes(DeviceTokens.Init(start), TokenRun(cfg, Init(start), es, user), d)
    && Seen(After(cfg, Init(start), es), d, user) && d.mints == MintsOf(cfg, Init(start), es, user)
  }

  /** Main result: for every user every interleaving of handshakes is, seen through that user's row, a run
      of the token machine, with the mints of that user as its history. */
  lemma HandshakesAreATokenRun(cfg: Config, start: nat, es: seq<Event>, user: string) returns (d: DeviceTokens.State)
    requires ValidRun(cfg, Init(start), es) && TokensDrawnOnce(es)
    ensures Tracked(cfg, start, es, user, d)
  {
    d := RunIsARun(cfg, Init(start), es, DeviceTokens.Init(start), user);
  }

  // ---- What follows for handshakes ---------------------------------------------------------------------

  /** Some token of the history is this one, and works. */
  ghost predicate Accepts(mints: seq<DeviceTokens.Mint>, revoked: bool, now: int, token: string) {
    exists i :: 0 <= i < |mints| && mints[i].token == token && DeviceTokens.WorksFor(mints, revoked, now, i)
  }

  /** ... and is in its last seven days, or in the last twelve hours of its overlap. */
  ghost predicate WantsRefresh(mints: seq<DeviceTokens.Mint>, revoked: bool, now: int, token: string) {
    exists i :: 0 <= i < |mints| && mints[i].token == token && DeviceTokens.WorksFor(mints, revoked, now, i) &&
      DeviceTokens.DueFor(mints, now, i)
  }

  /** Main result on the verdict in the handshake, both ways: a presented token that worked by the user's
      mints up to the SELECT, and does at the clock, is admitted as it is, without a mint, unless it is
      due; one that is due goes on to rotate; any other is refused. */
  lemma JudgedAsDue(cfg: Config, start: nat, es: seq<Event>, conn: nat, user: string)
    requires ValidRun(cfg, Init(start), es) && TokensDrawnOnce(es) && AtJudge(After(cfg, Init(start), es), conn, user)
    ensures exists d :: Tracked(cfg, start, es, user, d) && conn in d.readings &&
              var s, r, mints := After(cfg, Init(start), es), d.readings[conn], MintsOf(cfg, Init(start), es, user);
              && r.seen <= |mints|
              && var who, known, t := PcOf(s, conn).who, mints[..r.seen], Next(cfg, s, Judge(conn));
                 && t.rows == s.rows
                 && PcOf(t, conn) == (if WantsRefresh(known, r.revoked, s.now, who.token) then RotateToken(who)
                                      else if Accepts(known, r.revoked, s.now, who.token) then Admitted(who) else Closed)
  {
    var d := HandshakesAreATokenRun(cfg, start, es, user);
    DeviceTokens.JudgedExactly(start, TokenRun(cfg, Init(start), es, user), conn);
  }

  /** The bounds on rotation hold for handshakes: a connection about to rotate with no mint of the user
      since its SELECT does so within twelve hours of the last mint only if the one before is over 59
      days older, and completes three mints that span more than twelve hours. */
  lemma RotationsKeepTheirBounds(cfg: Config, start: nat, es: seq<Event>, conn: nat, user: string)
    requires ValidRun(cfg, Init(start), es) && TokensDrawnOnce(es) && AtRotate(After(cfg, Init(start), es), conn, user)
    ensures exists d :: Tracked(cfg, start, es, user, d) && conn in d.pending &&
              (d.pending[conn].seen == |MintsOf(cfg, Init(start), es, user)| ==>
                 DeviceTokens.QuickNeedsOld(d) && DeviceTokens.SpansHalfADay(d))
  {
    var d := HandshakesAreATokenRun(cfg, start, es, user);
    if d.pending[conn].seen == |d.mints| {
      DeviceTokens.UpToDateRotationsAreBounded(start, TokenRun(cfg, Init(start), es, user), conn);
    }
  }

  /** The row answers a presented token as the user's mints say, whoever mints and revokes meanwhile. */
  lemma RowAcceptsExactly(cfg: Config, start: nat, es: seq<Event>, user: string, token: string)
    requires ValidRun(cfg, Init(start), es) && TokensDrawnOnce(es)
    ensures exists d :: Tracked(cfg, start, es, user, d) &&
              var s := After(cfg, Init(start), es);
              DeviceTokens.Verified(RowOf(s, user), token, s.now).valid <==>
              Accepts(MintsOf(cfg, Init(start), es, user), d.revokedSince, s.now, token)
  {
    var d := HandshakesAreATokenRun(cfg, start, es, user);
    DeviceTokens.AcceptedExactly(start, TokenRun(cfg, Init(start), es, user), token);
  }

  /** A successful mint, on either path, admits its connection and leaves a row under which the new token
      works for sixty days, unless it is replaced or revoked; a failed rotation admits with the row as
      it was, a failed issuance closes. Nobody else's row is touched. */
  lemma MintsTakeEffect(cfg: Config, s: State, e: Event, later: int)
    requires Enabled(s, e) && (e.Rotate? || e.Issue?)
    ensures var t, who := Next(cfg, s, e), PcOf(s, e.conn).who;
            && (e.storeOk && s.now <= later < s.now + 60 * DAY ==> DeviceTokens.Verified(RowOf(t, who.user), e.newToken, later).valid)
            && PcOf(t, e.conn) == (if e.storeOk || e.Rotate? then Admitted(who) else Closed)
            && (!e.storeOk ==> t.rows == s.rows)
            && (forall other :: other != who.user ==> RowOf(t, other) == RowOf(s, other))
  {}
}
