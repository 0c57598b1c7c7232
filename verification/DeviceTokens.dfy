/** Device tokens (db.go): one row per user with a current and an overlap token. Digests are
    collision-free symbols, and one clock serves the process and the database. */
module DeviceTokens {
  import opened Numbers
  import opened Text

  const HOUR := 3_600_000_000_000
  const DAY := 24 * HOUR
  const TOKEN_TTL := 60 * DAY
  const REFRESH_WINDOW := 7 * DAY
  const OVERLAP := 24 * HOUR

  datatype Digest = Empty | Sha(token: string)

  datatype Row = Row(
    tokenHash: Digest,
    prevHash: Digest,
    tokenExpires: int,
    prevExpires: int,
    lastSeen: int,
    revoked: bool)

  function Minted(row: Option<Row>, token: string, now: int): Row {
    match row
    case None => Row(Sha(token), Empty, now + TOKEN_TTL, now, now, false)
    case Some(r) =>
      Row(Sha(token), r.tokenHash, now + TOKEN_TTL, Min(now + OVERLAP, Max(r.tokenExpires, now)), now, false)
  }

  /** Whether a presented token is accepted, and whether it calls for a fresh one. */
  datatype Verdict = Verdict(valid: bool, nearExpiry: bool)

  function Verified(row: Option<Row>, token: string, now: int): Verdict {
    match row
    case None => Verdict(false, false)
    case Some(r) =>
      if r.revoked then Verdict(false, false)
      else if r.tokenHash == Sha(token) then
        if now < r.tokenExpires then Verdict(true, r.tokenExpires - now < REFRESH_WINDOW) else Verdict(false, false)
      else if r.prevHash != Empty && r.prevHash == Sha(token) && now < r.prevExpires then
        Verdict(true, r.prevExpires - now < OVERLAP / 2)
      else Verdict(false, false)
  }

  class DeviceTokenTable {
    var rows: map<string, Row>

    function RowOf(user: string): Option<Row>
      reads this
    {
      if user in rows then Some(rows[user]) else None
    }

    constructor ()
      ensures rows == map[]
    {
      rows := map[];
    }

    method MintDeviceToken(user: string, token: string, now: int) returns (expiresAt: int)
      modifies this
      ensures rows == old(rows)[user := Minted(old(RowOf(user)), token, now)]
      ensures expiresAt == now + TOKEN_TTL
    {
      expiresAt := now + TOKEN_TTL;
      if user !in rows {
        rows := rows[user := Row(Sha(token), Empty, expiresAt, now, now, false)];
      } else {
        var r := rows[user];
        var overlapEnd := if r.tokenExpires > now then r.tokenExpires else now;
        if now + OVERLAP < overlapEnd {
          overlapEnd := now + OVERLAP;
        }
        rows := rows[user := r.(prevHash := r.tokenHash, prevExpires := overlapEnd,
                                tokenHash := Sha(token), tokenExpires := expiresAt,
                                lastSeen := now, revoked := false)];
      }
    }

    method VerifyDeviceToken(user: string, token: string, now: int) returns (valid: bool, nearExpiry: bool)
      ensures Verdict(valid, nearExpiry) == Verified(RowOf(user), token, now)
    {
      if user !in rows {
        return false, false;
      }
      var r := rows[user];
      if r.revoked {
        return false, false;
      }
      if r.tokenHash == Sha(token) {
        if now < r.tokenExpires {
          return true, r.tokenExpires - now < REFRESH_WINDOW;
        }
        return false, false;
      }
      if r.prevHash != Empty && r.prevHash == Sha(token) && now < r.prevExpires {
        return true, r.prevExpires - now < OVERLAP / 2;
      }
      return false, false;
    }

    method TouchDeviceToken(user: string, now: int)
      modifies this
      ensures rows == if user in old(rows) then old(rows)[user := old(rows)[user].(lastSeen := now)] else old(rows)
    {
      if user in rows {
        rows := rows[user := rows[user].(lastSeen := now)];
      }
    }

    method RevokeDeviceToken(user: string)
      modifies this
      ensures rows == if user in old(rows) then old(rows)[user := old(rows)[user].(revoked := true)] else old(rows)
    {
      if user in rows {
        rows := rows[user := rows[user].(revoked := true)];
      }
    }
  }

  // ---- Runs of one user's row -----------------------------------------------------

  datatype Mint = Mint(token: string, at: int)

  /** A connection that has SELECTed the user's row for a token and not read the clock yet; how many
      mints the user had then, and whether the token was revoked. */
  datatype Reading = Reading(token: string, row: Option<Row>, seen: nat, revoked: bool)

  /** One that found its token valid and near expiry and has not minted yet: when it read the clock,
      and how many mints the user had when it read the row. */
  datatype Pending = Pending(at: int, seen: nat)

  /** `mints` is the history of the user's mints; `revokedSince` says whether a revoke
      followed the last of them. */
  datatype State = State(
    now: int,
    row: Option<Row>,
    mints: seq<Mint>,
    revokedSince: bool,
    readings: map<nat, Reading>,
    pending: map<nat, Pending>)

  datatype Event =
    | Tick(dt: nat)
    | Issue(token: string)                        // the proof-of-work path mints
    | Read(conn: nat, token: string)              // the SELECT for a presented token
    | Judge(conn: nat)                            // the clock read and the verdict
    | Touch                                       // the last_seen update of an accepted one
    | Rotate(conn: nat, token: string)            // the mint that follows a near-expiry verdict
    | Fail(conn: nat)                             // that mint fails, and is only logged
    | Revoke

  function Init(now: int): State {
    State(now, None, [], false, map[], map[])
  }

  predicate Fresh(s: State, token: string) {
    forall i :: 0 <= i < |s.mints| ==> s.mints[i].token != token
  }

  predicate Enabled(s: State, e: Event) {
    match e
    case Tick(_) => true
    case Issue(token) => Fresh(s, token)
    case Read(conn, _) => conn !in s.readings && conn !in s.pending
    case Judge(conn) => conn in s.readings
    case Touch => true
    case Rotate(conn, token) => conn in s.pending && Fresh(s, token)
    case Fail(conn) => conn in s.pending
    case Revoke => true
  }

  function AfterMint(s: State, token: string): State {
    s.(row := Some(Minted(s.row, token, s.now)), mints := s.mints + [Mint(token, s.now)], revokedSince := false)
  }

  function Next(s: State, e: Event): State
    requires Enabled(s, e)
  {
    match e
    case Tick(dt) => s.(now := s.now + dt)
    case Issue(token) => AfterMint(s, token)
    case Read(conn, token) => s.(readings := s.readings[conn := Reading(token, s.row, |s.mints|, s.revokedSince)])
    case Judge(conn) =>
      var r := s.readings[conn];
      var v := Verified(r.row, r.token, s.now);
      s.(readings := s.readings - {conn},
         pending := if v.valid && v.nearExpiry then s.pending[conn := Pending(s.now, r.seen)] else s.pending)
    case Touch => if s.row.None? then s else s.(row := Some(s.row.value.(lastSeen := s.now)))
    case Rotate(conn, token) => AfterMint(s, token).(pending := s.pending - {conn})
    case Fail(conn) => s.(pending := s.pending - {conn})
    case Revoke =>
      if s.row.None? then s else s.(row := Some(s.row.value.(revoked := true)), revokedSince := true)
  }

  predicate ValidRun(s: State, es: seq<Event>)
    decreases |es|
  {
    es == [] || (Enabled(s, es[0]) && ValidRun(Next(s, es[0]), es[1..]))
  }

  function After(s: State, es: seq<Event>): State
    requires ValidRun(s, es)
    decreases |es|
  {
    if es == [] then s else After(Next(s, es[0]), es[1..])
  }

  /** Builds a run backwards, one step at a time. */
  lemma Prepend(s: State, e: Event, t: State, es: seq<Event>) returns (longer: seq<Event>)
    requires Enabled(s, e) && Next(s, e) == t && ValidRun(t, es)
    ensures ValidRun(s, longer) && After(s, longer) == After(t, es)
    ensures |longer| == |es| + 1 && longer[|es|] == if es == [] then e else es[|es| - 1]
  {
    longer := [e] + es;
    assert longer[1..] == es;
  }

  predicate Accepted(s: State, token: string) {
    Verified(s.row, token, s.now).valid
  }

  // ---- The row is a function of the history ----------------------------------------

  ghost predicate HistoryOk(s: State) {
    && (forall i, j :: 0 <= i < j < |s.mints| ==> s.mints[i].token != s.mints[j].token && s.mints[i].at <= s.mints[j].at)
    && (forall i :: 0 <= i < |s.mints| ==> s.mints[i].at <= s.now)
  }

  /** When the overlap of the last but one token ends. */
  function OverlapEnd(mints: seq<Mint>): int
    requires |mints| >= 2
  {
    var n := |mints|;
    Min(mints[n - 1].at + 24 * HOUR, Max(mints[n - 2].at + 60 * DAY, mints[n - 1].at))
  }

  /** The row that this history of mints leaves behind. */
  predicate RowFits(mints: seq<Mint>, revoked: bool, row: Option<Row>) {
    var n := |mints|;
    && (row.None? <==> n == 0)
    && (n == 0 ==> !revoked)
    && (n > 0 ==>
          var r := row.value;
          && r.tokenHash == Sha(mints[n - 1].token)
          && r.tokenExpires == mints[n - 1].at + TOKEN_TTL
          && r.revoked == revoked
          && (if n == 1 then r.prevHash == Empty
              else r.prevHash == Sha(mints[n - 2].token) && r.prevExpires == OverlapEnd(mints)))
  }

  predicate RowOk(s: State) {
    RowFits(s.mints, s.revokedSince, s.row)
  }

  /** What a connection has read was the row at that time. */
  predicate ReadingOk(s: State, r: Reading) {
    r.seen <= |s.mints| && RowFits(s.mints[..r.seen], r.revoked, r.row)
  }

  ghost predicate ReadsOk(s: State) {
    forall c :: c in s.readings ==> ReadingOk(s, s.readings[c])
  }

  /** What a pending rotation knew about the history when it verified. */
  predicate NearThen(mints: seq<Mint>, p: Pending)
    requires p.seen <= |mints|
  {
    var n := p.seen;
    && n > 0
    && mints[n - 1].at <= p.at
    && (mints[n - 1].at + 60 * DAY - p.at < 7 * DAY ||
        (n >= 2 && OverlapEnd(mints[..n]) - p.at < 12 * HOUR))
  }

  predicate WaitsOk(s: State, p: Pending) {
    p.seen <= |s.mints| && p.at <= s.now && NearThen(s.mints, p)
  }

  ghost predicate PendingOk(s: State) {
    forall c :: c in s.pending ==> WaitsOk(s, s.pending[c])
  }

  ghost predicate Inv(s: State) {
    HistoryOk(s) && RowOk(s) && ReadsOk(s) && PendingOk(s)
  }

  lemma NearThenKept(mints: seq<Mint>, m: Mint, p: Pending)
    requires p.seen <= |mints| && NearThen(mints, p)
    ensures NearThen(mints + [m], p)
  {
    assert (mints + [m])[..p.seen] == mints[..p.seen];
  }

  lemma HistoryStep(s: State, e: Event)
    requires HistoryOk(s) && Enabled(s, e)
    ensures HistoryOk(Next(s, e))
  {}

  lemma RowStep(s: State, e: Event)
    requires HistoryOk(s) && RowOk(s) && Enabled(s, e)
    ensures RowOk(Next(s, e))
  {}

  lemma ReadsStep(s: State, e: Event)
    requires Inv(s) && Enabled(s, e)
    ensures ReadsOk(Next(s, e))
  {
    var t := Next(s, e);
    forall c | c in t.readings ensures ReadingOk(t, t.readings[c]) {
      if c in s.readings {
        assert ReadingOk(s, s.readings[c]);
        assert t.mints[..s.readings[c].seen] == s.mints[..s.readings[c].seen];
      } else {
        assert s.mints[..|s.mints|] == s.mints;
      }
    }
  }

  lemma VerdictIsNear(s: State, r: Reading)
    requires HistoryOk(s) && ReadingOk(s, r) && Verified(r.row, r.token, s.now) == Verdict(true, true)
    ensures NearThen(s.mints, Pending(s.now, r.seen))
  {}

  lemma PendingKept(s: State, e: Event, c: nat)
    requires PendingOk(s) && Enabled(s, e) && c in s.pending
    ensures WaitsOk(Next(s, e), s.pending[c])
  {
    assert WaitsOk(s, s.pending[c]);
    if e.Issue? || e.Rotate? {
      NearThenKept(s.mints, Mint(e.token, s.now), s.pending[c]);
    }
  }

  lemma PendingStep(s: State, e: Event)
    requires Inv(s) && Enabled(s, e)
    ensures PendingOk(Next(s, e))
  {
    var t := Next(s, e);
    forall c | c in t.pending ensures WaitsOk(t, t.pending[c]) {
      if e.Judge? && e.conn == c && t.pending != s.pending {
        VerdictIsNear(s, s.readings[c]);
      } else {
        PendingKept(s, e, c);
      }
    }
  }

  lemma InvStep(s: State, e: Event)
    requires Inv(s) && Enabled(s, e)
    ensures Inv(Next(s, e))
  {
    HistoryStep(s, e);
    RowStep(s, e);
    ReadsStep(s, e);
    PendingStep(s, e);
  }

  lemma {:induction false} InvRun(s: State, es: seq<Event>)
    requires Inv(s) && ValidRun(s, es)
    ensures Inv(After(s, es))
    decreases |es|
  {
    if es != [] {
      InvStep(s, es[0]);
      InvRun(Next(s, es[0]), es[1..]);
    }
  }

  // ---- Which tokens work ---------------------------------------------------------------

  /** Token i of a history works at this time. */
  predicate WorksFor(mints: seq<Mint>, revoked: bool, now: int, i: nat) {
    && i < |mints|
    && !revoked
    && if i == |mints| - 1 then now < mints[i].at + 60 * DAY
       else i == |mints| - 2 && now < OverlapEnd(mints)
  }

  /** Token i of the history still works. */
  predicate Works(s: State, i: nat) {
    WorksFor(s.mints, s.revokedSince, s.now, i)
  }

  lemma VerdictFits(mints: seq<Mint>, revoked: bool, row: Option<Row>, token: string, now: int)
    requires RowFits(mints, revoked, row)
    requires forall i, j :: 0 <= i < j < |mints| ==> mints[i].token != mints[j].token
    ensures Verified(row, token, now).valid <==>
            exists i :: 0 <= i < |mints| && mints[i].token == token && WorksFor(mints, revoked, now, i)
  {
    if Verified(row, token, now).valid {
      var i := if token == mints[|mints| - 1].token then |mints| - 1 else |mints| - 2;
      assert mints[i].token == token && WorksFor(mints, revoked, now, i);
    }
  }

  /** Main result: after any run a raw token is accepted exactly when it is the last one within
      its 60 days, or the last but one within its overlap, and no revoke followed the last mint. */
  lemma AcceptedExactly(start: int, es: seq<Event>, token: string)
    requires ValidRun(Init(start), es)
    ensures var s := After(Init(start), es);
            Accepted(s, token) <==> exists i :: 0 <= i < |s.mints| && s.mints[i].token == token && Works(s, i)
  {
    InvRun(Init(start), es);
    var s := After(Init(start), es);
    var n := |s.mints|;
    if Accepted(s, token) {
      var i := if token == s.mints[n - 1].token then n - 1 else n - 2;
      assert s.mints[i].token == token && Works(s, i);
    }
  }

  /** A working token of a history is due for a refresh exactly in its last seven days, or in the last
      twelve hours of its overlap. */
  predicate DueFor(mints: seq<Mint>, now: int, i: nat) {
    && i < |mints|
    && if i == |mints| - 1 then now > mints[i].at + 53 * DAY
       else i == |mints| - 2 && now > OverlapEnd(mints) - 12 * HOUR
  }

  predicate Due(s: State, i: nat) {
    DueFor(s.mints, s.now, i)
  }

  lemma RefreshFits(mints: seq<Mint>, revoked: bool, row: Option<Row>, token: string, now: int)
    requires RowFits(mints, revoked, row)
    requires forall i, j :: 0 <= i < j < |mints| ==> mints[i].token != mints[j].token
    ensures Verified(row, token, now).nearExpiry <==>
            exists i :: 0 <= i < |mints| && mints[i].token == token && WorksFor(mints, revoked, now, i) && DueFor(mints, now, i)
  {
    if Verified(row, token, now).nearExpiry {
      var i := if token == mints[|mints| - 1].token then |mints| - 1 else |mints| - 2;
      assert mints[i].token == token && WorksFor(mints, revoked, now, i) && DueFor(mints, now, i);
    }
  }

  lemma RefreshAskedExactly(start: int, es: seq<Event>, token: string)
    requires ValidRun(Init(start), es)
    ensures var s := After(Init(start), es);
            Verified(s.row, token, s.now).nearExpiry <==>
            exists i :: 0 <= i < |s.mints| && s.mints[i].token == token && Works(s, i) && Due(s, i)
  {
    InvRun(Init(start), es);
    var s := After(Init(start), es);
    RefreshFits(s.mints, s.revokedSince, s.row, token, s.now);
  }

  /** What a connection is told, whatever was minted or revoked since it read the row: its token is
      accepted exactly when it worked by the history at the SELECT and the later clock, and it is told
      to refresh exactly when it was due by them as well. */
  lemma JudgedExactly(start: int, es: seq<Event>, conn: nat)
    requires ValidRun(Init(start), es) && conn in After(Init(start), es).readings
    ensures var s := After(Init(start), es);
            var r := s.readings[conn];
            && r.seen <= |s.mints|
            && var known := s.mints[..r.seen];
               && (Verified(r.row, r.token, s.now).valid <==>
                   exists i :: 0 <= i < r.seen && known[i].token == r.token && WorksFor(known, r.revoked, s.now, i))
               && (Verified(r.row, r.token, s.now).nearExpiry <==>
                   exists i :: 0 <= i < r.seen && known[i].token == r.token && WorksFor(known, r.revoked, s.now, i) &&
                     DueFor(known, s.now, i))
  {
    InvRun(Init(start), es);
    var s := After(Init(start), es);
    var r := s.readings[conn];
    assert ReadingOk(s, r);
    VerdictFits(s.mints[..r.seen], r.revoked, r.row, r.token, s.now);
    RefreshFits(s.mints[..r.seen], r.revoked, r.row, r.token, s.now);
  }

  /** At most two raw tokens of a user are acceptable at any moment. */
  lemma AtMostTwoAccepted(start: int, es: seq<Event>, a: string, b: string, c: string)
    requires ValidRun(Init(start), es)
    requires var s := After(Init(start), es); Accepted(s, a) && Accepted(s, b) && Accepted(s, c)
    ensures a == b || b == c || a == c
  {
    AcceptedExactly(start, es, a);
    AcceptedExactly(start, es, b);
    AcceptedExactly(start, es, c);
  }

  /** The limits of every single token: its own 60 days, 24 hours after its demotion by the
      next mint, two later mints, and any revoke since the last mint. */
  lemma TokenLimits(start: int, es: seq<Event>, i: nat)
    requires ValidRun(Init(start), es)
    requires var s := After(Init(start), es); i < |s.mints| && Accepted(s, s.mints[i].token)
    ensures var s := After(Init(start), es);
            && s.now < s.mints[i].at + 60 * 24 * 3_600_000_000_000
            && (i + 1 < |s.mints| ==> s.now < s.mints[i + 1].at + 24 * 3_600_000_000_000)
            && i + 2 >= |s.mints|
            && !s.revokedSince
  {
    InvRun(Init(start), es);
    var s := After(Init(start), es);
    AcceptedExactly(start, es, s.mints[i].token);
    var k :| 0 <= k < |s.mints| && s.mints[k].token == s.mints[i].token && Works(s, k);
    assert k == i;
  }

  /** A revoke holds only until the next mint, which brings the revoked token back as overlap. */
  lemma MintRevivesRevoked() returns (es: seq<Event>)
    ensures ValidRun(Init(0), es) && |es| == 3 && es[1] == Revoke
    ensures var s := After(Init(0), es); |s.mints| == 2 && s.mints[0].token == "a" && Accepted(s, "a")
  {
    var s1 := Next(Init(0), Issue("a"));
    var s2 := Next(s1, Revoke);
    var s3 := Next(s2, Issue("b"));
    assert s3.row.value.prevHash == Sha("a");
    es := [Issue("a"), Revoke, Issue("b")];
    assert es[1..] == [Revoke, Issue("b")] && es[1..][1..] == [Issue("b")];
  }

  // ---- How often a token can force a mint ------------------------------------------------

  lemma QuickRotation(mints: seq<Mint>, p: Pending, now: int)
    requires p.seen == |mints| && p.at <= now && NearThen(mints, p)
    ensures var n := |mints|;
            && n > 0
            && (now - mints[n - 1].at <= 12 * HOUR ==> n >= 2 && mints[n - 1].at - mints[n - 2].at > 59 * DAY)
  {
    assert mints[..|mints|] == mints;
  }

  /** Main result: a rotation that follows its own verdict without another mint in between,
      within 12 hours of the previous mint, needs the mint before that to be over 59 days older. */
  lemma QuickRotationNeedsAnOldToken(start: int, es: seq<Event>, conn: nat, token: string)
    requires ValidRun(Init(start), es)
    requires var s := After(Init(start), es); Enabled(s, Rotate(conn, token)) && s.pending[conn].seen == |s.mints|
    ensures var s := After(Init(start), es);
            var n := |s.mints|;
            && n > 0
            && (s.now - s.mints[n - 1].at <= 12 * HOUR ==>
                  n >= 2 && s.mints[n - 1].at - s.mints[n - 2].at > 59 * DAY)
  {
    InvRun(Init(start), es);
    var s := After(Init(start), es);
    QuickRotation(s.mints, s.pending[conn], s.now);
  }

  lemma RotationSpan(s: State, conn: nat, token: string)
    requires HistoryOk(s) && Enabled(s, Rotate(conn, token)) && |s.mints| >= 2
    ensures var t, n := Next(s, Rotate(conn, token)), |s.mints|;
            && |t.mints| == n + 1 && t.mints[n].at == s.now && t.mints[n - 2] == s.mints[n - 2]
            && s.mints[n - 2].at <= s.mints[n - 1].at <= s.now
  {}

  lemma QuickRotationSpan(s: State, conn: nat, token: string)
    requires HistoryOk(s) && Enabled(s, Rotate(conn, token)) && |s.mints| >= 2
    requires var n := |s.mints|; s.now - s.mints[n - 1].at <= 12 * HOUR ==> s.mints[n - 1].at - s.mints[n - 2].at > 59 * DAY
    ensures var t, n := Next(s, Rotate(conn, token)), |s.mints|;
            |t.mints| == n + 1 && t.mints[n].at - t.mints[n - 2].at > 12 * HOUR
  {
    RotationSpan(s, conn, token);
  }

  /** Hence three consecutive mints ending in such a rotation span more than 12 hours, so two
      holders of one identity cannot keep demoting each other. */
  lemma NoPingPong(start: int, es: seq<Event>, conn: nat, token: string)
    requires ValidRun(Init(start), es)
    requires var s := After(Init(start), es);
             Enabled(s, Rotate(conn, token)) && s.pending[conn].seen == |s.mints| && |s.mints| >= 2
    ensures var s := Next(After(Init(start), es), Rotate(conn, token));
            var n := |s.mints|;
            s.mints[n - 1].at - s.mints[n - 3].at > 12 * HOUR
  {
    InvRun(Init(start), es);
    QuickRotationNeedsAnOldToken(start, es, conn, token);
    QuickRotationSpan(After(Init(start), es), conn, token);
  }

  /** A connection reads and judges at one instant. */
  lemma PrependVerdict(s: State, conn: nat, token: string, t: State, es: seq<Event>) returns (longer: seq<Event>)
    requires s.readings == map[] && conn !in s.pending && Verified(s.row, token, s.now) == Verdict(true, true)
    requires t == s.(pending := s.pending[conn := Pending(s.now, |s.mints|)]) && ValidRun(t, es) && es != []
    ensures ValidRun(s, longer) && After(s, longer) == After(t, es)
    ensures longer != [] && longer[|longer| - 1] == es[|es| - 1]
  {
    var mid := Next(s, Read(conn, token));
    assert mid.readings - {conn} == s.readings;
    longer := Prepend(mid, Judge(conn), t, es);
    longer := Prepend(s, Read(conn, token), mid, longer);
  }

  lemma ThreeVerdicts(s: State, p: Pending, rest: seq<Event>) returns (es: seq<Event>)
    requires p == Pending(13 * HOUR, 2) && rest != []
    requires s == State(13 * HOUR, Some(Row(Sha("b"), Sha("a"), TOKEN_TTL, OVERLAP, 0, false)),
                        [Mint("a", 0), Mint("b", 0)], false, map[], map[1 := p, 2 := p, 3 := p])
    requires ValidRun(s, rest)
    ensures ValidRun(Init(0), es) && After(Init(0), es) == After(s, rest)
    ensures es != [] && es[|es| - 1] == rest[|rest| - 1]
  {
    var s1 := State(0, Some(Row(Sha("a"), Empty, TOKEN_TTL, 0, 0, false)), [Mint("a", 0)], false, map[], map[]);
    var s2 := s.(now := 0, pending := map[]);
    var s3 := s2.(now := 13 * HOUR);
    var s4 := s.(pending := map[1 := p]);
    var s5 := s.(pending := map[1 := p, 2 := p]);
    es := PrependVerdict(s5, 3, "a", s, rest);
    es := PrependVerdict(s4, 2, "a", s5, es);
    es := PrependVerdict(s3, 1, "a", s4, es);
    es := Prepend(s2, Tick(13 * HOUR), s3, es);
    es := Prepend(s1, Issue("b"), s2, es);
    es := Prepend(Init(0), Issue("a"), s1, es);
  }

  /** Verdicts taken side by side escape the bound: three connections that all verified
      before any of them minted rotate three times in one instant. */
  lemma ParallelVerdictsPingPong() returns (es: seq<Event>)
    ensures ValidRun(Init(0), es) && |es| > 0 && es[|es| - 1].Rotate?
    ensures var s := After(Init(0), es);
            var n := |s.mints|;
            n >= 3 && s.mints[n - 1].at == s.mints[n - 3].at
  {
    var t, before := 13 * HOUR, [Mint("a", 0), Mint("b", 0)];
    var p := Pending(t, 2);
    var s6 := State(t, Some(Row(Sha("b"), Sha("a"), TOKEN_TTL, OVERLAP, 0, false)), before, false, map[],
                    map[1 := p, 2 := p, 3 := p]);
    var s7 := Next(s6, Rotate(1, "c"));
    assert s7.mints == before + [Mint("c", t)];
    var s8 := Next(s7, Rotate(2, "d"));
    assert s8.mints == before + [Mint("c", t), Mint("d", t)];
    var s9 := Next(s8, Rotate(3, "e"));
    assert s9.mints == before + [Mint("c", t), Mint("d", t), Mint("e", t)];
    es := Prepend(s8, Rotate(3, "e"), s9, []);
    es := Prepend(s7, Rotate(2, "d"), s8, es);
    es := Prepend(s6, Rotate(1, "c"), s7, es);
    es := ThreeVerdicts(s6, p, es);
  }

  // ---- Exactly which verdicts keep the bounds ------------------------------------------------

  /** The run ends where this connection may rotate, and since it read the row the user was minted
      `lag` further tokens. */
  predicate Lags(es: seq<Event>, conn: nat, token: string, lag: nat) {
    && ValidRun(Init(0), es)
    && var s := After(Init(0), es);
       Enabled(s, Rotate(conn, token)) && |s.mints| == s.pending[conn].seen + lag
  }

  /** Within 12 hours of the last mint only if the mint before that is over 59 days older. */
  predicate QuickNeedsOld(s: State) {
    var n := |s.mints|;
    n > 0 && (s.now - s.mints[n - 1].at <= 12 * HOUR ==> n >= 2 && s.mints[n - 1].at - s.mints[n - 2].at > 59 * DAY)
  }

  /** A rotation now would complete three mints that span more than 12 hours. */
  predicate SpansHalfADay(s: State) {
    |s.mints| >= 2 ==> s.now - s.mints[|s.mints| - 2].at > 12 * HOUR
  }

  /** Longer than every token minted so far. */
  function Unseen(mints: seq<Mint>): (t: string)
    ensures forall i :: 0 <= i < |mints| ==> |mints[i].token| < |t|
  {
    if mints == [] then "x"
    else Unseen(mints[..|mints| - 1]) + mints[|mints| - 1].token + "x"
  }

  lemma UnseenIsFresh(s: State)
    ensures Fresh(s, Unseen(s.mints))
  {}

  lemma UpToDateRotationsAreBounded(start: int, es: seq<Event>, conn: nat)
    requires ValidRun(Init(start), es)
    requires var s := After(Init(start), es); conn in s.pending && s.pending[conn].seen == |s.mints|
    ensures QuickNeedsOld(After(Init(start), es)) && SpansHalfADay(After(Init(start), es))
  {
    var s := After(Init(start), es);
    UnseenIsFresh(s);
    QuickRotationNeedsAnOldToken(start, es, conn, Unseen(s.mints));
    if |s.mints| >= 2 {
      NoPingPong(start, es, conn, Unseen(s.mints));
    }
  }

  /** Any number of further mints at one instant. */
  lemma {:induction false} IssueMany(s: State, lag: nat) returns (es: seq<Event>)
    ensures ValidRun(s, es)
    ensures var t := After(s, es);
            && t.now == s.now && t.pending == s.pending && |t.mints| == |s.mints| + lag && s.mints <= t.mints
            && forall i :: |s.mints| <= i < |t.mints| ==> t.mints[i].at == s.now
    decreases lag
  {
    es := [];
    if lag > 0 {
      UnseenIsFresh(s);
      var e := Issue(Unseen(s.mints));
      var t := Next(s, e);
      var rest := IssueMany(t, lag - 1);
      es := Prepend(s, e, t, rest);
      assert t.mints <= After(s, es).mints;
    }
  }

  lemma {:induction false} RunsCompose(s: State, es: seq<Event>, fs: seq<Event>)
    requires ValidRun(s, es) && ValidRun(After(s, es), fs)
    ensures ValidRun(s, es + fs) && After(s, es + fs) == After(After(s, es), fs)
    decreases |es|
  {
    if es == [] {
      assert es + fs == fs;
    } else {
      RunsCompose(Next(s, es[0]), es[1..], fs);
      assert (es + fs)[1..] == es[1..] + fs;
    }
  }

  const LATE := 59 * DAY + 13 * HOUR

  /** A token of 59 days and 13 hours is replaced and presented at once: its overlap has eleven
      hours left, so the verdict asks for another mint. */
  function LateVerdict(): State {
    State(LATE, Some(Row(Sha("b"), Sha("a"), LATE + TOKEN_TTL, TOKEN_TTL, LATE, false)),
          [Mint("a", 0), Mint("b", LATE)], false, map[], map[1 := Pending(LATE, 2)])
  }

  lemma LateVerdictIsReached() returns (es: seq<Event>)
    ensures ValidRun(Init(0), es) && After(Init(0), es) == LateVerdict()
  {
    var s1 := State(0, Some(Row(Sha("a"), Empty, TOKEN_TTL, 0, 0, false)), [Mint("a", 0)], false, map[], map[]);
    var s2 := s1.(now := LATE);
    var s3 := LateVerdict().(pending := map[]);
    var s4 := Next(s3, Read(1, "a"));
    assert s4.readings - {1} == map[];
    es := Prepend(s4, Judge(1), LateVerdict(), []);
    es := Prepend(s3, Read(1, "a"), s4, es);
    assert Next(s2, Issue("b")).mints == s3.mints;
    es := Prepend(s2, Issue("b"), s3, es);
    es := Prepend(s1, Tick(LATE), s2, es);
    es := Prepend(Init(0), Issue("a"), s1, es);
  }

  lemma OvertakenVerdict(lag: nat) returns (es: seq<Event>, token: string)
    requires lag > 0
    ensures Lags(es, 1, token, lag)
    ensures !QuickNeedsOld(After(Init(0), es)) && !SpansHalfADay(After(Init(0), es))
  {
    var start := LateVerdictIsReached();
    var rest := IssueMany(LateVerdict(), lag);
    RunsCompose(Init(0), start, rest);
    es := start + rest;
    var s := After(Init(0), es);
    token := Unseen(s.mints);
    UnseenIsFresh(s);
    var n := |s.mints|;
    assert s.mints[1].at == LATE;
    assert forall i :: 1 <= i < n ==> s.mints[i].at == LATE;
  }

  /** Both bounds hold for every rotation whose verdict is this many mints old exactly when that
      number is zero: one mint in between is enough to break them. */
  lemma RotationBoundsHoldExactly(lag: nat)
    ensures (forall es, conn, token :: Lags(es, conn, token, lag) ==> QuickNeedsOld(After(Init(0), es))) <==> lag == 0
    ensures (forall es, conn, token :: Lags(es, conn, token, lag) ==> SpansHalfADay(After(Init(0), es))) <==> lag == 0
  {
    if lag == 0 {
      forall es, conn, token | Lags(es, conn, token, lag)
        ensures QuickNeedsOld(After(Init(0), es)) && SpansHalfADay(After(Init(0), es))
      {
        UpToDateRotationsAreBounded(0, es, conn);
      }
    } else {
      var es, token := OvertakenVerdict(lag);
      assert Lags(es, 1, token, lag);
    }
  }
}
