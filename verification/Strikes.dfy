/** Wrong puzzle answers (puzzle.go, websocket.go): each one counts a strike for the clock
    hour, and one that counts to three or more then arms a 30-minute cooldown that later
    handshakes must see lapsed. Reading the hour, counting under the lock and arming are
    separate steps, and handshakes of the same and of other addresses interleave freely. */
module Strikes {
  import opened Counters
  import opened Numbers

  const MINUTE := 60_000_000_000
  const HOUR := 60 * MINUTE
  const COOLDOWN := 30 * MINUTE
  const STRIKE_LIMIT := 3

  function StrikeKey(stamp: Stamp, ip: string, h: nat): string {
    Key("chstrike:", ip, stamp(h))
  }

  function Punished(cooldown: map<string, int>, ip: string, strikes: nat, now: nat): map<string, int> {
    if strikes >= STRIKE_LIMIT then Armed(cooldown, ip, now, COOLDOWN) else cooldown
  }

  /** A rejected solution: the hour is read at one instant, the cooldown armed at a later. */
  method RegisterChallengeStrikeForRejection(rdb: RedisCounters, stamp: Stamp, ip: string, read: nat, armed: nat)
    returns (strikes: nat)
    modifies rdb
    ensures strikes == Count(old(rdb.memoryChStrikes), StrikeKey(stamp, ip, read / HOUR)) + 1
    ensures rdb.memoryChStrikes ==
            Bumped(old(rdb.memoryChStrikes), StrikeKey(stamp, ip, read / HOUR), stamp(read / HOUR))
    ensures rdb.memoryChCooldown == Punished(old(rdb.memoryChCooldown), ip, strikes, armed)
    ensures rdb.memoryIssuance == old(rdb.memoryIssuance)
  {
    strikes := rdb.RegisterChallengeStrike(ip, stamp(read / HOUR));
    if strikes >= STRIKE_LIMIT {
      rdb.SetChallengeCooldown(ip, armed, COOLDOWN);
    }
  }

  /** A handshake past the cooldown check: at its puzzle, rejected with the hour read, counted. */
  datatype Seat =
    | Solving(ip: string)
    | Counting(ip: string, hour: nat)
    | Arming(ip: string, strikes: nat)

  /** A wrong answer, at the instant at which the relay reads the hour for it. */
  datatype Wrong = Wrong(ip: string, at: nat)

  /** `wrongs` lists the wrong answers, `lapses` the end of the last cooldown of each address. */
  datatype State = State(
    now: nat,
    strikes: map<string, nat>,
    cooldown: map<string, int>,
    seats: map<nat, Seat>,
    wrongs: seq<Wrong>,
    lapses: map<string, nat>)

  datatype Event =
    | Tick(dt: nat)
    | Check(conn: nat, ip: string)
    | Answer(conn: nat)                 // well-formed and wrong; reads the hour
    | Register(conn: nat)               // counts it under the lock
    | Arm(conn: nat)
    | Leave(conn: nat)                  // solved, garbage, timeout

  function Init(now: nat): State {
    State(now, map[], map[], map[], [], map[])
  }

  predicate Enabled(s: State, e: Event) {
    match e
    case Tick(_) => true
    case Check(conn, _) => conn !in s.seats
    case Answer(conn) => conn in s.seats && s.seats[conn].Solving?
    case Register(conn) => conn in s.seats && s.seats[conn].Counting?
    case Arm(conn) => conn in s.seats && s.seats[conn].Arming?
    case Leave(conn) => conn in s.seats && s.seats[conn].Solving?
  }

  function Next(stamp: Stamp, s: State, e: Event): State
    requires Enabled(s, e)
  {
    match e
    case Tick(dt) => s.(now := s.now + dt)
    case Check(conn, ip) =>
      s.(cooldown := Unlapsed(s.cooldown, s.now),
         seats := if Cooling(s.cooldown, ip, s.now) then s.seats else s.seats[conn := Solving(ip)])
    case Answer(conn) =>
      var ip := s.seats[conn].ip;
      s.(seats := s.seats[conn := Counting(ip, s.now / HOUR)], wrongs := s.wrongs + [Wrong(ip, s.now)])
    case Register(conn) =>
      var ip, h := s.seats[conn].ip, s.seats[conn].hour;
      s.(strikes := Bumped(s.strikes, StrikeKey(stamp, ip, h), stamp(h)),
         seats := s.seats[conn := Arming(ip, Count(s.strikes, StrikeKey(stamp, ip, h)) + 1)])
    case Arm(conn) =>
      var ip, n := s.seats[conn].ip, s.seats[conn].strikes;
      s.(cooldown := Punished(s.cooldown, ip, n, s.now),
         lapses := if n >= STRIKE_LIMIT then s.lapses[ip := s.now + COOLDOWN] else s.lapses,
         seats := s.seats - {conn})
    case Leave(conn) => s.(seats := s.seats - {conn})
  }

  predicate ValidRun(stamp: Stamp, s: State, es: seq<Event>)
    decreases |es|
  {
    es == [] || (Enabled(s, es[0]) && ValidRun(stamp, Next(stamp, s, es[0]), es[1..]))
  }

  function After(stamp: Stamp, s: State, es: seq<Event>): State
    requires ValidRun(stamp, s, es)
    decreases |es|
  {
    if es == [] then s else After(stamp, Next(stamp, s, es[0]), es[1..])
  }

  /** The handshakes of this address between the cooldown check and their end. */
  function Seated(s: State, ip: string): set<nat> {
    set c | c in s.seats && s.seats[c].ip == ip
  }

  function Open(s: State, ip: string): set<nat> {
    set c | c in s.seats && s.seats[c] == Solving(ip)
  }

  /** Rejected in hour h and not counted yet. */
  function Uncounted(s: State, ip: string, h: nat): set<nat> {
    set c | c in s.seats && s.seats[c] == Counting(ip, h)
  }

  /** Counted to three or more and about to arm the cooldown. */
  function Owing(s: State, ip: string): set<nat> {
    set c | c in s.seats && s.seats[c].Arming? && s.seats[c].ip == ip && s.seats[c].strikes >= STRIKE_LIMIT
  }

  /** At no moment are more than `width` handshakes of this address under way. */
  predicate SideBySide(stamp: Stamp, s: State, es: seq<Event>, ip: string, width: nat)
    requires ValidRun(stamp, s, es)
    decreases |es|
  {
    |Seated(s, ip)| <= width && (es == [] || SideBySide(stamp, Next(stamp, s, es[0]), es[1..], ip, width))
  }

  /** Strikes that this address has on record for an hour. */
  function Recorded(stamp: Stamp, s: State, ip: string, h: nat): nat {
    Count(s.strikes, StrikeKey(stamp, ip, h))
  }

  /** A call that read its hour before the clock moved on gets the lock in hour h and trims the
      map, which forgets the strikes of this address in h. */
  predicate Forgets(stamp: Stamp, s: State, e: Event, ip: string, h: nat)
    requires Enabled(s, e)
  {
    && e.Register? && s.now / HOUR == h && stamp(s.seats[e.conn].hour) != stamp(h)
    && Trims(s.strikes, StrikeKey(stamp, s.seats[e.conn].ip, s.seats[e.conn].hour))
    && Recorded(stamp, s, ip, h) > 0
  }

  /** How often that happens in a run. */
  function TimesForgotten(stamp: Stamp, s: State, es: seq<Event>, ip: string, h: nat): nat
    requires ValidRun(stamp, s, es)
    decreases |es|
  {
    if es == [] then 0
    else
      (if Forgets(stamp, s, es[0], ip, h) then 1 else 0) + TimesForgotten(stamp, Next(stamp, s, es[0]), es[1..], ip, h)
  }

  /** Wrong answers of one address in clock hour h, among the first n. */
  function WrongsIn(ws: seq<Wrong>, n: nat, ip: string, h: nat): nat
    requires n <= |ws|
  {
    if n == 0 then 0
    else WrongsIn(ws, n - 1, ip, h) + (if ws[n - 1].ip == ip && ws[n - 1].at / 3_600_000_000_000 == h then 1 else 0)
  }

  function AllWrongs(ws: seq<Wrong>, ip: string, h: nat): nat {
    WrongsIn(ws, |ws|, ip, h)
  }

  lemma {:induction false} PrefixAgrees(ws: seq<Wrong>, w: Wrong, n: nat, ip: string, h: nat)
    requires n <= |ws|
    ensures WrongsIn(ws + [w], n, ip, h) == WrongsIn(ws, n, ip, h)
  {
    if n > 0 {
      PrefixAgrees(ws, w, n - 1, ip, h);
    }
  }

  lemma Snoc(ws: seq<Wrong>, w: Wrong, ip: string, h: nat)
    ensures AllWrongs(ws + [w], ip, h) == AllWrongs(ws, ip, h) + (if w.ip == ip && w.at / HOUR == h then 1 else 0)
  {
    PrefixAgrees(ws, w, |ws|, ip, h);
  }

  lemma HoursGrow(a: nat, b: nat)
    requires a <= b
    ensures a / HOUR <= b / HOUR && a / HOUR * HOUR <= a < (a / HOUR + 1) * HOUR
  {}

  lemma {:induction false} NoFutureWrongs(ws: seq<Wrong>, n: nat, ip: string, now: nat, h: nat)
    requires n <= |ws| && now / HOUR < h && forall i :: 0 <= i < n ==> ws[i].at <= now
    ensures WrongsIn(ws, n, ip, h) == 0
  {
    if n > 0 {
      NoFutureWrongs(ws, n - 1, ip, now, h);
      HoursGrow(ws[n - 1].at, now);
    }
  }

  // ---- Rounds of an hour ---------------------------------------------------------------

  function Lapse(s: State, ip: string): nat {
    if ip in s.lapses then s.lapses[ip] else 0
  }

  /** The cooldown map, pruned or not, refuses exactly until the last arming lapses. */
  ghost predicate DoorOk(s: State, ip: string) {
    && (s.now < Lapse(s, ip) ==> ip in s.cooldown && s.cooldown[ip] == Lapse(s, ip))
    && (ip in s.cooldown ==> s.cooldown[ip] <= Lapse(s, ip))
    && Lapse(s, ip) <= s.now + COOLDOWN
  }

  /** n wrong answers this hour, p puzzles open, m of the hour uncounted, q cooldowns owed, `free`
      strikes that owed none, the last cooldown lapsing at `lapse`: nothing armed yet; armed for the
      first time and shut, or lapsed again; shut for good. */
  predicate Rounds(now: nat, n: nat, p: nat, m: nat, q: nat, lapse: nat, k: nat, free: nat) {
    var start := now / HOUR * HOUR;
    if lapse < start + COOLDOWN then n <= free + m + q
    else if lapse < start + HOUR then if now < lapse then n + p <= free + k else n <= free + k + m + q
    else n + p <= free + 2 * k
  }

  lemma RoundsBound(now: nat, n: nat, p: nat, m: nat, q: nat, lapse: nat, k: nat, free: nat)
    requires Rounds(now, n, p, m, q, lapse, k, free) && p + m + q <= k
    ensures n <= free + 2 * k
  {}

  lemma RoundsOnTick(now: nat, later: nat, n: nat, p: nat, m: nat, q: nat, lapse: nat, k: nat, free: nat)
    requires Rounds(now, n, p, m, q, lapse, k, free) && p + m + q <= k && now <= later && now / HOUR == later / HOUR
    ensures Rounds(later, n, p, m, q, lapse, k, free)
  {}

  lemma RoundsOnCheck(now: nat, n: nat, p: nat, m: nat, q: nat, lapse: nat, k: nat, free: nat)
    requires Rounds(now, n, p, m, q, lapse, k, free) && lapse <= now
    ensures Rounds(now, n, p + 1, m, q, lapse, k, free)
  {
    HoursGrow(now, now);
  }

  lemma RoundsOnAnswer(now: nat, n: nat, p: nat, m: nat, q: nat, lapse: nat, k: nat, free: nat)
    requires Rounds(now, n, p, m, q, lapse, k, free) && p > 0
    ensures Rounds(now, n + 1, p - 1, m + 1, q, lapse, k, free)
  {}

  /** A strike is counted: it owes a cooldown or is one of the free ones. */
  lemma RoundsOnStrike(now: nat, n: nat, p: nat, m: nat, q: nat, lapse: nat, k: nat, free: nat, free': nat, owes: bool)
    requires Rounds(now, n, p, m, q, lapse, k, free) && m > 0 && free' >= if owes then free else free + 1
    ensures Rounds(now, n, p, m - 1, if owes then q + 1 else q, lapse, k, free')
  {}

  lemma RoundsGrow(now: nat, n: nat, p: nat, p': nat, m: nat, q: nat, q': nat, lapse: nat, k: nat, free: nat, free': nat)
    requires Rounds(now, n, p, m, q, lapse, k, free) && p' <= p && q <= q' && free <= free'
    ensures Rounds(now, n, p', m, q', lapse, k, free')
  {}

  lemma RoundsOnArm(now: nat, n: nat, p: nat, m: nat, q: nat, lapse: nat, k: nat, free: nat)
    requires Rounds(now, n, p, m, q, lapse, k, free) && p + m + q <= k && q > 0 && lapse <= now + COOLDOWN
    ensures Rounds(now, n, p, m, q - 1, now + COOLDOWN, k, free)
  {
    HoursGrow(now, now);
  }

  /** The strikes of the hour that owed no cooldown: the first two, and two more for every time
      the strikes were forgotten. */
  function Free(stamp: Stamp, s: State, ip: string, h: nat, times: nat): nat {
    2 * times + Min(Recorded(stamp, s, ip, h), 2)
  }

  predicate RoundsWith(s: State, ip: string, k: nat, free: nat) {
    var h := s.now / HOUR;
    Rounds(s.now, AllWrongs(s.wrongs, ip, h), |Open(s, ip)|, |Uncounted(s, ip, h)|, |Owing(s, ip)|, Lapse(s, ip), k, free)
  }

  predicate RoundsOk(stamp: Stamp, s: State, ip: string, k: nat, times: nat) {
    RoundsWith(s, ip, k, Free(stamp, s, ip, s.now / HOUR, times))
  }

  /** What holds for hour h, `times` being how often its strikes were forgotten so far. */
  ghost predicate Inv(stamp: Stamp, s: State, ip: string, k: nat, h: nat, times: nat) {
    && DoorOk(s, ip) && |Seated(s, ip)| <= k
    && (forall i :: 0 <= i < |s.wrongs| ==> s.wrongs[i].at <= s.now)
    && (s.now / HOUR == h ==> RoundsOk(stamp, s, ip, k, times))
    && (s.now / HOUR > h ==> AllWrongs(s.wrongs, ip, h) <= 2 + 2 * k + 2 * times)
  }

  lemma SeatsAddUp(s: State, ip: string, h: nat)
    ensures |Open(s, ip)| + |Uncounted(s, ip, h)| + |Owing(s, ip)| <= |Seated(s, ip)|
  {
    var open, uncounted, owing := Open(s, ip), Uncounted(s, ip, h), Owing(s, ip);
    assert open !! uncounted && open + uncounted !! owing;
    assert |open + uncounted + owing| == |open| + |uncounted| + |owing|;
    SubsetSize(open + uncounted + owing, Seated(s, ip));
  }

  /** A seat of this address changes hands. */
  lemma SeatTaken(s: State, t: State, conn: nat, ip: string, h: nat)
    requires conn !in s.seats && t.seats == s.seats[conn := Solving(ip)]
    ensures |Open(t, ip)| == |Open(s, ip)| + 1 && Uncounted(t, ip, h) == Uncounted(s, ip, h) && Owing(t, ip) == Owing(s, ip)
  {
    assert Open(t, ip) == Open(s, ip) + {conn};
  }

  lemma SeatAnswered(s: State, t: State, conn: nat, ip: string, h: nat)
    requires conn in s.seats && s.seats[conn] == Solving(ip) && t.seats == s.seats[conn := Counting(ip, h)]
    ensures |Open(t, ip)| == |Open(s, ip)| - 1 && |Uncounted(t, ip, h)| == |Uncounted(s, ip, h)| + 1
    ensures Owing(t, ip) == Owing(s, ip)
  {
    assert Open(t, ip) == Open(s, ip) - {conn};
    assert Uncounted(t, ip, h) == Uncounted(s, ip, h) + {conn};
  }

  lemma SeatCounted(s: State, t: State, conn: nat, ip: string, g: nat, n: nat, h: nat)
    requires conn in s.seats && s.seats[conn] == Counting(ip, g) && t.seats == s.seats[conn := Arming(ip, n)]
    ensures Open(t, ip) == Open(s, ip)
    ensures |Uncounted(t, ip, h)| == if g == h then |Uncounted(s, ip, h)| - 1 else |Uncounted(s, ip, h)|
    ensures |Owing(t, ip)| == if n >= STRIKE_LIMIT then |Owing(s, ip)| + 1 else |Owing(s, ip)|
  {
    assert Open(t, ip) == Open(s, ip);
    assert Uncounted(t, ip, h) == if g == h then Uncounted(s, ip, h) - {conn} else Uncounted(s, ip, h);
    assert Owing(t, ip) == if n >= STRIKE_LIMIT then Owing(s, ip) + {conn} else Owing(s, ip);
  }

  lemma SeatArmed(s: State, t: State, conn: nat, ip: string, n: nat, h: nat)
    requires conn in s.seats && s.seats[conn] == Arming(ip, n) && t.seats == s.seats - {conn}
    ensures Open(t, ip) == Open(s, ip) && Uncounted(t, ip, h) == Uncounted(s, ip, h)
    ensures |Owing(t, ip)| == if n >= STRIKE_LIMIT then |Owing(s, ip)| - 1 else |Owing(s, ip)|
  {
    assert Open(t, ip) == Open(s, ip);
    assert Uncounted(t, ip, h) == Uncounted(s, ip, h);
    assert Owing(t, ip) == if n >= STRIKE_LIMIT then Owing(s, ip) - {conn} else Owing(s, ip);
  }

  lemma SeatLeft(s: State, t: State, conn: nat, ip: string, h: nat)
    requires conn in s.seats && s.seats[conn] == Solving(ip) && t.seats == s.seats - {conn}
    ensures |Open(t, ip)| <= |Open(s, ip)| && Uncounted(t, ip, h) == Uncounted(s, ip, h) && Owing(t, ip) == Owing(s, ip)
  {
    SubsetSize(Open(t, ip), Open(s, ip));
    assert Uncounted(t, ip, h) == Uncounted(s, ip, h);
    assert Owing(t, ip) == Owing(s, ip);
  }

  /** Seats of other addresses do not matter. */
  lemma OtherSeat(s: State, t: State, ip: string, h: nat)
    requires forall c :: (c in s.seats && s.seats[c].ip == ip) || (c in t.seats && t.seats[c].ip == ip) ==>
               c in s.seats && c in t.seats && s.seats[c] == t.seats[c]
    ensures Open(t, ip) == Open(s, ip) && Uncounted(t, ip, h) == Uncounted(s, ip, h) && Owing(t, ip) == Owing(s, ip)
  {
    assert Open(t, ip) == Open(s, ip);
    assert Uncounted(t, ip, h) == Uncounted(s, ip, h);
    assert Owing(t, ip) == Owing(s, ip);
  }

  lemma DoorStep(stamp: Stamp, s: State, e: Event, ip: string)
    requires DoorOk(s, ip) && Enabled(s, e)
    ensures DoorOk(Next(stamp, s, e), ip)
  {}

  /** The record of this address and hour after a count: one more of its own, nothing if a call
      with another stamp trimmed the map, and else what it was. */
  lemma RecordAfter(stamp: Stamp, s: State, conn: nat, ip: string, h: nat)
    requires ColonFree(stamp) && Enabled(s, Register(conn))
    ensures var t, seat := Next(stamp, s, Register(conn)), s.seats[conn];
            Recorded(stamp, t, ip, h) ==
            if stamp(seat.hour) != stamp(h) && Trims(s.strikes, StrikeKey(stamp, seat.ip, seat.hour)) then 0
            else Recorded(stamp, s, ip, h) + (if seat.ip == ip && stamp(seat.hour) == stamp(h) then 1 else 0)
  {
    var seat := s.seats[conn];
    BumpCountsExactly(s.strikes, "chstrike:", seat.ip, stamp(seat.hour), ip, stamp(h));
  }

  /** Whatever is counted, trimmed or forgotten, the free strikes only grow, and by one for an own
      strike of the hour that owes no cooldown. */
  lemma FreeGrows(stamp: Stamp, s: State, conn: nat, ip: string, h: nat, times: nat, times': nat)
    requires ColonFree(stamp) && Enabled(s, Register(conn)) && s.now / HOUR == h
    requires times' == times + if Forgets(stamp, s, Register(conn), ip, h) then 1 else 0
    ensures Free(stamp, Next(stamp, s, Register(conn)), ip, h, times') >=
            Free(stamp, s, ip, h, times) + (if s.seats[conn] == Counting(ip, h) && Recorded(stamp, s, ip, h) < 2 then 1 else 0)
  {
    RecordAfter(stamp, s, conn, ip, h);
  }

  lemma RegisterOfTheHour(stamp: Stamp, s: State, t: State, conn: nat, ip: string, k: nat, free: nat, free': nat)
    requires Enabled(s, Register(conn)) && s.seats[conn] == Counting(ip, s.now / HOUR) && t == Next(stamp, s, Register(conn))
    requires RoundsWith(s, ip, k, free)
    requires free' >= free + if Recorded(stamp, s, ip, s.now / HOUR) < 2 then 1 else 0
    ensures RoundsWith(t, ip, k, free')
  {
    var h := s.now / HOUR;
    var number := Recorded(stamp, s, ip, h) + 1;
    SeatCounted(s, t, conn, ip, h, number, h);
    assert conn in Uncounted(s, ip, h);
    RoundsOnStrike(s.now, AllWrongs(s.wrongs, ip, h), |Open(s, ip)|, |Uncounted(s, ip, h)|, |Owing(s, ip)|, Lapse(s, ip), k,
                   free, free', number >= STRIKE_LIMIT);
  }

  /** An own strike that read an earlier hour may owe a cooldown as well. */
  lemma RegisterOverdue(stamp: Stamp, s: State, t: State, conn: nat, ip: string, g: nat, k: nat, free: nat, free': nat)
    requires Enabled(s, Register(conn)) && s.seats[conn] == Counting(ip, g) && t == Next(stamp, s, Register(conn))
    requires RoundsWith(s, ip, k, free) && g != s.now / HOUR && free <= free'
    ensures RoundsWith(t, ip, k, free')
  {
    var h := s.now / HOUR;
    SeatCounted(s, t, conn, ip, g, Recorded(stamp, s, ip, g) + 1, h);
    var n, p, m, q := AllWrongs(s.wrongs, ip, h), |Open(s, ip)|, |Uncounted(s, ip, h)|, |Owing(s, ip)|;
    RoundsGrow(s.now, n, p, p, m, q, |Owing(t, ip)|, Lapse(s, ip), k, free, free');
  }

  lemma RegisterOther(stamp: Stamp, s: State, t: State, conn: nat, ip: string, k: nat, free: nat, free': nat)
    requires Enabled(s, Register(conn)) && s.seats[conn].ip != ip && t == Next(stamp, s, Register(conn))
    requires RoundsWith(s, ip, k, free) && free <= free'
    ensures RoundsWith(t, ip, k, free')
  {
    var h := s.now / HOUR;
    OtherSeat(s, t, ip, h);
    var n, p, m, q := AllWrongs(s.wrongs, ip, h), |Open(s, ip)|, |Uncounted(s, ip, h)|, |Owing(s, ip)|;
    RoundsGrow(s.now, n, p, p, m, q, q, Lapse(s, ip), k, free, free');
  }

  lemma OwnSeatStep(stamp: Stamp, s: State, e: Event, ip: string, k: nat, free: nat)
    requires RoundsWith(s, ip, k, free) && DoorOk(s, ip) && |Seated(s, ip)| <= k
    requires Enabled(s, e) && !e.Tick? && !e.Register?
    requires if e.Check? then e.ip == ip else s.seats[e.conn].ip == ip
    ensures RoundsWith(Next(stamp, s, e), ip, k, free)
  {
    var t, h := Next(stamp, s, e), s.now / HOUR;
    var n, p, m, q := AllWrongs(s.wrongs, ip, h), |Open(s, ip)|, |Uncounted(s, ip, h)|, |Owing(s, ip)|;
    SeatsAddUp(s, ip, h);
    if e.Check? {
      if Cooling(s.cooldown, ip, s.now) {
        OtherSeat(s, t, ip, h);
      } else {
        SeatTaken(s, t, e.conn, ip, h);
        RoundsOnCheck(s.now, n, p, m, q, Lapse(s, ip), k, free);
      }
    } else if e.Answer? {
      Snoc(s.wrongs, Wrong(ip, s.now), ip, h);
      assert e.conn in Open(s, ip);
      SeatAnswered(s, t, e.conn, ip, h);
      RoundsOnAnswer(s.now, n, p, m, q, Lapse(s, ip), k, free);
    } else if e.Arm? {
      SeatArmed(s, t, e.conn, ip, s.seats[e.conn].strikes, h);
      if s.seats[e.conn].strikes >= STRIKE_LIMIT {
        assert e.conn in Owing(s, ip);
        RoundsOnArm(s.now, n, p, m, q, Lapse(s, ip), k, free);
      }
    } else {
      SeatLeft(s, t, e.conn, ip, h);
      RoundsGrow(s.now, n, p, |Open(t, ip)|, m, q, q, Lapse(s, ip), k, free, free);
    }
  }

  lemma OtherWrongs(stamp: Stamp, s: State, e: Event, ip: string, h: nat)
    requires Enabled(s, e) && (e.Answer? ==> s.seats[e.conn].ip != ip)
    ensures AllWrongs(Next(stamp, s, e).wrongs, ip, h) == AllWrongs(s.wrongs, ip, h)
  {
    if e.Answer? {
      Snoc(s.wrongs, Wrong(s.seats[e.conn].ip, s.now), ip, h);
    }
  }

  lemma OtherSeatStep(stamp: Stamp, s: State, e: Event, ip: string, k: nat, free: nat)
    requires RoundsWith(s, ip, k, free) && Enabled(s, e) && !e.Tick? && !e.Register?
    requires if e.Check? then e.ip != ip else s.seats[e.conn].ip != ip
    ensures RoundsWith(Next(stamp, s, e), ip, k, free)
  {
    var t := Next(stamp, s, e);
    OtherWrongs(stamp, s, e, ip, s.now / HOUR);
    OtherSeat(s, t, ip, s.now / HOUR);
  }

  /** A step within the hour. */
  lemma RoundsStep(stamp: Stamp, s: State, e: Event, ip: string, k: nat, times: nat, times': nat)
    requires ColonFree(stamp) && RoundsOk(stamp, s, ip, k, times) && DoorOk(s, ip) && |Seated(s, ip)| <= k
    requires Enabled(s, e) && !e.Tick? && times' == times + if Forgets(stamp, s, e, ip, s.now / HOUR) then 1 else 0
    ensures RoundsOk(stamp, Next(stamp, s, e), ip, k, times')
  {
    var t, h := Next(stamp, s, e), s.now / HOUR;
    var free, free' := Free(stamp, s, ip, h, times), Free(stamp, t, ip, h, times');
    if e.Register? {
      FreeGrows(stamp, s, e.conn, ip, h, times, times');
      if s.seats[e.conn] == Counting(ip, h) {
        RegisterOfTheHour(stamp, s, t, e.conn, ip, k, free, free');
      } else if s.seats[e.conn].ip == ip {
        RegisterOverdue(stamp, s, t, e.conn, ip, s.seats[e.conn].hour, k, free, free');
      } else {
        RegisterOther(stamp, s, t, e.conn, ip, k, free, free');
      }
    } else if (if e.Check? then e.ip == ip else s.seats[e.conn].ip == ip) {
      OwnSeatStep(stamp, s, e, ip, k, free);
    } else {
      OtherSeatStep(stamp, s, e, ip, k, free);
    }
  }

  /** Time passes: into the hour, within it, or out of it. */
  lemma TickStep(stamp: Stamp, s: State, e: Event, ip: string, k: nat, h: nat, times: nat)
    requires Inv(stamp, s, ip, k, h, times) && Enabled(s, e) && e.Tick?
    ensures Inv(stamp, Next(stamp, s, e), ip, k, h, times)
  {
    var t := Next(stamp, s, e);
    HoursGrow(s.now, t.now);
    OtherSeat(s, t, ip, h);
    assert Seated(t, ip) == Seated(s, ip);
    SeatsAddUp(s, ip, h);
    if s.now / HOUR < h {
      NoFutureWrongs(s.wrongs, |s.wrongs|, ip, s.now, h);
    } else if s.now / HOUR == h {
      var n, p, m, q := AllWrongs(s.wrongs, ip, h), |Open(s, ip)|, |Uncounted(s, ip, h)|, |Owing(s, ip)|;
      var free := Free(stamp, s, ip, h, times);
      RoundsBound(s.now, n, p, m, q, Lapse(s, ip), k, free);
      if t.now / HOUR == h {
        RoundsOnTick(s.now, t.now, n, p, m, q, Lapse(s, ip), k, free);
      }
    }
  }

  lemma InvStep(stamp: Stamp, s: State, e: Event, ip: string, k: nat, h: nat, times: nat, times': nat)
    requires ColonFree(stamp) && Inv(stamp, s, ip, k, h, times) && Enabled(s, e)
    requires |Seated(Next(stamp, s, e), ip)| <= k && times' == times + if Forgets(stamp, s, e, ip, h) then 1 else 0
    ensures Inv(stamp, Next(stamp, s, e), ip, k, h, times')
  {
    DoorStep(stamp, s, e, ip);
    if e.Tick? {
      TickStep(stamp, s, e, ip, k, h, times);
    } else if s.now / HOUR == h {
      RoundsStep(stamp, s, e, ip, k, times, times');
    } else if e.Answer? {
      Snoc(s.wrongs, Wrong(s.seats[e.conn].ip, s.now), ip, h);
    }
  }

  lemma {:induction false} InvRun(stamp: Stamp, s: State, es: seq<Event>, ip: string, k: nat, h: nat, times: nat)
    requires ColonFree(stamp) && Inv(stamp, s, ip, k, h, times)
    requires ValidRun(stamp, s, es) && SideBySide(stamp, s, es, ip, k)
    ensures Inv(stamp, After(stamp, s, es), ip, k, h, times + TimesForgotten(stamp, s, es, ip, h))
    decreases |es|
  {
    if es != [] {
      var t := Next(stamp, s, es[0]);
      var times' := times + if Forgets(stamp, s, es[0], ip, h) then 1 else 0;
      InvStep(stamp, s, es[0], ip, k, h, times, times');
      InvRun(stamp, t, es[1..], ip, k, h, times');
    }
  }

  lemma InitOk(stamp: Stamp, start: nat, ip: string, k: nat, h: nat)
    ensures Inv(stamp, Init(start), ip, k, h, 0)
  {
    assert Seated(Init(start), ip) == {};
  }

  lemma InvBounds(stamp: Stamp, s: State, ip: string, k: nat, h: nat, times: nat)
    requires Inv(stamp, s, ip, k, h, times)
    ensures AllWrongs(s.wrongs, ip, h) <= 2 + 2 * k + 2 * times
  {
    if s.now / HOUR == h {
      SeatsAddUp(s, ip, h);
      RoundsBound(s.now, AllWrongs(s.wrongs, ip, h), |Open(s, ip)|, |Uncounted(s, ip, h)|, |Owing(s, ip)|, Lapse(s, ip), k,
                  Free(stamp, s, ip, h, times));
    } else if s.now / HOUR < h {
      NoFutureWrongs(s.wrongs, |s.wrongs|, ip, s.now, h);
    }
  }

  /** Main result, for every run: with at most k handshakes of an address side by side, a clock hour
      sees at most 2 + 2k wrong well-formed answers from it, and two more for every time a call with
      an overtaken hour trims its strikes away, whatever all other addresses do. */
  lemma WrongAnswersPerHour(stamp: Stamp, start: nat, es: seq<Event>, ip: string, k: nat, h: nat)
    requires ColonFree(stamp)
    requires ValidRun(stamp, Init(start), es) && SideBySide(stamp, Init(start), es, ip, k)
    ensures AllWrongs(After(stamp, Init(start), es).wrongs, ip, h) <=
            2 + 2 * k + 2 * TimesForgotten(stamp, Init(start), es, ip, h)
  {
    InitOk(stamp, start, ip, k, h);
    InvRun(stamp, Init(start), es, ip, k, h, 0);
    InvBounds(stamp, After(stamp, Init(start), es), ip, k, h, TimesForgotten(stamp, Init(start), es, ip, h));
  }

  /** One handshake after another and nothing forgotten: at most four. */
  lemma AtMostFourWrongPerHour(stamp: Stamp, start: nat, es: seq<Event>, ip: string, h: nat)
    requires ColonFree(stamp)
    requires ValidRun(stamp, Init(start), es) && SideBySide(stamp, Init(start), es, ip, 1)
    requires TimesForgotten(stamp, Init(start), es, ip, h) == 0
    ensures AllWrongs(After(stamp, Init(start), es).wrongs, ip, h) <= 4
  {
    WrongAnswersPerHour(stamp, start, es, ip, 1, h);
  }
}
