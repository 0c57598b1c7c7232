/** Runs that reach the bound on wrong answers: address "x" answers wrongly in hour one while calls of
    address "o", which read hour zero, wait for the lock. Each of them, once other addresses have
    filled the map, trims the strikes of "x" away, and "x" has two more answers free. */
module StrikeRuns {
  import opened Counters
  import opened Strikes

  // ---- Building runs ----------------------------------------------------------------------

  /** A run from s to t with at most k handshakes of "x" side by side, in which its strikes of hour
      one are forgotten f times. */
  predicate Reaches(stamp: Stamp, k: nat, s: State, es: seq<Event>, t: State, f: nat) {
    && ValidRun(stamp, s, es) && SideBySide(stamp, s, es, "x", k)
    && After(stamp, s, es) == t && TimesForgotten(stamp, s, es, "x", 1) == f
  }

  lemma Stay(stamp: Stamp, k: nat, s: State)
    requires |Seated(s, "x")| <= k
    ensures Reaches(stamp, k, s, [], s, 0)
  {}

  lemma Step(stamp: Stamp, k: nat, s: State, e: Event, t: State)
    requires Enabled(s, e) && Next(stamp, s, e) == t && |Seated(s, "x")| <= k && |Seated(t, "x")| <= k
    ensures Reaches(stamp, k, s, [e], t, if Forgets(stamp, s, e, "x", 1) then 1 else 0)
  {
    Stay(stamp, k, t);
    assert [e][1..] == [];
  }

  lemma {:induction false} Join(stamp: Stamp, k: nat, s: State, es: seq<Event>, t: State, f: nat, fs: seq<Event>, u: State, g: nat)
    requires Reaches(stamp, k, s, es, t, f) && Reaches(stamp, k, t, fs, u, g)
    ensures Reaches(stamp, k, s, es + fs, u, f + g)
    decreases |es|
  {
    if es == [] {
      assert es + fs == fs;
    } else {
      var next := Next(stamp, s, es[0]);
      var rest := TimesForgotten(stamp, next, es[1..], "x", 1);
      Join(stamp, k, next, es[1..], t, rest, fs, u, g);
      assert (es + fs)[1..] == es[1..] + fs;
    }
  }

  // ---- The states on the way -----------------------------------------------------------------

  /** Connections below n solve puzzles of "x"; those after k up to k + t hold hour zero for "o". */
  function Seating(n: nat, k: nat, t: nat): (m: map<nat, Seat>)
    requires n <= k
    ensures forall c: nat :: c in m <==> c < n || k < c <= k + t
    ensures forall c: nat :: c in m ==> m[c] == if c < n then Solving("x") else Counting("o", 0)
    decreases n, t
  {
    if n > 0 then Seating(n - 1, k, t)[n - 1 := Solving("x")]
    else if t > 0 then Seating(0, k, t - 1)[k + t := Counting("o", 0)]
    else map[]
  }

  function Below(n: nat): (s: set<nat>)
    ensures |s| == n && forall c: nat :: c in s <==> c < n
  {
    if n == 0 then {} else Below(n - 1) + {n - 1}
  }

  /** Those of "x" are the connections below n, whatever sits elsewhere. */
  lemma SeatedSize(s: State, n: nat)
    requires forall c :: c in s.seats && s.seats[c].ip == "x" <==> 0 <= c < n
    ensures |Seated(s, "x")| == n
  {
    assert Seated(s, "x") == Below(n);
  }

  lemma SeatingSize(s: State, n: nat, k: nat, t: nat)
    requires n <= k && s.seats == Seating(n, k, t)
    ensures |Seated(s, "x")| == n
  {
    SeatedSize(s, n);
  }

  /** In hour one, n puzzles open, t stale calls waiting, v strikes of "x" on record after w wrong
      answers, and no cooldown but one of "x" of at most 30 minutes. */
  predicate Ready(stamp: Stamp, k: nat, s: State, n: nat, t: nat, v: nat, w: nat) {
    && n <= k && s.now / HOUR == 1 && s.seats == Seating(n, k, t)
    && AllWrongs(s.wrongs, "x", 1) == w && Recorded(stamp, s, "x", 1) == v
    && (if v < STRIKE_LIMIT then s.cooldown == map[] else "x" in s.cooldown ==> s.cooldown["x"] <= s.now + COOLDOWN)
    && |s.strikes| <= if v == 0 then 1 else 2
  }

  // ---- Wrong answers of "x" --------------------------------------------------------------------

  lemma {:induction false} OpenMany(stamp: Stamp, k: nat, s: State, n: nat, m: nat, t: nat, v: nat, w: nat)
    returns (es: seq<Event>, u: State)
    requires Ready(stamp, k, s, n, t, v, w) && n <= m <= k && !Cooling(s.cooldown, "x", s.now)
    ensures Ready(stamp, k, u, m, t, v, w) && u.now == s.now && Reaches(stamp, k, s, es, u, 0)
    decreases m - n
  {
    SeatingSize(s, n, k, t);
    if n == m {
      es, u := [], s;
      Stay(stamp, k, s);
    } else {
      var next := Next(stamp, s, Check(n, "x"));
      assert next.seats == Seating(n + 1, k, t);
      SeatingSize(next, n + 1, k, t);
      Step(stamp, k, s, Check(n, "x"), next);
      var rest;
      rest, u := OpenMany(stamp, k, next, n + 1, m, t, v, w);
      Join(stamp, k, s, [Check(n, "x")], next, 0, rest, u, 0);
      es := [Check(n, "x")] + rest;
    }
  }

  /** Rejected, the hour read. */
  lemma AnswerStep(stamp: Stamp, k: nat, s: State, c: nat, t: nat, v: nat, w: nat) returns (u: State)
    requires Ready(stamp, k, s, c + 1, t, v, w)
    ensures Reaches(stamp, k, s, [Answer(c)], u, 0)
    ensures u == s.(seats := Seating(c + 1, k, t)[c := Counting("x", 1)], wrongs := s.wrongs + [Wrong("x", s.now)])
  {
    u := Next(stamp, s, Answer(c));
    SeatingSize(s, c + 1, k, t);
    SeatedSize(u, c + 1);
    Step(stamp, k, s, Answer(c), u);
  }

  lemma StrikeOfX(stamp: Stamp, m: map<string, nat>, v: nat)
    requires Count(m, StrikeKey(stamp, "x", 1)) == v && |m| <= if v == 0 then 1 else 2
    ensures var key := StrikeKey(stamp, "x", 1);
            Bumped(m, key, stamp(1)) == m[key := v + 1] && |m[key := v + 1]| <= 2
  {
    var key := StrikeKey(stamp, "x", 1);
    assert m[key := v + 1].Keys == m.Keys + {key};
    assert v > 0 ==> key in m.Keys && m.Keys + {key} == m.Keys;
  }

  lemma RegisterStep(stamp: Stamp, k: nat, s: State, c: nat, t: nat, v: nat) returns (u: State)
    requires c < k && s.seats == Seating(c + 1, k, t)[c := Counting("x", 1)] && s.now / HOUR == 1
    requires Recorded(stamp, s, "x", 1) == v && |s.strikes| <= if v == 0 then 1 else 2
    ensures Reaches(stamp, k, s, [Register(c)], u, 0)
    ensures u == s.(seats := Seating(c + 1, k, t)[c := Arming("x", v + 1)],
                    strikes := s.strikes[StrikeKey(stamp, "x", 1) := v + 1])
    ensures |u.strikes| <= 2
  {
    u := Next(stamp, s, Register(c));
    StrikeOfX(stamp, s.strikes, v);
    SeatedSize(s, c + 1);
    SeatedSize(u, c + 1);
    Step(stamp, k, s, Register(c), u);
  }

  lemma ArmStep(stamp: Stamp, k: nat, s: State, c: nat, t: nat, n: nat) returns (u: State)
    requires c < k && s.seats == Seating(c + 1, k, t)[c := Arming("x", n)]
    ensures Reaches(stamp, k, s, [Arm(c)], u, 0)
    ensures u.seats == Seating(c, k, t) && u.now == s.now && u.strikes == s.strikes && u.wrongs == s.wrongs
    ensures u.cooldown == Punished(s.cooldown, "x", n, s.now)
  {
    u := Next(stamp, s, Arm(c));
    assert u.seats == Seating(c, k, t);
    SeatedSize(s, c + 1);
    SeatingSize(u, c, k, t);
    Step(stamp, k, s, Arm(c), u);
  }

  lemma AnswerOne(stamp: Stamp, k: nat, s: State, c: nat, t: nat, v: nat, w: nat) returns (es: seq<Event>, u: State)
    requires Ready(stamp, k, s, c + 1, t, v, w)
    ensures Ready(stamp, k, u, c, t, v + 1, w + 1) && u.now == s.now && Reaches(stamp, k, s, es, u, 0)
  {
    Snoc(s.wrongs, Wrong("x", s.now), "x", 1);
    var s1 := AnswerStep(stamp, k, s, c, t, v, w);
    var s2 := RegisterStep(stamp, k, s1, c, t, v);
    Join(stamp, k, s, [Answer(c)], s1, 0, [Register(c)], s2, 0);
    u := ArmStep(stamp, k, s2, c, t, v + 1);
    Join(stamp, k, s, [Answer(c)] + [Register(c)], s2, 0, [Arm(c)], u, 0);
    es := [Answer(c)] + [Register(c)] + [Arm(c)];
  }

  lemma {:induction false} AnswerMany(stamp: Stamp, k: nat, s: State, n: nat, t: nat, v: nat, w: nat)
    returns (es: seq<Event>, u: State)
    requires Ready(stamp, k, s, n, t, v, w)
    ensures Ready(stamp, k, u, 0, t, v + n, w + n) && u.now == s.now && Reaches(stamp, k, s, es, u, 0)
    decreases n
  {
    if n == 0 {
      es, u := [], s;
      SeatingSize(s, 0, k, t);
      Stay(stamp, k, s);
    } else {
      var one, mid := AnswerOne(stamp, k, s, n - 1, t, v, w);
      var rest;
      rest, u := AnswerMany(stamp, k, mid, n - 1, t, v + 1, w + 1);
      Join(stamp, k, s, one, mid, 0, rest, u, 0);
      es := one + rest;
    }
  }

  /** A batch of n wrong answers, all opened before the first of them fails. */
  lemma Batch(stamp: Stamp, k: nat, s: State, n: nat, t: nat, v: nat, w: nat) returns (es: seq<Event>, u: State)
    requires Ready(stamp, k, s, 0, t, v, w) && n <= k && !Cooling(s.cooldown, "x", s.now)
    ensures Ready(stamp, k, u, 0, t, v + n, w + n) && u.now == s.now && Reaches(stamp, k, s, es, u, 0)
  {
    var open, mid := OpenMany(stamp, k, s, 0, n, t, v, w);
    var answer;
    answer, u := AnswerMany(stamp, k, mid, n, t, v, w);
    Join(stamp, k, s, open, mid, 0, answer, u, 0);
    es := open + answer;
  }

  // ---- Other addresses fill the map ---------------------------------------------------------------

  /** Connection k, which is neither of "x" nor stale, is at this seat. */
  function With(k: nat, t: nat, seat: Seat): (m: map<nat, Seat>) {
    Seating(0, k, t)[k := seat]
  }

  lemma NobodyOfX(s: State, k: nat, t: nat, seat: Seat)
    requires s.seats == With(k, t, seat) && seat.ip != "x"
    ensures |Seated(s, "x")| == 0
  {
    SeatedSize(s, 0);
  }

  lemma Reseated(k: nat, t: nat, seat: Seat, seat': Seat)
    ensures With(k, t, seat)[k := seat'] == With(k, t, seat') && With(k, t, seat) - {k} == Seating(0, k, t)
  {}

  lemma OtherChecks(stamp: Stamp, k: nat, s: State, t: nat, ip: string) returns (u: State)
    requires s.seats == Seating(0, k, t) && s.cooldown == map[] && ip != "x"
    ensures u == s.(seats := With(k, t, Solving(ip))) && Reaches(stamp, k, s, [Check(k, ip)], u, 0)
  {
    u := s.(seats := With(k, t, Solving(ip)));
    assert Next(stamp, s, Check(k, ip)) == u;
    SeatingSize(s, 0, k, t);
    NobodyOfX(u, k, t, Solving(ip));
    Step(stamp, k, s, Check(k, ip), u);
  }

  lemma OtherAnswers(stamp: Stamp, k: nat, s: State, t: nat, ip: string) returns (u: State)
    requires s.seats == With(k, t, Solving(ip)) && s.now / HOUR == 1 && ip != "x"
    ensures u == s.(seats := With(k, t, Counting(ip, 1)), wrongs := s.wrongs + [Wrong(ip, s.now)])
    ensures Reaches(stamp, k, s, [Answer(k)], u, 0)
  {
    u := Next(stamp, s, Answer(k));
    Reseated(k, t, Solving(ip), Counting(ip, 1));
    NobodyOfX(s, k, t, Solving(ip));
    NobodyOfX(u, k, t, Counting(ip, 1));
    Step(stamp, k, s, Answer(k), u);
  }

  lemma FirstStrike(stamp: Stamp, s: State, c: nat, ip: string)
    requires c in s.seats && s.seats[c] == Counting(ip, 1) && s.now / HOUR == 1 && StrikeKey(stamp, ip, 1) !in s.strikes
    ensures !Forgets(stamp, s, Register(c), "x", 1)
    ensures Next(stamp, s, Register(c)) ==
            s.(seats := s.seats[c := Arming(ip, 1)], strikes := Bumped(s.strikes, StrikeKey(stamp, ip, 1), stamp(1)))
  {}

  lemma OtherRegisters(stamp: Stamp, k: nat, s: State, t: nat, ip: string, u: State)
    requires s.seats == With(k, t, Counting(ip, 1)) && s.now / HOUR == 1 && ip != "x" && StrikeKey(stamp, ip, 1) !in s.strikes
    requires u == s.(seats := With(k, t, Arming(ip, 1)), strikes := Bumped(s.strikes, StrikeKey(stamp, ip, 1), stamp(1)))
    ensures Reaches(stamp, k, s, [Register(k)], u, 0)
  {
    FirstStrike(stamp, s, k, ip);
    Reseated(k, t, Counting(ip, 1), Arming(ip, 1));
    NobodyOfX(s, k, t, Counting(ip, 1));
    NobodyOfX(u, k, t, Arming(ip, 1));
    Step(stamp, k, s, Register(k), u);
  }

  lemma OtherArms(stamp: Stamp, k: nat, s: State, t: nat, ip: string) returns (u: State)
    requires s.seats == With(k, t, Arming(ip, 1)) && ip != "x"
    ensures u == s.(seats := Seating(0, k, t)) && Reaches(stamp, k, s, [Arm(k)], u, 0)
  {
    u := Next(stamp, s, Arm(k));
    Reseated(k, t, Arming(ip, 1), Arming(ip, 1));
    NobodyOfX(s, k, t, Arming(ip, 1));
    SeatingSize(u, 0, k, t);
    Step(stamp, k, s, Arm(k), u);
  }

  /** The first strike of another address: checked, rejected, counted and done. */
  lemma OneOther(stamp: Stamp, k: nat, s: State, t: nat, ip: string) returns (es: seq<Event>, u: State)
    requires s.now / HOUR == 1 && s.seats == Seating(0, k, t) && s.cooldown == map[]
    requires ip != "x" && StrikeKey(stamp, ip, 1) !in s.strikes
    ensures Reaches(stamp, k, s, es, u, 0) && u.now == s.now && u.seats == s.seats && u.cooldown == map[]
    ensures u.strikes == Bumped(s.strikes, StrikeKey(stamp, ip, 1), stamp(1))
    ensures AllWrongs(u.wrongs, "x", 1) == AllWrongs(s.wrongs, "x", 1)
  {
    Snoc(s.wrongs, Wrong(ip, s.now), "x", 1);
    var s1 := OtherChecks(stamp, k, s, t, ip);
    var s2 := OtherAnswers(stamp, k, s1, t, ip);
    Join(stamp, k, s, [Check(k, ip)], s1, 0, [Answer(k)], s2, 0);
    var s3 := s2.(seats := With(k, t, Arming(ip, 1)), strikes := Bumped(s.strikes, StrikeKey(stamp, ip, 1), stamp(1)));
    OtherRegisters(stamp, k, s2, t, ip, s3);
    Join(stamp, k, s, [Check(k, ip)] + [Answer(k)], s2, 0, [Register(k)], s3, 0);
    u := OtherArms(stamp, k, s3, t, ip);
    Join(stamp, k, s, [Check(k, ip)] + [Answer(k)] + [Register(k)], s3, 0, [Arm(k)], u, 0);
    es := [Check(k, ip)] + [Answer(k)] + [Register(k)] + [Arm(k)];
  }

  lemma {:induction false} ManyOthers(stamp: Stamp, k: nat, s: State, t: nat, ips: seq<string>)
    returns (es: seq<Event>, u: State)
    requires s.now / HOUR == 1 && s.seats == Seating(0, k, t) && s.cooldown == map[]
    requires "x" !in ips && AllNew(s.strikes, "chstrike:", ips, stamp(1))
    ensures Reaches(stamp, k, s, es, u, 0) && u.now == s.now && u.seats == s.seats && u.cooldown == map[]
    ensures u.strikes == BumpedBy(s.strikes, "chstrike:", ips, stamp(1))
    ensures AllWrongs(u.wrongs, "x", 1) == AllWrongs(s.wrongs, "x", 1)
    decreases |ips|
  {
    if ips == [] {
      es, u := [], s;
      SeatingSize(s, 0, k, t);
      Stay(stamp, k, s);
    } else {
      var one, mid := OneOther(stamp, k, s, t, ips[0]);
      var rest;
      rest, u := ManyOthers(stamp, k, mid, t, ips[1..]);
      Join(stamp, k, s, one, mid, 0, rest, u, 0);
      es := one + rest;
    }
  }

  // ---- A stale call forgets the strikes of "x" --------------------------------------------------------

  /** A stale call that finds the map full forgets the strikes of "x" and is its address's first. */
  lemma StaleEffect(stamp: Stamp, s: State, c: nat)
    requires IsStamp(stamp) && c in s.seats && s.seats[c] == Counting("o", 0)
    requires s.now / HOUR == 1 && Recorded(stamp, s, "x", 1) > 0
    requires |s.strikes| == TRIM_ABOVE && forall key :: key in s.strikes ==> Current(key, stamp(1))
    ensures Forgets(stamp, s, Register(c), "x", 1)
    ensures var u := Next(stamp, s, Register(c));
            && u == s.(seats := s.seats[c := Arming("o", 1)], strikes := u.strikes)
            && |u.strikes| == 1 && Recorded(stamp, u, "x", 1) == 0
  {
    assert stamp(0) != stamp(1);
    StaleCallForgets(s.strikes, "chstrike:", "o", stamp(0), stamp(1));
    RecordAfter(stamp, s, c, "x", 1);
  }

  lemma StaleRegister(stamp: Stamp, k: nat, s: State, t: nat) returns (u: State)
    requires IsStamp(stamp) && t > 0
    requires s.now / HOUR == 1 && s.seats == Seating(0, k, t) && Recorded(stamp, s, "x", 1) > 0
    requires |s.strikes| == TRIM_ABOVE && forall key :: key in s.strikes ==> Current(key, stamp(1))
    ensures Reaches(stamp, k, s, [Register(k + t)], u, 1)
    ensures u == s.(seats := s.seats[k + t := Arming("o", 1)], strikes := u.strikes)
    ensures |u.strikes| == 1 && Recorded(stamp, u, "x", 1) == 0
  {
    StaleEffect(stamp, s, k + t);
    u := Next(stamp, s, Register(k + t));
    SeatedSize(s, 0);
    SeatedSize(u, 0);
    Step(stamp, k, s, Register(k + t), u);
  }

  lemma StaleArm(stamp: Stamp, k: nat, s: State, t: nat) returns (u: State)
    requires t > 0 && s.seats == Seating(0, k, t)[k + t := Arming("o", 1)]
    ensures Reaches(stamp, k, s, [Arm(k + t)], u, 0) && u == s.(seats := Seating(0, k, t - 1))
  {
    u := Next(stamp, s, Arm(k + t));
    assert u.seats == Seating(0, k, t - 1);
    SeatedSize(s, 0);
    SeatedSize(u, 0);
    Step(stamp, k, s, Arm(k + t), u);
  }

  /** The stale call is counted: the strikes of "x" are gone. */
  lemma StaleCall(stamp: Stamp, k: nat, s: State, t: nat) returns (es: seq<Event>, u: State)
    requires IsStamp(stamp) && t > 0
    requires s.now / HOUR == 1 && s.seats == Seating(0, k, t) && s.cooldown == map[] && Recorded(stamp, s, "x", 1) > 0
    requires |s.strikes| == TRIM_ABOVE && forall key :: key in s.strikes ==> Current(key, stamp(1))
    ensures Reaches(stamp, k, s, es, u, 1)
    ensures Ready(stamp, k, u, 0, t - 1, 0, AllWrongs(s.wrongs, "x", 1)) && u.now == s.now
  {
    var mid := StaleRegister(stamp, k, s, t);
    u := StaleArm(stamp, k, mid, t);
    Join(stamp, k, s, [Register(k + t)], mid, 1, [Arm(k + t)], u, 0);
    es := [Register(k + t)] + [Arm(k + t)];
  }

  /** Two wrong answers for free, one after the other. */
  lemma TwoFree(stamp: Stamp, k: nat, s: State, t: nat, w: nat) returns (es: seq<Event>, u: State)
    requires k > 0 && Ready(stamp, k, s, 0, t, 0, w)
    ensures Ready(stamp, k, u, 0, t, 2, w + 2) && u.now == s.now && Reaches(stamp, k, s, es, u, 0)
  {
    var one, mid := Batch(stamp, k, s, 1, t, 0, w);
    var two;
    two, u := Batch(stamp, k, mid, 1, t, 1, w + 1);
    Join(stamp, k, s, one, mid, 0, two, u, 0);
    es := one + two;
  }

  /** Enough other addresses to fill the map. */
  lemma Crowd(stamp: Stamp, k: nat, s: State, t: nat, w: nat) returns (es: seq<Event>, u: State)
    requires ColonFree(stamp) && Ready(stamp, k, s, 0, t, 2, w)
    ensures Reaches(stamp, k, s, es, u, 0) && u.now == s.now && u.seats == s.seats && u.cooldown == map[]
    ensures AllWrongs(u.wrongs, "x", 1) == w && Recorded(stamp, u, "x", 1) == 2
    ensures |u.strikes| == TRIM_ABOVE && forall key :: key in u.strikes ==> Current(key, stamp(1))
  {
    var ips := FillUp(s.strikes, "chstrike:", stamp(1), "x");
    es, u := ManyOthers(stamp, k, s, t, ips);
  }

  /** Two wrong answers for free, and a stale call that forgets them. */
  lemma TwoForgotten(stamp: Stamp, k: nat, s: State, t: nat, w: nat) returns (es: seq<Event>, u: State)
    requires IsStamp(stamp) && k > 0 && t > 0 && Ready(stamp, k, s, 0, t, 0, w)
    ensures Ready(stamp, k, u, 0, t - 1, 0, w + 2) && u.now == s.now && Reaches(stamp, k, s, es, u, 1)
  {
    var two, s2 := TwoFree(stamp, k, s, t, w);
    var fill, s3 := Crowd(stamp, k, s2, t, w + 2);
    Join(stamp, k, s, two, s2, 0, fill, s3, 0);
    var stale;
    stale, u := StaleCall(stamp, k, s3, t);
    Join(stamp, k, s, two + fill, s3, 0, stale, u, 1);
    es := two + fill + stale;
  }

  lemma {:induction false} ManyForgotten(stamp: Stamp, k: nat, s: State, t: nat, w: nat)
    returns (es: seq<Event>, u: State)
    requires IsStamp(stamp) && k > 0 && Ready(stamp, k, s, 0, t, 0, w)
    ensures Ready(stamp, k, u, 0, 0, 0, w + 2 * t) && u.now == s.now && Reaches(stamp, k, s, es, u, t)
    decreases t
  {
    if t == 0 {
      es, u := [], s;
      SeatingSize(s, 0, k, 0);
      Stay(stamp, k, s);
    } else {
      var one, mid := TwoForgotten(stamp, k, s, t, w);
      var rest;
      rest, u := ManyForgotten(stamp, k, mid, t - 1, w + 2);
      Join(stamp, k, s, one, mid, 1, rest, u, t - 1);
      es := one + rest;
    }
  }

  // ---- The whole run -----------------------------------------------------------------------------------

  /** The state in hour zero with t calls rejected there and not counted. */
  predicate Waiting(k: nat, s: State, t: nat) {
    && s.now == 0 && s.seats == Seating(0, k, t) && s.strikes == map[] && s.cooldown == map[]
    && AllWrongs(s.wrongs, "x", 1) == 0
  }

  lemma OneWaits(stamp: Stamp, k: nat, s: State, t: nat) returns (es: seq<Event>, u: State)
    requires Waiting(k, s, t)
    ensures Waiting(k, u, t + 1) && Reaches(stamp, k, s, es, u, 0)
  {
    var c := k + t + 1;
    var s1 := Next(stamp, s, Check(c, "o"));
    u := Next(stamp, s1, Answer(c));
    assert u.seats == Seating(0, k, t + 1);
    Snoc(s.wrongs, Wrong("o", 0), "x", 1);
    SeatedSize(s, 0);
    SeatedSize(s1, 0);
    SeatedSize(u, 0);
    Step(stamp, k, s, Check(c, "o"), s1);
    Step(stamp, k, s1, Answer(c), u);
    Join(stamp, k, s, [Check(c, "o")], s1, 0, [Answer(c)], u, 0);
    es := [Check(c, "o")] + [Answer(c)];
  }

  lemma {:induction false} ManyWait(stamp: Stamp, k: nat, t: nat) returns (es: seq<Event>, u: State)
    ensures Waiting(k, u, t) && Reaches(stamp, k, Init(0), es, u, 0)
    decreases t
  {
    if t == 0 {
      es, u := [], Init(0);
      assert Seating(0, k, 0) == map[];
      SeatingSize(u, 0, k, 0);
      Stay(stamp, k, u);
    } else {
      var before, mid := ManyWait(stamp, k, t - 1);
      var one;
      one, u := OneWaits(stamp, k, mid, t - 1);
      Join(stamp, k, Init(0), before, mid, 0, one, u, 0);
      es := before + one;
    }
  }

  lemma Pass(stamp: Stamp, k: nat, s: State, t: nat, dt: nat) returns (u: State)
    requires s.seats == Seating(0, k, t)
    ensures u == s.(now := s.now + dt) && Reaches(stamp, k, s, [Tick(dt)], u, 0)
  {
    u := s.(now := s.now + dt);
    SeatingSize(s, 0, k, t);
    SeatingSize(u, 0, k, t);
    Step(stamp, k, s, Tick(dt), u);
  }

  /** Half an hour later the door is open again. */
  lemma WaitOut(stamp: Stamp, k: nat, s: State, v: nat, w: nat) returns (u: State)
    requires Ready(stamp, k, s, 0, 0, v, w) && s.now == HOUR
    ensures Reaches(stamp, k, s, [Tick(COOLDOWN)], u, 0)
    ensures Ready(stamp, k, u, 0, 0, v, w) && !Cooling(u.cooldown, "x", u.now)
  {
    u := Pass(stamp, k, s, 0, COOLDOWN);
    assert Recorded(stamp, u, "x", 1) == Recorded(stamp, s, "x", 1);
  }

  /** A batch of k, half an hour, and another batch of k. */
  lemma TwoBatches(stamp: Stamp, k: nat, s: State, w: nat) returns (es: seq<Event>, u: State)
    requires Ready(stamp, k, s, 0, 0, 2, w) && s.now == HOUR
    ensures AllWrongs(u.wrongs, "x", 1) == w + 2 * k && Reaches(stamp, k, s, es, u, 0)
  {
    var first, s1 := Batch(stamp, k, s, k, 0, 2, w);
    var s2 := WaitOut(stamp, k, s1, 2 + k, w + k);
    Join(stamp, k, s, first, s1, 0, [Tick(COOLDOWN)], s2, 0);
    var second;
    second, u := Batch(stamp, k, s2, k, 0, 2 + k, w + k);
    Join(stamp, k, s, first + [Tick(COOLDOWN)], s2, 0, second, u, 0);
    es := first + [Tick(COOLDOWN)] + second;
  }

  /** The bound is reached for every number k of handshakes side by side and every number of times
      the strikes are forgotten. */
  lemma WrongAnswersPerHourIsTight(stamp: Stamp, k: nat, times: nat) returns (es: seq<Event>)
    requires IsStamp(stamp) && k > 0
    ensures ValidRun(stamp, Init(0), es) && SideBySide(stamp, Init(0), es, "x", k)
    ensures TimesForgotten(stamp, Init(0), es, "x", 1) == times
    ensures AllWrongs(After(stamp, Init(0), es).wrongs, "x", 1) == 2 + 2 * k + 2 * times
  {
    var wait, s1 := ManyWait(stamp, k, times);
    var s2 := Pass(stamp, k, s1, times, HOUR);
    Join(stamp, k, Init(0), wait, s1, 0, [Tick(HOUR)], s2, 0);
    assert Ready(stamp, k, s2, 0, times, 0, 0);
    var many, s3 := ManyForgotten(stamp, k, s2, times, 0);
    Join(stamp, k, Init(0), wait + [Tick(HOUR)], s2, 0, many, s3, times);
    var two, s4 := TwoFree(stamp, k, s3, 0, 2 * times);
    Join(stamp, k, Init(0), wait + [Tick(HOUR)] + many, s3, times, two, s4, 0);
    var last, s5 := TwoBatches(stamp, k, s4, 2 * times + 2);
    Join(stamp, k, Init(0), wait + [Tick(HOUR)] + many + two, s4, times, last, s5, 0);
    es := wait + [Tick(HOUR)] + many + two + last;
  }

  /** The run has at most k handshakes of the address side by side, and its strikes of the hour are
      forgotten this often. */
  predicate RunForgets(stamp: Stamp, start: nat, es: seq<Event>, ip: string, k: nat, h: nat, times: nat) {
    && ValidRun(stamp, Init(start), es) && SideBySide(stamp, Init(start), es, ip, k)
    && TimesForgotten(stamp, Init(start), es, ip, h) == times
  }

  /** Exactly: no clock hour of such a run sees more than 2 + 2k wrong answers, whatever the run, if
      and only if no call with an overtaken hour trims the strikes away. One such call is enough for
      six wrong answers of handshakes that come one after another. */
  lemma WrongAnswersBoundedExactly(stamp: Stamp, k: nat, times: nat)
    requires IsStamp(stamp) && k > 0
    ensures (forall start, es, ip, h :: RunForgets(stamp, start, es, ip, k, h, times) ==>
               AllWrongs(After(stamp, Init(start), es).wrongs, ip, h) <= 2 + 2 * k) <==> times == 0
  {
    if times == 0 {
      forall start, es, ip, h | RunForgets(stamp, start, es, ip, k, h, times)
        ensures AllWrongs(After(stamp, Init(start), es).wrongs, ip, h) <= 2 + 2 * k
      {
        WrongAnswersPerHour(stamp, start, es, ip, k, h);
      }
    } else {
      var es := WrongAnswersPerHourIsTight(stamp, k, times);
      assert RunForgets(stamp, 0, es, "x", k, 1, times);
    }
  }
}
