/** Who is turned away at the cooldown check, read off the run alone: an address whose third or later strike
    of an hour armed its cooldown less than thirty minutes ago. */
module StrikeHistory {
  import opened Counters
  import opened Strikes

  /** The instants at which a run arms this address, from this state on. */
  function Armings(stamp: Stamp, s: State, es: seq<Event>, ip: string): seq<nat>
    requires ValidRun(stamp, s, es)
    decreases |es|
  {
    if es == [] then []
    else
      (if es[0].Arm? && s.seats[es[0].conn].ip == ip && s.seats[es[0].conn].strikes >= 3 then [s.now] else []) +
      Armings(stamp, Next(stamp, s, es[0]), es[1..], ip)
  }

  /** Armed less than thirty minutes ago. */
  predicate Recent(armings: seq<nat>, now: int) {
    exists i :: 0 <= i < |armings| && now < armings[i] + 30 * 60_000_000_000
  }

  predicate NotFromTheFuture(s: State) {
    forall ip :: ip in s.cooldown ==> s.cooldown[ip] <= s.now + COOLDOWN
  }

  lemma {:induction false} TimePasses(stamp: Stamp, s: State, es: seq<Event>)
    requires ValidRun(stamp, s, es)
    ensures s.now <= After(stamp, s, es).now
    decreases |es|
  {
    if es != [] {
      TimePasses(stamp, Next(stamp, s, es[0]), es[1..]);
    }
  }

  /** What one step does to the cooldown of an address, seen from any later instant. */
  lemma CooldownStep(stamp: Stamp, s: State, e: Event, ip: string, later: int)
    requires Enabled(s, e) && NotFromTheFuture(s) && later >= Next(stamp, s, e).now
    ensures var t := Next(stamp, s, e);
            && NotFromTheFuture(t)
            && (Cooling(t.cooldown, ip, later) <==>
                Cooling(s.cooldown, ip, later) ||
                (e.Arm? && s.seats[e.conn].ip == ip && s.seats[e.conn].strikes >= 3 && later < s.now + 30 * 60_000_000_000))
  {}

  lemma RecentSplits(a: seq<nat>, b: seq<nat>, now: int)
    ensures Recent(a + b, now) <==> Recent(a, now) || Recent(b, now)
  {
    if Recent(a, now) {
      var i :| 0 <= i < |a| && now < a[i] + 30 * 60_000_000_000;
      assert (a + b)[i] == a[i];
    }
    if Recent(b, now) {
      var i :| 0 <= i < |b| && now < b[i] + 30 * 60_000_000_000;
      assert (a + b)[|a| + i] == b[i];
    }
  }

  lemma {:induction false} CooldownRun(stamp: Stamp, s: State, es: seq<Event>, ip: string)
    requires ValidRun(stamp, s, es) && NotFromTheFuture(s)
    ensures var t := After(stamp, s, es);
            Cooling(t.cooldown, ip, t.now) <==> Cooling(s.cooldown, ip, t.now) || Recent(Armings(stamp, s, es, ip), t.now)
    decreases |es|
  {
    if es != [] {
      var e, u, t := es[0], Next(stamp, s, es[0]), After(stamp, s, es);
      TimePasses(stamp, u, es[1..]);
      CooldownStep(stamp, s, e, ip, t.now);
      CooldownRun(stamp, u, es[1..], ip);
      var own := if e.Arm? && s.seats[e.conn].ip == ip && s.seats[e.conn].strikes >= 3 then [s.now] else [];
      RecentSplits(own, Armings(stamp, u, es[1..], ip), t.now);
      assert own != [] ==> own[0] == s.now;
    }
  }

  /** Main result, for every interleaving: a handshake is turned away at the cooldown check if and only if
      less than thirty minutes ago a wrong answer from its address was the third or a later one that the
      relay had counted for its hour. */
  lemma TurnedAwayExactly(stamp: Stamp, start: nat, es: seq<Event>, conn: nat, ip: string)
    requires ValidRun(stamp, Init(start), es) && conn !in After(stamp, Init(start), es).seats
    ensures var s := After(stamp, Init(start), es);
            conn !in Next(stamp, s, Check(conn, ip)).seats <==> Recent(Armings(stamp, Init(start), es, ip), s.now)
  {
    CooldownRun(stamp, Init(start), es, ip);
  }
}
