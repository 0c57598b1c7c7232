/** The per-IP counters and cooldowns of the in-memory Redis mode (redis.go): day-keyed
    issuance counts, hour-keyed strikes, and the wrong-answer cooldown, with their pruning. */
module Counters {
  import opened Numbers
  import opened Text

  const TRIM_ABOVE := 4096

  /** How time.Format prints a day or an hour. */
  type Stamp = nat -> string

  /** The layouts print digits only. */
  ghost predicate ColonFree(stamp: Stamp) {
    forall a :: ':' !in stamp(a)
  }

  /** And they print different days or hours differently, as long as the clocks are not put back. */
  ghost predicate IsStamp(stamp: Stamp) {
    ColonFree(stamp) && forall a, b :: stamp(a) == stamp(b) ==> a == b
  }

  /** There are such stamps: the decimal number of the day is one. */
  lemma StampsExist()
    ensures IsStamp(n => FormatInt(n))
  {
    forall a: nat, b: nat | FormatInt(a) == FormatInt(b) ensures a == b {
      FormatIntInjective(a, b);
    }
  }

  /** "issuance:<ip>:<day>" and "chstrike:<ip>:<hour>". The address may have colons of its own. */
  function Key(prefix: string, ip: string, stamp: string): string {
    prefix + ip + [':'] + stamp
  }

  predicate Current(key: string, stamp: string) {
    HasSuffix(key, [':'] + stamp)
  }

  function Count(m: map<string, nat>, key: string): nat {
    if key in m then m[key] else 0
  }

  function Trimmed(m: map<string, nat>, stamp: string): map<string, nat> {
    map k | k in m && Current(k, stamp) :: m[k]
  }

  /** One more count under this key makes the map too large. */
  predicate Trims(m: map<string, nat>, key: string) {
    |m[key := Count(m, key) + 1]| > TRIM_ABOVE
  }

  function Bumped(m: map<string, nat>, key: string, stamp: string): map<string, nat> {
    var counted := m[key := Count(m, key) + 1];
    if Trims(m, key) then Trimmed(counted, stamp) else counted
  }

  lemma KeysDiffer(prefix: string, ip: string, stamp: string, ip': string, stamp': string)
    requires ':' !in stamp && ':' !in stamp'
    ensures Key(prefix, ip, stamp) == Key(prefix, ip', stamp') <==> ip == ip' && stamp == stamp'
  {
    if Key(prefix, ip, stamp) == Key(prefix, ip', stamp') {
      LastSeparatorUnique(prefix + ip, stamp, prefix + ip', stamp', ':');
      assert (prefix + ip)[|prefix|..] == ip && (prefix + ip')[|prefix|..] == ip';
    }
  }

  lemma OwnStampIsCurrent(prefix: string, ip: string, stamp: string)
    ensures Current(Key(prefix, ip, stamp), stamp)
  {
    var k := Key(prefix, ip, stamp);
    assert k[|k| - |stamp| - 1..] == [':'] + stamp;
  }

  lemma OneStamp(key: string, stamp: string, stamp': string)
    requires Current(key, stamp) && Current(key, stamp') && ':' !in stamp && ':' !in stamp'
    ensures stamp == stamp'
  {
    var a, b := key[..|key| - |stamp| - 1], key[..|key| - |stamp'| - 1];
    assert key == a + [':'] + stamp && key == b + [':'] + stamp';
    LastSeparatorUnique(a, stamp, b, stamp', ':');
  }

  lemma CurrentFixesStamp(prefix: string, ip: string, stamp: string, stamp': string)
    requires ':' !in stamp && ':' !in stamp'
    ensures Current(Key(prefix, ip, stamp), stamp') <==> stamp == stamp'
  {
    OwnStampIsCurrent(prefix, ip, stamp);
    if Current(Key(prefix, ip, stamp), stamp') {
      OneStamp(Key(prefix, ip, stamp), stamp, stamp');
    }
  }

  /** It is too large with more than 4096 keys, this one among them. */
  lemma TrimsExactly(m: map<string, nat>, key: string)
    ensures Trims(m, key) <==> |m.Keys + {key}| > 4096
  {
    assert m[key := Count(m, key) + 1].Keys == m.Keys + {key};
  }

  /** What one bump does to every count: its own rises by one, the others of its stamp stay, and
      those of other stamps stay as well or, if the map is trimmed, are all forgotten. */
  lemma BumpCountsExactly(m: map<string, nat>, prefix: string, ip: string, stamp: string, other: string, stamp': string)
    requires ':' !in stamp && ':' !in stamp'
    ensures Count(Bumped(m, Key(prefix, ip, stamp), stamp), Key(prefix, other, stamp')) ==
            if stamp' != stamp && Trims(m, Key(prefix, ip, stamp)) then 0
            else Count(m, Key(prefix, other, stamp')) + (if other == ip && stamp' == stamp then 1 else 0)
  {
    KeysDiffer(prefix, ip, stamp, other, stamp');
    CurrentFixesStamp(prefix, other, stamp', stamp);
  }

  // ---- Filling the map --------------------------------------------------------------------

  /** The map after one call from each of these addresses, all with one stamp. */
  function BumpedBy(m: map<string, nat>, prefix: string, ips: seq<string>, stamp: string): map<string, nat>
    decreases |ips|
  {
    if ips == [] then m else BumpedBy(Bumped(m, Key(prefix, ips[0], stamp), stamp), prefix, ips[1..], stamp)
  }

  /** Each of these calls is the first of its address. */
  predicate AllNew(m: map<string, nat>, prefix: string, ips: seq<string>, stamp: string)
    decreases |ips|
  {
    ips != [] ==>
      Key(prefix, ips[0], stamp) !in m && AllNew(Bumped(m, Key(prefix, ips[0], stamp), stamp), prefix, ips[1..], stamp)
  }

  function CurrentKeys(m: map<string, nat>, stamp: string): set<string> {
    set k | k in m && Current(k, stamp)
  }

  lemma {:induction false} LongerThan(keys: set<string>, avoid: string) returns (ip: string)
    ensures |avoid| < |ip| && forall k :: k in keys ==> |k| < |ip|
    decreases keys
  {
    if keys == {} {
      ip := avoid + "-";
    } else {
      var k :| k in keys;
      var shorter := LongerThan(keys - {k}, avoid);
      ip := shorter + k + "-";
    }
  }

  lemma CallFromNewAddress(m: map<string, nat>, prefix: string, ip: string, stamp: string)
    requires |m| <= TRIM_ABOVE && Key(prefix, ip, stamp) !in m
    requires !(|m| == TRIM_ABOVE && CurrentKeys(m, stamp) == m.Keys)
    ensures var next := Bumped(m, Key(prefix, ip, stamp), stamp);
            |next| <= TRIM_ABOVE && |CurrentKeys(next, stamp)| == |CurrentKeys(m, stamp)| + 1
  {
    var key := Key(prefix, ip, stamp);
    var counted, next := m[key := 1], Bumped(m, key, stamp);
    OwnStampIsCurrent(prefix, ip, stamp);
    assert counted.Keys == m.Keys + {key};
    assert CurrentKeys(counted, stamp) == CurrentKeys(m, stamp) + {key};
    assert CurrentKeys(next, stamp) == CurrentKeys(counted, stamp);
    if Trims(m, key) {
      assert next.Keys == CurrentKeys(counted, stamp);
      assert CurrentKeys(m, stamp) < m.Keys;
      SubsetSize(CurrentKeys(m, stamp), m.Keys);
      ProperSubsetSize(CurrentKeys(m, stamp), m.Keys);
    }
  }

  /** Enough new addresses fill the map with keys of one stamp and leave a given count alone. */
  lemma {:induction false} FillUp(m: map<string, nat>, prefix: string, stamp: string, avoid: string) returns (ips: seq<string>)
    requires |m| <= TRIM_ABOVE && ':' !in stamp
    ensures AllNew(m, prefix, ips, stamp) && avoid !in ips && |ips| == TRIM_ABOVE - |CurrentKeys(m, stamp)|
    ensures var full := BumpedBy(m, prefix, ips, stamp);
            && |full| == TRIM_ABOVE && (forall k :: k in full ==> Current(k, stamp))
            && Count(full, Key(prefix, avoid, stamp)) == Count(m, Key(prefix, avoid, stamp))
    decreases TRIM_ABOVE - |CurrentKeys(m, stamp)|
  {
    SubsetSize(CurrentKeys(m, stamp), m.Keys);
    ips := [];
    if !(|m| == TRIM_ABOVE && CurrentKeys(m, stamp) == m.Keys) {
      var ip := LongerThan(m.Keys, avoid);
      var key := Key(prefix, ip, stamp);
      assert |ip| < |key|;
      CallFromNewAddress(m, prefix, ip, stamp);
      var next := Bumped(m, key, stamp);
      SubsetSize(CurrentKeys(next, stamp), next.Keys);
      BumpCountsExactly(m, prefix, ip, stamp, avoid, stamp);
      var rest := FillUp(next, prefix, stamp, avoid);
      ips := [ip] + rest;
      assert ips[1..] == rest;
    } else {
      assert forall k :: k in m ==> k in CurrentKeys(m, stamp);
    }
  }

  /** A call with an older stamp that finds the map full forgets every count of the current one. */
  lemma StaleCallForgets(m: map<string, nat>, prefix: string, ip: string, past: string, stamp: string)
    requires |m| == TRIM_ABOVE && (forall k :: k in m ==> Current(k, stamp)) && ':' !in past && ':' !in stamp && past != stamp
    ensures Trims(m, Key(prefix, ip, past)) && Key(prefix, ip, past) !in m
    ensures |Bumped(m, Key(prefix, ip, past), past)| == 1
  {
    var key := Key(prefix, ip, past);
    CurrentFixesStamp(prefix, ip, past, stamp);
    assert m[key := 1].Keys == m.Keys + {key};
    var after := Bumped(m, key, past);
    OwnStampIsCurrent(prefix, ip, past);
    forall k | k in m ensures !Current(k, past) {
      if Current(k, past) {
        OneStamp(k, past, stamp);
      }
    }
    assert after.Keys == {key};
  }

  /** The cooldown map after its lazy pruning. */
  function Unlapsed(m: map<string, int>, now: int): map<string, int> {
    map ip | ip in m && m[ip] >= now :: m[ip]
  }

  predicate Cooling(m: map<string, int>, ip: string, now: int) {
    ip in m && now < m[ip]
  }

  function Armed(m: map<string, int>, ip: string, now: int, duration: int): map<string, int> {
    (if |m| > TRIM_ABOVE then Unlapsed(m, now) else m)[ip := now + duration]
  }

  lemma PruningKeepsCooldowns(m: map<string, int>, ip: string, now: int, later: int)
    requires now <= later
    ensures Cooling(Unlapsed(m, now), ip, later) <==> Cooling(m, ip, later)
  {}

  class RedisCounters {
    var memoryIssuance: map<string, nat>
    var memoryChStrikes: map<string, nat>
    var memoryChCooldown: map<string, int>

    constructor ()
      ensures memoryIssuance == map[] && memoryChStrikes == map[] && memoryChCooldown == map[]
    {
      memoryIssuance, memoryChStrikes, memoryChCooldown := map[], map[], map[];
    }

    /** Deletes the stale keys while ranging over the map. */
    method Trim(m: map<string, nat>, stamp: string) returns (left: map<string, nat>)
      ensures left == Trimmed(m, stamp)
    {
      left := m;
      var todo := m.Keys;
      while todo != {}
        invariant todo <= m.Keys
        invariant left == map k | k in m && (k in todo || Current(k, stamp)) :: m[k]
        decreases todo
      {
        var k :| k in todo;
        todo := todo - {k};
        if !HasSuffix(k, [':'] + stamp) {
          left := left - {k};
        }
      }
    }

    method AllowIssuance(ip: string, day: string, maxPerDay: nat) returns (allowed: bool)
      modifies this`memoryIssuance
      ensures memoryIssuance == Bumped(old(memoryIssuance), Key("issuance:", ip, day), day)
      ensures allowed <==> Count(old(memoryIssuance), Key("issuance:", ip, day)) < maxPerDay
    {
      var key := Key("issuance:", ip, day);
      OwnStampIsCurrent("issuance:", ip, day);
      memoryIssuance := memoryIssuance[key := Count(memoryIssuance, key) + 1];
      if |memoryIssuance| > TRIM_ABOVE {
        memoryIssuance := Trim(memoryIssuance, day);
      }
      allowed := Count(memoryIssuance, key) <= maxPerDay;
    }

    method IssuanceCountToday(ip: string, day: string) returns (count: nat)
      ensures count == Count(memoryIssuance, Key("issuance:", ip, day))
    {
      count := Count(memoryIssuance, Key("issuance:", ip, day));
    }

    method RegisterChallengeStrike(ip: string, hour: string) returns (strikes: nat)
      modifies this`memoryChStrikes
      ensures memoryChStrikes == Bumped(old(memoryChStrikes), Key("chstrike:", ip, hour), hour)
      ensures strikes == Count(old(memoryChStrikes), Key("chstrike:", ip, hour)) + 1
    {
      var key := Key("chstrike:", ip, hour);
      OwnStampIsCurrent("chstrike:", ip, hour);
      memoryChStrikes := memoryChStrikes[key := Count(memoryChStrikes, key) + 1];
      if |memoryChStrikes| > TRIM_ABOVE {
        memoryChStrikes := Trim(memoryChStrikes, hour);
      }
      strikes := Count(memoryChStrikes, key);
    }

    method PruneCooldowns(now: int)
      modifies this`memoryChCooldown
      ensures memoryChCooldown == Unlapsed(old(memoryChCooldown), now)
    {
      var m := memoryChCooldown;
      var todo := m.Keys;
      while todo != {}
        invariant todo <= m.Keys
        invariant memoryChCooldown == map ip | ip in m && (ip in todo || m[ip] >= now) :: m[ip]
        decreases todo
      {
        var ip :| ip in todo;
        todo := todo - {ip};
        if m[ip] < now {
          memoryChCooldown := memoryChCooldown - {ip};
        }
      }
    }

    method CheckChallengeCooldown(ip: string, now: int) returns (cooling: bool)
      modifies this`memoryChCooldown
      ensures memoryChCooldown == Unlapsed(old(memoryChCooldown), now)
      ensures cooling <==> Cooling(old(memoryChCooldown), ip, now)
    {
      PruneCooldowns(now);
      cooling := ip in memoryChCooldown && now < memoryChCooldown[ip];
    }

    method SetChallengeCooldown(ip: string, now: int, duration: int)
      modifies this`memoryChCooldown
      ensures memoryChCooldown == Armed(old(memoryChCooldown), ip, now, duration)
    {
      if |memoryChCooldown| > TRIM_ABOVE {
        PruneCooldowns(now);
      }
      memoryChCooldown := memoryChCooldown[ip := now + duration];
    }
  }
}
