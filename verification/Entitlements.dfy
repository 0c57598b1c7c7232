/** Premium entitlements: the Postgres row, the read-through cache in the shared in-memory maps,
    and the check that trusts the cache (main.go, play_billing.go, db.go). Each handler reads one
    instant. */
module Entitlements {
  import opened Text
  import opened MemoryBlocks

  const SELF_HOSTED_TERM := 30 * 24 * 3600 * SECOND
  const ZERO_TIME := -62_135_596_800 * SECOND      // Go's zero time, the first of January of year 1

  datatype Row = Row(hash: string, expires: int)

  // ---- What Google says -----------------------------------------------------------------

  datatype LineItem = NoExpiry | Unparseable | Expires(at: int)

  const ENTITLED := {"SUBSCRIPTION_STATE_ACTIVE", "SUBSCRIPTION_STATE_IN_GRACE_PERIOD", "SUBSCRIPTION_STATE_CANCELED"}

  /** The latest expiry among the first n line items, never before the zero time. */
  function Latest(items: seq<LineItem>, n: nat): int
    requires n <= |items|
  {
    if n == 0 then ZERO_TIME
    else
      var before := Latest(items, n - 1);
      if items[n - 1].Expires? && items[n - 1].at > before then items[n - 1].at else before
  }

  function Verified(state: string, items: seq<LineItem>, now: int): Option<int> {
    var latest := Latest(items, |items|);
    if state !in ENTITLED || latest == ZERO_TIME || latest <= now then None else Some(latest)
  }

  method Verify(state: string, items: seq<LineItem>, now: int) returns (expiry: Option<int>)
    ensures expiry == Verified(state, items, now)
  {
    if state !in ENTITLED {
      return None;
    }
    var latest := ZERO_TIME;
    for i := 0 to |items|
      invariant latest == Latest(items, i)
    {
      if items[i].Expires? && items[i].at > latest {
        latest := items[i].at;
      }
    }
    if latest == ZERO_TIME || !(latest > now) {
      return None;
    }
    expiry := Some(latest);
  }

  lemma {:induction false} LatestIsMaximum(items: seq<LineItem>, n: nat)
    requires n <= |items|
    ensures Latest(items, n) >= ZERO_TIME
    ensures forall i :: 0 <= i < n && items[i].Expires? ==> items[i].at <= Latest(items, n)
    ensures Latest(items, n) > ZERO_TIME ==> Expires(Latest(items, n)) in items[..n]
  {
    if n > 0 {
      LatestIsMaximum(items, n - 1);
      assert items[..n] == items[..n - 1] + [items[n - 1]];
    }
  }

  /** A verified expiry is strictly in the future and the last of the line items; there is one
      exactly when the state entitles and some line item is still to come. */
  lemma VerifiedExpiryIsFuture(state: string, items: seq<LineItem>, now: int)
    requires now >= ZERO_TIME
    ensures Verified(state, items, now).Some? <==>
            state in {"SUBSCRIPTION_STATE_ACTIVE", "SUBSCRIPTION_STATE_IN_GRACE_PERIOD", "SUBSCRIPTION_STATE_CANCELED"} &&
            exists i :: 0 <= i < |items| && items[i].Expires? && items[i].at > now
    ensures forall t :: Verified(state, items, now) == Some(t) ==>
            t > now && Expires(t) in items && forall i :: 0 <= i < |items| && items[i].Expires? ==> items[i].at <= t
  {
    LatestIsMaximum(items, |items|);
    assert items[..|items|] == items;
  }

  // ---- Rows, cache and check -----------------------------------------------------------------

  datatype World = World(cache: Store, rows: map<string, Row>)

  function Init(): World {
    World(Store(map[], map[], map[]), map[])
  }

  /** The simple form: ask Postgres. */
  predicate Direct(rows: map<string, Row>, user: string, now: int) {
    user in rows && rows[user].expires > now && rows[user].hash != ""
  }

  function CachedHash(s: Store, user: string, now: int): string {
    Perform(s, GetEntitlementHash(user), now).1.text
  }

  function Filled(s: Store, user: string, row: Row, now: int): Store {
    if row.expires - now > 0 then Perform(s, Op.StoreEntitlement(user, row.hash, row.expires - now), now).0 else s
  }

  /** The answer of the premium check, None for a failed query, and the cache afterwards. */
  function Checked(w: World, user: string, reachable: bool, now: int): (World, Option<bool>) {
    if CachedHash(w.cache, user, now) != "" then (w, Some(true))
    else if !reachable then (w, None)
    else if Direct(w.rows, user, now) then (w.(cache := Filled(w.cache, user, w.rows[user], now)), Some(true))
    else (w, Some(false))
  }

  /** Write the row, then the cache if any time is left. */
  function Recorded(w: World, user: string, row: Row, now: int): World {
    World(Filled(w.cache, user, row, now), w.rows[user := row])
  }

  datatype Authority = Play(state: string, items: seq<LineItem>) | SelfHosted

  function ExpiryFrom(a: Authority, now: int): Option<int> {
    match a
    case Play(state, items) => Verified(state, items, now)
    case SelfHosted => Some(now + SELF_HOSTED_TERM)
  }

  function Posted(w: World, user: string, hash: string, a: Authority, stored: bool, now: int): World {
    var expiry := ExpiryFrom(a, now);
    if expiry.None? || !stored then w else Recorded(w, user, Row(hash, expiry.value), now)
  }

  class Relay {
    const rdb: RedisClient
    var rows: map<string, Row>

    function Contents(): World
      reads this, rdb
    {
      World(rdb.Contents(), rows)
    }

    constructor ()
      ensures Contents() == Init() && fresh(rdb)
    {
      rdb := new RedisClient();
      rows := map[];
    }

    method GetEntitlement(user: string, now: int) returns (ent: Option<Row>)
      ensures ent == if user in rows && rows[user].expires > now then Some(rows[user]) else None
    {
      if user in rows && rows[user].expires > now {
        return Some(rows[user]);
      }
      ent := None;
    }

    method CheckPremiumSubscription(user: string, reachable: bool, now: int) returns (premium: bool, failed: bool)
      modifies rdb
      ensures var r := Checked(old(Contents()), user, reachable, now);
              Contents() == r.0 && failed == r.1.None? && premium == (r.1 == Some(true))
    {
      var hash := rdb.GetEntitlementHash(user, now);
      if hash != "" {
        return true, false;
      }
      if !reachable {
        return false, true;
      }
      var ent := GetEntitlement(user, now);
      if ent.Some? && ent.value.hash != "" {
        var ttl := ent.value.expires - now;
        if ttl > 0 {
          rdb.StoreEntitlement(user, ent.value.hash, ttl, now);
        }
        return true, false;
      }
      return false, false;
    }

    method PostEntitlement(user: string, hash: string, a: Authority, stored: bool, now: int)
      modifies this, rdb
      ensures Contents() == Posted(old(Contents()), user, hash, a, stored, now)
    {
      var expiry := now + SELF_HOSTED_TERM;
      if a.Play? {
        var verified := Verify(a.state, a.items, now);
        if verified.None? {
          return;
        }
        expiry := verified.value;
      }
      if !stored {
        return;
      }
      rows := rows[user := Row(hash, expiry)];
      var cacheTTL := expiry - now;
      if cacheTTL > 0 {
        rdb.StoreEntitlement(user, hash, cacheTTL, now);
      }
    }
  }

  // ---- The cache never disagrees with the rows ---------------------------------------------------

  predicate HasCacheEntry(s: Store, user: string) {
    KeyOf(Entitlement(user)) in s.blocks
  }

  /** An entry for this user, live or lapsed, is a copy of the row. */
  predicate CopyOfRow(w: World, user: string) {
    HasCacheEntry(w.cache, user) ==>
      && user in w.rows
      && Holds(w.cache, Entitlement(user), Some(Cell(w.rows[user].expires, Data.Text(w.rows[user].hash))))
  }

  ghost predicate Synced(w: World) {
    forall user :: WellFormed(Entitlement(user)) ==> CopyOfRow(w, user)
  }

  /** Main fact: with the cache in step, the check differs from asking Postgres exactly when a
      non-empty cached copy is read at the very instant it expires. */
  lemma CheckIsDirectExactly(w: World, user: string, now: int)
    requires WellFormed(Entitlement(user)) && CopyOfRow(w, user)
    ensures Checked(w, user, true, now).1 == Some(Direct(w.rows, user, now)) <==>
            !(HasCacheEntry(w.cache, user) && w.rows[user].hash != "" && w.rows[user].expires == now)
  {}

  /** A check that cannot reach Postgres answers from a live copy or not at all. */
  lemma UnreachableChecksAreHonest(w: World, user: string, now: int)
    requires WellFormed(Entitlement(user)) && CopyOfRow(w, user) && (user in w.rows ==> w.rows[user].expires != now)
    ensures Checked(w, user, false, now).1 in {None, Some(true)}
    ensures Checked(w, user, false, now).1 == Some(true) ==> Direct(w.rows, user, now)
  {}

  /** A check that says yes leaves a copy behind: until the row expires the next check says yes even when
      it cannot reach Postgres. */
  lemma YesIsRemembered(w: World, user: string, now: int, later: int)
    requires WellFormed(Entitlement(user)) && CopyOfRow(w, user) && user in w.rows
    requires Checked(w, user, true, now).1 == Some(true) && now <= later <= w.rows[user].expires
    ensures Checked(Checked(w, user, true, now).0, user, false, later).1 == Some(true)
  {}

  /** So does a stored purchase, from its own instant on. */
  lemma PurchaseIsRemembered(w: World, user: string, hash: string, a: Authority, now: int, later: int)
    requires WellFormed(Entitlement(user)) && hash != ""
    requires ExpiryFrom(a, now).Some? && now <= later <= ExpiryFrom(a, now).value && now < ExpiryFrom(a, now).value
    ensures Checked(Posted(w, user, hash, a, true, now), user, false, later).1 == Some(true)
  {}

  lemma RecordKeepsOthers(w: World, user: string, row: Row, now: int, other: string)
    requires WellFormed(Entitlement(user)) && WellFormed(Entitlement(other)) && user != other && CopyOfRow(w, other)
    ensures CopyOfRow(Recorded(w, user, row, now), other)
  {
    if KeyOf(Entitlement(user)) == KeyOf(Entitlement(other)) {
      KeysAreInjective(Entitlement(user), Entitlement(other));
    }
  }

  /** Recording a row keeps the cache in step exactly when the expiry lies ahead, nothing was
      cached, or the row is the one already there. */
  lemma RecordKeepsStepExactly(w: World, user: string, row: Row, now: int)
    requires WellFormed(Entitlement(user)) && Synced(w)
    ensures Synced(Recorded(w, user, row, now)) <==>
            row.expires > now || !HasCacheEntry(w.cache, user) || w.rows[user] == row
  {
    var w' := Recorded(w, user, row, now);
    assert CopyOfRow(w, user);
    assert CopyOfRow(w', user) <==> row.expires > now || !HasCacheEntry(w.cache, user) || w.rows[user] == row;
    forall other | WellFormed(Entitlement(other)) && other != user ensures CopyOfRow(w', other) {
      assert CopyOfRow(w, other);
      RecordKeepsOthers(w, user, row, now, other);
    }
  }

  datatype Event =
    | Post(user: string, hash: string, authority: Authority, stored: bool)
    | Check(user: string, reachable: bool)
    | Other(op: Op)             // any other operation on the shared maps
    | Restart                   // the in-memory maps are lost, the rows are not

  datatype Timed = Timed(event: Event, now: int)

  predicate Admitted(t: Timed) {
    && t.now >= ZERO_TIME
    && match t.event
       case Post(user, _, _, _) => WellFormed(Entitlement(user))
       case Check(user, _) => WellFormed(Entitlement(user))
       case Other(op) => Admissible(op) && !op.StoreEntitlement?
       case Restart => true
  }

  function Next(w: World, t: Timed): World {
    match t.event
    case Post(user, hash, a, stored) => Posted(w, user, hash, a, stored, t.now)
    case Check(user, reachable) => Checked(w, user, reachable, t.now).0
    case Other(op) => w.(cache := Perform(w.cache, op, t.now).0)
    case Restart => w.(cache := Store(map[], map[], map[]))
  }

  function After(w: World, ts: seq<Timed>): World
    decreases |ts|
  {
    if ts == [] then w else After(Next(w, ts[0]), ts[1..])
  }

  lemma OtherKeepsCopies(w: World, op: Op, now: int, user: string)
    requires Admissible(op) && !op.StoreEntitlement? && WellFormed(Entitlement(user)) && CopyOfRow(w, user)
    ensures CopyOfRow(w.(cache := Perform(w.cache, op, now).0), user)
  {
    var n := Entitlement(user);
    if Target(op) != n {
      if HasCacheEntry(w.cache, user) {
        OtherCell(w.cache, op, now, n, Some(Cell(w.rows[user].expires, Data.Text(w.rows[user].hash))));
      } else {
        OtherCell(w.cache, op, now, n, None);
      }
    }
  }

  lemma StepKeepsSync(w: World, t: Timed)
    requires Synced(w) && Admitted(t)
    ensures Synced(Next(w, t))
  {
    match t.event
    case Post(user, hash, a, stored) =>
      if a.Play? {
        VerifiedExpiryIsFuture(a.state, a.items, t.now);
      }
      if ExpiryFrom(a, t.now).Some? {
        RecordKeepsStepExactly(w, user, Row(hash, ExpiryFrom(a, t.now).value), t.now);
      }
    case Check(user, reachable) =>
      if Direct(w.rows, user, t.now) {
        RecordKeepsStepExactly(w, user, w.rows[user], t.now);
        assert w.rows[user := w.rows[user]] == w.rows;
      }
    case Other(op) =>
      forall user | WellFormed(Entitlement(user)) ensures CopyOfRow(Next(w, t), user) {
        assert CopyOfRow(w, user);
        OtherKeepsCopies(w, op, t.now, user);
      }
    case Restart =>
  }

  lemma {:induction false} RunKeepsSync(w: World, ts: seq<Timed>)
    requires Synced(w) && forall i :: 0 <= i < |ts| ==> Admitted(ts[i])
    ensures Synced(After(w, ts))
    decreases |ts|
  {
    if ts != [] {
      StepKeepsSync(w, ts[0]);
      RunKeepsSync(Next(w, ts[0]), ts[1..]);
    }
  }

  /** Main result: after any run of purchases, renewals, shortenings, failed writes, checks that
      fill the cache, lapses, restarts and any other use of the shared maps, the check agrees with
      asking Postgres directly at every instant except, for a cached row, its expiry itself. */
  lemma CacheAgreesWithPostgres(ts: seq<Timed>, user: string, now: int)
    requires (forall i :: 0 <= i < |ts| ==> Admitted(ts[i])) && WellFormed(Entitlement(user))
    ensures var w := After(Init(), ts);
            Checked(w, user, true, now).1 == Some(Direct(w.rows, user, now)) <==>
            !(HasCacheEntry(w.cache, user) && user in w.rows && w.rows[user].hash != "" && w.rows[user].expires == now)
  {
    RunKeepsSync(Init(), ts);
    var w := After(Init(), ts);
    assert CopyOfRow(w, user);
    CheckIsDirectExactly(w, user, now);
  }

  /** What the verifier's promise rules out: a lapsed expiry recorded over a live cached row
      leaves the check saying yes while Postgres says no. */
  lemma LapsedRecordLeavesAStaleCopy(user: string)
    requires WellFormed(Entitlement(user))
    ensures var w := Recorded(Recorded(Init(), user, Row("k", 10), 0), user, Row("k", 5), 7);
            Checked(w, user, true, 8).1 == Some(true) && !Direct(w.rows, user, 8)
  {}

  // ---- Purchases end up in the table and count until they expire ------------------------------------

  /** The event is a purchase of this user that is stored as this row: under the latest line item of an
      entitling subscription, if that is still to come, or for thirty days on a self-hosted relay. */
  predicate Purchased(t: Timed, user: string, row: Row) {
    && t.event.Post? && t.event.user == user && t.event.stored && t.event.hash == row.hash
    && match t.event.authority
       case Play(state, items) =>
         && state in {"SUBSCRIPTION_STATE_ACTIVE", "SUBSCRIPTION_STATE_IN_GRACE_PERIOD", "SUBSCRIPTION_STATE_CANCELED"}
         && t.now < row.expires && Expires(row.expires) in items
         && forall i :: 0 <= i < |items| && items[i].Expires? ==> items[i].at <= row.expires
       case SelfHosted => row.expires == t.now + 30 * 24 * 3600 * SECOND
  }

  ghost predicate Purchases(t: Timed, user: string) {
    exists row :: Purchased(t, user, row)
  }

  /** The last purchase of this user in the run, stored as this row. */
  ghost predicate LastPurchase(ts: seq<Timed>, user: string, row: Row) {
    exists i :: 0 <= i < |ts| && Purchased(ts[i], user, row) && forall j :: i < j < |ts| ==> !Purchases(ts[j], user)
  }

  lemma PurchaseIsPosted(t: Timed, user: string, row: Row)
    requires Admitted(t) && t.event.Post? && t.event.user == user
    ensures Purchased(t, user, row) <==>
            t.event.stored && ExpiryFrom(t.event.authority, t.now) == Some(row.expires) && t.event.hash == row.hash
  {
    if t.event.authority.Play? {
      var state, items := t.event.authority.state, t.event.authority.items;
      VerifiedExpiryIsFuture(state, items, t.now);
      if Purchased(t, user, row) {
        var i :| 0 <= i < |items| && items[i] == Expires(row.expires);
        var latest := Verified(state, items, t.now).value;
        assert latest <= row.expires;
      }
    }
  }

  /** One event: a purchase is the user's row afterwards, and nothing else touches the row. */
  lemma PurchaseStep(w: World, t: Timed, user: string)
    requires Admitted(t)
    ensures forall row :: Purchased(t, user, row) ==> user in Next(w, t).rows && Next(w, t).rows[user] == row
    ensures !Purchases(t, user) ==>
              (user in Next(w, t).rows <==> user in w.rows) && (user in w.rows ==> Next(w, t).rows[user] == w.rows[user])
  {
    if t.event.Post? && t.event.user == user {
      forall row ensures Purchased(t, user, row) <==>
                         t.event.stored && ExpiryFrom(t.event.authority, t.now) == Some(row.expires) && t.event.hash == row.hash
      {
        PurchaseIsPosted(t, user, row);
      }
      if t.event.stored && ExpiryFrom(t.event.authority, t.now).Some? {
        assert Purchased(t, user, Row(t.event.hash, ExpiryFrom(t.event.authority, t.now).value));
      }
    }
  }

  lemma LastOfRest(ts: seq<Timed>, user: string, row: Row)
    requires ts != [] && LastPurchase(ts[1..], user, row)
    ensures LastPurchase(ts, user, row)
  {
    var rest := ts[1..];
    var i :| 0 <= i < |rest| && Purchased(rest[i], user, row) && forall j :: i < j < |rest| ==> !Purchases(rest[j], user);
    assert Purchased(ts[i + 1], user, row);
    forall j | i + 1 < j < |ts| ensures !Purchases(ts[j], user) {
      assert ts[j] == rest[j - 1];
    }
  }

  lemma {:induction false} PurchaseRun(w: World, ts: seq<Timed>, user: string)
    requires forall i :: 0 <= i < |ts| ==> Admitted(ts[i])
    ensures (exists i :: 0 <= i < |ts| && Purchases(ts[i], user)) ==>
              user in After(w, ts).rows && LastPurchase(ts, user, After(w, ts).rows[user])
    ensures (forall i :: 0 <= i < |ts| ==> !Purchases(ts[i], user)) ==>
              (user in After(w, ts).rows <==> user in w.rows) && (user in w.rows ==> After(w, ts).rows[user] == w.rows[user])
    decreases |ts|
  {
    if ts != [] {
      var next, rest := Next(w, ts[0]), ts[1..];
      PurchaseStep(w, ts[0], user);
      PurchaseRun(next, rest, user);
      if i :| 0 <= i < |rest| && Purchases(rest[i], user) {
        LastOfRest(ts, user, After(w, ts).rows[user]);
      } else if row :| Purchased(ts[0], user, row) {
        assert Purchases(ts[0], user);
        forall j | 0 < j < |ts| ensures !Purchases(ts[j], user) {
          assert ts[j] == rest[j - 1];
        }
        assert LastPurchase(ts, user, row);
      } else {
        forall i | 0 <= i < |ts| ensures !Purchases(ts[i], user) {
          assert i > 0 ==> ts[i] == rest[i - 1];
        }
      }
    }
  }

  /** Main result on the table, for every run: each user's row is that user's last stored purchase, a
      renewal or a shortening as much as the first, and whoever has made none has no row. */
  lemma RowsAreTheLastPurchases(ts: seq<Timed>, user: string)
    requires forall i :: 0 <= i < |ts| ==> Admitted(ts[i])
    ensures var w := After(Init(), ts);
            && (user in w.rows <==> exists i :: 0 <= i < |ts| && Purchases(ts[i], user))
            && (user in w.rows ==> LastPurchase(ts, user, w.rows[user]))
  {
    PurchaseRun(Init(), ts, user);
  }

  lemma LastPurchaseIsOne(ts: seq<Timed>, user: string, row: Row, row': Row)
    requires (forall i :: 0 <= i < |ts| ==> Admitted(ts[i])) && LastPurchase(ts, user, row) && LastPurchase(ts, user, row')
    ensures row == row'
  {
    var i :| 0 <= i < |ts| && Purchased(ts[i], user, row) && forall j :: i < j < |ts| ==> !Purchases(ts[j], user);
    var i' :| 0 <= i' < |ts| && Purchased(ts[i'], user, row') && forall j :: i' < j < |ts| ==> !Purchases(ts[j], user);
    assert Purchases(ts[i], user) && Purchases(ts[i'], user);
    PurchaseIsPosted(ts[i], user, row);
    PurchaseIsPosted(ts[i], user, row');
  }

  /** So a user is premium from the last stored purchase up to its expiry and not after it, whatever
      was cached before; and one who never stored a purchase is not. */
  lemma PremiumUntilExpiry(ts: seq<Timed>, user: string, row: Row, now: int)
    requires (forall i :: 0 <= i < |ts| ==> Admitted(ts[i])) && WellFormed(Entitlement(user))
    ensures LastPurchase(ts, user, row) && row.hash != "" && now != row.expires ==>
              Checked(After(Init(), ts), user, true, now).1 == Some(now < row.expires)
    ensures (forall i :: 0 <= i < |ts| ==> !Purchases(ts[i], user)) ==>
              Checked(After(Init(), ts), user, true, now).1 == Some(false)
  {
    RowsAreTheLastPurchases(ts, user);
    CacheAgreesWithPostgres(ts, user, now);
    if LastPurchase(ts, user, row) {
      var i :| 0 <= i < |ts| && Purchased(ts[i], user, row);
      assert Purchases(ts[i], user);
      LastPurchaseIsOne(ts, user, row, After(Init(), ts).rows[user]);
    }
  }
}
