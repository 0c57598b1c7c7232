/** The weekly story budget (db.go, handlers.go). Handlers are atomic and read one instant;
    a user's budget row and stories follow an arbitrary sequence of them. */
module SocialBudget {
  import opened Text

  const WEEK := 7 * 24 * 3_600_000_000_000
  const STORY_TTL := 24 * 3_600_000_000_000
  const FREE_BUDGET := 10 * 1024 * 1024
  const PLUS_BUDGET := 100 * 1024 * 1024

  datatype Budget = Budget(bytesUsed: nat, weekStart: nat)

  function Opened(b: Option<Budget>, now: nat): Budget {
    match b
    case None => Budget(0, now)
    case Some(b) => if now - b.weekStart >= WEEK then Budget(0, now) else b
  }

  function Limit(isPlus: bool): nat {
    if isPlus then PLUS_BUDGET else FREE_BUDGET
  }

  /** The conditional UPDATE: the new row if the bytes still fit. */
  function Consumed(b: Budget, bytes: nat, isPlus: bool): Option<Budget> {
    if b.bytesUsed + bytes <= Limit(isPlus) then Some(b.(bytesUsed := b.bytesUsed + bytes)) else None
  }

  class BudgetTable {
    var rows: map<string, Budget>

    function RowOf(user: string): Option<Budget>
      reads this
    {
      if user in rows then Some(rows[user]) else None
    }

    constructor ()
      ensures rows == map[]
    {
      rows := map[];
    }

    method GetOrCreateSocialBudget(user: string, now: nat) returns (b: Budget)
      modifies this
      ensures b == Opened(old(RowOf(user)), now) && rows == old(rows)[user := b]
    {
      if user !in rows {
        b := Budget(0, now);
        rows := rows[user := b];
        return;
      }
      b := rows[user];
      if now - b.weekStart >= WEEK {
        b := Budget(0, now);
      }
      rows := rows[user := b];
    }

    method ConsumeSocialBudget(user: string, bytes: nat, isPlus: bool, now: nat)
      returns (allowed: bool, used: nat, limit: nat)
      modifies this
      ensures var b := Opened(old(RowOf(user)), now);
              && allowed == Consumed(b, bytes, isPlus).Some?
              && rows == old(rows)[user := if allowed then Consumed(b, bytes, isPlus).value else b]
      ensures used == rows[user].bytesUsed && limit == Limit(isPlus)
    {
      var b := GetOrCreateSocialBudget(user, now);
      limit := FREE_BUDGET;
      if isPlus {
        limit := PLUS_BUDGET;
      }
      allowed := b.bytesUsed + bytes <= limit;
      if allowed {
        rows := rows[user := Budget(b.bytesUsed + bytes, b.weekStart)];
      }
      used := rows[user].bytesUsed;
    }
  }

  // ---- Runs of one user -------------------------------------------------------------

  datatype Story = Story(id: nat, bytes: nat, created: nat, expires: nat)

  /** A charge against the budget: when, in which of the windows opened so far, on which plan. */
  datatype Charge = Charge(bytes: nat, at: nat, window: nat, isPlus: bool)

  /** When a window was opened, and how many wipes had lost the budget row by then. */
  datatype Window = Window(at: nat, losses: nat)

  /** `windows` lists every window opened so far, `charges` every charge made, and `losses` the
      instants at which a wipe lost the budget row. */
  datatype State = State(
    now: nat,
    budget: Option<Budget>,
    stories: seq<Story>,
    windows: seq<Window>,
    charges: seq<Charge>,
    losses: seq<nat>)

  datatype Event =
    | Tick(dt: nat)
    | Look                                                        // reads the budget, resetting it if due
    | Post(id: nat, bytes: nat, isPlus: bool, inserted: bool)
    | Delete(id: nat)
    | Prune
    | Wipe(storiesGone: bool, budgetGone: bool)                    // either statement may fail unnoticed

  function Init(now: nat): State {
    State(now, None, [], [], [], [])
  }

  function Open(s: State): State {
    var b := Opened(s.budget, s.now);
    s.(budget := Some(b), windows := if s.budget == Some(b) then s.windows else s.windows + [Window(s.now, |s.losses|)])
  }

  function Keep(stories: seq<Story>, keep: Story -> bool): seq<Story> {
    if stories == [] then []
    else if keep(stories[0]) then [stories[0]] + Keep(stories[1..], keep)
    else Keep(stories[1..], keep)
  }

  function Next(s: State, e: Event): State {
    match e
    case Tick(dt) => s.(now := s.now + dt)
    case Look => Open(s)
    case Post(id, bytes, isPlus, inserted) =>
      var t := Open(s);
      var after := Consumed(t.budget.value, bytes, isPlus);
      if after.None? then t
      else
        t.(budget := after,
           charges := t.charges + [Charge(bytes, s.now, |t.windows|, isPlus)],
           stories := if inserted then t.stories + [Story(id, bytes, s.now, s.now + STORY_TTL)] else t.stories)
    case Delete(id) => s.(stories := Keep(s.stories, (st: Story) => st.id != id))
    case Prune => s.(stories := Keep(s.stories, (st: Story) => st.expires > s.now))
    case Wipe(storiesGone, budgetGone) =>
      s.(stories := if storiesGone then [] else s.stories, budget := if budgetGone then None else s.budget,
         losses := if budgetGone && s.budget.Some? then s.losses + [s.now] else s.losses)
  }

  function After(s: State, es: seq<Event>): State
    decreases |es|
  {
    if es == [] then s else After(Next(s, es[0]), es[1..])
  }

  /** The bytes of the stored stories created at or after an instant. */
  function BytesSince(stories: seq<Story>, from: nat): nat {
    if stories == [] then 0
    else (if stories[0].created >= from then stories[0].bytes else 0) + BytesSince(stories[1..], from)
  }

  lemma {:induction false} KeepOnlyRemoves(stories: seq<Story>, keep: Story -> bool, from: nat)
    ensures BytesSince(Keep(stories, keep), from) <= BytesSince(stories, from)
    ensures forall st :: st in Keep(stories, keep) ==> st in stories
  {
    if stories != [] {
      KeepOnlyRemoves(stories[1..], keep, from);
    }
  }

  lemma {:induction false} BytesSnoc(stories: seq<Story>, st: Story, from: nat)
    ensures BytesSince(stories + [st], from) == BytesSince(stories, from) + (if st.created >= from then st.bytes else 0)
  {
    if stories == [] {
      assert stories + [st] == [st];
      assert BytesSince([], from) == 0;
    } else {
      assert (stories + [st])[1..] == stories[1..] + [st];
      BytesSnoc(stories[1..], st, from);
    }
  }

  lemma {:induction false} NothingSince(stories: seq<Story>, from: nat)
    requires forall st :: st in stories ==> st.created < from
    ensures BytesSince(stories, from) == 0
  {
    if stories != [] {
      NothingSince(stories[1..], from);
    }
  }

  // ---- The budget bounds the stories --------------------------------------------------

  ghost predicate Bounded(s: State) {
    && (forall st :: st in s.stories ==> st.created <= s.now)
    && match s.budget
       case None => BytesSince(s.stories, s.now) == 0
       case Some(b) =>
         && b.weekStart <= s.now
         && BytesSince(s.stories, b.weekStart) <= b.bytesUsed <= PLUS_BUDGET
         && forall st :: st in s.stories ==> st.created < b.weekStart + WEEK
  }

  /** What the next reader of the budget is promised: the stories posted since week_start fit
      into bytes_used, and that into the Plus limit. */
  predicate Promised(s: State) {
    var t := Open(s);
    BytesSince(t.stories, t.budget.value.weekStart) <= t.budget.value.bytesUsed <= PLUS_BUDGET
  }

  /** A wipe that loses the budget row has removed the stories, or none of their bytes were
      posted at that very instant. */
  predicate Careful(s: State, e: Event) {
    e.Wipe? && e.budgetGone && !e.storiesGone ==> BytesSince(s.stories, s.now) == 0
  }

  lemma {:induction false} LaterCountsLess(stories: seq<Story>, from: nat, later: nat)
    requires from <= later
    ensures BytesSince(stories, later) <= BytesSince(stories, from)
  {
    if stories != [] {
      LaterCountsLess(stories[1..], from, later);
    }
  }

  lemma OpenKeepsBound(s: State)
    requires Bounded(s)
    ensures Bounded(Open(s)) && Open(s).now == s.now && Open(s).now < Open(s).budget.value.weekStart + WEEK
  {
    if s.budget.Some? && s.now - s.budget.value.weekStart >= WEEK {
      NothingSince(s.stories, s.now);
    }
  }

  lemma PostKeepsBound(s: State, e: Event)
    requires Bounded(s) && e.Post?
    ensures Bounded(Next(s, e))
  {
    OpenKeepsBound(s);
    BytesSnoc(s.stories, Story(e.id, e.bytes, s.now, s.now + STORY_TTL), Open(s).budget.value.weekStart);
  }

  lemma KeepBound(s: State, keep: Story -> bool)
    requires Bounded(s)
    ensures Bounded(s.(stories := Keep(s.stories, keep)))
  {
    KeepOnlyRemoves(s.stories, keep, if s.budget.Some? then s.budget.value.weekStart else s.now);
  }

  lemma WipeBound(s: State, e: Event)
    requires Bounded(s) && e.Wipe?
    ensures Careful(s, e) ==> Bounded(Next(s, e))
    ensures !Careful(s, e) ==> !Promised(Next(s, e))
  {}

  lemma BoundStep(s: State, e: Event)
    requires Bounded(s) && Careful(s, e)
    ensures Bounded(Next(s, e))
  {
    match e
    case Tick(dt) => LaterCountsLess(s.stories, s.now, s.now + dt);
    case Post(id, bytes, isPlus, inserted) => PostKeepsBound(s, e);
    case Look => OpenKeepsBound(s);
    case Delete(id) => KeepBound(s, (st: Story) => st.id != id);
    case Prune => KeepBound(s, (st: Story) => st.expires > s.now);
    case Wipe(storiesGone, budgetGone) => WipeBound(s, e);
  }

  predicate PromisedThroughout(s: State, es: seq<Event>)
    decreases |es|
  {
    Promised(s) && (es != [] ==> PromisedThroughout(Next(s, es[0]), es[1..]))
  }

  predicate CarefulRun(s: State, es: seq<Event>)
    decreases |es|
  {
    es != [] ==> Careful(s, es[0]) && CarefulRun(Next(s, es[0]), es[1..])
  }

  lemma {:induction false} BudgetHoldsExactly(s: State, es: seq<Event>)
    requires Bounded(s)
    ensures PromisedThroughout(s, es) <==> CarefulRun(s, es)
    decreases |es|
  {
    OpenKeepsBound(s);
    if es != [] {
      if Careful(s, es[0]) {
        BoundStep(s, es[0]);
        BudgetHoldsExactly(Next(s, es[0]), es[1..]);
      } else {
        WipeBound(s, es[0]);
      }
    }
  }

  /** Main result: from an unused account, through resets, failed inserts, deletions, prunes,
      wipes and changes of plan, the stories stay within the budget at every moment exactly when
      no wipe loses the budget row while leaving bytes posted at that same instant. */
  lemma StoriesStayWithinBudgetExactly(start: nat, es: seq<Event>)
    ensures PromisedThroughout(Init(start), es) <==> CarefulRun(Init(start), es)
  {
    BudgetHoldsExactly(Init(start), es);
  }

  predicate FreeOnly(es: seq<Event>) {
    forall i :: 0 <= i < |es| && es[i].Post? ==> !es[i].isPlus
  }

  /** Without Plus no run gets beyond the free ten megabytes. */
  lemma {:induction false} FreeUsersStayFree(s: State, es: seq<Event>)
    requires FreeOnly(es) && (s.budget.Some? ==> s.budget.value.bytesUsed <= 10 * 1024 * 1024)
    ensures After(s, es).budget.Some? ==> After(s, es).budget.value.bytesUsed <= 10 * 1024 * 1024
    decreases |es|
  {
    if es != [] {
      FreeUsersStayFree(Next(s, es[0]), es[1..]);
    }
  }

  // ---- Any seven days ------------------------------------------------------------------

  function ChargedIn(cs: seq<Charge>, n: nat, from: nat, to: nat): nat
    requires n <= |cs|
  {
    if n == 0 then 0
    else ChargedIn(cs, n - 1, from, to) + (if from <= cs[n - 1].at < to then cs[n - 1].bytes else 0)
  }

  function ChargedTo(cs: seq<Charge>, n: nat, window: nat): nat
    requires n <= |cs|
  {
    if n == 0 then 0 else ChargedTo(cs, n - 1, window) + (if cs[n - 1].window == window then cs[n - 1].bytes else 0)
  }

  lemma {:induction false} ChargedPrefix(cs: seq<Charge>, c: Charge, n: nat, window: nat)
    requires n <= |cs|
    ensures ChargedTo(cs + [c], n, window) == ChargedTo(cs, n, window)
  {
    if n > 0 {
      ChargedPrefix(cs, c, n - 1, window);
    }
  }

  /** A window opens a week after the one before it at the earliest, unless the row was lost since. */
  ghost predicate WindowsApart(ws: seq<Window>) {
    forall i :: 0 < i < |ws| ==>
      ws[i - 1].at <= ws[i].at && ws[i - 1].losses <= ws[i].losses &&
      (ws[i].at - ws[i - 1].at >= WEEK || ws[i - 1].losses < ws[i].losses)
  }

  /** The losses a window has seen came before it, the others after it. */
  ghost predicate LossesPlaced(ws: seq<Window>, losses: seq<nat>, now: nat) {
    && (forall i :: 0 <= i < |losses| ==> losses[i] <= now)
    && (forall k :: 0 <= k < |ws| ==>
          && ws[k].losses <= |losses| && ws[k].at <= now
          && (forall i :: 0 <= i < ws[k].losses ==> losses[i] <= ws[k].at)
          && (forall i :: ws[k].losses <= i < |losses| ==> ws[k].at <= losses[i]))
  }

  /** Windows are numbered from one: window k is ws[k - 1]. */
  predicate InWindow(ws: seq<Window>, c: Charge) {
    && 1 <= c.window <= |ws|
    && ws[c.window - 1].at <= c.at
    && (c.window < |ws| ==> c.at <= ws[c.window].at)
    && c.at < ws[c.window - 1].at + WEEK
  }

  ghost predicate ChargesPlaced(ws: seq<Window>, cs: seq<Charge>, now: nat) {
    forall i :: 0 <= i < |cs| ==> InWindow(ws, cs[i]) && cs[i].at <= now
  }

  /** Each charge, on top of all earlier ones of its window, fits the plan it was made under. */
  ghost predicate FitsPlans(cs: seq<Charge>) {
    forall i :: 0 <= i < |cs| ==> ChargedTo(cs, i + 1, cs[i].window) <= Limit(cs[i].isPlus)
  }

  /** The budget row is the running total of the latest window, opened since the last loss. */
  predicate Tied(s: State) {
    match s.budget
    case None => s.windows == [] || s.windows[|s.windows| - 1].losses < |s.losses|
    case Some(b) =>
      && s.windows != []
      && s.windows[|s.windows| - 1] == Window(b.weekStart, |s.losses|)
      && b.weekStart <= s.now
      && ChargedTo(s.charges, |s.charges|, |s.windows|) == b.bytesUsed
  }

  ghost predicate Ledger(s: State) {
    && Tied(s) && WindowsApart(s.windows) && LossesPlaced(s.windows, s.losses, s.now)
    && ChargesPlaced(s.windows, s.charges, s.now) && FitsPlans(s.charges)
  }

  lemma {:induction false} NothingChargedTo(cs: seq<Charge>, n: nat, window: nat)
    requires n <= |cs| && forall i :: 0 <= i < n ==> cs[i].window != window
    ensures ChargedTo(cs, n, window) == 0
  {
    if n > 0 {
      NothingChargedTo(cs, n - 1, window);
    }
  }

  /** A new window, due because the last one is over or its row was lost. */
  lemma NewWindow(ws: seq<Window>, cs: seq<Charge>, losses: seq<nat>, now: nat)
    requires WindowsApart(ws) && LossesPlaced(ws, losses, now) && ChargesPlaced(ws, cs, now)
    requires ws != [] ==> now - ws[|ws| - 1].at >= WEEK || ws[|ws| - 1].losses < |losses|
    ensures var all := ws + [Window(now, |losses|)];
            WindowsApart(all) && LossesPlaced(all, losses, now) && ChargesPlaced(all, cs, now)
  {
    var all := ws + [Window(now, |losses|)];
    forall i | 0 <= i < |cs| ensures InWindow(all, cs[i]) && cs[i].at <= now {
      assert InWindow(ws, cs[i]);
    }
  }

  lemma OpenLedger(s: State)
    requires Ledger(s)
    ensures Ledger(Open(s)) && Open(s).budget.Some?
    ensures Open(s).now == s.now < Open(s).budget.value.weekStart + WEEK
  {
    var t := Open(s);
    if t.windows != s.windows {
      assert forall i :: 0 <= i < |s.charges| ==> InWindow(s.windows, s.charges[i]);
      NothingChargedTo(s.charges, |s.charges|, |t.windows|);
      NewWindow(s.windows, s.charges, s.losses, s.now);
    }
  }

  lemma {:induction false} ChargedSnoc(cs: seq<Charge>, c: Charge, window: nat)
    ensures ChargedTo(cs + [c], |cs| + 1, window) ==
            ChargedTo(cs, |cs|, window) + (if c.window == window then c.bytes else 0)
  {
    ChargedPrefix(cs, c, |cs|, window);
  }

  lemma ChargeFits(cs: seq<Charge>, c: Charge)
    requires FitsPlans(cs) && ChargedTo(cs, |cs|, c.window) + c.bytes <= Limit(c.isPlus)
    ensures FitsPlans(cs + [c])
  {
    var all := cs + [c];
    forall i | 0 <= i < |all| ensures ChargedTo(all, i + 1, all[i].window) <= Limit(all[i].isPlus) {
      if i == |cs| {
        ChargedSnoc(cs, c, c.window);
      } else {
        ChargedPrefix(cs, c, i + 1, cs[i].window);
        assert ChargedTo(cs, i + 1, cs[i].window) <= Limit(cs[i].isPlus);
      }
    }
  }

  lemma ChargeIsPlaced(ws: seq<Window>, cs: seq<Charge>, c: Charge, now: nat)
    requires ChargesPlaced(ws, cs, now) && ws != []
    requires c.window == |ws| && ws[|ws| - 1].at <= c.at == now < ws[|ws| - 1].at + WEEK
    ensures ChargesPlaced(ws, cs + [c], now)
  {
    assert InWindow(ws, c);
  }

  /** The state after a charge to the open window. */
  function Charged(t: State, bytes: nat, isPlus: bool, stories: seq<Story>): State
    requires t.budget.Some?
  {
    var b := t.budget.value;
    t.(budget := Some(b.(bytesUsed := b.bytesUsed + bytes)), stories := stories,
       charges := t.charges + [Charge(bytes, t.now, |t.windows|, isPlus)])
  }

  lemma ChargeTied(t: State, bytes: nat, isPlus: bool, stories: seq<Story>)
    requires Tied(t) && t.budget.Some?
    ensures Tied(Charged(t, bytes, isPlus, stories))
  {
    ChargedSnoc(t.charges, Charge(bytes, t.now, |t.windows|, isPlus), |t.windows|);
  }

  lemma ChargeLedger(t: State, bytes: nat, isPlus: bool, stories: seq<Story>)
    requires Ledger(t) && t.budget.Some? && t.now < t.budget.value.weekStart + WEEK
    requires t.budget.value.bytesUsed + bytes <= Limit(isPlus)
    ensures Ledger(Charged(t, bytes, isPlus, stories))
  {
    var c := Charge(bytes, t.now, |t.windows|, isPlus);
    ChargeTied(t, bytes, isPlus, stories);
    ChargeFits(t.charges, c);
    ChargeIsPlaced(t.windows, t.charges, c, t.now);
  }

  lemma PostIsACharge(s: State, e: Event)
    requires e.Post?
    ensures var t, u := Open(s), Next(s, e);
            if t.budget.value.bytesUsed + e.bytes <= Limit(e.isPlus)
            then u == Charged(t, e.bytes, e.isPlus, u.stories) else u == t
  {}

  lemma PostLedger(s: State, e: Event)
    requires Ledger(s) && e.Post?
    ensures Ledger(Next(s, e))
  {
    var t := Open(s);
    OpenLedger(s);
    PostIsACharge(s, e);
    if t.budget.value.bytesUsed + e.bytes <= Limit(e.isPlus) {
      ChargeLedger(t, e.bytes, e.isPlus, Next(s, e).stories);
    }
  }

  lemma LossPlaced(ws: seq<Window>, losses: seq<nat>, now: nat)
    requires LossesPlaced(ws, losses, now)
    ensures LossesPlaced(ws, losses + [now], now)
  {}

  lemma WipeLedger(s: State, e: Event)
    requires Ledger(s) && e.Wipe?
    ensures Ledger(Next(s, e))
  {
    var ws := s.windows;
    LossPlaced(ws, s.losses, s.now);
    assert ws != [] ==> ws[|ws| - 1].losses <= |s.losses|;
    assert Tied(Next(s, e));
  }

  lemma LedgerStep(s: State, e: Event)
    requires Ledger(s)
    ensures Ledger(Next(s, e))
  {
    if e.Post? {
      PostLedger(s, e);
    } else if e.Look? {
      OpenLedger(s);
    } else if e.Wipe? {
      WipeLedger(s, e);
    }
  }

  lemma {:induction false} LedgerRun(s: State, es: seq<Event>)
    requires Ledger(s)
    ensures Ledger(After(s, es))
    decreases |es|
  {
    if es != [] {
      LedgerStep(s, es[0]);
      LedgerRun(Next(s, es[0]), es[1..]);
    }
  }

  /** In every run each charge, together with all earlier ones of its window, fits the plan it was
      made under: on the free plan not even bytes charged under a lapsed Plus count for more. */
  lemma ChargedPostsFitTheirPlan(start: nat, es: seq<Event>, i: nat)
    requires i < |After(Init(start), es).charges|
    ensures var cs := After(Init(start), es).charges;
            ChargedTo(cs, i + 1, cs[i].window) <= if cs[i].isPlus then 100 * 1024 * 1024 else 10 * 1024 * 1024
  {
    LedgerRun(Init(start), es);
  }

  lemma {:induction false} WindowsCapped(cs: seq<Charge>, n: nat, window: nat)
    requires FitsPlans(cs) && n <= |cs|
    ensures ChargedTo(cs, n, window) <= PLUS_BUDGET
  {
    if n > 0 {
      WindowsCapped(cs, n - 1, window);
      if cs[n - 1].window == window {
        assert ChargedTo(cs, n, cs[n - 1].window) <= Limit(cs[n - 1].isPlus);
      }
    }
  }

  /** The wipes that lost the budget row inside an interval, among the first n. */
  function LossesIn(losses: seq<nat>, n: nat, from: nat, to: nat): nat
    requires n <= |losses|
  {
    if n == 0 then 0 else LossesIn(losses, n - 1, from, to) + (if from <= losses[n - 1] < to then 1 else 0)
  }

  lemma {:induction false} LossesBetween(losses: seq<nat>, a: nat, b: nat, n: nat, from: nat, to: nat)
    requires a <= b <= n <= |losses| && forall i :: a <= i < b ==> from <= losses[i] < to
    ensures b - a <= LossesIn(losses, n, from, to)
  {
    if n > 0 {
      if b == n && a < b {
        LossesBetween(losses, a, b - 1, n - 1, from, to);
      } else if b < n {
        LossesBetween(losses, a, b, n - 1, from, to);
      }
    }
  }

  /** Windows opened within less than a week of each other have a loss between any two of them. */
  lemma {:induction false} QuickWindowsNeedLosses(ws: seq<Window>, a: nat, b: nat)
    requires WindowsApart(ws) && a <= b < |ws| && ws[b].at < ws[a].at + WEEK
    ensures ws[a].at <= ws[b].at && b - a <= ws[b].losses - ws[a].losses
    decreases b - a
  {
    if a < b {
      assert ws[b - 1].at <= ws[b].at;
      QuickWindowsNeedLosses(ws, a, b - 1);
    }
  }

  /** Charges inside one week-long interval sit in neighbouring windows, one more than the two for
      every loss inside the interval. */
  lemma FewWindows(s: State, a: Charge, b: Charge, from: nat)
    requires Ledger(s) && InWindow(s.windows, a) && InWindow(s.windows, b) && a.window <= b.window
    requires from <= a.at < from + WEEK && from <= b.at < from + WEEK
    ensures b.window <= a.window + 1 + LossesIn(s.losses, |s.losses|, from, from + WEEK)
  {
    if b.window > a.window + 1 {
      var ws, p, q := s.windows, a.window, b.window - 1;
      assert from <= ws[p].at && ws[q].at < from + WEEK;
      QuickWindowsNeedLosses(ws, p, q);
      forall i | ws[p].losses <= i < ws[q].losses ensures from <= s.losses[i] < from + WEEK {
        assert ws[p].at <= s.losses[i] <= ws[q].at;
      }
      LossesBetween(s.losses, ws[p].losses, ws[q].losses, |s.losses|, from, from + WEEK);
    }
  }

  /** What was charged to the `k` windows from w on. */
  function ChargedToAll(cs: seq<Charge>, n: nat, w: nat, k: nat): nat
    requires n <= |cs|
  {
    if k == 0 then 0 else ChargedToAll(cs, n, w, k - 1) + ChargedTo(cs, n, w + k - 1)
  }

  lemma {:induction false} AllCapped(cs: seq<Charge>, w: nat, k: nat)
    requires FitsPlans(cs)
    ensures ChargedToAll(cs, |cs|, w, k) <= k * PLUS_BUDGET
  {
    if k > 0 {
      AllCapped(cs, w, k - 1);
      WindowsCapped(cs, |cs|, w + k - 1);
    }
  }

  lemma {:induction false} OneMoreCharge(cs: seq<Charge>, n: nat, w: nat, k: nat)
    requires 0 < n <= |cs|
    ensures ChargedToAll(cs, n, w, k) ==
            ChargedToAll(cs, n - 1, w, k) + (if w <= cs[n - 1].window < w + k then cs[n - 1].bytes else 0)
  {
    if k > 0 {
      OneMoreCharge(cs, n, w, k - 1);
    }
  }

  lemma {:induction false} IntervalSum(cs: seq<Charge>, n: nat, from: nat, to: nat, w: nat, k: nat)
    requires n <= |cs|
    requires forall i :: 0 <= i < n && from <= cs[i].at < to ==> w <= cs[i].window < w + k
    ensures ChargedIn(cs, n, from, to) <= ChargedToAll(cs, n, w, k)
  {
    if n > 0 {
      IntervalSum(cs, n - 1, from, to, w, k);
      OneMoreCharge(cs, n, w, k);
    }
  }

  /** The smallest window charged inside the interval, if any. */
  lemma {:induction false} FirstWindow(cs: seq<Charge>, n: nat, from: nat, to: nat) returns (w: nat, found: bool, at: nat)
    requires n <= |cs|
    ensures found ==> at < n && cs[at].window == w && from <= cs[at].at < to
    ensures forall i :: 0 <= i < n && from <= cs[i].at < to ==> found && w <= cs[i].window
  {
    if n == 0 {
      w, found, at := 0, false, 0;
    } else {
      w, found, at := FirstWindow(cs, n - 1, from, to);
      if from <= cs[n - 1].at < to && (!found || cs[n - 1].window < w) {
        w, found, at := cs[n - 1].window, true, n - 1;
      }
    }
  }

  lemma WindowsOfSevenDays(s: State, from: nat) returns (w: nat)
    requires Ledger(s)
    ensures var k := 2 + LossesIn(s.losses, |s.losses|, from, from + WEEK);
            forall i :: 0 <= i < |s.charges| && from <= s.charges[i].at < from + WEEK ==> w <= s.charges[i].window < w + k
  {
    var cs, found, at := s.charges, false, 0;
    w, found, at := FirstWindow(cs, |cs|, from, from + WEEK);
    forall i | 0 <= i < |cs| && from <= cs[i].at < from + WEEK
      ensures w <= cs[i].window < w + 2 + LossesIn(s.losses, |s.losses|, from, from + WEEK)
    {
      assert InWindow(s.windows, cs[at]) && InWindow(s.windows, cs[i]);
      FewWindows(s, cs[at], cs[i], from);
    }
  }

  lemma SevenDays(s: State, from: nat)
    requires Ledger(s)
    ensures ChargedIn(s.charges, |s.charges|, from, from + WEEK) <=
            (2 + LossesIn(s.losses, |s.losses|, from, from + WEEK)) * PLUS_BUDGET
  {
    var k := 2 + LossesIn(s.losses, |s.losses|, from, from + WEEK);
    var w := WindowsOfSevenDays(s, from);
    IntervalSum(s.charges, |s.charges|, from, from + WEEK, w, k);
    AllCapped(s.charges, w, k);
  }

  /** Main result, for every run: no half-open interval of seven days admits more than two windows'
      worth of budget and one more for each wipe that lost the budget row inside it. */
  lemma AnySevenDays(start: nat, es: seq<Event>, from: nat)
    ensures var s := After(Init(start), es);
            var end := from + 7 * 24 * 3_600_000_000_000;
            ChargedIn(s.charges, |s.charges|, from, end) <= (2 + LossesIn(s.losses, |s.losses|, from, end)) * (100 * 1024 * 1024)
  {
    LedgerRun(Init(start), es);
    SevenDays(After(Init(start), es), from);
  }

  /** What the history says has been charged in the week that is running, if one is: its window is
      less than a week old and its row was not lost since. */
  function ChargedThisWeek(s: State): nat {
    var n := |s.windows|;
    if n == 0 || s.now - s.windows[n - 1].at >= 7 * 24 * 3_600_000_000_000 || s.windows[n - 1].losses < |s.losses| then 0
    else ChargedTo(s.charges, |s.charges|, n)
  }

  /** The window that is open belongs to the running week. */
  predicate Running(t: State) {
    && t.windows != [] && t.now - t.windows[|t.windows| - 1].at < WEEK
    && t.windows[|t.windows| - 1].losses == |t.losses|
  }

  lemma OpenShowsThisWeek(s: State)
    requires Ledger(s)
    ensures Running(Open(s)) && Open(s).budget.value.bytesUsed == ChargedThisWeek(s) == ChargedThisWeek(Open(s))
  {
    OpenLedger(s);
    if s.windows != [] {
      assert s.windows[|s.windows| - 1].losses <= |s.losses|;
    }
  }

  lemma ChargeCounts(t: State, bytes: nat, isPlus: bool, stories: seq<Story>)
    requires Running(t) && t.budget.Some?
    ensures ChargedThisWeek(Charged(t, bytes, isPlus, stories)) == ChargedThisWeek(t) + bytes
  {
    ChargedSnoc(t.charges, Charge(bytes, t.now, |t.windows|, isPlus), |t.windows|);
  }

  /** After any run a post is charged exactly when its bytes and all charges of the running week
      fit the plan; a week that is over or was wiped counts for nothing. */
  lemma PostsAreChargedExactly(start: nat, es: seq<Event>, e: Event)
    requires e.Post?
    ensures var s := After(Init(start), es);
            if ChargedThisWeek(s) + e.bytes <= Limit(e.isPlus)
            then |Next(s, e).charges| == |s.charges| + 1 && ChargedThisWeek(Next(s, e)) == ChargedThisWeek(s) + e.bytes
            else Next(s, e).charges == s.charges && Next(s, e).stories == s.stories
  {
    LedgerRun(Init(start), es);
    var s := After(Init(start), es);
    OpenShowsThisWeek(s);
    PostIsACharge(s, e);
    ChargeCounts(Open(s), e.bytes, e.isPlus, Next(s, e).stories);
  }

  ghost predicate IsCharged(cs: seq<Charge>, st: Story) {
    exists c :: c in cs && c.bytes == st.bytes && c.at == st.created
  }

  lemma ChargedStep(s: State, e: Event, st: Story)
    requires st in Next(s, e).stories && (st in s.stories ==> IsCharged(s.charges, st))
    ensures IsCharged(Next(s, e).charges, st)
  {
    var t := Next(s, e);
    if e.Delete? {
      KeepOnlyRemoves(s.stories, (x: Story) => x.id != e.id, 0);
    } else if e.Prune? {
      KeepOnlyRemoves(s.stories, (x: Story) => x.expires > s.now, 0);
    }
    if st in s.stories {
      var c :| c in s.charges && c.bytes == st.bytes && c.at == st.created;
      assert c in t.charges;
    } else {
      assert t.charges[|s.charges|] == Charge(st.bytes, st.created, |Open(s).windows|, e.isPlus);
    }
  }

  lemma {:induction false} ChargedRun(s: State, es: seq<Event>)
    requires forall st :: st in s.stories ==> IsCharged(s.charges, st)
    ensures forall st :: st in After(s, es).stories ==> IsCharged(After(s, es).charges, st)
    decreases |es|
  {
    if es != [] {
      var t := Next(s, es[0]);
      forall st | st in t.stories ensures IsCharged(t.charges, st) {
        ChargedStep(s, es[0], st);
      }
      ChargedRun(t, es[1..]);
    }
  }

  /** No story is stored for free: in every run, wipes included, each one was charged in full at
      the instant it was posted. */
  lemma StoriesAreCharged(start: nat, es: seq<Event>, st: Story)
    requires st in After(Init(start), es).stories
    ensures exists c :: c in After(Init(start), es).charges && c.bytes == st.bytes && c.at == st.created
  {
    ChargedRun(Init(start), es);
    assert IsCharged(After(Init(start), es).charges, st);
  }

  // ---- The bound is reached for every number of wipes --------------------------------------

  const FULL := Post(0, PLUS_BUDGET, true, true)

  /** The budget is used up at the instant WEEK, `n` windows' worth since the instant 1. */
  predicate UsedUp(s: State, n: nat, wipes: nat) {
    && s.now == WEEK && s.budget.Some?
    && ChargedIn(s.charges, |s.charges|, 1, 1 + WEEK) == n * PLUS_BUDGET
    && LossesIn(s.losses, |s.losses|, 1, 1 + WEEK) == wipes
  }

  lemma {:induction false} ChargedInPrefix(cs: seq<Charge>, c: Charge, n: nat, from: nat, to: nat)
    requires n <= |cs|
    ensures ChargedIn(cs + [c], n, from, to) == ChargedIn(cs, n, from, to)
  {
    if n > 0 {
      ChargedInPrefix(cs, c, n - 1, from, to);
    }
  }

  lemma {:induction false} LossesInPrefix(losses: seq<nat>, at: nat, n: nat, from: nat, to: nat)
    requires n <= |losses|
    ensures LossesIn(losses + [at], n, from, to) == LossesIn(losses, n, from, to)
  {
    if n > 0 {
      LossesInPrefix(losses, at, n - 1, from, to);
    }
  }

  lemma {:induction false} AfterBoth(s: State, es: seq<Event>, fs: seq<Event>)
    ensures After(s, es + fs) == After(After(s, es), fs)
    decreases |es|
  {
    if es == [] {
      assert es + fs == fs;
    } else {
      assert (es + fs)[1..] == es[1..] + fs;
      AfterBoth(Next(s, es[0]), es[1..], fs);
    }
  }

  lemma AfterTwo(s: State, d: Event, e: Event)
    ensures After(s, [d, e]) == Next(Next(s, d), e)
  {
    var es := [d, e];
    assert es[1..] == [e];
    assert After(Next(s, d), [e]) == After(Next(Next(s, d), e), []) by {
      assert [e][1..] == [];
    }
  }

  /** A full post into an unopened week adds one window's worth to the interval. */
  lemma FullPost(s: State, from: nat)
    requires s.budget == None || s.now - s.budget.value.weekStart >= WEEK || s.budget.value.bytesUsed == 0
    requires from <= s.now < from + WEEK
    ensures var t := Next(s, FULL);
            && t.now == s.now && t.budget.Some? && t.losses == s.losses
            && ChargedIn(t.charges, |t.charges|, from, from + WEEK) ==
               ChargedIn(s.charges, |s.charges|, from, from + WEEK) + PLUS_BUDGET
  {
    var t := Next(s, FULL);
    ChargedInPrefix(s.charges, t.charges[|s.charges|], |s.charges|, from, from + WEEK);
  }

  lemma WipeAndPost(s: State, n: nat, wipes: nat)
    requires UsedUp(s, n, wipes)
    ensures UsedUp(Next(Next(s, Wipe(true, true)), FULL), n + 1, wipes + 1)
  {
    var t := Next(s, Wipe(true, true));
    assert t.now == s.now && t.budget == None && t.charges == s.charges && t.losses == s.losses + [s.now];
    LossesInPrefix(s.losses, s.now, |s.losses|, 1, 1 + WEEK);
    FullPost(t, 1);
  }

  /** A week's budget spent at its last instant, and the next week's a moment later. */
  lemma TwoWindows() returns (es: seq<Event>)
    ensures UsedUp(After(Init(0), es), 2, 0)
  {
    var s1 := After(Init(0), [Look, Tick(WEEK - 1)]);
    AfterTwo(Init(0), Look, Tick(WEEK - 1));
    FullPost(s1, 1);
    var s2 := After(s1, [FULL, Tick(1)]);
    AfterTwo(s1, FULL, Tick(1));
    assert s2.budget.value.weekStart == 0;
    FullPost(s2, 1);
    var s3 := After(s2, [FULL]);
    assert [FULL][1..] == [];
    AfterBoth(Init(0), [Look, Tick(WEEK - 1)], [FULL, Tick(1)]);
    AfterBoth(Init(0), [Look, Tick(WEEK - 1)] + [FULL, Tick(1)], [FULL]);
    es := [Look, Tick(WEEK - 1)] + [FULL, Tick(1)] + [FULL];
  }

  lemma {:induction false} UseUp(wipes: nat) returns (es: seq<Event>)
    ensures UsedUp(After(Init(0), es), 2 + wipes, wipes)
  {
    if wipes == 0 {
      es := TwoWindows();
    } else {
      var before := UseUp(wipes - 1);
      var s, more := After(Init(0), before), [Wipe(true, true), FULL];
      WipeAndPost(s, 1 + wipes, wipes - 1);
      AfterTwo(s, Wipe(true, true), FULL);
      AfterBoth(Init(0), before, more);
      es := before + more;
    }
  }

  /** For every number of wipes that lose the budget row some seven days admit exactly that many
      windows' worth more than two. */
  lemma WipesReopenTheBudget(wipes: nat) returns (es: seq<Event>, from: nat)
    ensures var s := After(Init(0), es);
            && LossesIn(s.losses, |s.losses|, from, from + WEEK) == wipes
            && ChargedIn(s.charges, |s.charges|, from, from + WEEK) == (2 + wipes) * PLUS_BUDGET
  {
    es := UseUp(wipes);
    from := 1;
  }
}
