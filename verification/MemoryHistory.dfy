/** What the shared maps answer, read off the calls alone: which call last set a name, and for how long. */
module MemoryHistory {
  import opened Text
  import opened MemoryBlocks

  /** The maps after the first k calls. */
  function StoreAt(calls: seq<Call>, k: nat): Store
    requires k <= |calls|
  {
    if k == 0 then Store(map[], map[], map[]) else Perform(StoreAt(calls, k - 1), calls[k - 1].op, calls[k - 1].now).0
  }

  predicate IsGate(op: Op) {
    op.AllowLargeUpload? || op.AllowFeed? || op.AllowReaction?
  }

  /** Call k sets its name: it stores, blocks or deletes, or it is a throttle that lets the caller through. */
  predicate Sets(calls: seq<Call>, k: nat)
    requires k < |calls|
  {
    match calls[k].op
    case IsQueueBlocked(_) => false
    case GetFileToken(_) => false
    case GetEntitlementHash(_) => false
    case GetIntegrityNonce(_) => false
    case AllowLargeUpload(_, _) => Perform(StoreAt(calls, k), calls[k].op, calls[k].now).1 == Verdict(true)
    case AllowFeed(_, _) => Perform(StoreAt(calls, k), calls[k].op, calls[k].now).1 == Verdict(true)
    case AllowReaction(_, _, _) => Perform(StoreAt(calls, k), calls[k].op, calls[k].now).1 == Verdict(true)
    case _ => true
  }

  /** Which of the first k calls set this name last. */
  function LastSet(calls: seq<Call>, k: nat, n: Name): (i: Option<nat>)
    requires k <= |calls|
    ensures i.Some? ==> i.value < k && Sets(calls, i.value) && Target(calls[i.value].op) == n
    ensures forall j :: (if i.Some? then i.value else -1) < j < k && Target(calls[j].op) == n ==> !Sets(calls, j)
  {
    if k == 0 then None
    else if Target(calls[k - 1].op) == n && Sets(calls, k - 1) then Some(k - 1)
    else LastSet(calls, k - 1, n)
  }

  /** What such a call leaves, and until when. */
  function Left(call: Call): Option<Cell> {
    match call.op
    case BlockQueue(_) => Some(Cell(call.now + 24 * 3600 * SECOND, Plain))
    case AllowLargeUpload(_, cooldown) => Some(Cell(call.now + cooldown, Plain))
    case AllowFeed(_, cooldown) => Some(Cell(call.now + cooldown, Plain))
    case AllowReaction(_, _, cooldown) => Some(Cell(call.now + cooldown, Plain))
    case StoreFileToken(_, messageID, userID) => Some(Cell(call.now + 600 * SECOND, Pair(messageID, userID)))
    case StoreEntitlement(_, hash, ttl) => Some(Cell(call.now + ttl, Data.Text(hash)))
    case StoreIntegrityNonce(_, nonce, ttl) => Some(Cell(call.now + ttl, Data.Text(nonce)))
    case _ => None
  }

  function LeftAt(calls: seq<Call>, k: nat, n: Name): Option<Cell>
    requires k <= |calls|
  {
    var i := LastSet(calls, k, n);
    if i.None? then None else Left(calls[i.value])
  }

  /** A call that sets its name is the last to have set it, and any other leaves what was there. */
  lemma LastSetNext(calls: seq<Call>, k: nat)
    requires 0 < k <= |calls|
    ensures LeftAt(calls, k, Target(calls[k - 1].op)) ==
            if Sets(calls, k - 1) then Left(calls[k - 1]) else LeftAt(calls, k - 1, Target(calls[k - 1].op))
  {}

  /** The simple form of call k leaves what it sets, or what was there. */
  lemma CellAfterCall(calls: seq<Call>, k: nat, c: Option<Cell>)
    requires 0 < k <= |calls|
    requires var call := calls[k - 1];
             c == LeftAt(calls, k - 1, Target(call.op)) &&
             Perform(StoreAt(calls, k - 1), call.op, call.now).1 == PerformCell(c, call.op, call.now).1
    ensures PerformCell(c, calls[k - 1].op, calls[k - 1].now).0 == LeftAt(calls, k, Target(calls[k - 1].op))
  {
    var op := calls[k - 1].op;
    LastSetNext(calls, k);
    if IsGate(op) {
      assert Sets(calls, k - 1) <==> PerformCell(c, op, calls[k - 1].now).1 == Verdict(true);
    }
  }

  lemma {:induction false} MapsHoldWhatIsLeft(calls: seq<Call>, k: nat, n: Name)
    requires k <= |calls| && WellFormed(n) && forall i :: 0 <= i < |calls| ==> Admissible(calls[i].op)
    ensures Holds(StoreAt(calls, k), n, LeftAt(calls, k, n))
  {
    if k > 0 {
      var op, now, c := calls[k - 1].op, calls[k - 1].now, LeftAt(calls, k - 1, n);
      MapsHoldWhatIsLeft(calls, k - 1, n);
      if Target(op) == n {
        OwnCell(StoreAt(calls, k - 1), op, now, c);
        CellAfterCall(calls, k, c);
      } else {
        OtherCell(StoreAt(calls, k - 1), op, now, n, c);
      }
    }
  }

  /** The last call that set this name was one that left it so, and that has not lapsed: an entry counts
      up to and including its expiry. */
  predicate LeavesUntil(calls: seq<Call>, n: Name, now: int, data: Data) {
    var i := LastSet(calls, |calls|, n);
    i.Some? && Left(calls[i.value]).Some? && Left(calls[i.value]).value.data == data && now <= Left(calls[i.value]).value.expires
  }

  /** A throttle is closed strictly before its end. */
  predicate Throttled(calls: seq<Call>, n: Name, now: int) {
    var i := LastSet(calls, |calls|, n);
    i.Some? && Left(calls[i.value]).Some? && now < Left(calls[i.value]).value.expires
  }

  /** What the simple form answers when the name was left like this. */
  lemma CellAnswers(calls: seq<Call>, op: Op, now: int, n: Name, c: Option<Cell>, answer: Answer)
    requires n == Target(op) && c == LeftAt(calls, |calls|, n) && answer == PerformCell(c, op, now).1
    ensures match op
            case IsQueueBlocked(_) => answer == Verdict(LeavesUntil(calls, n, now, Plain))
            case GetFileToken(_) =>
              && (forall m, u :: LeavesUntil(calls, n, now, Pair(m, u)) ==> answer == Ticket(m, u))
              && ((forall m, u :: !LeavesUntil(calls, n, now, Pair(m, u))) ==> answer == Ticket("", ""))
            case GetEntitlementHash(_) =>
              && (forall text :: LeavesUntil(calls, n, now, Data.Text(text)) ==> answer == Word(text))
              && ((forall text :: !LeavesUntil(calls, n, now, Data.Text(text))) ==> answer == Word(""))
            case GetIntegrityNonce(_) =>
              && (forall text :: LeavesUntil(calls, n, now, Data.Text(text)) ==> answer == Word(text))
              && ((forall text :: !LeavesUntil(calls, n, now, Data.Text(text))) ==> answer == Word(""))
            case _ => IsGate(op) ==> answer == Verdict(!Throttled(calls, n, now))
  {
    if c.Some? {
      assert LeavesUntil(calls, n, now, c.value.data) <==> now <= c.value.expires;
    }
  }

  /** Main result, for every history of calls on the shared maps: a queue is blocked for 24 hours from its
      last block unless unblocked, a file token gives back for ten minutes what was stored with it, a
      cached hash and a nonce last as long as they were stored for, and a throttle lets through exactly
      when the cooldown of the last call it let through is over. */
  lemma AnswersExactly(calls: seq<Call>, op: Op, now: int)
    requires (forall i :: 0 <= i < |calls| ==> Admissible(calls[i].op)) && Admissible(op)
    ensures var n, answer := Target(op), Perform(StoreAt(calls, |calls|), op, now).1;
            match op
            case IsQueueBlocked(_) => answer == Verdict(LeavesUntil(calls, n, now, Plain))
            case GetFileToken(_) =>
              && (forall m, u :: LeavesUntil(calls, n, now, Pair(m, u)) ==> answer == Ticket(m, u))
              && ((forall m, u :: !LeavesUntil(calls, n, now, Pair(m, u))) ==> answer == Ticket("", ""))
            case GetEntitlementHash(_) =>
              && (forall text :: LeavesUntil(calls, n, now, Data.Text(text)) ==> answer == Word(text))
              && ((forall text :: !LeavesUntil(calls, n, now, Data.Text(text))) ==> answer == Word(""))
            case GetIntegrityNonce(_) =>
              && (forall text :: LeavesUntil(calls, n, now, Data.Text(text)) ==> answer == Word(text))
              && ((forall text :: !LeavesUntil(calls, n, now, Data.Text(text))) ==> answer == Word(""))
            case _ => IsGate(op) ==> answer == Verdict(!Throttled(calls, n, now))
  {
    var n := Target(op);
    MapsHoldWhatIsLeft(calls, |calls|, n);
    var c := LeftAt(calls, |calls|, n);
    OwnCell(StoreAt(calls, |calls|), op, now, c);
    CellAnswers(calls, op, now, n, c, Perform(StoreAt(calls, |calls|), op, now).1);
  }
}
