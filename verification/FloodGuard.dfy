/** The per-connection flood guard (websocket.go, handlers.go): a token bucket that the read
    loop charges once per frame and a broadcast charges once per further recipient. Time is
    in seconds and the bucket is a real number. */
module FloodGuard {
  import opened Text

  const BUCKET_CAPACITY := 200.0
  const REFILL_PER_SEC := 100.0
  const MAX_BROADCAST_RECIPIENTS := 256

  /** One frame as read from the socket: a group broadcast, a frame for one recipient (a message,
      a typing status or a nuke), or one that only answers its sender. `gatesPass` and `blocked`
      are what the size, premium, cooldown, presence and nuke checks answer while it is handled. */
  datatype Frame =
    | Malformed
    | Broadcast(recipients: seq<string>, gatesPass: bool, blocked: set<string>)
    | Direct(recipient: string, gatesPass: bool)
    | OwnRequest

  datatype Arrival = Arrival(frame: Frame, at: real)

  // ---- The recipients of a broadcast -------------------------------------------------

  /** The distinct recipients in order of first mention, without empty ids and the sender. */
  function Recipients(self: string, rs: seq<string>): seq<string> {
    if rs == [] then []
    else
      var before := Recipients(self, rs[..|rs| - 1]);
      var r := rs[|rs| - 1];
      if r == "" || r == self || r in before then before else before + [r]
  }

  predicate NoRepeats(rs: seq<string>) {
    forall i, j :: 0 <= i < j < |rs| ==> rs[i] != rs[j]
  }

  lemma {:induction false} RecipientsAreDistinct(self: string, rs: seq<string>)
    ensures NoRepeats(Recipients(self, rs))
    ensures forall r :: r in Recipients(self, rs) <==> r in rs && r != "" && r != self
  {
    if rs != [] {
      RecipientsAreDistinct(self, rs[..|rs| - 1]);
      assert rs == rs[..|rs| - 1] + [rs[|rs| - 1]];
    }
  }

  method Dedupe(self: string, rs: seq<string>) returns (recipients: seq<string>)
    ensures recipients == Recipients(self, rs)
  {
    var seen: set<string> := {};
    recipients := [];
    for i := 0 to |rs|
      invariant recipients == Recipients(self, rs[..i])
      invariant forall r :: r in seen <==> r in recipients
    {
      var r := rs[i];
      assert rs[..i + 1][..i] == rs[..i];
      if r == "" || r == self || r in seen {
        continue;
      }
      seen := seen + {r};
      recipients := recipients + [r];
    }
    assert rs[..|rs|] == rs;
  }

  // ---- Cost and routings of a frame -----------------------------------------------------

  function Cost(self: string, f: Frame): (n: nat)
    ensures 1 <= n <= MAX_BROADCAST_RECIPIENTS
  {
    match f
    case Broadcast(rs, _, _) =>
      var n := |Recipients(self, rs)|;
      if 1 <= n <= MAX_BROADCAST_RECIPIENTS then n else 1
    case _ => 1
  }

  function Unblocked(rs: seq<string>, blocked: set<string>): (us: seq<string>)
    ensures |us| <= |rs|
    ensures forall r :: r in us <==> r in rs && r !in blocked
  {
    if rs == [] then []
    else
      var before := Unblocked(rs[..|rs| - 1], blocked);
      var r := rs[|rs| - 1];
      assert forall x :: x in rs <==> x in rs[..|rs| - 1] || x == r;
      if r in blocked then before else before + [r]
  }

  /** The recipients a frame is actually routed to, in order. */
  function Routed(self: string, f: Frame): seq<string> {
    match f
    case Broadcast(rs, gatesPass, blocked) =>
      var recipients := Recipients(self, rs);
      if gatesPass && |recipients| <= MAX_BROADCAST_RECIPIENTS then Unblocked(recipients, blocked) else []
    case Direct(recipient, gatesPass) => if recipient != "" && gatesPass then [recipient] else []
    case _ => []
  }

  lemma {:induction false} UnblockedNoRepeats(rs: seq<string>, blocked: set<string>)
    requires NoRepeats(rs)
    ensures NoRepeats(Unblocked(rs, blocked))
  {
    if rs != [] {
      UnblockedNoRepeats(rs[..|rs| - 1], blocked);
    }
  }

  /** A frame is routed to each recipient at most once, to nobody it is not addressed to, and
      never to more recipients than it is charged for. */
  lemma RoutingIsPaid(self: string, f: Frame)
    ensures |Routed(self, f)| <= Cost(self, f) && NoRepeats(Routed(self, f))
    ensures f.Broadcast? ==> forall r :: r in Routed(self, f) ==> r in f.recipients && r != "" && r != self && r !in f.blocked
    ensures f.Broadcast? && f.gatesPass && f.blocked == {} && |Recipients(self, f.recipients)| <= MAX_BROADCAST_RECIPIENTS ==>
              (forall r :: r in Routed(self, f) <==> r in f.recipients && r != "" && r != self)
  {
    if f.Broadcast? {
      RecipientsAreDistinct(self, f.recipients);
      UnblockedNoRepeats(Recipients(self, f.recipients), f.blocked);
    }
  }

  // ---- Who is reached, and at what price, exactly ------------------------------------------

  /** Everybody a broadcast names, save empty ids and the sender. */
  function Addressed(self: string, rs: seq<string>): set<string> {
    set r | r in rs && r != "" && r != self
  }

  /** Where an id is named first. */
  function FirstMention(rs: seq<string>, r: string): (i: nat)
    requires r in rs
    ensures i < |rs| && rs[i] == r && r !in rs[..i]
  {
    if rs[0] == r then 0 else 1 + FirstMention(rs[1..], r)
  }

  lemma {:induction false} SizeOfDistinct(rs: seq<string>, all: set<string>)
    requires NoRepeats(rs) && forall r :: r in rs <==> r in all
    ensures |rs| == |all|
    decreases |rs|
  {
    if rs == [] {
      assert all == {};
    } else {
      var n := |rs| - 1;
      SizeOfDistinct(rs[..n], all - {rs[n]});
    }
  }

  lemma RecipientsAreAddressed(self: string, rs: seq<string>)
    ensures |Recipients(self, rs)| == |Addressed(self, rs)|
  {
    RecipientsAreDistinct(self, rs);
    SizeOfDistinct(Recipients(self, rs), Addressed(self, rs));
  }

  /** Mentioned in the order in which the ids were named first. */
  ghost predicate InOrderOfMention(us: seq<string>, rs: seq<string>) {
    && (forall u :: u in us ==> u in rs)
    && (forall i, j :: 0 <= i < j < |us| ==> FirstMention(rs, us[i]) < FirstMention(rs, us[j]))
  }

  lemma {:induction false} FirstMentionIs(rs: seq<string>, r: string, i: nat)
    requires i < |rs| && rs[i] == r && r !in rs[..i]
    ensures FirstMention(rs, r) == i
    decreases i
  {
    if i > 0 {
      assert rs[0] in rs[..i];
      assert rs[1..][..i - 1] == rs[..i][1..];
      FirstMentionIs(rs[1..], r, i - 1);
    }
  }

  lemma MentionKept(rs: seq<string>, more: string, r: string)
    requires r in rs
    ensures FirstMention(rs + [more], r) == FirstMention(rs, r)
  {
    var i := FirstMention(rs, r);
    assert (rs + [more])[..i] == rs[..i];
    FirstMentionIs(rs + [more], r, i);
  }

  lemma {:induction false} RecipientsInOrder(self: string, rs: seq<string>)
    ensures InOrderOfMention(Recipients(self, rs), rs)
  {
    RecipientsAreDistinct(self, rs);
    if rs != [] {
      var n, r := |rs| - 1, rs[|rs| - 1];
      var us := Recipients(self, rs[..n]);
      RecipientsInOrder(self, rs[..n]);
      RecipientsAreDistinct(self, rs[..n]);
      assert rs == rs[..n] + [r];
      forall u | u in us ensures FirstMention(rs, u) == FirstMention(rs[..n], u) {
        MentionKept(rs[..n], r, u);
      }
      if Recipients(self, rs) != us {
        FirstMentionIs(rs, r, n);
      }
    }
  }

  lemma {:induction false} UnblockedInOrder(us: seq<string>, rs: seq<string>, blocked: set<string>)
    requires InOrderOfMention(us, rs)
    ensures InOrderOfMention(Unblocked(us, blocked), rs)
  {
    if us != [] {
      var n := |us| - 1;
      var before := Unblocked(us[..n], blocked);
      UnblockedInOrder(us[..n], rs, blocked);
      forall i | 0 <= i < |before| ensures FirstMention(rs, before[i]) < FirstMention(rs, us[n]) {
        assert before[i] in us[..n];
        var k :| 0 <= k < n && us[k] == before[i];
      }
    }
  }

  /** Main result on routing: whoever else is blocked, a broadcast that passes its gates and names at
      most 256 ids reaches exactly the unblocked among them, in the order in which they are named first;
      any other broadcast reaches nobody, and a frame for one recipient exactly that one. */
  lemma RoutedExactly(self: string, f: Frame)
    ensures f.Broadcast? && f.gatesPass && |Addressed(self, f.recipients)| <= 256 ==>
              && (forall r :: r in Routed(self, f) <==> r in f.recipients && r != "" && r != self && r !in f.blocked)
              && InOrderOfMention(Routed(self, f), f.recipients)
    ensures f.Broadcast? && !(f.gatesPass && |Addressed(self, f.recipients)| <= 256) ==> Routed(self, f) == []
    ensures f.Direct? ==> forall r :: r in Routed(self, f) <==> r == f.recipient && r != "" && f.gatesPass
    ensures f.Malformed? || f.OwnRequest? ==> Routed(self, f) == []
  {
    if f.Broadcast? {
      RecipientsAreDistinct(self, f.recipients);
      RecipientsAreAddressed(self, f.recipients);
      RecipientsInOrder(self, f.recipients);
      UnblockedInOrder(Recipients(self, f.recipients), f.recipients, f.blocked);
    }
  }

  /** What it pays: one token for each id that it names, passed gates or not, blocked or not; a frame that
      names nobody or too many pays the one token of every frame. */
  lemma ChargedExactly(self: string, f: Frame)
    ensures Cost(self, f) == if f.Broadcast? && 1 <= |Addressed(self, f.recipients)| <= 256
                             then |Addressed(self, f.recipients)| else 1
  {
    if f.Broadcast? {
      RecipientsAreAddressed(self, f.recipients);
    }
  }

  // ---- The bucket over a run of accepted frames -------------------------------------------

  function Capped(x: real): real {
    if x > BUCKET_CAPACITY then BUCKET_CAPACITY else x
  }

  function RefilledTo(tokens: real, elapsed: real): real {
    Capped(tokens + elapsed * REFILL_PER_SEC)
  }

  function LastRefill(start: real, fs: seq<Arrival>, k: nat): real
    requires k <= |fs|
  {
    if k == 0 then start else fs[k - 1].at
  }

  /** The bucket after the first k frames. */
  function Tokens(self: string, start: real, fs: seq<Arrival>, k: nat): real
    requires k <= |fs|
    decreases k, 0
  {
    if k == 0 then BUCKET_CAPACITY else Refilled(self, start, fs, k - 1) - Cost(self, fs[k - 1].frame) as real
  }

  /** The bucket when frame k is looked at, refilled but not yet charged. */
  function Refilled(self: string, start: real, fs: seq<Arrival>, k: nat): real
    requires k < |fs|
    decreases k, 1
  {
    RefilledTo(Tokens(self, start, fs, k), fs[k].at - LastRefill(start, fs, k))
  }

  /** The first n frames were all let through. */
  predicate AllAccepted(self: string, start: real, fs: seq<Arrival>, n: nat)
    requires n <= |fs|
  {
    forall k :: 0 <= k < n ==> Refilled(self, start, fs, k) >= 1.0
  }

  predicate InOrder(start: real, fs: seq<Arrival>) {
    forall k :: 0 <= k < |fs| ==> LastRefill(start, fs, k) <= fs[k].at
  }

  lemma BucketBounds(self: string, start: real, fs: seq<Arrival>, n: nat)
    requires n <= |fs| && AllAccepted(self, start, fs, n)
    ensures -255.0 <= Tokens(self, start, fs, n) <= BUCKET_CAPACITY
  {
    if n > 0 {
      assert Refilled(self, start, fs, n - 1) >= 1.0;
    }
  }

  function TotalCost(self: string, fs: seq<Arrival>, i: nat, j: nat): nat
    requires i <= j <= |fs|
  {
    if i == j then 0 else TotalCost(self, fs, i, j - 1) + Cost(self, fs[j - 1].frame)
  }

  function TotalRouted(self: string, fs: seq<Arrival>, i: nat, j: nat): nat
    requires i <= j <= |fs|
  {
    if i == j then 0 else TotalRouted(self, fs, i, j - 1) + |Routed(self, fs[j - 1].frame)|
  }

  /** What was spent between two frames came out of the bucket or the refill. */
  lemma {:induction false} Ledger(self: string, start: real, fs: seq<Arrival>, i: nat, j: nat)
    requires i <= j < |fs| && InOrder(start, fs)
    ensures TotalCost(self, fs, i, j + 1) as real <=
            Refilled(self, start, fs, i) - Tokens(self, start, fs, j + 1) + (fs[j].at - fs[i].at) * REFILL_PER_SEC
  {
    if i == j {
      assert TotalCost(self, fs, i, i) == 0;
    } else {
      Ledger(self, start, fs, i, j - 1);
      assert LastRefill(start, fs, j) == fs[j - 1].at;
      assert Refilled(self, start, fs, j) <= Tokens(self, start, fs, j) + (fs[j].at - fs[j - 1].at) * REFILL_PER_SEC;
    }
  }

  lemma {:induction false} RoutedAtMostCost(self: string, fs: seq<Arrival>, i: nat, j: nat)
    requires i <= j <= |fs|
    ensures TotalRouted(self, fs, i, j) <= TotalCost(self, fs, i, j)
  {
    if i < j {
      RoutedAtMostCost(self, fs, i, j - 1);
      RoutingIsPaid(self, fs[j - 1].frame);
    }
  }

  /** Main result: between any two accepted frames, both included, at most 455 plus 100 per
      elapsed second recipients are routed to. */
  lemma RoutingRate(self: string, start: real, fs: seq<Arrival>, i: nat, j: nat)
    requires i <= j < |fs| && InOrder(start, fs) && AllAccepted(self, start, fs, j + 1)
    ensures TotalRouted(self, fs, i, j + 1) as real <= 455.0 + (fs[j].at - fs[i].at) * REFILL_PER_SEC
  {
    RoutedAtMostCost(self, fs, i, j + 1);
    Ledger(self, start, fs, i, j);
    BucketBounds(self, start, fs, j + 1);
  }

  /** What a full bucket at frame i leaves, refilled, for frame k. */
  function LeftSince(self: string, fs: seq<Arrival>, i: nat, k: nat): real
    requires i <= k < |fs|
  {
    200.0 - TotalCost(self, fs, i, k) as real + (fs[k].at - fs[i].at) * 100.0
  }

  lemma LeftLater(self: string, fs: seq<Arrival>, i: nat, k: nat)
    requires i < k < |fs|
    ensures LeftSince(self, fs, i, k) ==
            LeftSince(self, fs, i, k - 1) - Cost(self, fs[k - 1].frame) as real + (fs[k].at - fs[k - 1].at) * 100.0
  {
    assert (fs[k].at - fs[i].at) * 100.0 == (fs[k - 1].at - fs[i].at) * 100.0 + (fs[k].at - fs[k - 1].at) * 100.0;
  }

  /** The bucket holds the least of what a full bucket at any earlier frame would have left. */
  lemma {:induction false} BucketIsTheLeast(self: string, start: real, fs: seq<Arrival>, k: nat) returns (i: nat)
    requires k < |fs| && InOrder(start, fs)
    ensures i <= k && Refilled(self, start, fs, k) == LeftSince(self, fs, i, k)
    ensures forall j :: 0 <= j <= k ==> Refilled(self, start, fs, k) <= LeftSince(self, fs, j, k)
  {
    assert LastRefill(start, fs, k) <= fs[k].at;
    assert LeftSince(self, fs, k, k) == 200.0;
    if k == 0 {
      i := 0;
    } else {
      var before := BucketIsTheLeast(self, start, fs, k - 1);
      assert LastRefill(start, fs, k) == fs[k - 1].at;
      forall j | 0 <= j < k ensures Refilled(self, start, fs, k) <= LeftSince(self, fs, j, k) {
        LeftLater(self, fs, j, k);
      }
      LeftLater(self, fs, before, k);
      i := if LeftSince(self, fs, before, k) <= 200.0 then before else k;
    }
  }

  /** The frames from i up to k leave a token for frame k if the bucket was full at frame i. */
  predicate Affordable(self: string, fs: seq<Arrival>, i: nat, k: nat)
    requires i <= k < |fs|
  {
    TotalCost(self, fs, i, k) as real <= 199.0 + (fs[k].at - fs[i].at) * 100.0
  }

  lemma FrameLetThrough(self: string, start: real, fs: seq<Arrival>, k: nat)
    requires k < |fs| && InOrder(start, fs)
    ensures Refilled(self, start, fs, k) >= 1.0 <==> forall i :: 0 <= i <= k ==> Affordable(self, fs, i, k)
  {
    var least := BucketIsTheLeast(self, start, fs, k);
    assert forall i :: 0 <= i <= k ==> (Affordable(self, fs, i, k) <==> LeftSince(self, fs, i, k) >= 1.0);
  }

  /** Main result on the flood guard, both ways: a client's frames are all let through exactly if no stretch
      of them, up to any frame, costs more than 199 tokens and 100 for every second it takes. */
  lemma LetThroughExactly(self: string, start: real, fs: seq<Arrival>, n: nat)
    requires n <= |fs| && InOrder(start, fs)
    ensures AllAccepted(self, start, fs, n) <==> forall i, k :: 0 <= i <= k < n ==> Affordable(self, fs, i, k)
  {
    if AllAccepted(self, start, fs, n) {
      forall i, k | 0 <= i <= k < n ensures Affordable(self, fs, i, k) {
        FrameLetThrough(self, start, fs, k);
      }
    } else {
      var k :| 0 <= k < n && Refilled(self, start, fs, k) < 1.0;
      FrameLetThrough(self, start, fs, k);
    }
  }

  function Crowd(): seq<string> {
    seq(MAX_BROADCAST_RECIPIENTS, i requires 0 <= i => FormatInt(i))
  }

  function Burst(last: Frame): seq<Arrival> {
    seq(200, i => Arrival(if i < 199 then Direct("you", true) else last, 0.0))
  }

  lemma {:induction false} SingleMessages(fs: seq<Arrival>, k: nat)
    requires k <= |fs| <= 200
    requires forall i :: 0 <= i < |fs| ==> fs[i].at == 0.0 && (i < k ==> fs[i].frame == Direct("you", true))
    ensures Tokens("me", 0.0, fs, k) == 200.0 - k as real && TotalRouted("me", fs, 0, k) == k
  {
    if k > 0 {
      SingleMessages(fs, k - 1);
    }
  }

  lemma FullSpeed(fs: seq<Arrival>, k: nat)
    requires k < |fs| == 200
    requires forall i :: 0 <= i < |fs| ==> fs[i].at == 0.0 && (i < k ==> fs[i].frame == Direct("you", true))
    ensures Refilled("me", 0.0, fs, k) >= 1.0
  {
    SingleMessages(fs, k);
  }

  lemma BurstIsAccepted(last: Frame)
    ensures AllAccepted("me", 0.0, Burst(last), 200) && InOrder(0.0, Burst(last))
  {
    forall k | 0 <= k < 200 ensures Refilled("me", 0.0, Burst(last), k) >= 1.0 {
      FullSpeed(Burst(last), k);
    }
  }

  lemma {:induction false} NobodyBlocked(rs: seq<string>)
    ensures Unblocked(rs, {}) == rs
  {
    if rs != [] {
      NobodyBlocked(rs[..|rs| - 1]);
      assert rs == rs[..|rs| - 1] + [rs[|rs| - 1]];
    }
  }

  lemma {:induction false} ManyRecipients(self: string, rs: seq<string>)
    requires self == "me" && forall i :: 0 <= i < |rs| ==> rs[i] == FormatInt(i)
    ensures Recipients(self, rs) == rs
  {
    if rs != [] {
      var n := |rs| - 1;
      ManyRecipients(self, rs[..n]);
      assert rs == rs[..n] + [rs[n]];
      assert rs[n][0] != 'm';
      forall i | 0 <= i < n ensures rs[i] != rs[n] {
        if rs[i] == rs[n] {
          FormatIntInjective(i, n);
        }
      }
    }
  }

  lemma CrowdIsRouted()
    ensures |Routed("me", Broadcast(Crowd(), true, {}))| == MAX_BROADCAST_RECIPIENTS
  {
    ManyRecipients("me", Crowd());
    NobodyBlocked(Crowd());
  }

  lemma LastFrame(fs: seq<Arrival>, last: Frame)
    requires |fs| == 200 && fs[199].frame == last && |Routed("me", last)| == MAX_BROADCAST_RECIPIENTS
    requires TotalRouted("me", fs, 0, 199) == 199
    ensures TotalRouted("me", fs, 0, 200) == 455
  {}

  /** The constant cannot be lowered: 199 single messages and a full broadcast in one instant. */
  lemma RoutingRateIsTight() returns (fs: seq<Arrival>)
    ensures |fs| == 200 && InOrder(0.0, fs) && AllAccepted("me", 0.0, fs, 200) && fs[199].at == fs[0].at
    ensures TotalRouted("me", fs, 0, 200) == 455
  {
    var last := Broadcast(Crowd(), true, {});
    fs := Burst(last);
    BurstIsAccepted(last);
    CrowdIsRouted();
    SingleMessages(fs, 199);
    LastFrame(fs, last);
  }

  // ---- The read loop --------------------------------------------------------------------------

  lemma RefillKeepsBounds(tokens: real, start: real, fs: seq<Arrival>, k: nat)
    requires k < |fs| && InOrder(start, fs) && -255.0 <= tokens <= BUCKET_CAPACITY
    ensures -255.0 <= RefilledTo(tokens, fs[k].at - LastRefill(start, fs, k)) <= BUCKET_CAPACITY
  {
    assert LastRefill(start, fs, k) <= fs[k].at;
  }

  class Client {
    const id: string
    var tokens: real
    var lastRefill: real

    constructor (id: string, now: real)
      ensures this.id == id && tokens == BUCKET_CAPACITY && lastRefill == now
    {
      this.id := id;
      tokens := BUCKET_CAPACITY;
      lastRefill := now;
    }

    /** handleBroadcastGroupMessage: the read loop has already taken one token. */
    method HandleBroadcast(rs: seq<string>, gatesPass: bool, blocked: set<string>) returns (routed: seq<string>)
      modifies this`tokens
      ensures tokens == old(tokens) - (Cost(id, Broadcast(rs, gatesPass, blocked)) - 1) as real
      ensures routed == Routed(id, Broadcast(rs, gatesPass, blocked))
    {
      var recipients := Dedupe(id, rs);
      routed := [];
      if |recipients| == 0 || |recipients| > MAX_BROADCAST_RECIPIENTS {
        return;
      }
      tokens := tokens - (|recipients| - 1) as real;
      if !gatesPass {
        return;
      }
      for i := 0 to |recipients|
        invariant routed == Unblocked(recipients[..i], blocked)
        invariant tokens == old(tokens) - (|recipients| - 1) as real
      {
        assert recipients[..i + 1][..i] == recipients[..i];
        if recipients[i] in blocked {
          continue;
        }
        routed := routed + [recipients[i]];
      }
      assert recipients[..|recipients|] == recipients;
    }

    /** Charges the frame's own token and dispatches it. */
    method HandleFrame(f: Frame) returns (routings: nat)
      modifies this`tokens
      ensures tokens == old(tokens) - Cost(id, f) as real
      ensures routings == |Routed(id, f)|
    {
      tokens := tokens - 1.0;
      routings := 0;
      match f {
        case Broadcast(rs, gatesPass, blocked) =>
          var routed := HandleBroadcast(rs, gatesPass, blocked);
          routings := |routed|;
        case Direct(recipient, gatesPass) =>
          if recipient != "" && gatesPass {
            routings := 1;
          }
        case Malformed =>
        case OwnRequest =>
      }
    }

    method Refill(now: real) returns (ok: bool)
      modifies this`tokens, this`lastRefill
      ensures tokens == RefilledTo(old(tokens), now - old(lastRefill)) && lastRefill == now
      ensures ok <==> tokens >= 1.0
    {
      tokens := tokens + (now - lastRefill) * REFILL_PER_SEC;
      if tokens > BUCKET_CAPACITY {
        tokens := BUCKET_CAPACITY;
      }
      lastRefill := now;
      ok := tokens >= 1.0;
    }

    /** Refills for frame k and, if a token is left, charges and dispatches it. */
    method ReadFrame(ghost start: real, fs: seq<Arrival>, k: nat) returns (ok: bool, routings: nat)
      requires k < |fs| && tokens == Tokens(id, start, fs, k) && lastRefill == LastRefill(start, fs, k)
      modifies this
      ensures ok <==> Refilled(id, start, fs, k) >= 1.0
      ensures ok ==> tokens == Tokens(id, start, fs, k + 1) && lastRefill == LastRefill(start, fs, k + 1)
      ensures ok ==> routings == |Routed(id, fs[k].frame)|
      ensures !ok ==> tokens == Refilled(id, start, fs, k)
    {
      routings := 0;
      ok := Refill(fs[k].at);
      if ok {
        routings := HandleFrame(fs[k].frame);
      }
    }

    /** Reads frames until one finds the bucket empty; returns how many were let through. */
    method ReadPump(fs: seq<Arrival>) returns (accepted: nat, routings: nat)
      requires tokens == BUCKET_CAPACITY && InOrder(lastRefill, fs)
      modifies this
      ensures accepted <= |fs| && AllAccepted(id, old(lastRefill), fs, accepted)
      ensures accepted < |fs| ==> Refilled(id, old(lastRefill), fs, accepted) < 1.0
      ensures routings == TotalRouted(id, fs, 0, accepted)
      ensures -255.0 <= tokens <= BUCKET_CAPACITY
    {
      ghost var start := lastRefill;
      accepted, routings := 0, 0;
      while accepted < |fs|
        invariant accepted <= |fs| && AllAccepted(id, start, fs, accepted)
        invariant tokens == Tokens(id, start, fs, accepted)
        invariant lastRefill == LastRefill(start, fs, accepted)
        invariant routings == TotalRouted(id, fs, 0, accepted)
        decreases |fs| - accepted
      {
        BucketBounds(id, start, fs, accepted);
        RefillKeepsBounds(Tokens(id, start, fs, accepted), start, fs, accepted);
        var ok, n := ReadFrame(start, fs, accepted);
        if !ok {
          return;
        }
        routings := routings + n;
        accepted := accepted + 1;
      }
      BucketBounds(id, start, fs, accepted);
    }
  }
}
